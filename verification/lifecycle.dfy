/** The host's lifecycle events, as the host delivers them to an observer. */
module HostLifecycle {

  /** The events a lifecycle observer can receive; `Any` matches every event. */
  datatype LifecycleEvent = Create | Start | Resume | Pause | Stop | Destroy | Any
}

/**
 * The nine stages of a Coreactor and the window predicates that decide every dispatch.
 * Stages are listed in their forward order: INITIAL, ON_ATTACH, ON_CREATE, ON_START, ON_RESUME,
 * ON_PAUSE, ON_STOP, ON_DESTROY, ON_DETACH.
 */
module LifecycleStates {
  import opened Wrappers
  import HostLifecycle

  datatype LifecycleState =
    | Initial | OnAttach | OnCreate | OnStart | OnResume | OnPause | OnStop | OnDestroy | OnDetach
  {
    /** Position of the stage in the forward progression, from 0 (INITIAL) to 8 (ON_DETACH). */
    function Ordinal(): (n: nat)
      ensures n <= 8
    {
      match this
      case Initial => 0
      case OnAttach => 1
      case OnCreate => 2
      case OnStart => 3
      case OnResume => 4
      case OnPause => 5
      case OnStop => 6
      case OnDestroy => 7
      case OnDetach => 8
    }

    predicate IsInitialState() { this == Initial }
    /** ON_CREATE is the first stage of the created window, before the started window opens. */
    predicate IsCreateState()
      ensures IsCreateState() <==> IsInCreatedState() && Ordinal() < OnStart.Ordinal()
    {
      this == OnCreate
    }

    /** ON_START is the first stage of the started window, before ON_RESUME. */
    predicate IsStartState()
      ensures IsStartState() <==> IsInStartedState() && Ordinal() < OnResume.Ordinal()
    {
      this == OnStart
    }

    predicate IsDestroyState() { this == OnDestroy }
    predicate IsDetachState() { this == OnDetach }

    /** The started window: the view is visible. */
    predicate IsInStartedState()
      ensures IsInStartedState() <==> OnStart.Ordinal() <= Ordinal() <= OnPause.Ordinal()
    {
      match this
      case OnStart | OnResume | OnPause => true
      case _ => false
    }

    /** The created window: the view exists. */
    predicate IsInCreatedState()
      ensures IsInCreatedState() <==> OnCreate.Ordinal() <= Ordinal() <= OnStop.Ordinal()
    {
      match this
      case OnCreate | OnStart | OnResume | OnPause | OnStop => true
      case _ => false
    }

    /** The resumed window holds the ON_RESUME stage alone. */
    predicate IsInResumedState() { this == OnResume }
  }

  /**
   * Every stage of the started window lies in the created window, and the resumed stage lies in
   * the started window.
   */
  lemma WindowsNest(s: LifecycleState)
    ensures s.IsInStartedState() ==> s.IsInCreatedState()
    ensures s.IsInResumedState() ==> s.IsInStartedState()
  {
  }

  /** The stage a host event stands for, if any: the stage of the same name. */
  function StageNamed(ev: HostLifecycle.LifecycleEvent): Option<LifecycleState>
  {
    match ev
    case Create => Some(OnCreate)
    case Start => Some(OnStart)
    case Resume => Some(OnResume)
    case Pause => Some(OnPause)
    case Stop => Some(OnStop)
    case Destroy => Some(OnDestroy)
    case Any => None
  }

  /**
   * Maps a host event to the stage of the same name; any other event raises a CoreactorException.
   * The host never drives the engine into INITIAL, ON_ATTACH or ON_DETACH.
   */
  function FromLifecycle(ev: HostLifecycle.LifecycleEvent): (r: Result<LifecycleState>)
    ensures r.Ok? <==> StageNamed(ev).Some?
    ensures r.Ok? ==> Some(r.value) == StageNamed(ev)
    ensures r.Err? ==> ev == HostLifecycle.Any && r.error == UnexpectedLifecycleEvent
    ensures r.Ok? ==> r.value != Initial && r.value != OnAttach && r.value != OnDetach
  {
    match ev
    case Create => Ok(OnCreate)
    case Start => Ok(OnStart)
    case Resume => Ok(OnResume)
    case Pause => Ok(OnPause)
    case Stop => Ok(OnStop)
    case Destroy => Ok(OnDestroy)
    case _ => Err(UnexpectedLifecycleEvent)
  }
}
