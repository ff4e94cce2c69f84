/**
 * What feature logic hands to the engine: a reducer or an event, and the delivery policy
 * that decides, from an event's behaviour and the current stage, what happens to the event.
 */
module Contract {
  import opened LifecycleStates

  /** An event's declared delivery behaviour. An event that declares none uses DispatchEveryTime. */
  datatype EventBehaviour = DispatchEveryTime | DispatchToStartedOrWait | DispatchToStartedOrThrowAway

  /** The behaviour an event gets when it does not override it. */
  const DefaultBehaviour: EventBehaviour := DispatchEveryTime

  /** What the engine does with an event it is about to dispatch. */
  datatype EventDispatchState =
    | DispatchNow
    | DispatchLaterToStartedView
    | DispatchLaterToCreatedView
    | ThrowAway

  /**
   * The 3x2 decision table: an event is dispatched now exactly when the stage lies in the window
   * its behaviour targets (created for DispatchEveryTime, started otherwise); outside that window
   * it waits for the created view, waits for the started view, or is thrown away.
   */
  function From(stage: LifecycleState, behaviour: EventBehaviour): (d: EventDispatchState)
    ensures d == DispatchNow <==>
      (if behaviour == DispatchEveryTime then stage.IsInCreatedState() else stage.IsInStartedState())
    ensures d == DispatchLaterToCreatedView <==>
      behaviour == DispatchEveryTime && !stage.IsInCreatedState()
    ensures d == DispatchLaterToStartedView <==>
      behaviour == DispatchToStartedOrWait && !stage.IsInStartedState()
    ensures d == ThrowAway <==>
      behaviour == DispatchToStartedOrThrowAway && !stage.IsInStartedState()
  {
    match behaviour
    case DispatchToStartedOrWait =>
      if stage.IsInStartedState() then DispatchNow else DispatchLaterToStartedView
    case DispatchToStartedOrThrowAway =>
      if stage.IsInStartedState() then DispatchNow else ThrowAway
    case DispatchEveryTime =>
      if stage.IsInCreatedState() then DispatchNow else DispatchLaterToCreatedView
  }

  /**
   * When a queue is flushed, the decision is taken again at the stage that flushes it: at ON_START
   * every behaviour is dispatched now, and at ON_CREATE every DispatchEveryTime event is, so an
   * event taken from its own queue is never queued again.
   */
  lemma FlushStagesDispatchNow(behaviour: EventBehaviour)
    ensures From(OnStart, behaviour) == DispatchNow
    ensures behaviour == DispatchEveryTime ==> From(OnCreate, behaviour) == DispatchNow
  {
  }

  /** A feature emits either a reducer or an event; the engine routes each to its own handler. */
  datatype EventOrReducer<R, E> = ReducerItem(reducer: R) | EventItem(event: E)
}
