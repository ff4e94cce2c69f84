/**
 * The Coreactor engine as a value and its operations as functions from one engine value to the
 * next. Every operation returns a Step: the engine as the operation leaves it and whether it
 * completed or raised a CoreactorException (in which case the engine is left as it was at the
 * throw point). The class in module Engine performs the same operations in place.
 */
module EngineModel {
  import opened Wrappers
  import opened LifecycleStates
  import opened Contract
  import opened ScopedJobs
  import HostLifecycle
  import WaitUntil

  /**
   * The interceptor: one hook per kind of item, each returning the item to process (possibly a
   * replacement) or None to drop it.
   */
  datatype Interceptor<!S, !A, !R, !E> = Interceptor(
    onInterceptState: S -> Option<S>,
    onInterceptAction: A -> Option<A>,
    onInterceptReducer: R -> Option<R>,
    onInterceptEvent: E -> Option<E>)

  /** The default interceptor: every item passes through unchanged. */
  function SimpleInterceptor<S, A, R, E>(): Interceptor<S, A, R, E>
  {
    Interceptor(s => Some(s), a => Some(a), r => Some(r), e => Some(e))
  }

  /** The hook lets every item through unchanged. */
  ghost predicate PassesAll<T(!new)>(hook: T -> Option<T>)
  {
    forall x :: hook(x) == Some(x)
  }

  /**
   * What a concrete Coreactor supplies: its initial state (createInitialState), how a reducer
   * maps the old state to the new one, each event's delivery behaviour, and its interceptor.
   */
  datatype Config<!S, !A, !R, !E> = Config(
    createInitialState: S,
    reduce: (R, S) -> S,
    behaviour: E -> EventBehaviour,
    interceptor: Interceptor<S, A, R, E>)

  /**
   * The engine: the current stage, the stored state, whether a view is set, the two event
   * queues and the job scheduler; then the logs of what the view received (onState, onEvent
   * calls) and of everything published on the five channels; and how many times the initial
   * state was created.
   */
  datatype Engine<S, A, R, E> = Engine(
    lifecycle: LifecycleState,
    current: Option<S>,
    viewAttached: bool,
    eventsWaitingForCreated: seq<E>,
    eventsWaitingForStarted: seq<E>,
    jobs: Jobs,
    viewStates: seq<S>,
    viewEvents: seq<E>,
    stateChannel: seq<S>,
    actionChannel: seq<A>,
    reducerChannel: seq<R>,
    eventChannel: seq<E>,
    lifecycleChannel: seq<LifecycleState>,
    initialStatesCreated: nat)

  /** The engine after an operation, and whether the operation completed or raised. */
  datatype Step<S, A, R, E> = Step(next: Engine<S, A, R, E>, outcome: Outcome)

  /** A new engine: stage INITIAL, no state, no view, nothing queued or published. */
  function NewEngine<S, A, R, E>(): Engine<S, A, R, E>
  {
    Engine(Initial, None, false, [], [], NoJobs(), [], [], [], [], [], [], [], 0)
  }

  /** The `state` property: the stored state, or an exception when none was stored yet. */
  function CurrentState<S, A, R, E>(e: Engine<S, A, R, E>): (r: Result<S>)
    ensures r.Ok? <==> e.current.Some?
    ensures r.Ok? ==> r.value == e.current.value
    ensures r.Err? ==> r.error == StateNotInitialized
  {
    match e.current
    case None => Err(StateNotInitialized)
    case Some(s) => Ok(s)
  }

  // ---------------------------------------------------------------------------------------------
  // State store

  /** Stores the state and publishes it on the state channel. */
  function SetCurrentState<S, A, R, E>(e: Engine<S, A, R, E>, s: S): Engine<S, A, R, E>
  {
    e.(current := Some(s), stateChannel := e.stateChannel + [s])
  }

  /** Hands the state to the view; raises when no view is set. */
  function DispatchStateToViewNow<S, A, R, E>(e: Engine<S, A, R, E>, s: S): Step<S, A, R, E>
  {
    if e.viewAttached then Step(e.(viewStates := e.viewStates + [s]), Pass)
    else Step(e, Fail(ViewNotSet))
  }

  /**
   * Intercepts the state; a kept state always becomes the current state, and it goes to the
   * view only while the stage is in the started window.
   */
  function DispatchStateIfPossible<S, A, R, E>(c: Config<S, A, R, E>, e: Engine<S, A, R, E>, s: S): Step<S, A, R, E>
  {
    match c.interceptor.onInterceptState(s)
    case None => Step(e, Pass)
    case Some(t) =>
      var e1 := SetCurrentState(e, t);
      if e.lifecycle.IsInStartedState() then DispatchStateToViewNow(e1, t) else Step(e1, Pass)
  }

  /** Intercepts the initial state, then dispatches it, which intercepts it a second time. */
  function SetInitialState<S, A, R, E>(c: Config<S, A, R, E>, e: Engine<S, A, R, E>, s: S): Step<S, A, R, E>
  {
    match c.interceptor.onInterceptState(s)
    case None => Step(e, Pass)
    case Some(t) => DispatchStateIfPossible(c, e, t)
  }

  /** At ON_START the stored state, if any, is handed to the view again. */
  function DispatchStateWaitingForStartedState<S, A, R, E>(e: Engine<S, A, R, E>): Step<S, A, R, E>
  {
    match e.current
    case None => Step(e, Pass)
    case Some(s) => DispatchStateToViewNow(e, s)
  }

  // ---------------------------------------------------------------------------------------------
  // Events

  /** Publishes the event on the event channel, then hands it to the view; raises when no view is set. */
  function DispatchEventNow<S, A, R, E>(e: Engine<S, A, R, E>, x: E): Step<S, A, R, E>
  {
    var e1 := e.(eventChannel := e.eventChannel + [x]);
    if e1.viewAttached then Step(e1.(viewEvents := e1.viewEvents + [x]), Pass)
    else Step(e1, Fail(ViewNotSet))
  }

  /**
   * Intercepts the event and routes the kept event by the decision table: to the view now,
   * to the back of one of the two queues, or nowhere.
   */
  function DispatchEvent<S, A, R, E>(c: Config<S, A, R, E>, e: Engine<S, A, R, E>, ev: E): (r: Step<S, A, R, E>)
    ensures r.next.lifecycle == e.lifecycle && r.next.current == e.current && r.next.jobs == e.jobs
    ensures r.next.viewAttached == e.viewAttached && r.next.viewStates == e.viewStates
    ensures r.next.initialStatesCreated == e.initialStatesCreated
  {
    match c.interceptor.onInterceptEvent(ev)
    case None => Step(e, Pass)
    case Some(x) =>
      match From(e.lifecycle, c.behaviour(x))
      case DispatchNow => DispatchEventNow(e, x)
      case DispatchLaterToStartedView => Step(e.(eventsWaitingForStarted := e.eventsWaitingForStarted + [x]), Pass)
      case DispatchLaterToCreatedView => Step(e.(eventsWaitingForCreated := e.eventsWaitingForCreated + [x]), Pass)
      case ThrowAway => Step(e, Pass)
  }

  /** Dispatches the events one after the other; the first exception ends the run. */
  function DispatchEvents<S, A, R, E>(c: Config<S, A, R, E>, e: Engine<S, A, R, E>, evs: seq<E>): (r: Step<S, A, R, E>)
    ensures r.next.lifecycle == e.lifecycle && r.next.current == e.current && r.next.jobs == e.jobs
    ensures r.next.viewAttached == e.viewAttached && r.next.viewStates == e.viewStates
    ensures r.next.initialStatesCreated == e.initialStatesCreated
    decreases |evs|
  {
    if evs == [] then Step(e, Pass)
    else
      var st := DispatchEvent(c, e, evs[0]);
      if st.outcome.Fail? then st else DispatchEvents(c, st.next, evs[1..])
  }

  /** Re-dispatches every event waiting for the created view, in order, then clears that queue. */
  function DispatchEventsWaitingForCreatedState<S, A, R, E>(c: Config<S, A, R, E>, e: Engine<S, A, R, E>): Step<S, A, R, E>
  {
    var st := DispatchEvents(c, e, e.eventsWaitingForCreated);
    if st.outcome.Fail? then st else Step(st.next.(eventsWaitingForCreated := []), Pass)
  }

  /** Re-dispatches every event waiting for the started view, in order, then clears that queue. */
  function DispatchEventsWaitingForStartedState<S, A, R, E>(c: Config<S, A, R, E>, e: Engine<S, A, R, E>): Step<S, A, R, E>
  {
    var st := DispatchEvents(c, e, e.eventsWaitingForStarted);
    if st.outcome.Fail? then st else Step(st.next.(eventsWaitingForStarted := []), Pass)
  }

  /** The events the hook keeps, as it replaces them, in order. */
  function Intercepted<E>(hook: E -> Option<E>, evs: seq<E>): seq<E>
  {
    if evs == [] then []
    else (match hook(evs[0]) case None => [] case Some(x) => [x]) + Intercepted(hook, evs[1..])
  }

  /** The events of the given behaviour, in order. */
  function WithBehaviour<E>(behaviour: E -> EventBehaviour, evs: seq<E>, b: EventBehaviour): seq<E>
  {
    if evs == [] then []
    else (if behaviour(evs[0]) == b then [evs[0]] else []) + WithBehaviour(behaviour, evs[1..], b)
  }

  // ---------------------------------------------------------------------------------------------
  // Lifecycle, reducers, actions

  /**
   * Sets the stage and publishes it, lets the job scheduler react, and then: at ON_CREATE flushes
   * the created queue; at ON_START hands the stored state to the view and flushes the started
   * queue; at ON_DESTROY drops the view.
   */
  function DispatchLifecycleState<S, A, R, E>(c: Config<S, A, R, E>, e: Engine<S, A, R, E>, stage: LifecycleState): (r: Step<S, A, R, E>)
    ensures r.next.lifecycle == stage && r.next.jobs == OnLifecycleState(e.jobs, stage)
    ensures r.next.current == e.current && r.next.initialStatesCreated == e.initialStatesCreated
  {
    var e1 := e.(lifecycle := stage, lifecycleChannel := e.lifecycleChannel + [stage], jobs := OnLifecycleState(e.jobs, stage));
    if stage.IsCreateState() then DispatchEventsWaitingForCreatedState(c, e1)
    else if stage.IsStartState() then
      var st := DispatchStateWaitingForStartedState(e1);
      if st.outcome.Fail? then st else DispatchEventsWaitingForStartedState(c, st.next)
    else if stage.IsDestroyState() then Step(e1.(viewAttached := false), Pass)
    else Step(e1, Pass)
  }

  /**
   * Intercepts the reducer; a kept reducer needs a stored state, is published on the reducer
   * channel, and the state it produces is dispatched.
   */
  function DispatchReducer<S, A, R, E>(c: Config<S, A, R, E>, e: Engine<S, A, R, E>, r: R): Step<S, A, R, E>
  {
    match c.interceptor.onInterceptReducer(r)
    case None => Step(e, Pass)
    case Some(x) =>
      match e.current
      case None => Step(e, Fail(StateNotInitialized))
      case Some(oldState) => DispatchStateIfPossible(c, e.(reducerChannel := e.reducerChannel + [x]), c.reduce(x, oldState))
  }

  /** emit: a reducer goes to the reducer handler, an event to the event handler. */
  function Emit<S, A, R, E>(c: Config<S, A, R, E>, e: Engine<S, A, R, E>, item: EventOrReducer<R, E>): Step<S, A, R, E>
  {
    match item
    case ReducerItem(r) => DispatchReducer(c, e, r)
    case EventItem(ev) => DispatchEvent(c, e, ev)
  }

  /**
   * attachView: raises when a view is still set; otherwise sets the view and, only while the
   * stage is INITIAL, creates the initial state and moves to ON_ATTACH.
   */
  function AttachView<S, A, R, E>(c: Config<S, A, R, E>, e: Engine<S, A, R, E>): Step<S, A, R, E>
  {
    if e.viewAttached then Step(e, Fail(ViewAlreadySet))
    else
      var e1 := e.(viewAttached := true);
      if e.lifecycle.IsInitialState() then
        var st := SetInitialState(c, e1.(initialStatesCreated := e1.initialStatesCreated + 1), c.createInitialState);
        if st.outcome.Fail? then st else DispatchLifecycleState(c, st.next, OnAttach)
      else Step(e1, Pass)
  }

  /** The action sendAction hands to onAction, if any. */
  function ForwardedAction<S, A, R, E>(c: Config<S, A, R, E>, e: Engine<S, A, R, E>, a: A): Option<A>
  {
    if e.lifecycle.IsInitialState() || e.lifecycle.IsDetachState() then None
    else c.interceptor.onInterceptAction(a)
  }

  /**
   * sendAction: raises before attachView and after detachView(true); otherwise intercepts the
   * action and publishes a kept action on the action channel (onAction then handles it).
   */
  function SendAction<S, A, R, E>(c: Config<S, A, R, E>, e: Engine<S, A, R, E>, a: A): Step<S, A, R, E>
  {
    if e.lifecycle.IsInitialState() then Step(e, Fail(SendBeforeAttach))
    else if e.lifecycle.IsDetachState() then Step(e, Fail(SendAfterDetach))
    else
      match c.interceptor.onInterceptAction(a)
      case None => Step(e, Pass)
      case Some(x) => Step(e.(actionChannel := e.actionChannel + [x]), Pass)
  }

  /** onAny: the host event becomes the stage of the same name; any other event raises. */
  function OnAny<S, A, R, E>(c: Config<S, A, R, E>, e: Engine<S, A, R, E>, ev: HostLifecycle.LifecycleEvent): Step<S, A, R, E>
  {
    match FromLifecycle(ev)
    case Err(err) => Step(e, Fail(err))
    case Ok(stage) => DispatchLifecycleState(c, e, stage)
  }

  /** onCleared: moves to ON_DETACH, then cancels the engine's coroutine scope. */
  function OnCleared<S, A, R, E>(c: Config<S, A, R, E>, e: Engine<S, A, R, E>): Step<S, A, R, E>
  {
    var st := DispatchLifecycleState(c, e, OnDetach);
    Step(st.next.(jobs := CancelScope(st.next.jobs)), st.outcome)
  }

  /** detachView: a finishing view clears the engine as onCleared does; otherwise nothing changes. */
  function DetachView<S, A, R, E>(c: Config<S, A, R, E>, e: Engine<S, A, R, E>, isFinishing: bool): Step<S, A, R, E>
  {
    if isFinishing then OnCleared(c, e) else Step(e, Pass)
  }

  /** launchWhenCreated / launchWhenStarted / launchWhenResumed. */
  function LaunchWhen<S, A, R, E>(e: Engine<S, A, R, E>, w: Window): Engine<S, A, R, E>
  {
    e.(jobs := Launch(e.jobs, w, e.lifecycle))
  }

  // ---------------------------------------------------------------------------------------------
  // Wait-until on the engine's channels; k is the channel's length when the waiter subscribed.

  function WaitUntilState<S, A, R, E>(e: Engine<S, A, R, E>, k: nat, p: S -> bool): Option<S>
    requires k <= |e.stateChannel|
  {
    WaitUntil.WaitUntil(e.stateChannel, k, true, p)
  }

  function WaitUntilReducer<S, A, R, E>(e: Engine<S, A, R, E>, k: nat, p: R -> bool): Option<R>
    requires k <= |e.reducerChannel|
  {
    WaitUntil.WaitUntil(e.reducerChannel, k, false, p)
  }

  function WaitUntilEvent<S, A, R, E>(e: Engine<S, A, R, E>, k: nat, p: E -> bool): Option<E>
    requires k <= |e.eventChannel|
  {
    WaitUntil.WaitUntil(e.eventChannel, k, false, p)
  }

  function WaitUntilAction<S, A, R, E>(e: Engine<S, A, R, E>, k: nat, p: A -> bool): Option<A>
    requires k <= |e.actionChannel|
  {
    WaitUntil.WaitUntil(e.actionChannel, k, false, p)
  }

  function WaitUntilLifecycle<S, A, R, E>(e: Engine<S, A, R, E>, k: nat, p: LifecycleState -> bool): Option<LifecycleState>
    requires k <= |e.lifecycleChannel|
  {
    WaitUntil.WaitUntil(e.lifecycleChannel, k, true, p)
  }
}
