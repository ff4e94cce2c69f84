/**
 * The counter sample's Coreactor: the initial counter is 0, each click emits its reducer, and
 * after every action a toast event is emitted when the new counter is a non-zero multiple of 5.
 * The feature owns an engine and handles the actions the engine forwards to it.
 */
module CounterFeature {
  import opened Wrappers
  import opened LifecycleStates
  import opened Contract
  import opened EngineModel
  import opened EngineProperties
  import opened CounterReducers
  import Imperative = Engine

  datatype CounterAction =
    | OnIncrementClicked
    | OnDecrementClicked
    /** Any other action of the counter's state type: no branch of onAction matches it. */
    | UnmatchedAction

  /** The toast event; its class declares no delivery behaviour, so it uses the default. */
  datatype CounterEvent = ShowToast(message: string)

  /** The engine's state for the counter. */
  type CounterEngine = Engine<CounterState, CounterAction, CounterReducer, CounterEvent>

  const TOAST_MESSAGE: string := "Counter is divisible by 5"

  /** createInitialState. */
  function InitialState(): (s: CounterState)
    ensures s.counter == 0
  {
    CounterState(0)
  }

  /** The counter feature's engine configuration, with the default interceptor. */
  function CounterConfig(): Config<CounterState, CounterAction, CounterReducer, CounterEvent>
  {
    Config(InitialState(), Reduce, (ev: CounterEvent) => DefaultBehaviour, SimpleInterceptor())
  }

  /** The reducer onAction emits for an action, if any. */
  function ReducerFor(a: CounterAction): (r: Option<CounterReducer>)
    ensures a == OnIncrementClicked <==> r == Some(IncrementReducer)
    ensures a == OnDecrementClicked <==> r == Some(DecrementReducer)
  {
    match a
    case OnIncrementClicked => Some(IncrementReducer)
    case OnDecrementClicked => Some(DecrementReducer)
    case UnmatchedAction => None
  }

  /** Kotlin's `%` on Int: the remainder takes the sign of the dividend. */
  function TruncatedRem(x: int, d: int): (r: int)
    requires d > 0
    ensures -d < r < d
    ensures x >= 0 ==> r >= 0
  {
    if x >= 0 then x % d else -((-x) % d)
  }

  /**
   * The toast rule, with Kotlin's truncating `%`: it holds exactly for the non-zero multiples of
   * 5, negative ones included, and is the same for a counter and its negation.
   */
  predicate ToastWorthy(counter: int)
    ensures ToastWorthy(counter) <==> counter != 0 && counter % 5 == 0
    ensures ToastWorthy(counter) <==> -counter != 0 && TruncatedRem(-counter, 5) == 0
  {
    TruncatedRem(counter, 5) == 0 && counter != 0
  }

  /**
   * onAction: emits the action's reducer, if any; then reads the state back and emits the toast
   * when the counter calls for one. An exception raised on the way ends the call.
   */
  function OnActionStep(e: CounterEngine, a: CounterAction)
    : (r: Step<CounterState, CounterAction, CounterReducer, CounterEvent>)
    ensures e.current.None? ==> r == Step(e, Fail(StateNotInitialized))
    ensures r.next.lifecycle == e.lifecycle && r.next.jobs == e.jobs && r.next.viewAttached == e.viewAttached
    ensures r.next.actionChannel == e.actionChannel && r.next.initialStatesCreated == e.initialStatesCreated
  {
    var st := match ReducerFor(a)
      case None => Step(e, Pass)
      case Some(r) => Emit(CounterConfig(), e, ReducerItem(r));
    if st.outcome.Fail? then st
    else
      match CurrentState(st.next)
      case Err(err) => Step(st.next, Fail(err))
      case Ok(s) =>
        if ToastWorthy(s.counter) then Emit(CounterConfig(), st.next, EventItem(ShowToast(TOAST_MESSAGE)))
        else st
  }

  /** sendAction on the counter: the engine's sendAction, then onAction with the forwarded action. */
  function SendActionStep(e: CounterEngine, a: CounterAction)
    : (r: Step<CounterState, CounterAction, CounterReducer, CounterEvent>)
    ensures e.lifecycle.IsInitialState() ==> r == Step(e, Fail(SendBeforeAttach))
    ensures e.lifecycle.IsDetachState() ==> r == Step(e, Fail(SendAfterDetach))
    ensures !e.lifecycle.IsInitialState() && !e.lifecycle.IsDetachState() ==>
      r.next.actionChannel == e.actionChannel + [a] && r.next.lifecycle == e.lifecycle
    ensures (&& !e.lifecycle.IsInitialState() && !e.lifecycle.IsDetachState() && e.current.Some?
             && (e.lifecycle.IsInStartedState() ==> e.viewAttached))
      ==> r.next.current == Some(CounterAfter(e.current.value, a))
  {
    var st := EngineModel.SendAction(CounterConfig(), e, a);
    if st.outcome.Fail? then st
    else
      match ForwardedAction(CounterConfig(), e, a)
      case None => st
      case Some(x) => OnActionStep(st.next, x)
  }

  /** Every toast emitted so far: those published to the view and those still queued. */
  function ToastsEmitted(e: CounterEngine): nat
  {
    |e.eventChannel| + |e.eventsWaitingForCreated| + |e.eventsWaitingForStarted|
  }

  /** The counter after onAction handled `a`. */
  function CounterAfter(s: CounterState, a: CounterAction): CounterState
  {
    match ReducerFor(a)
    case None => s
    case Some(r) => Reduce(r, s)
  }

  /**
   * onAction with a stored state: the click's reducer (and no other) is emitted and stored, and
   * exactly one toast is emitted when the new counter is a non-zero multiple of 5, none
   * otherwise, whether or not the action matched a branch. While the stage lies in the created
   * window and the view is set, the view receives the toast at once.
   */
  lemma OnActionEffect(e: CounterEngine, a: CounterAction)
    requires e.current.Some?
    requires e.lifecycle.IsInStartedState() ==> e.viewAttached
    ensures var st := OnActionStep(e, a);
      var t := CounterAfter(e.current.value, a);
      && st.next.current == Some(t)
      && st.next.reducerChannel == e.reducerChannel + (if ReducerFor(a).Some? then [ReducerFor(a).value] else [])
      && ToastsEmitted(st.next) == ToastsEmitted(e) + (if ToastWorthy(t.counter) then 1 else 0)
      && (e.viewAttached ==> st.outcome == Pass)
      && (e.viewAttached && e.lifecycle.IsInCreatedState() ==>
            st.next.viewEvents == e.viewEvents + (if ToastWorthy(t.counter) then [ShowToast(TOAST_MESSAGE)] else []))
  {
    var c := CounterConfig();
    var st := match ReducerFor(a)
      case None => Step(e, Pass)
      case Some(r) => Emit(c, e, ReducerItem(r));
    if ReducerFor(a).Some? {
      DispatchReducerEffect(c, e, ReducerFor(a).value);
      DispatchStateIfPossibleEffect(c, e.(reducerChannel := e.reducerChannel + [ReducerFor(a).value]), CounterAfter(e.current.value, a));
    }
    assert st.outcome == Pass && st.next.current == Some(CounterAfter(e.current.value, a));
    assert ToastsEmitted(st.next) == ToastsEmitted(e) && st.next.viewEvents == e.viewEvents;
  }

  /**
   * Clicks handled one after the other from the initial state, with no other reducer in between,
   * leave the counter at (increments - decrements), as an Int.
   */
  lemma ClicksCount(rs: seq<CounterReducer>)
    ensures FoldReducers(Reduce, InitialState(), rs).counter
      == Wrap32(Occurrences(rs, IncrementReducer) - Occurrences(rs, DecrementReducer))
  {
    FoldCountsIncrementsAndDecrements(InitialState(), rs);
  }

  /** The counter sample's Coreactor object. */
  class CounterCoreactor {
    const engine: Imperative.Coreactor<CounterState, CounterAction, CounterReducer, CounterEvent>

    constructor()
      ensures fresh(engine) && fresh(engine.scopedJobsDispatcher)
      ensures engine.config == CounterConfig() && engine.Model() == NewEngine()
    {
      engine := new Imperative.Coreactor(CounterConfig());
    }

    /** onAction. */
    method OnAction(a: CounterAction) returns (outcome: Outcome)
      requires engine.config == CounterConfig()
      modifies engine
      ensures Step(engine.Model(), outcome) == OnActionStep(old(engine.Model()), a)
    {
      var r := ReducerFor(a);
      if r.Some? {
        outcome := engine.Emit(ReducerItem(r.value));
        if outcome.Fail? {
          return;
        }
      }
      var state := engine.State();
      if state.Err? {
        return Fail(state.error);
      }
      if ToastWorthy(state.value.counter) {
        outcome := engine.Emit(EventItem(ShowToast(TOAST_MESSAGE)));
      } else {
        outcome := Pass;
      }
    }

    /** sendAction: the engine's sendAction, then onAction with the action it forwards. */
    method SendAction(a: CounterAction) returns (outcome: Outcome)
      requires engine.config == CounterConfig()
      modifies engine
      ensures Step(engine.Model(), outcome) == SendActionStep(old(engine.Model()), a)
    {
      var forwarded;
      outcome, forwarded := engine.SendAction(a);
      if outcome.Fail? || forwarded.None? {
        return;
      }
      outcome := OnAction(forwarded.value);
    }
  }
}
