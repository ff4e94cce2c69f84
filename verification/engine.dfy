/**
 * The Coreactor engine as the source runs it: one object whose fields the handlers update in
 * place. Each method is proved to perform the operation of the same name in EngineModel, so the
 * properties proved there hold of this class. The view is represented by whether one is set;
 * what it receives, and what is published on the channels, is recorded in ghost logs.
 */
module Engine {
  import opened Wrappers
  import opened LifecycleStates
  import opened Contract
  import opened ScopedJobs
  import opened ScopedJobsDispatch
  import HostLifecycle
  import EngineModel

  class Coreactor<S, A, R, E> {
    /** createInitialState, the reducers' reduce, the events' behaviour and the interceptor. */
    const config: EngineModel.Config<S, A, R, E>
    const scopedJobsDispatcher: ScopedJobsDispatcher

    var currentLifecycleState: LifecycleState
    var currentStateInternal: Option<S>
    /** Whether the view handler holds a view. */
    var viewSet: bool
    var eventsWaitingForCreatedState: seq<E>
    var eventsWaitingForStartedState: seq<E>

    ghost var viewStates: seq<S>
    ghost var viewEvents: seq<E>
    ghost var stateChannel: seq<S>
    ghost var actionChannel: seq<A>
    ghost var reducerChannel: seq<R>
    ghost var eventChannel: seq<E>
    ghost var lifecycleChannel: seq<LifecycleState>
    ghost var initialStatesCreated: nat

    /** The engine's state as a value. */
    ghost function Model(): EngineModel.Engine<S, A, R, E>
      reads this, scopedJobsDispatcher
    {
      EngineModel.Engine(currentLifecycleState, currentStateInternal, viewSet,
        eventsWaitingForCreatedState, eventsWaitingForStartedState, scopedJobsDispatcher.Model(),
        viewStates, viewEvents, stateChannel, actionChannel, reducerChannel, eventChannel,
        lifecycleChannel, initialStatesCreated)
    }

    constructor(config: EngineModel.Config<S, A, R, E>)
      ensures this.config == config && fresh(scopedJobsDispatcher)
      ensures Model() == EngineModel.NewEngine()
    {
      this.config := config;
      scopedJobsDispatcher := new ScopedJobsDispatcher();
      currentLifecycleState := Initial;
      currentStateInternal := None;
      viewSet := false;
      eventsWaitingForCreatedState := [];
      eventsWaitingForStartedState := [];
      viewStates := [];
      viewEvents := [];
      stateChannel := [];
      actionChannel := [];
      reducerChannel := [];
      eventChannel := [];
      lifecycleChannel := [];
      initialStatesCreated := 0;
    }

    /** The `state` property. */
    function State(): (r: Result<S>)
      reads this, scopedJobsDispatcher
      ensures r == EngineModel.CurrentState(Model())
    {
      match currentStateInternal
      case None => Err(StateNotInitialized)
      case Some(s) => Ok(s)
    }

    // -------------------------------------------------------------------------------------------
    // StateHandler

    method SetCurrentState(s: S)
      modifies this
      ensures Model() == EngineModel.SetCurrentState(old(Model()), s)
    {
      currentStateInternal := Some(s);
      stateChannel := stateChannel + [s];
    }

    method DispatchStateToViewNow(s: S) returns (outcome: Outcome)
      modifies this
      ensures EngineModel.Step(Model(), outcome) == EngineModel.DispatchStateToViewNow(old(Model()), s)
    {
      if !viewSet {
        return Fail(ViewNotSet);
      }
      viewStates := viewStates + [s];
      outcome := Pass;
    }

    method DispatchStateIfPossible(s: S) returns (outcome: Outcome)
      modifies this
      ensures EngineModel.Step(Model(), outcome) == EngineModel.DispatchStateIfPossible(config, old(Model()), s)
    {
      var intercepted := config.interceptor.onInterceptState(s);
      if intercepted.None? {
        return Pass;
      }
      var t := intercepted.value;
      if currentLifecycleState.IsInStartedState() {
        SetCurrentState(t);
        outcome := DispatchStateToViewNow(t);
      } else {
        SetCurrentState(t);
        outcome := Pass;
      }
    }

    method SetInitialState(s: S) returns (outcome: Outcome)
      modifies this
      ensures EngineModel.Step(Model(), outcome) == EngineModel.SetInitialState(config, old(Model()), s)
    {
      var intercepted := config.interceptor.onInterceptState(s);
      if intercepted.None? {
        return Pass;
      }
      outcome := DispatchStateIfPossible(intercepted.value);
    }

    method DispatchStateWaitingForStartedState() returns (outcome: Outcome)
      modifies this
      ensures EngineModel.Step(Model(), outcome) == EngineModel.DispatchStateWaitingForStartedState(old(Model()))
    {
      var state := currentStateInternal;
      if state.Some? {
        outcome := DispatchStateToViewNow(state.value);
      } else {
        outcome := Pass;
      }
    }

    // -------------------------------------------------------------------------------------------
    // EventHandler

    method DispatchNow(x: E) returns (outcome: Outcome)
      modifies this
      ensures EngineModel.Step(Model(), outcome) == EngineModel.DispatchEventNow(old(Model()), x)
    {
      eventChannel := eventChannel + [x];
      if !viewSet {
        return Fail(ViewNotSet);
      }
      viewEvents := viewEvents + [x];
      outcome := Pass;
    }

    method DispatchEvent(ev: E) returns (outcome: Outcome)
      modifies this
      ensures EngineModel.Step(Model(), outcome) == EngineModel.DispatchEvent(config, old(Model()), ev)
    {
      var intercepted := config.interceptor.onInterceptEvent(ev);
      if intercepted.None? {
        return Pass;
      }
      var x := intercepted.value;
      match From(currentLifecycleState, config.behaviour(x))
      case DispatchNow =>
        outcome := DispatchNow(x);
      case DispatchLaterToStartedView =>
        eventsWaitingForStartedState := eventsWaitingForStartedState + [x];
        outcome := Pass;
      case DispatchLaterToCreatedView =>
        eventsWaitingForCreatedState := eventsWaitingForCreatedState + [x];
        outcome := Pass;
      case ThrowAway =>
        outcome := Pass;
    }

    /** Re-dispatches the events of a queue, in order; the first exception ends the run. */
    method DispatchEachEvent(queue: seq<E>) returns (outcome: Outcome)
      modifies this
      ensures EngineModel.Step(Model(), outcome) == EngineModel.DispatchEvents(config, old(Model()), queue)
    {
      var i := 0;
      while i < |queue|
        invariant 0 <= i <= |queue|
        invariant EngineModel.DispatchEvents(config, Model(), queue[i..]) == EngineModel.DispatchEvents(config, old(Model()), queue)
      {
        assert queue[i..][1..] == queue[i + 1..];
        outcome := DispatchEvent(queue[i]);
        if outcome.Fail? {
          return;
        }
        i := i + 1;
      }
      outcome := Pass;
    }

    method DispatchEventsWaitingForCreatedState() returns (outcome: Outcome)
      modifies this
      ensures EngineModel.Step(Model(), outcome) == EngineModel.DispatchEventsWaitingForCreatedState(config, old(Model()))
    {
      outcome := DispatchEachEvent(eventsWaitingForCreatedState);
      if outcome.Pass? {
        eventsWaitingForCreatedState := [];
      }
    }

    method DispatchEventsWaitingForStartedState() returns (outcome: Outcome)
      modifies this
      ensures EngineModel.Step(Model(), outcome) == EngineModel.DispatchEventsWaitingForStartedState(config, old(Model()))
    {
      outcome := DispatchEachEvent(eventsWaitingForStartedState);
      if outcome.Pass? {
        eventsWaitingForStartedState := [];
      }
    }

    // -------------------------------------------------------------------------------------------
    // LifecycleStateHandler, ReducerHandler, ActionHandler

    method DispatchLifecycleState(stage: LifecycleState) returns (outcome: Outcome)
      modifies this, scopedJobsDispatcher
      ensures EngineModel.Step(Model(), outcome) == EngineModel.DispatchLifecycleState(config, old(Model()), stage)
    {
      ghost var e := Model();
      ghost var e1 := e.(lifecycle := stage, lifecycleChannel := e.lifecycleChannel + [stage], jobs := ScopedJobs.OnLifecycleState(e.jobs, stage));
      currentLifecycleState := stage;
      lifecycleChannel := lifecycleChannel + [stage];
      scopedJobsDispatcher.OnLifecycleState(stage);
      assert Model() == e1;
      if stage.IsCreateState() {
        outcome := DispatchEventsWaitingForCreatedState();
      } else if stage.IsStartState() {
        outcome := DispatchStateWaitingForStartedState();
        assert EngineModel.Step(Model(), outcome) == EngineModel.DispatchStateWaitingForStartedState(e1);
        if outcome.Pass? {
          outcome := DispatchEventsWaitingForStartedState();
        }
      } else if stage.IsDestroyState() {
        viewSet := false;
        outcome := Pass;
      } else {
        outcome := Pass;
      }
    }

    method DispatchReducer(r: R) returns (outcome: Outcome)
      modifies this
      ensures EngineModel.Step(Model(), outcome) == EngineModel.DispatchReducer(config, old(Model()), r)
    {
      var intercepted := config.interceptor.onInterceptReducer(r);
      if intercepted.None? {
        return Pass;
      }
      var x := intercepted.value;
      if currentStateInternal.None? {
        return Fail(StateNotInitialized);
      }
      var newState := config.reduce(x, currentStateInternal.value);
      reducerChannel := reducerChannel + [x];
      outcome := DispatchStateIfPossible(newState);
    }

    method DispatchAction(a: A) returns (forwarded: Option<A>)
      requires !currentLifecycleState.IsInitialState() && !currentLifecycleState.IsDetachState()
      modifies this
      ensures forwarded == EngineModel.ForwardedAction(config, old(Model()), a)
      ensures EngineModel.Step(Model(), Pass) == EngineModel.SendAction(config, old(Model()), a)
    {
      forwarded := config.interceptor.onInterceptAction(a);
      if forwarded.Some? {
        actionChannel := actionChannel + [forwarded.value];
      }
    }

    // -------------------------------------------------------------------------------------------
    // Public operations

    /** attachView. */
    method AttachView() returns (outcome: Outcome)
      modifies this, scopedJobsDispatcher
      ensures EngineModel.Step(Model(), outcome) == EngineModel.AttachView(config, old(Model()))
    {
      if viewSet {
        return Fail(ViewAlreadySet);
      }
      viewSet := true;
      if currentLifecycleState.IsInitialState() {
        initialStatesCreated := initialStatesCreated + 1;
        outcome := SetInitialState(config.createInitialState);
        if outcome.Fail? {
          return;
        }
        outcome := DispatchLifecycleState(OnAttach);
      } else {
        outcome := Pass;
      }
    }

    /**
     * sendAction. The action handed to the feature's onAction is returned; the feature handles
     * it right after this call.
     */
    method SendAction(a: A) returns (outcome: Outcome, forwarded: Option<A>)
      modifies this
      ensures EngineModel.Step(Model(), outcome) == EngineModel.SendAction(config, old(Model()), a)
      ensures forwarded == EngineModel.ForwardedAction(config, old(Model()), a)
    {
      if currentLifecycleState.IsInitialState() {
        return Fail(SendBeforeAttach), None;
      }
      if currentLifecycleState.IsDetachState() {
        return Fail(SendAfterDetach), None;
      }
      forwarded := DispatchAction(a);
      outcome := Pass;
    }

    /** emit: routes a reducer or an event to its handler. */
    method Emit(item: EventOrReducer<R, E>) returns (outcome: Outcome)
      modifies this
      ensures EngineModel.Step(Model(), outcome) == EngineModel.Emit(config, old(Model()), item)
    {
      match item
      case ReducerItem(r) => outcome := DispatchReducer(r);
      case EventItem(ev) => outcome := DispatchEvent(ev);
    }

    /** onAny: the host's lifecycle observer. */
    method OnAny(ev: HostLifecycle.LifecycleEvent) returns (outcome: Outcome)
      modifies this, scopedJobsDispatcher
      ensures EngineModel.Step(Model(), outcome) == EngineModel.OnAny(config, old(Model()), ev)
    {
      var stage := FromLifecycle(ev);
      if stage.Err? {
        return Fail(stage.error);
      }
      outcome := DispatchLifecycleState(stage.value);
    }

    /** onCleared: ON_DETACH, then the coroutine scope is cancelled. */
    method OnCleared() returns (outcome: Outcome)
      modifies this, scopedJobsDispatcher
      ensures EngineModel.Step(Model(), outcome) == EngineModel.OnCleared(config, old(Model()))
    {
      outcome := DispatchLifecycleState(OnDetach);
      scopedJobsDispatcher.CancelScope();
    }

    /** detachView. */
    method DetachView(isFinishing: bool) returns (outcome: Outcome)
      modifies this, scopedJobsDispatcher
      ensures EngineModel.Step(Model(), outcome) == EngineModel.DetachView(config, old(Model()), isFinishing)
    {
      if isFinishing {
        outcome := OnCleared();
      } else {
        outcome := Pass;
      }
    }

    /** launchWhenCreated / launchWhenStarted / launchWhenResumed; returns the new job's id. */
    method LaunchWhen(w: Window) returns (id: JobId)
      modifies scopedJobsDispatcher
      ensures Model() == EngineModel.LaunchWhen(old(Model()), w)
    {
      id := scopedJobsDispatcher.StartOrWaitUntil(w, currentLifecycleState);
    }
  }
}
