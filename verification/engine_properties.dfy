/**
 * What the engine promises, proved about the functional model: event routing in each part of the
 * lifecycle, the queue flushes at ON_CREATE and ON_START, the state store's overwrite-and-repush
 * rule, reducer folding, attachView, sendAction and onCleared.
 */
module EngineProperties {
  import opened Wrappers
  import opened LifecycleStates
  import opened Contract
  import opened ScopedJobs
  import opened EngineModel
  import HostLifecycle

  /** Keeping the events of one behaviour distributes over concatenation. */
  lemma {:induction false} WithBehaviourAppend<E>(behaviour: E -> EventBehaviour, a: seq<E>, b: seq<E>, k: EventBehaviour)
    ensures WithBehaviour(behaviour, a + b, k) == WithBehaviour(behaviour, a, k) + WithBehaviour(behaviour, b, k)
    decreases |a|
  {
    if a == [] {
      assert a + b == b;
    } else {
      assert (a + b)[0] == a[0] && (a + b)[1..] == a[1..] + b;
      WithBehaviourAppend(behaviour, a[1..], b, k);
    }
  }

  /** The kept events of a non-empty sequence: the first one's, then the rest's. */
  function Head<E>(hook: E -> Option<E>, ev: E): seq<E>
  {
    match hook(ev)
    case None => []
    case Some(x) => [x]
  }

  /** The kept form of one event, restricted to one behaviour. */
  lemma OneEventWithBehaviour<E>(behaviour: E -> EventBehaviour, hook: E -> Option<E>, ev: E)
    ensures forall k :: (WithBehaviour(behaviour, Head(hook, ev), k) ==
      if hook(ev).Some? && behaviour(hook(ev).value) == k then [hook(ev).value] else [])
  {
    if hook(ev).Some? {
      var x := hook(ev).value;
      assert Head(hook, ev) == [x];
      forall k ensures WithBehaviour(behaviour, [x], k) == if behaviour(x) == k then [x] else [] {
        assert [x][1..] == [];
      }
    }
  }

  /** One event in the started window. */
  lemma OneEventInStartedWindow<S, A, R, E>(c: Config<S, A, R, E>, e: Engine<S, A, R, E>, ev: E)
    requires e.viewAttached && e.lifecycle.IsInStartedState()
    ensures var head := Head(c.interceptor.onInterceptEvent, ev);
      DispatchEvent(c, e, ev) == Step(e.(eventChannel := e.eventChannel + head, viewEvents := e.viewEvents + head), Pass)
  {
  }

  /** One event in the created window outside the started one. */
  lemma OneEventInCreatedNotStartedWindow<S, A, R, E>(c: Config<S, A, R, E>, e: Engine<S, A, R, E>, ev: E)
    requires e.viewAttached && e.lifecycle.IsInCreatedState() && !e.lifecycle.IsInStartedState()
    ensures var head := Head(c.interceptor.onInterceptEvent, ev);
      var now := WithBehaviour(c.behaviour, head, DispatchEveryTime);
      var later := WithBehaviour(c.behaviour, head, DispatchToStartedOrWait);
      DispatchEvent(c, e, ev) ==
        Step(e.(eventChannel := e.eventChannel + now, viewEvents := e.viewEvents + now,
                eventsWaitingForStarted := e.eventsWaitingForStarted + later), Pass)
  {
    OneEventWithBehaviour(c.behaviour, c.interceptor.onInterceptEvent, ev);
  }

  /** One event outside the created window. */
  lemma OneEventOutsideCreatedWindow<S, A, R, E>(c: Config<S, A, R, E>, e: Engine<S, A, R, E>, ev: E)
    requires !e.lifecycle.IsInCreatedState()
    ensures var head := Head(c.interceptor.onInterceptEvent, ev);
      DispatchEvent(c, e, ev) ==
        Step(e.(eventsWaitingForCreated := e.eventsWaitingForCreated + WithBehaviour(c.behaviour, head, DispatchEveryTime),
                eventsWaitingForStarted := e.eventsWaitingForStarted + WithBehaviour(c.behaviour, head, DispatchToStartedOrWait)), Pass)
  {
    WindowsNest(e.lifecycle);
    OneEventWithBehaviour(c.behaviour, c.interceptor.onInterceptEvent, ev);
  }

  // ---------------------------------------------------------------------------------------------
  // Event routing

  /** A run of events whose first one passes without an exception continues from the engine it left. */
  lemma DispatchEventsAfterFirst<S, A, R, E>(c: Config<S, A, R, E>, e: Engine<S, A, R, E>, evs: seq<E>, e1: Engine<S, A, R, E>)
    requires evs != [] && DispatchEvent(c, e, evs[0]) == Step(e1, Pass)
    ensures DispatchEvents(c, e, evs) == DispatchEvents(c, e1, evs[1..])
  {
  }

  /** Appending to the delivered and started-queue logs twice is appending the concatenations. */
  lemma DeliveredAndQueuedAppend<S, A, R, E>(e: Engine<S, A, R, E>, now0: seq<E>, later0: seq<E>, nowR: seq<E>, laterR: seq<E>)
    ensures var e1 := e.(eventChannel := e.eventChannel + now0, viewEvents := e.viewEvents + now0,
                         eventsWaitingForStarted := e.eventsWaitingForStarted + later0);
      e1.(eventChannel := e1.eventChannel + nowR, viewEvents := e1.viewEvents + nowR,
          eventsWaitingForStarted := e1.eventsWaitingForStarted + laterR)
      == e.(eventChannel := e.eventChannel + (now0 + nowR), viewEvents := e.viewEvents + (now0 + nowR),
            eventsWaitingForStarted := e.eventsWaitingForStarted + (later0 + laterR))
  {
    assert e.eventChannel + now0 + nowR == e.eventChannel + (now0 + nowR);
    assert e.viewEvents + now0 + nowR == e.viewEvents + (now0 + nowR);
    assert e.eventsWaitingForStarted + later0 + laterR == e.eventsWaitingForStarted + (later0 + laterR);
  }

  /** Appending to both queues twice is appending the concatenations. */
  lemma BothQueuesAppend<S, A, R, E>(e: Engine<S, A, R, E>, created0: seq<E>, started0: seq<E>, createdR: seq<E>, startedR: seq<E>)
    ensures var e1 := e.(eventsWaitingForCreated := e.eventsWaitingForCreated + created0,
                         eventsWaitingForStarted := e.eventsWaitingForStarted + started0);
      e1.(eventsWaitingForCreated := e1.eventsWaitingForCreated + createdR,
          eventsWaitingForStarted := e1.eventsWaitingForStarted + startedR)
      == e.(eventsWaitingForCreated := e.eventsWaitingForCreated + (created0 + createdR),
            eventsWaitingForStarted := e.eventsWaitingForStarted + (started0 + startedR))
  {
    assert e.eventsWaitingForCreated + created0 + createdR == e.eventsWaitingForCreated + (created0 + createdR);
    assert e.eventsWaitingForStarted + started0 + startedR == e.eventsWaitingForStarted + (started0 + startedR);
  }

  /** The kept events of one behaviour: the first event's, then the rest's. */
  lemma KeptWithBehaviourSplits<E>(behaviour: E -> EventBehaviour, hook: E -> Option<E>, evs: seq<E>, k: EventBehaviour)
    requires evs != []
    ensures WithBehaviour(behaviour, Intercepted(hook, evs), k)
      == WithBehaviour(behaviour, Head(hook, evs[0]), k) + WithBehaviour(behaviour, Intercepted(hook, evs[1..]), k)
  {
    assert Intercepted(hook, evs) == Head(hook, evs[0]) + Intercepted(hook, evs[1..]);
    WithBehaviourAppend(behaviour, Head(hook, evs[0]), Intercepted(hook, evs[1..]), k);
  }

  /**
   * In the started window, with a view set, every kept event goes to the view at once, in
   * order, and is published on the event channel; nothing is queued.
   */
  lemma {:induction false} EventsInStartedWindow<S, A, R, E>(c: Config<S, A, R, E>, e: Engine<S, A, R, E>, evs: seq<E>)
    requires e.viewAttached && e.lifecycle.IsInStartedState()
    ensures var xs := Intercepted(c.interceptor.onInterceptEvent, evs);
      DispatchEvents(c, e, evs) == Step(e.(eventChannel := e.eventChannel + xs, viewEvents := e.viewEvents + xs), Pass)
    decreases |evs|
  {
    if evs != [] {
      var hook := c.interceptor.onInterceptEvent;
      var head := Head(hook, evs[0]);
      var rest := Intercepted(hook, evs[1..]);
      var e1 := e.(eventChannel := e.eventChannel + head, viewEvents := e.viewEvents + head);
      OneEventInStartedWindow(c, e, evs[0]);
      DispatchEventsAfterFirst(c, e, evs, e1);
      EventsInStartedWindow(c, e1, evs[1..]);
      assert Intercepted(hook, evs) == head + rest;
      assert e1.eventChannel + rest == e.eventChannel + (head + rest);
      assert e1.viewEvents + rest == e.viewEvents + (head + rest);
    }
  }

  /**
   * In the created window outside the started one (ON_CREATE, ON_STOP), with a view set, kept
   * DispatchEveryTime events go to the view at once, DispatchToStartedOrWait events join the
   * started queue, and DispatchToStartedOrThrowAway events are dropped; order is kept.
   */
  lemma {:induction false} EventsInCreatedNotStartedWindow<S, A, R, E>(c: Config<S, A, R, E>, e: Engine<S, A, R, E>, evs: seq<E>)
    requires e.viewAttached && e.lifecycle.IsInCreatedState() && !e.lifecycle.IsInStartedState()
    ensures var xs := Intercepted(c.interceptor.onInterceptEvent, evs);
      var now := WithBehaviour(c.behaviour, xs, DispatchEveryTime);
      var later := WithBehaviour(c.behaviour, xs, DispatchToStartedOrWait);
      DispatchEvents(c, e, evs) ==
        Step(e.(eventChannel := e.eventChannel + now, viewEvents := e.viewEvents + now,
                eventsWaitingForStarted := e.eventsWaitingForStarted + later), Pass)
    decreases |evs|
  {
    if evs != [] {
      var hook := c.interceptor.onInterceptEvent;
      var rest := evs[1..];
      var now0 := WithBehaviour(c.behaviour, Head(hook, evs[0]), DispatchEveryTime);
      var later0 := WithBehaviour(c.behaviour, Head(hook, evs[0]), DispatchToStartedOrWait);
      var e1 := e.(eventChannel := e.eventChannel + now0, viewEvents := e.viewEvents + now0,
                   eventsWaitingForStarted := e.eventsWaitingForStarted + later0);
      OneEventInCreatedNotStartedWindow(c, e, evs[0]);
      DispatchEventsAfterFirst(c, e, evs, e1);
      EventsInCreatedNotStartedWindow(c, e1, rest);
      KeptWithBehaviourSplits(c.behaviour, hook, evs, DispatchEveryTime);
      KeptWithBehaviourSplits(c.behaviour, hook, evs, DispatchToStartedOrWait);
      var nowR := WithBehaviour(c.behaviour, Intercepted(hook, rest), DispatchEveryTime);
      var laterR := WithBehaviour(c.behaviour, Intercepted(hook, rest), DispatchToStartedOrWait);
      DeliveredAndQueuedAppend(e, now0, later0, nowR, laterR);
    }
  }

  /**
   * Outside the created window (INITIAL, ON_ATTACH, ON_DESTROY, ON_DETACH) no event reaches the
   * view, with or without a view set: kept DispatchEveryTime events join the created queue,
   * DispatchToStartedOrWait events the started queue, in order, and the others are dropped.
   */
  lemma {:induction false} EventsOutsideCreatedWindow<S, A, R, E>(c: Config<S, A, R, E>, e: Engine<S, A, R, E>, evs: seq<E>)
    requires !e.lifecycle.IsInCreatedState()
    ensures var xs := Intercepted(c.interceptor.onInterceptEvent, evs);
      DispatchEvents(c, e, evs) ==
        Step(e.(eventsWaitingForCreated := e.eventsWaitingForCreated + WithBehaviour(c.behaviour, xs, DispatchEveryTime),
                eventsWaitingForStarted := e.eventsWaitingForStarted + WithBehaviour(c.behaviour, xs, DispatchToStartedOrWait)), Pass)
    decreases |evs|
  {
    if evs != [] {
      var hook := c.interceptor.onInterceptEvent;
      var rest := evs[1..];
      var created0 := WithBehaviour(c.behaviour, Head(hook, evs[0]), DispatchEveryTime);
      var started0 := WithBehaviour(c.behaviour, Head(hook, evs[0]), DispatchToStartedOrWait);
      var e1 := e.(eventsWaitingForCreated := e.eventsWaitingForCreated + created0,
                   eventsWaitingForStarted := e.eventsWaitingForStarted + started0);
      OneEventOutsideCreatedWindow(c, e, evs[0]);
      DispatchEventsAfterFirst(c, e, evs, e1);
      EventsOutsideCreatedWindow(c, e1, rest);
      KeptWithBehaviourSplits(c.behaviour, hook, evs, DispatchEveryTime);
      KeptWithBehaviourSplits(c.behaviour, hook, evs, DispatchToStartedOrWait);
      var createdR := WithBehaviour(c.behaviour, Intercepted(hook, rest), DispatchEveryTime);
      var startedR := WithBehaviour(c.behaviour, Intercepted(hook, rest), DispatchToStartedOrWait);
      BothQueuesAppend(e, created0, started0, createdR, startedR);
    }
  }

  /** An event thrown away outside the started window leaves no trace at all. */
  lemma ThrowAwayEventLeavesNoTrace<S, A, R, E>(c: Config<S, A, R, E>, e: Engine<S, A, R, E>, ev: E)
    requires !e.lifecycle.IsInStartedState()
    requires c.interceptor.onInterceptEvent(ev).Some?
    requires c.behaviour(c.interceptor.onInterceptEvent(ev).value) == DispatchToStartedOrThrowAway
    ensures DispatchEvent(c, e, ev) == Step(e, Pass)
  {
  }

  // ---------------------------------------------------------------------------------------------
  // Lifecycle dispatch

  /**
   * ON_CREATE, with a view set: the stage is set and published and the jobs react first; then
   * the created queue is re-dispatched in order under the ON_CREATE decision and emptied. Kept
   * DispatchEveryTime events reach the view; the state, the view's states and the started queue
   * apart from re-routed events are untouched.
   */
  lemma OnCreateFlushesCreatedQueue<S, A, R, E>(c: Config<S, A, R, E>, e: Engine<S, A, R, E>)
    requires e.viewAttached
    ensures var xs := Intercepted(c.interceptor.onInterceptEvent, e.eventsWaitingForCreated);
      var now := WithBehaviour(c.behaviour, xs, DispatchEveryTime);
      var later := WithBehaviour(c.behaviour, xs, DispatchToStartedOrWait);
      DispatchLifecycleState(c, e, OnCreate) ==
        Step(e.(lifecycle := OnCreate, lifecycleChannel := e.lifecycleChannel + [OnCreate],
                jobs := OnLifecycleState(e.jobs, OnCreate),
                eventsWaitingForCreated := [],
                eventChannel := e.eventChannel + now, viewEvents := e.viewEvents + now,
                eventsWaitingForStarted := e.eventsWaitingForStarted + later), Pass)
  {
    var e1 := e.(lifecycle := OnCreate, lifecycleChannel := e.lifecycleChannel + [OnCreate], jobs := OnLifecycleState(e.jobs, OnCreate));
    EventsInCreatedNotStartedWindow(c, e1, e1.eventsWaitingForCreated);
  }

  /**
   * ON_START, with a view set: after the jobs react, the stored state (if any) goes to the view
   * once, then every event of the started queue, as kept by the interceptor, reaches the view in
   * order and the queue is emptied. The created queue is untouched.
   */
  lemma OnStartPushesStateThenFlushes<S, A, R, E>(c: Config<S, A, R, E>, e: Engine<S, A, R, E>)
    requires e.viewAttached
    ensures var xs := Intercepted(c.interceptor.onInterceptEvent, e.eventsWaitingForStarted);
      DispatchLifecycleState(c, e, OnStart) ==
        Step(e.(lifecycle := OnStart, lifecycleChannel := e.lifecycleChannel + [OnStart],
                jobs := OnLifecycleState(e.jobs, OnStart),
                viewStates := e.viewStates + (if e.current.Some? then [e.current.value] else []),
                eventsWaitingForStarted := [],
                eventChannel := e.eventChannel + xs, viewEvents := e.viewEvents + xs), Pass)
  {
    var e1 := e.(lifecycle := OnStart, lifecycleChannel := e.lifecycleChannel + [OnStart], jobs := OnLifecycleState(e.jobs, OnStart));
    var st := DispatchStateWaitingForStartedState(e1);
    EventsInStartedWindow(c, st.next, st.next.eventsWaitingForStarted);
  }

  /**
   * Every other stage sets and publishes the stage and lets the jobs react, and flushes nothing;
   * ON_DESTROY also drops the view.
   */
  lemma OtherStagesFlushNothing<S, A, R, E>(c: Config<S, A, R, E>, e: Engine<S, A, R, E>, stage: LifecycleState)
    requires stage != OnCreate && stage != OnStart
    ensures DispatchLifecycleState(c, e, stage) ==
      Step(e.(lifecycle := stage, lifecycleChannel := e.lifecycleChannel + [stage],
              jobs := OnLifecycleState(e.jobs, stage),
              viewAttached := e.viewAttached && stage != OnDestroy), Pass)
  {
  }

  // ---------------------------------------------------------------------------------------------
  // State store and reducers

  /**
   * A state the interceptor keeps always becomes the current state and is published; it reaches
   * the view exactly when the stage is in the started window, where a missing view raises.
   * A dropped state changes nothing.
   */
  lemma DispatchStateIfPossibleEffect<S, A, R, E>(c: Config<S, A, R, E>, e: Engine<S, A, R, E>, s: S)
    ensures var r := DispatchStateIfPossible(c, e, s);
      match c.interceptor.onInterceptState(s)
      case None => r == Step(e, Pass)
      case Some(t) =>
        && r.next.current == Some(t) && r.next.stateChannel == e.stateChannel + [t]
        && (r.outcome == Fail(ViewNotSet) <==> e.lifecycle.IsInStartedState() && !e.viewAttached)
        && (r.outcome.Pass? ==> r.next.viewStates == e.viewStates + (if e.lifecycle.IsInStartedState() then [t] else []))
        && (r.outcome != Pass ==> r.next.viewStates == e.viewStates)
  {
  }

  /** Applying the reducers one after the other, from the given state. */
  function FoldReducers<S, R>(reduce: (R, S) -> S, s: S, rs: seq<R>): S
    decreases |rs|
  {
    if rs == [] then s else FoldReducers(reduce, reduce(rs[0], s), rs[1..])
  }

  /** Every state produced on the way, in order; its last element is the fold. */
  function ScanReducers<S, R>(reduce: (R, S) -> S, s: S, rs: seq<R>): (r: seq<S>)
    ensures |r| == |rs|
    ensures rs != [] ==> r[|r| - 1] == FoldReducers(reduce, s, rs)
    decreases |rs|
  {
    if rs == [] then [] else [reduce(rs[0], s)] + ScanReducers(reduce, reduce(rs[0], s), rs[1..])
  }

  /** Emitting the reducers one after the other; the first exception ends the run. */
  function DispatchReducers<S, A, R, E>(c: Config<S, A, R, E>, e: Engine<S, A, R, E>, rs: seq<R>): (r: Step<S, A, R, E>)
    ensures r.next.lifecycle == e.lifecycle && r.next.jobs == e.jobs && r.next.viewAttached == e.viewAttached
    ensures r.next.actionChannel == e.actionChannel && r.next.initialStatesCreated == e.initialStatesCreated
    decreases |rs|
  {
    if rs == [] then Step(e, Pass)
    else
      var st := DispatchReducer(c, e, rs[0]);
      if st.outcome.Fail? then st else DispatchReducers(c, st.next, rs[1..])
  }

  /**
   * A single reducer, field by field. A reducer the interceptor drops changes nothing. A kept
   * reducer with no stored state raises and changes nothing. Otherwise the reducer is published;
   * the state it produces from the stored one, if the state interceptor keeps it, becomes the
   * current state and is published; in the started window it also goes to the view, and a
   * missing view there raises after the state was stored. No other field changes.
   */
  lemma DispatchReducerEffect<S, A, R, E>(c: Config<S, A, R, E>, e: Engine<S, A, R, E>, r: R)
    ensures var st := DispatchReducer(c, e, r);
      match c.interceptor.onInterceptReducer(r)
      case None => st == Step(e, Pass)
      case Some(x) =>
        match e.current
        case None => st == Step(e, Fail(StateNotInitialized))
        case Some(s0) =>
          var published := e.(reducerChannel := e.reducerChannel + [x]);
          match c.interceptor.onInterceptState(c.reduce(x, s0))
          case None => st == Step(published, Pass)
          case Some(t) =>
            var stored := published.(current := Some(t), stateChannel := e.stateChannel + [t]);
            && (!e.lifecycle.IsInStartedState() ==> st == Step(stored, Pass))
            && (e.lifecycle.IsInStartedState() && e.viewAttached ==>
                  st == Step(stored.(viewStates := e.viewStates + [t]), Pass))
            && (e.lifecycle.IsInStartedState() && !e.viewAttached ==> st == Step(stored, Fail(ViewNotSet)))
  {
  }

  /** With an interceptor that lets everything through, one reducer updates the stored state. */
  lemma OneReducerPassesThrough<S(!new), A, R(!new), E>(c: Config<S, A, R, E>, e: Engine<S, A, R, E>, r: R)
    requires PassesAll(c.interceptor.onInterceptReducer) && PassesAll(c.interceptor.onInterceptState)
    requires e.current.Some?
    requires e.lifecycle.IsInStartedState() ==> e.viewAttached
    ensures var s1 := c.reduce(r, e.current.value);
      DispatchReducer(c, e, r) ==
        Step(e.(current := Some(s1), reducerChannel := e.reducerChannel + [r], stateChannel := e.stateChannel + [s1],
                viewStates := e.viewStates + (if e.lifecycle.IsInStartedState() then [s1] else [])), Pass)
  {
    assert c.interceptor.onInterceptReducer(r) == Some(r);
    assert c.interceptor.onInterceptState(c.reduce(r, e.current.value)) == Some(c.reduce(r, e.current.value));
  }

  /** A run of reducers whose first one passes without an exception continues from the engine it left. */
  lemma DispatchReducersAfterFirst<S, A, R, E>(c: Config<S, A, R, E>, e: Engine<S, A, R, E>, rs: seq<R>, e1: Engine<S, A, R, E>)
    requires rs != [] && DispatchReducer(c, e, rs[0]) == Step(e1, Pass)
    ensures DispatchReducers(c, e, rs) == DispatchReducers(c, e1, rs[1..])
  {
  }

  /** Appending to the reducer, state and view logs twice is appending the concatenations. */
  lemma StoreLogsAppend<S, A, R, E>(e: Engine<S, A, R, E>, s1: S, s: S, r0: seq<R>, rR: seq<R>, x0: seq<S>, xR: seq<S>, v0: seq<S>, vR: seq<S>)
    ensures var e1 := e.(current := Some(s1), reducerChannel := e.reducerChannel + r0, stateChannel := e.stateChannel + x0,
                         viewStates := e.viewStates + v0);
      e1.(current := Some(s), reducerChannel := e1.reducerChannel + rR, stateChannel := e1.stateChannel + xR,
          viewStates := e1.viewStates + vR)
      == e.(current := Some(s), reducerChannel := e.reducerChannel + (r0 + rR), stateChannel := e.stateChannel + (x0 + xR),
            viewStates := e.viewStates + (v0 + vR))
  {
    assert e.reducerChannel + r0 + rR == e.reducerChannel + (r0 + rR);
    assert e.stateChannel + x0 + xR == e.stateChannel + (x0 + xR);
    assert e.viewStates + v0 + vR == e.viewStates + (v0 + vR);
  }

  /**
   * With an interceptor that lets reducers and states through, reducers emitted one after the
   * other fold over the stored state in emission order: the current state is the fold, every
   * reducer is published in order, every intermediate state is published, and the view receives
   * the intermediate states exactly when the stage is in the started window.
   */
  lemma {:induction false} ReducersFoldInOrder<S(!new), A, R(!new), E>(c: Config<S, A, R, E>, e: Engine<S, A, R, E>, rs: seq<R>)
    requires PassesAll(c.interceptor.onInterceptReducer) && PassesAll(c.interceptor.onInterceptState)
    requires e.current.Some?
    requires e.lifecycle.IsInStartedState() ==> e.viewAttached
    ensures var scan := ScanReducers(c.reduce, e.current.value, rs);
      DispatchReducers(c, e, rs) ==
        Step(e.(current := Some(FoldReducers(c.reduce, e.current.value, rs)),
                reducerChannel := e.reducerChannel + rs,
                stateChannel := e.stateChannel + scan,
                viewStates := e.viewStates + (if e.lifecycle.IsInStartedState() then scan else [])), Pass)
    decreases |rs|
  {
    if rs != [] {
      var s0 := e.current.value;
      var s1 := c.reduce(rs[0], s0);
      var started := e.lifecycle.IsInStartedState();
      var e1 := e.(current := Some(s1), reducerChannel := e.reducerChannel + [rs[0]], stateChannel := e.stateChannel + [s1],
                   viewStates := e.viewStates + (if started then [s1] else []));
      OneReducerPassesThrough(c, e, rs[0]);
      DispatchReducersAfterFirst(c, e, rs, e1);
      ReducersFoldInOrder(c, e1, rs[1..]);
      var scan := ScanReducers(c.reduce, s1, rs[1..]);
      assert ScanReducers(c.reduce, s0, rs) == [s1] + scan;
      assert [rs[0]] + rs[1..] == rs;
      assert (if started then [s1] + scan else []) == (if started then [s1] else []) + (if started then scan else []);
      StoreLogsAppend(e, s1, FoldReducers(c.reduce, s1, rs[1..]), [rs[0]], rs[1..], [s1], scan,
                      if started then [s1] else [], if started then scan else []);
    }
  }

  /**
   * States produced outside the started window are overwritten, never queued: after any number
   * of reducers emitted there, the view has received nothing, and at ON_START it receives the
   * last state alone.
   */
  lemma StatesOutsideStartedWindowOverwritten<S(!new), A, R(!new), E>(c: Config<S, A, R, E>, e: Engine<S, A, R, E>, rs: seq<R>)
    requires PassesAll(c.interceptor.onInterceptReducer) && PassesAll(c.interceptor.onInterceptState)
    requires e.current.Some? && e.viewAttached && !e.lifecycle.IsInStartedState()
    ensures var st := DispatchReducers(c, e, rs);
      && st.next.viewStates == e.viewStates
      && DispatchLifecycleState(c, st.next, OnStart).next.viewStates
         == e.viewStates + [FoldReducers(c.reduce, e.current.value, rs)]
  {
    ReducersFoldInOrder(c, e, rs);
    var st := DispatchReducers(c, e, rs);
    OnStartPushesStateThenFlushes(c, st.next);
  }

  // ---------------------------------------------------------------------------------------------
  // attachView, sendAction, onCleared

  /**
   * attachView raises while a view is set and changes nothing. Otherwise it sets the view; only
   * at INITIAL does it create the initial state (counted once), store it after two passes through
   * the state interceptor, and move to ON_ATTACH; at any later stage nothing else changes, so a
   * re-attached view never causes a second createInitialState.
   */
  lemma AttachViewEffect<S, A, R, E>(c: Config<S, A, R, E>, e: Engine<S, A, R, E>)
    ensures var r := AttachView(c, e);
      && (e.viewAttached ==> r == Step(e, Fail(ViewAlreadySet)))
      && (!e.viewAttached && !e.lifecycle.IsInitialState() ==> r == Step(e.(viewAttached := true), Pass))
      && (!e.viewAttached && e.lifecycle.IsInitialState() ==>
            var hook := c.interceptor.onInterceptState;
            && r.outcome == Pass && r.next.viewAttached
            && r.next.lifecycle == OnAttach
            && r.next.lifecycleChannel == e.lifecycleChannel + [OnAttach]
            && r.next.initialStatesCreated == e.initialStatesCreated + 1
            && r.next.viewStates == e.viewStates
            && r.next.current ==
                 (if hook(c.createInitialState).Some? && hook(hook(c.createInitialState).value).Some?
                  then hook(hook(c.createInitialState).value) else e.current))
  {
  }

  /**
   * sendAction raises exactly at INITIAL (before attachView) and at ON_DETACH (after
   * detachView(true)), changing nothing; otherwise the interceptor's result is forwarded to
   * onAction and published on the action channel exactly once, and nothing else changes.
   */
  lemma SendActionEffect<S, A, R, E>(c: Config<S, A, R, E>, e: Engine<S, A, R, E>, a: A)
    ensures var r := SendAction(c, e, a);
      && (r.outcome.Fail? <==> e.lifecycle == Initial || e.lifecycle == OnDetach)
      && (e.lifecycle == Initial ==> r == Step(e, Fail(SendBeforeAttach)))
      && (e.lifecycle == OnDetach ==> r == Step(e, Fail(SendAfterDetach)))
      && (r.outcome.Pass? ==>
            && ForwardedAction(c, e, a) == c.interceptor.onInterceptAction(a)
            && r.next == e.(actionChannel := e.actionChannel +
                 (if ForwardedAction(c, e, a).Some? then [ForwardedAction(c, e, a).value] else [])))
  {
  }

  /**
   * onCleared moves to ON_DETACH and cancels every job ever launched; afterwards sendAction
   * raises and a newly launched job is cancelled from the start.
   */
  lemma OnClearedEffect<S, A, R, E>(c: Config<S, A, R, E>, e: Engine<S, A, R, E>, a: A, w: Window)
    ensures var r := OnCleared(c, e);
      && r.outcome == Pass && r.next.lifecycle == OnDetach && !r.next.jobs.scopeActive
      && (forall id :: id in r.next.jobs.status ==> r.next.jobs.status[id] == Cancelled)
      && SendAction(c, r.next, a) == Step(r.next, Fail(SendAfterDetach))
      && (r.next.jobs.nextId !in r.next.jobs.status ==>
            LaunchWhen(r.next, w).jobs.status[r.next.jobs.nextId] == Cancelled)
  {
  }

  /**
   * An orientation change: the host destroys the view (ON_DESTROY drops it), detachView(false)
   * leaves the engine alone, and the new view attaches without a second createInitialState. The
   * stored state, the stage, the jobs and the channels are those ON_DESTROY left, and nothing
   * raises on the way.
   */
  lemma DetachWithoutFinishingKeepsState<S, A, R, E>(c: Config<S, A, R, E>, e: Engine<S, A, R, E>)
    ensures var destroyed := DispatchLifecycleState(c, e, OnDestroy);
      var detached := DetachView(c, destroyed.next, false);
      var reattached := AttachView(c, detached.next);
      && destroyed.outcome == Pass && !destroyed.next.viewAttached
      && detached == Step(destroyed.next, Pass)
      && reattached == Step(destroyed.next.(viewAttached := true), Pass)
      && reattached.next.initialStatesCreated == e.initialStatesCreated
      && reattached.next.current == e.current
      && reattached.next.lifecycle == OnDestroy
      && reattached.next.viewStates == e.viewStates
  {
    var destroyed := DispatchLifecycleState(c, e, OnDestroy);
    assert !OnDestroy.IsCreateState() && !OnDestroy.IsStartState() && OnDestroy.IsDestroyState();
    assert destroyed.next == e.(lifecycle := OnDestroy, lifecycleChannel := e.lifecycleChannel + [OnDestroy],
                                jobs := OnLifecycleState(e.jobs, OnDestroy), viewAttached := false);
  }

  // ---------------------------------------------------------------------------------------------
  // Any sequence of calls

  /** A call the host, the view or the feature makes on the engine. */
  datatype Call<A, R, E> =
    | AttachViewCall
    | SendActionCall(action: A)
    | EmitCall(item: EventOrReducer<R, E>)
    | HostEventCall(event: HostLifecycle.LifecycleEvent)
    | DetachViewCall(isFinishing: bool)
    | LaunchCall(window: Window)

  /** The engine after one call, whether or not the call raised. */
  function Apply<S, A, R, E>(c: Config<S, A, R, E>, e: Engine<S, A, R, E>, call: Call<A, R, E>): Engine<S, A, R, E>
  {
    match call
    case AttachViewCall => AttachView(c, e).next
    case SendActionCall(a) => SendAction(c, e, a).next
    case EmitCall(item) => Emit(c, e, item).next
    case HostEventCall(ev) => OnAny(c, e, ev).next
    case DetachViewCall(f) => DetachView(c, e, f).next
    case LaunchCall(w) => LaunchWhen(e, w)
  }

  /** The engine after the calls, one after the other. */
  function Run<S, A, R, E>(c: Config<S, A, R, E>, e: Engine<S, A, R, E>, calls: seq<Call<A, R, E>>): Engine<S, A, R, E>
    decreases |calls|
  {
    if calls == [] then e else Run(c, Apply(c, e, calls[0]), calls[1..])
  }

  /**
   * What every reachable engine satisfies: the job scheduler's invariant holds, the initial
   * state has been created at most once, and while the stage is INITIAL no view is set and no
   * initial state was created.
   */
  ghost predicate EngineValid<S, A, R, E>(e: Engine<S, A, R, E>)
  {
    && Valid(e.jobs)
    && e.initialStatesCreated <= 1
    && (e.lifecycle == Initial ==> e.initialStatesCreated == 0 && !e.viewAttached)
  }

  lemma NewEngineValid<S, A, R, E>()
    ensures EngineValid(NewEngine<S, A, R, E>())
  {
    NoJobsValid();
  }

  /** A lifecycle dispatch keeps the invariant and never goes back to INITIAL. */
  lemma DispatchLifecycleStateValid<S, A, R, E>(c: Config<S, A, R, E>, e: Engine<S, A, R, E>, stage: LifecycleState)
    requires Valid(e.jobs) && stage != Initial
    ensures var r := DispatchLifecycleState(c, e, stage).next;
      Valid(r.jobs) && r.lifecycle == stage && r.initialStatesCreated == e.initialStatesCreated
  {
    OnLifecycleStateValid(e.jobs, stage);
  }

  /** Every call keeps the invariant. */
  lemma ApplyKeepsValid<S, A, R, E>(c: Config<S, A, R, E>, e: Engine<S, A, R, E>, call: Call<A, R, E>)
    requires EngineValid(e)
    ensures EngineValid(Apply(c, e, call))
  {
    match call
    case AttachViewCall =>
      if !e.viewAttached && e.lifecycle == Initial {
        var e1 := e.(viewAttached := true, initialStatesCreated := e.initialStatesCreated + 1);
        var st := SetInitialState(c, e1, c.createInitialState);
        assert st.outcome == Pass && st.next.jobs == e.jobs && st.next.initialStatesCreated == 1;
        DispatchLifecycleStateValid(c, st.next, OnAttach);
      }
    case SendActionCall(a) =>
    case EmitCall(item) =>
    case HostEventCall(ev) =>
      if FromLifecycle(ev).Ok? {
        DispatchLifecycleStateValid(c, e, FromLifecycle(ev).value);
      }
    case DetachViewCall(f) =>
      if f {
        DispatchLifecycleStateValid(c, e, OnDetach);
        CancelScopeValid(DispatchLifecycleState(c, e, OnDetach).next.jobs);
      }
    case LaunchCall(w) =>
      LaunchValid(e.jobs, w, e.lifecycle);
  }

  /** Any sequence of calls keeps the invariant. */
  lemma {:induction false} RunKeepsValid<S, A, R, E>(c: Config<S, A, R, E>, e: Engine<S, A, R, E>, calls: seq<Call<A, R, E>>)
    requires EngineValid(e)
    ensures EngineValid(Run(c, e, calls))
    decreases |calls|
  {
    if calls != [] {
      ApplyKeepsValid(c, e, calls[0]);
      RunKeepsValid(c, Apply(c, e, calls[0]), calls[1..]);
    }
  }

  /**
   * Whatever the host, the view and the feature do, createInitialState runs at most once in an
   * engine's life: re-attaching a view after a configuration change reuses the stored state.
   */
  lemma InitialStateCreatedAtMostOnce<S, A, R, E>(c: Config<S, A, R, E>, calls: seq<Call<A, R, E>>)
    ensures Run(c, NewEngine(), calls).initialStatesCreated <= 1
  {
    NewEngineValid<S, A, R, E>();
    RunKeepsValid(c, NewEngine(), calls);
  }
}
