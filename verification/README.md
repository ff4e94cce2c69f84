# Coreactor in Dafny

Coreactor is an Android library. Each screen gets one *Coreactor* object that owns the screen's
state. The view sends **actions** to it. Feature code (the `onAction` override) answers by
emitting **reducers**, which turn the old state into a new one, and **events**, which are one-off
messages to the view such as a toast. The engine decides what reaches the view, and when. It
decides from the screen's **lifecycle stage**, one of nine, from INITIAL to ON_DETACH:

- new states are always stored, and are pushed to the view only while the screen is started;
- events are delivered at once, queued until the view is created or started, or thrown away,
  depending on the event's declared behaviour;
- the two queues are flushed at ON_CREATE and ON_START, and the stored state is pushed again at
  ON_START;
- every item passes through an **interceptor** that may replace it or drop it;
- everything processed is published on five **channels**, which coroutines can wait on
  (`waitUntilState`, `waitUntilAction`, ...);
- a **scoped-jobs scheduler** starts coroutines launched with `launchWhenCreated`,
  `launchWhenStarted` or `launchWhenResumed` when their window opens, and cancels them when it
  closes.

The model has these parts:

- **Lifecycle and delivery policy** (`lifecycle.dfy`, `contract.dfy`): the stages, their
  windows, the mapping from host lifecycle events, and the 3×2 event decision table.
- **Engine as a value** (`engine_model.dfy`): an `Engine` datatype and one function per
  operation. Each function returns the next engine and whether the call raised a
  CoreactorException; when it raises, the engine is left as it was at the throw point. Ordinary
  (compiled) sequence fields log what the view received and what was published on each channel.
- **Engine as an object** (`engine.dfy`, `scoped_jobs_dispatcher.dfy`): the classes
  `Coreactor` and `ScopedJobsDispatcher`, with the source's mutable fields and lists. Every
  method is proved to perform an engine function, so the properties proved about those functions
  hold of the objects. The function has the method's name, except for four methods that keep
  the source's name: `DispatchNow` performs `DispatchEventNow`, `DispatchEachEvent` performs
  `DispatchEvents`, `State` performs `CurrentState`, and `DispatchAction` performs `SendAction`
  and returns `ForwardedAction`.
- **Properties of the engine** (`engine_properties.dfy`, `scoped_jobs.dfy`, `wait_until.dfy`):
  - event routing in each window, and the queue flushes;
  - the state store's overwrite-and-repush rule, and reducers folding in order;
  - `attachView`, `sendAction` and `onCleared`;
  - the job scheduler's invariant and transitions;
  - the wait-until semantics;
  - an invariant over any sequence of calls.
- **Sample features**:
  - the counter: reducers with 32-bit Int wrap-around, and the toast rule;
  - the wait-until button sequence: a stage machine, proved equal to the launched block read as
    consecutive waits;
  - the simple-load and infinity-loading reducers;
  - `List.replace`, `Try`, and the view-finishing rule.

Conventions: Kotlin's nullable `T?` is `Option<T>`. A thrown CoreactorException is
`Fail(error)`, or `Err(error)` for a call that returns a value. Kotlin's `Throwable` is a
datatype holding its message, so two throwables with the same message are equal in the model. An action, reducer or event is a value of a type parameter, and a feature supplies
`reduce` and each event's behaviour in a `Config`.

## Model

| member | source | states |
|---|---|---|
| LifecycleStates.LifecycleState.IsCreateState | coreactor/src/main/java/com/sumera/coreactor/lifecycle/LifecycleState.kt:9-11 | holds exactly for the first stage of the created window, the one before the started window |
| LifecycleStates.LifecycleState.IsStartState | coreactor/src/main/java/com/sumera/coreactor/lifecycle/LifecycleState.kt:13-15 | holds exactly for the first stage of the started window, the one before ON_RESUME |
| LifecycleStates.LifecycleState.IsInStartedState | coreactor/src/main/java/com/sumera/coreactor/lifecycle/LifecycleState.kt:17-22 | holds exactly for ON_START, ON_RESUME, ON_PAUSE, i.e. the stages between ON_START and ON_PAUSE in lifecycle order |
| LifecycleStates.LifecycleState.IsInCreatedState | coreactor/src/main/java/com/sumera/coreactor/lifecycle/LifecycleState.kt:24-29 | holds exactly for ON_CREATE through ON_STOP in lifecycle order |
| LifecycleStates.WindowsNest | coreactor/src/main/java/com/sumera/coreactor/lifecycle/LifecycleState.kt:17-29 | every started stage is a created stage; the resumed stage is a started stage |
| LifecycleStates.FromLifecycle | coreactor/src/main/java/com/sumera/coreactor/lifecycle/LifecycleState.kt:32-42 | each of the six host events maps to the stage of the same name; any other event raises; never yields INITIAL, ON_ATTACH or ON_DETACH |
| Contract.From | coreactor/src/main/java/com/sumera/coreactor/Coreactor.kt:609-633 | the decision table in both directions: now iff the stage is in the behaviour's window; otherwise queue for created (every-time), queue for started (started-or-wait) or throw away (started-or-throw-away) |
| Contract.FlushStagesDispatchNow | coreactor/src/main/java/com/sumera/coreactor/Coreactor.kt:303-315 | at ON_START every behaviour is dispatched now, at ON_CREATE every every-time event is, so a flushed event is never re-queued into its own queue |
| EngineModel.CurrentState | coreactor/src/main/java/com/sumera/coreactor/Coreactor.kt:364-378 | the `state` getter yields the stored state, and raises exactly when none was stored |
| EngineModel.DispatchEvent | coreactor/src/main/java/com/sumera/coreactor/Coreactor.kt:317-335 | routing an event never changes the stage, the stored state, the jobs, the view or the states the view received |
| EngineModel.DispatchEvents | coreactor/src/main/java/com/sumera/coreactor/Coreactor.kt:303-315 | re-dispatching a queue leaves the same fields unchanged |
| EngineProperties.EventsInStartedWindow | coreactor/src/main/java/com/sumera/coreactor/Coreactor.kt:317-341 | with a view set, in the started window every kept event is published and reaches the view at once, in order; nothing is queued |
| EngineProperties.EventsInCreatedNotStartedWindow | coreactor/src/main/java/com/sumera/coreactor/Coreactor.kt:317-351 | with a view set, at ON_CREATE/ON_STOP every-time events reach the view in order, started-or-wait events join the started queue in order, the rest are dropped |
| EngineProperties.EventsOutsideCreatedWindow | coreactor/src/main/java/com/sumera/coreactor/Coreactor.kt:317-351 | outside the created window nothing reaches the view; every-time events join the created queue and started-or-wait events the started queue, in order |
| EngineProperties.ThrowAwayEventLeavesNoTrace | coreactor/src/main/java/com/sumera/coreactor/Coreactor.kt:331-333 | outside the started window, an event the interceptor keeps and whose behaviour is started-or-throw-away changes nothing at all |
| EngineProperties.OneEventInStartedWindow | coreactor/src/main/java/com/sumera/coreactor/Coreactor.kt:317-341 | with a view set, one event in the started window goes to the channel and the view |
| EngineProperties.OneEventInCreatedNotStartedWindow | coreactor/src/main/java/com/sumera/coreactor/Coreactor.kt:317-351 | with a view set, one event at ON_CREATE/ON_STOP is delivered, queued for started, or dropped by behaviour |
| EngineProperties.OneEventOutsideCreatedWindow | coreactor/src/main/java/com/sumera/coreactor/Coreactor.kt:317-351 | one event outside the created window is queued by behaviour or dropped |
| EngineProperties.OnCreateFlushesCreatedQueue | coreactor/src/main/java/com/sumera/coreactor/Coreactor.kt:426-438 | with a view set, ON_CREATE sets and publishes the stage, runs the job transitions, re-dispatches the created queue in order and empties it, touching the state and the view's states not at all |
| EngineProperties.OnStartPushesStateThenFlushes | coreactor/src/main/java/com/sumera/coreactor/Coreactor.kt:426-442 | with a view set, ON_START runs the job transitions, pushes the stored state once, then delivers the started queue in order and empties it; the created queue is untouched |
| EngineProperties.OtherStagesFlushNothing | coreactor/src/main/java/com/sumera/coreactor/Coreactor.kt:426-447 | any other stage only sets and publishes the stage and runs the job transitions; ON_DESTROY also drops the view |
| EngineProperties.DispatchStateIfPossibleEffect | coreactor/src/main/java/com/sumera/coreactor/Coreactor.kt:385-393 | a kept state always becomes current and is published; it reaches the view iff the stage is started, where a missing view raises; a dropped state changes nothing |
| EngineProperties.DispatchReducerEffect | coreactor/src/main/java/com/sumera/coreactor/Coreactor.kt:458-467 | field by field: a dropped reducer changes nothing; a kept one with no stored state raises and changes nothing; otherwise the reducer channel gains it, and a kept reduce(old) becomes current and is published (a dropped one leaves current as it was); the view gets it exactly in the started window, where a missing view raises ViewNotSet; no other field changes |
| EngineProperties.ReducersFoldInOrder | coreactor/src/main/java/com/sumera/coreactor/Coreactor.kt:458-467 | with interceptors that let every reducer and state through, a stored state, and a view set when started, n reducers fold over the stored state in emission order; each reducer and each intermediate state is published in order; the view gets the intermediate states iff started |
| EngineProperties.ScanReducers | coreactor/src/main/java/com/sumera/coreactor/Coreactor.kt:458-467 | the intermediate states: one per reducer, the last one being the fold |
| EngineProperties.StatesOutsideStartedWindowOverwritten | coreactor/src/main/java/com/sumera/coreactor/Coreactor.kt:385-400 | with interceptors that let every reducer and state through, a view set and a stored state, states produced outside the started window never reach the view; at ON_START the view gets only the last one (the fold) |
| EngineProperties.AttachViewEffect | coreactor/src/main/java/com/sumera/coreactor/Coreactor.kt:96-105 | attachView raises while a view is set; only at INITIAL does it create the initial state (counted), intercept it twice, and move to ON_ATTACH; later re-attaches only set the view |
| EngineProperties.SendActionEffect | coreactor/src/main/java/com/sumera/coreactor/Coreactor.kt:107-117 | sendAction raises exactly at INITIAL and ON_DETACH, changing nothing; otherwise the intercepted action is forwarded to onAction and published exactly once |
| EngineProperties.OnClearedEffect | coreactor/src/main/java/com/sumera/coreactor/Coreactor.kt:127-130 | onCleared reaches ON_DETACH and cancels every job; afterwards sendAction raises and new jobs are born cancelled |
| EngineProperties.DetachWithoutFinishingKeepsState | coreactor/src/main/java/com/sumera/coreactor/Coreactor.kt:96-105 | an orientation change: ON_DESTROY drops the view, detachView(false) changes nothing, and the next attachView only sets the view, so createInitialState is not run again and the stored state, the stage and the view's states are kept; nothing raises (detachView itself is not in Coreactor.kt) |
| EngineProperties.NewEngineValid | coreactor/src/main/java/com/sumera/coreactor/Coreactor.kt:421 | a new engine satisfies the engine invariant |
| EngineProperties.DispatchLifecycleStateValid | coreactor/src/main/java/com/sumera/coreactor/Coreactor.kt:426-447 | a lifecycle dispatch keeps the job invariant, sets the stage, and leaves the creation count alone |
| EngineProperties.ApplyKeepsValid | coreactor/src/main/java/com/sumera/coreactor/Coreactor.kt:96-168 | every public call keeps the engine invariant |
| EngineProperties.RunKeepsValid | coreactor/src/main/java/com/sumera/coreactor/Coreactor.kt:96-168 | any sequence of calls keeps the engine invariant |
| EngineProperties.InitialStateCreatedAtMostOnce | coreactor/src/main/java/com/sumera/coreactor/Coreactor.kt:96-105 | whatever calls are made, createInitialState runs at most once in an engine's life |
| EngineProperties.WithBehaviourAppend | coreactor/src/main/java/com/sumera/coreactor/Coreactor.kt:317-335 | filtering events by behaviour distributes over concatenation |
| EngineProperties.OneEventWithBehaviour | coreactor/src/main/java/com/sumera/coreactor/Coreactor.kt:317-321 | the kept form of one event, filtered by behaviour |
| ScopedJobs.LaunchStartsOrQueues | coreactor/src/main/java/com/sumera/coreactor/Coreactor.kt:502-527 | a launched job is started and registered for its window's teardown if the stage is in the window, else appended lazy to the window's waiting list; nothing else changes |
| ScopedJobs.LaunchValid | coreactor/src/main/java/com/sumera/coreactor/Coreactor.kt:502-527 | launching keeps the scheduler invariant (every job in at most one list; waiting jobs lazy, registered jobs running) |
| ScopedJobs.ToLazyJobValid | coreactor/src/main/java/com/sumera/coreactor/Coreactor.kt:600-602 | a new job is known to the scheduler, sits in no list, and keeps the invariant |
| ScopedJobs.EntryStageStartsWaitingJobs | coreactor/src/main/java/com/sumera/coreactor/Coreactor.kt:529-562 | while the scope is active, an entry stage starts every waiting job, moves them in order to the paired running list, and clears the waiting list; no other list changes |
| ScopedJobs.TeardownStageCancelsRunningJobs | coreactor/src/main/java/com/sumera/coreactor/Coreactor.kt:529-571 | a teardown stage cancels every job of its running list and clears it; no other list changes |
| ScopedJobs.OtherStagesChangeNothing | coreactor/src/main/java/com/sumera/coreactor/Coreactor.kt:549-551 | INITIAL, ON_ATTACH and ON_DETACH leave the scheduler untouched |
| ScopedJobs.OnLifecycleStateValid | coreactor/src/main/java/com/sumera/coreactor/Coreactor.kt:529-576 | every stage keeps the scheduler invariant |
| ScopedJobs.CancelScopeValid | coreactor/src/main/java/com/sumera/coreactor/Coreactor.kt:127-130 | cancelling the coroutine scope keeps the scheduler invariant |
| ScopedJobs.ResumedJobRunsUntilPause | coreactor/src/main/java/com/sumera/coreactor/Coreactor.kt:502-509 | while the scope is active, a job running in the resumed window is cancelled at ON_PAUSE and at no other stage |
| ScopedJobs.StartAll | coreactor/src/main/java/com/sumera/coreactor/Coreactor.kt:555-562 | starting a list of jobs turns lazy ones to running and touches no other job |
| ScopedJobs.CancelAll | coreactor/src/main/java/com/sumera/coreactor/Coreactor.kt:564-571 | cancelling a list of jobs cancels exactly those jobs |
| ScopedJobs.CancelScope | coreactor/src/main/java/com/sumera/coreactor/Coreactor.kt:127-130 | after the scope is cancelled every known job is cancelled and the scope is inactive |
| ScopedJobsDispatch.ScopedJobsDispatcher.StartOrWaitUntil | coreactor/src/main/java/com/sumera/coreactor/Coreactor.kt:502-527 | the in-place launch performs ScopedJobs.Launch on the six lists, the status map and the id counter |
| ScopedJobsDispatch.ScopedJobsDispatcher.ToLazyJob | coreactor/src/main/java/com/sumera/coreactor/Coreactor.kt:600-602 | hands out the next id and records the new job as lazy, or as cancelled once the scope is cancelled |
| ScopedJobsDispatch.ScopedJobsDispatcher.WaitUntilExpectedState | coreactor/src/main/java/com/sumera/coreactor/Coreactor.kt:578-580 | appends the job to its window's waiting list and changes nothing else |
| ScopedJobsDispatch.ScopedJobsDispatcher.StartAllWaitingJobs | coreactor/src/main/java/com/sumera/coreactor/Coreactor.kt:555-562 | the forEach-then-clear loop performs ScopedJobs.StartAllWaitingJobs |
| ScopedJobsDispatch.ScopedJobsDispatcher.CancelAllRunningJobs | coreactor/src/main/java/com/sumera/coreactor/Coreactor.kt:564-571 | the forEach-then-clear loop performs ScopedJobs.CancelAllRunningJobs |
| ScopedJobsDispatch.ScopedJobsDispatcher.StartJobAndAddToRunningJobs | coreactor/src/main/java/com/sumera/coreactor/Coreactor.kt:573-576 | starts the job and appends it to the teardown list |
| ScopedJobsDispatch.ScopedJobsDispatcher.OnLifecycleState | coreactor/src/main/java/com/sumera/coreactor/Coreactor.kt:529-553 | performs ScopedJobs.OnLifecycleState in place |
| ScopedJobsDispatch.ScopedJobsDispatcher.WaitingJobsListFor | coreactor/src/main/java/com/sumera/coreactor/Coreactor.kt:582-589 | the waiting list of each window |
| ScopedJobsDispatch.ScopedJobsDispatcher.RunningJobsListFor | coreactor/src/main/java/com/sumera/coreactor/Coreactor.kt:591-598 | the running list of each window's teardown stage |
| ScopedJobsDispatch.ScopedJobsDispatcher.CancelScope | coreactor/src/main/java/com/sumera/coreactor/Coreactor.kt:127-130 | performs ScopedJobs.CancelScope in place |
| WaitUntil.FirstMatch | coreactor/src/main/java/com/sumera/coreactor/Coreactor.kt:188-194 | the position of the first item satisfying the predicate, or none when no item does |
| WaitUntil.WaitUntil | coreactor/src/main/java/com/sumera/coreactor/Coreactor.kt:187-246 | a waiter stays suspended iff no item it received satisfies the predicate; otherwise it resumes with the first that does |
| WaitUntil.FirstMatchPrefix | coreactor/src/main/java/com/sumera/coreactor/Coreactor.kt:188-194 | later items do not move a match already found |
| WaitUntil.WaitUntilStable | coreactor/src/main/java/com/sumera/coreactor/Coreactor.kt:187-246 | once resumed, later publications do not change the result |
| WaitUntil.WaitUntilIgnoresEarlier | coreactor/src/main/java/com/sumera/coreactor/Coreactor.kt:297 | on a non-conflated channel what was published before subscribing is never seen |
| WaitUntil.ConflatedCurrentValueCounts | coreactor/src/main/java/com/sumera/coreactor/Coreactor.kt:370 | on the conflated state and lifecycle channels a matching current value resumes the waiter at once |
| WaitUntil.WaitUntilValueFound | coreactor/src/main/java/com/sumera/coreactor/Coreactor.kt:182-185 | waiting for a given value resumes, with that value, iff it is received |
| Engine.Coreactor.AttachView | coreactor/src/main/java/com/sumera/coreactor/Coreactor.kt:96-105 | performs EngineModel.AttachView in place |
| Engine.Coreactor.SendAction | coreactor/src/main/java/com/sumera/coreactor/Coreactor.kt:107-117 | performs EngineModel.SendAction and returns the action forwarded to onAction |
| Engine.Coreactor.DispatchAction | coreactor/src/main/java/com/sumera/coreactor/Coreactor.kt:478-485 | publishes the intercepted action and returns it for onAction |
| Engine.Coreactor.Emit | coreactor/src/main/java/com/sumera/coreactor/Coreactor.kt:161-168 | routes a reducer or an event as EngineModel.Emit |
| Engine.Coreactor.OnAny | coreactor/src/main/java/com/sumera/coreactor/Coreactor.kt:121-125 | performs EngineModel.OnAny in place |
| Engine.Coreactor.OnCleared | coreactor/src/main/java/com/sumera/coreactor/Coreactor.kt:127-130 | ON_DETACH, then cancels the scope, as EngineModel.OnCleared |
| Engine.Coreactor.DetachView | coreactor/src/main/java/com/sumera/coreactor/Coreactor.kt:127-130 | detachView(true) clears the engine, detachView(false) does nothing |
| Engine.Coreactor.LaunchWhen | coreactor/src/main/java/com/sumera/coreactor/Coreactor.kt:142-155 | launchWhen* performs EngineModel.LaunchWhen on the scheduler |
| Engine.Coreactor.State | coreactor/src/main/java/com/sumera/coreactor/Coreactor.kt:45-47 | the state getter agrees with EngineModel.CurrentState |
| Engine.Coreactor.DispatchEvent | coreactor/src/main/java/com/sumera/coreactor/Coreactor.kt:317-335 | performs EngineModel.DispatchEvent in place |
| Engine.Coreactor.DispatchNow | coreactor/src/main/java/com/sumera/coreactor/Coreactor.kt:337-341 | publishes the event, then hands it to the view or raises |
| Engine.Coreactor.DispatchEachEvent | coreactor/src/main/java/com/sumera/coreactor/Coreactor.kt:304-305 | the forEach loop performs EngineModel.DispatchEvents |
| Engine.Coreactor.DispatchEventsWaitingForCreatedState | coreactor/src/main/java/com/sumera/coreactor/Coreactor.kt:303-308 | flushes then clears the created queue, as EngineModel does |
| Engine.Coreactor.DispatchEventsWaitingForStartedState | coreactor/src/main/java/com/sumera/coreactor/Coreactor.kt:310-315 | flushes then clears the started queue, as EngineModel does |
| Engine.Coreactor.SetInitialState | coreactor/src/main/java/com/sumera/coreactor/Coreactor.kt:380-383 | intercepts, then dispatches (intercepting again) |
| Engine.Coreactor.DispatchStateIfPossible | coreactor/src/main/java/com/sumera/coreactor/Coreactor.kt:385-393 | performs EngineModel.DispatchStateIfPossible in place |
| Engine.Coreactor.DispatchStateWaitingForStartedState | coreactor/src/main/java/com/sumera/coreactor/Coreactor.kt:395-400 | pushes the stored state, if any |
| Engine.Coreactor.SetCurrentState | coreactor/src/main/java/com/sumera/coreactor/Coreactor.kt:402-407 | stores and publishes the state |
| Engine.Coreactor.DispatchStateToViewNow | coreactor/src/main/java/com/sumera/coreactor/Coreactor.kt:409-412 | hands the state to the view or raises |
| Engine.Coreactor.DispatchLifecycleState | coreactor/src/main/java/com/sumera/coreactor/Coreactor.kt:426-447 | performs EngineModel.DispatchLifecycleState in place |
| Engine.Coreactor.DispatchReducer | coreactor/src/main/java/com/sumera/coreactor/Coreactor.kt:458-467 | performs EngineModel.DispatchReducer in place |
| ListExt.Replace | app/src/main/java/com/sumera/sample/tools/extensions/List.kt:3-11 | same length; position i is the replacement iff the predicate holds of xs[i], else xs[i] |
| ListExt.ReplaceNoMatch | app/src/main/java/com/sumera/sample/tools/extensions/List.kt:4-10 | with no element matching, the list is returned unchanged |
| ListExt.ReplaceIdempotent | app/src/main/java/com/sumera/sample/tools/extensions/List.kt:3-11 | replacing twice equals replacing once |
| TryType.Try.IsError | app/src/main/java/com/sumera/sample/tools/Try.kt:11 | holds exactly when the error half of `result` is present |
| TryType.Try.IsValue | app/src/main/java/com/sumera/sample/tools/Try.kt:13 | holds exactly when the value half of `result` is present |
| TryType.OfValue | app/src/main/java/com/sumera/sample/tools/Try.kt:7 | a value Try holds the value and no error |
| TryType.OfError | app/src/main/java/com/sumera/sample/tools/Try.kt:9 | an error Try holds the error and no value |
| TryType.Try.Result | app/src/main/java/com/sumera/sample/tools/Try.kt:15 | the pair of value and error |
| TryType.HandleError | app/src/main/java/com/sumera/sample/tools/Try.kt:17-21 | returns the receiver; calls the handler once with the error iff there is one |
| TryType.HandleValue | app/src/main/java/com/sumera/sample/tools/Try.kt:23-27 | returns the receiver; calls the handler once with the value iff there is one |
| TryType.Unwrap | app/src/main/java/com/sumera/sample/tools/Try.kt:29-36 | onValue is called iff the value is present, onError iff the error is, each once with its field, onValue first |
| TryType.HandleValueThenErrorIsUnwrap | app/src/main/java/com/sumera/sample/tools/Try.kt:17-36 | handleValue then handleError invokes exactly what unwrap does, in the same order |
| Finishing.ActivityIsFinishing | coreactor/src/main/java/com/sumera/coreactor/internal/ViewFinishingDetector.kt:9-11 | an activity being recreated never counts as finishing; otherwise it counts exactly when it is finishing, and then its removed fragments report false |
| Finishing.FragmentIsFinishing | coreactor/src/main/java/com/sumera/coreactor/internal/ViewFinishingDetector.kt:13-19 | raises iff the fragment has no activity; false while the activity is finishing or changing configurations; otherwise isRemoving |
| Finishing.FragmentAndActivityNeverBothFinishing | coreactor/src/main/java/com/sumera/coreactor/internal/ViewFinishingDetector.kt:9-19 | a fragment counts as finishing only when it is being removed and its activity does not count as finishing; a finishing activity's fragments report false |
| Finishing.ConfigurationChangeIsNotFinishing | coreactor/src/main/java/com/sumera/coreactor/internal/ViewFinishingDetector.kt:9-19 | during a configuration change neither the activity nor its fragments count as finishing |
| CounterReducers.Reduce | app/src/main/java/com/sumera/sample/ui/counter/CounterReducers.kt:5-14 | increment gives counter + 1 and decrement counter - 1, wrapping at the Int bounds |
| CounterReducers.IncrementDecrementInverse | app/src/main/java/com/sumera/sample/ui/counter/CounterReducers.kt:5-14 | decrement after increment and increment after decrement are the identity |
| CounterReducers.FoldCountsIncrementsAndDecrements | app/src/main/java/com/sumera/sample/ui/counter/CounterReducers.kt:5-14 | any order of n increments and m decrements gives counter + n - m (as an Int) |
| CounterReducers.Wrap32 | app/src/main/java/com/sumera/sample/ui/counter/CounterReducers.kt:5-14 | Int arithmetic: the result equals the mathematical one modulo 2^32, and is that one when in range |
| CounterReducers.WrapAdd | app/src/main/java/com/sumera/sample/ui/counter/CounterReducers.kt:5-14 | wrapping an intermediate result does not change the final one |
| CounterFeature.InitialState | app/src/main/java/com/sumera/sample/ui/counter/CounterCoreactor.kt:8-10 | the initial counter is 0 |
| CounterFeature.ReducerFor | app/src/main/java/com/sumera/sample/ui/counter/CounterCoreactor.kt:13-20 | OnIncrementClicked emits exactly IncrementReducer, OnDecrementClicked exactly DecrementReducer |
| CounterFeature.OnActionEffect | app/src/main/java/com/sumera/sample/ui/counter/CounterCoreactor.kt:12-25 | with a stored state, and a view set when started: the click's reducer is emitted once and stored, nothing raises; one toast is emitted iff the new counter is a non-zero multiple of 5, also for unmatched actions; with a created view the view gets it at once |
| CounterFeature.ClicksCount | app/src/main/java/com/sumera/sample/ui/counter/CounterCoreactor.kt:8-20 | from the initial state the counter is increments - decrements |
| CounterFeature.ToastWorthy | app/src/main/java/com/sumera/sample/ui/counter/CounterCoreactor.kt:22 | with Kotlin's truncating `%`, the toast rule holds exactly for the non-zero multiples of 5, negative ones included, and agrees for a counter and its negation |
| CounterFeature.OnActionStep | app/src/main/java/com/sumera/sample/ui/counter/CounterCoreactor.kt:12-25 | with no stored state onAction raises StateNotInitialized and changes nothing; it never moves the stage, launches a job, changes the view or publishes an action |
| CounterFeature.SendActionStep | coreactor/src/main/java/com/sumera/coreactor/Coreactor.kt:107-117 | raises before attach and after detachView(true), changing nothing; otherwise publishes the action once, keeps the stage and, with a stored state and a view where one is needed, leaves the counter as the click sets it |
| CounterFeature.CounterCoreactor.OnAction | app/src/main/java/com/sumera/sample/ui/counter/CounterCoreactor.kt:12-25 | the in-place onAction performs CounterFeature.OnActionStep on the engine |
| CounterFeature.CounterCoreactor.SendAction | coreactor/src/main/java/com/sumera/coreactor/Coreactor.kt:107-117 | the engine's sendAction followed by the counter's onAction |
| WaitUntilReducers.Reduce | app/src/main/java/com/sumera/sample/ui/waituntil/contract/WaitUntilReducers.kt:5-63 | each reducer leaves exactly its own flag on (first, second, third, confirm, completed) |
| WaitUntilReducers.ReducersAreConstant | app/src/main/java/com/sumera/sample/ui/waituntil/contract/WaitUntilReducers.kt:5-63 | each reducer ignores the old state, is idempotent, and leaves exactly one flag on |
| WaitUntilReducers.ReducersDistinct | app/src/main/java/com/sumera/sample/ui/waituntil/contract/WaitUntilReducers.kt:5-63 | different reducers produce different states |
| WaitUntilFeature.InitialState | app/src/main/java/com/sumera/sample/ui/waituntil/WaitUntilCoreactor.kt:19-25 | only the first button is enabled |
| WaitUntilFeature.Advance | app/src/main/java/com/sumera/sample/ui/waituntil/WaitUntilCoreactor.kt:33-46 | an action the sequence does not wait for changes nothing; an awaited one emits exactly one reducer |
| WaitUntilFeature.IgnoredActionChangesNothing | app/src/main/java/com/sumera/sample/ui/waituntil/WaitUntilCoreactor.kt:33-46 | an action no sequence waits for, other than FirstButtonClicked, changes nothing and emits nothing |
| WaitUntilFeature.ResumeAll | app/src/main/java/com/sumera/sample/ui/waituntil/WaitUntilCoreactor.kt:33-46 | resuming with one action never adds a sequence and emits at most one reducer per sequence; it emits nothing exactly when no sequence waits for the action, and then every sequence stays where it was |
| WaitUntilFeature.HandleAction | app/src/main/java/com/sumera/sample/ui/waituntil/WaitUntilCoreactor.kt:27-46 | FirstButtonClicked adds exactly one sequence and emits only EnableSecondButtonReducer; any other action adds no sequence; nothing is emitted exactly when the action is not FirstButtonClicked and no sequence waits for it |
| WaitUntilFeature.FirstButtonLaunchesSequence | app/src/main/java/com/sumera/sample/ui/waituntil/WaitUntilCoreactor.kt:29-31 | FirstButtonClicked leaves the running sequences as they are, appends one waiting for the second button, and emits exactly EnableSecondButtonReducer |
| WaitUntilFeature.LaunchedBlock | app/src/main/java/com/sumera/sample/ui/waituntil/WaitUntilCoreactor.kt:29-46 | the launched block emits nothing exactly when SecondButtonClicked never comes; otherwise at most three reducers, in the order EnableThirdButtonReducer, EnableConfirmButtonsReducer, then SetCompletedStateReducer or SetInitialStateReducer |
| WaitUntilFeature.AwaitThirdButton | app/src/main/java/com/sumera/sample/ui/waituntil/WaitUntilCoreactor.kt:37-46 | from the wait for the third button: nothing exactly when ThirdButtonClicked never comes, else EnableConfirmButtonsReducer then at most the final reducer |
| WaitUntilFeature.AwaitConfirm | app/src/main/java/com/sumera/sample/ui/waituntil/WaitUntilCoreactor.kt:41-46 | the last wait: nothing exactly when no ConfirmAction comes, else one of the two final reducers |
| WaitUntilFeature.SequenceResumesAtFirstMatch | coreactor/src/main/java/com/sumera/coreactor/Coreactor.kt:230-236 | a sequence skips every action before the first one it waits for, and resumes with that one |
| WaitUntilFeature.SequenceIsLaunchedBlock | app/src/main/java/com/sumera/sample/ui/waituntil/WaitUntilCoreactor.kt:29-46 | the stage machine emits exactly what the launched block's consecutive waits emit, for every action stream |
| WaitUntilFeature.ThirdStageIsAwaitThirdButton | app/src/main/java/com/sumera/sample/ui/waituntil/WaitUntilCoreactor.kt:37-46 | the same from the wait for the third button on |
| WaitUntilFeature.ConfirmStageIsAwaitConfirm | app/src/main/java/com/sumera/sample/ui/waituntil/WaitUntilCoreactor.kt:41-46 | the first ConfirmAction decides: confirmed gives SetCompletedStateReducer, otherwise SetInitialStateReducer |
| WaitUntilFeature.RunOneSequence | app/src/main/java/com/sumera/sample/ui/waituntil/WaitUntilCoreactor.kt:27-46 | with one sequence and no new FirstButtonClicked the feature emits what that sequence emits |
| WaitUntilFeature.FirstButtonThenBlock | app/src/main/java/com/sumera/sample/ui/waituntil/WaitUntilCoreactor.kt:27-46 | when no further FirstButtonClicked follows (requires FirstButtonClicked !in xs), FirstButtonClicked then xs makes the feature emit EnableSecondButtonReducer followed by the launched block's reducers |
| WaitUntilFeature.Run | app/src/main/java/com/sumera/sample/ui/waituntil/WaitUntilCoreactor.kt:27-46 | over a stream of actions, each action adds at most one sequence, and none without a FirstButtonClicked; with no sequence running, nothing happens until the first FirstButtonClicked |
| WaitUntilFeature.SendActionStep | coreactor/src/main/java/com/sumera/coreactor/Coreactor.kt:107-117 | raises SendBeforeAttach at INITIAL and SendAfterDetach at ON_DETACH, changing nothing; otherwise publishes the action once, keeps the stage and the jobs, and leaves the sequences as HandleAction does |
| WaitUntilFeature.SendActionFoldsReducers | app/src/main/java/com/sumera/sample/ui/waituntil/WaitUntilCoreactor.kt:27-46 | after attach and before detach, with a stored state and a view set when started: a click raises nothing, the reducers HandleAction emits are published in order, and the stored state is their fold over the old one |
| EngineProperties.DispatchReducers | coreactor/src/main/java/com/sumera/coreactor/Coreactor.kt:161-168 | emitting reducers one after the other never moves the stage, launches a job, changes the view or publishes an action |
| WaitUntilFeature.WaitUntilCoreactor.SendAction | app/src/main/java/com/sumera/sample/ui/waituntil/WaitUntilCoreactor.kt:27-46 | the engine's sendAction, then sequences resumed and launched, and their reducers dispatched, as SendActionStep |
| WaitUntilFeature.WaitUntilCoreactor.EmitAll | coreactor/src/main/java/com/sumera/coreactor/Coreactor.kt:161-168 | emitting reducers one after the other performs DispatchReducers |
| WaitUntilFeature.WaitUntilCoreactor.OnCleared | coreactor/src/main/java/com/sumera/coreactor/Coreactor.kt:127-130 | clearing the engine cancels every running sequence |
| SimpleLoadReducers.Reduce | app/src/main/java/com/sumera/sample/ui/simpleload/contract/SimpleLoadReducers.kt:5-34 | ShowLoadingState: loading, no data, no error, not initial; ShowErrorState: the error, no data, not loading; ShowDataState: the data, no error, not loading; the last two keep isInitialState |
| SimpleLoadReducers.ReduceShowsOneThing | app/src/main/java/com/sumera/sample/ui/simpleload/contract/SimpleLoadReducers.kt:5-34 | after any reducer, loading, data and error are never two at once |
| SimpleLoadReducers.FoldShowsLast | app/src/main/java/com/sumera/sample/ui/simpleload/contract/SimpleLoadReducers.kt:5-34 | after any run of reducers the screen shows exactly what the last one asked for |
| SimpleLoadReducers.InitialStateLeftForGood | app/src/main/java/com/sumera/sample/ui/simpleload/contract/SimpleLoadReducers.kt:5-14 | once ShowLoadingState has run, isInitialState stays false |
| SimpleLoadReducers.StaysLeft | app/src/main/java/com/sumera/sample/ui/simpleload/contract/SimpleLoadReducers.kt:16-34 | no reducer sets isInitialState back to true |
| InfinityReducers.Reduce | app/src/main/java/com/sumera/sample/ui/infinity/contract/InfinityLoadingReducers.kt:7-85 | per reducer, exactly the fields it changes: ShowLoading resets everything; ShowError/ShowContent end the first load; the next-page reducers change only the next-page status (ShowNextContent appends); the favourite reducers change only the entries with the item's id |
| InfinityReducers.ReplaceItem | app/src/main/java/com/sumera/sample/ui/infinity/contract/InfinityLoadingReducers.kt:68 | entries with the item's id become the new wrapper, others stay; the length is kept |
| InfinityReducers.FavoriteWrapper | app/src/main/java/com/sumera/sample/ui/infinity/contract/InfinityLoadingReducers.kt:65-85 | the wrapper each favourite reducer writes: saving and no error; not saving and the error; the updated item, not saving, no error |
| InfinityReducers.Ids | app/src/main/java/com/sumera/sample/ui/infinity/contract/InfinityLoadingReducers.kt:65-85 | the item ids of the content, in order |
| InfinityReducers.FavoriteReducersKeepIds | app/src/main/java/com/sumera/sample/ui/infinity/contract/InfinityLoadingReducers.kt:65-85 | the favourite reducers never add, remove or reorder items |
| InfinityReducers.SaveThenUpdateSettles | app/src/main/java/com/sumera/sample/ui/infinity/contract/InfinityLoadingReducers.kt:65-85 | saving then receiving the updated item leaves its entries holding the update, not saving, without error |
| InfinityReducers.FavoriteReducersOnDifferentItemsCommute | app/src/main/java/com/sumera/sample/ui/infinity/contract/InfinityLoadingReducers.kt:65-85 | favourite reducers for different items commute |
| InfinityReducers.FirstPageThenNextPage | app/src/main/java/com/sumera/sample/ui/infinity/contract/InfinityLoadingReducers.kt:7-64 | loading, a first page and a next page show both pages in order with nothing loading |

## Left out

- Concurrency. Channels, coroutines and dispatchers are not modelled as concurrent. A channel is
  the log of everything published on it, and a subscriber is the log length when it subscribed.
  A conflated subscriber that falls behind may skip intermediate values, and the model does not
  capture that skipping.
- Job bodies. The bodies of launched jobs, and their completion, are not modelled. A job is an
  id and a status (lazy, running, cancelled).
- Other calls into code outside the engine are not modelled:
  - the logger, and the thread assertion `requireMainThread`;
  - the no-op `onState` and `onLifecycleState` hooks, and the interceptor's
    `onLifecycleStateChanged`;
  - `emitReducer`, `reducer` and `coreactorFlow`, which only wrap `emit` or Kotlin flows;
  - `onLifecycleException`, which rethrows the error a lifecycle-bound coroutine raised;
    exceptions inside coroutines are not modelled (see below).
- Android glue is not part of this model: activities, fragments, delegates, factories, ViewModel
  wiring and adapters.
- Interactors and random delays are not part of this model, nor the rest of the simple-load,
  infinity-loading and events-showcase Coreactors, which orchestrate them.
- `ScopedCoreactor` is not part of this model, because it uses floating point.
- Waits that never resume. A `waitUntil*` call whose channel is closed throws. Channels are
  never closed in the model, so a waiter that has not resumed stays suspended.
- `detachView` and `waitUntilActionType` are called but are not defined in `Coreactor.kt`:
  - `detachView(true)` is modelled as `onCleared`, and `detachView(false)` as no change,
    following the engine's tests;
  - `waitUntilActionType<ConfirmAction>()` is modelled as waiting for the first ConfirmAction.
- `CounterState`, `ShowToast` and `Item` are not part of this model:
  - the counter is taken to be a Kotlin Int;
  - ShowToast is taken to keep the default delivery behaviour;
  - Item is taken to be (id, name, isFavorite), as the interactors construct it.
- Re-entrancy is not modelled. A view callback could call back into the engine while a queue is
  being flushed, and the model excludes that. Without re-entrancy, a flush never adds to the queue
  it is flushing, so no ConcurrentModificationException is possible (`Contract.FlushStagesDispatchNow`).
- Wait-until sequences resume atomically. In `WaitUntilCoreactor`, the sequences resume in launch
  order as soon as an action is published, and a new sequence emits its first reducer within the
  same call. The main dispatcher's scheduling order between these steps is not modelled.
- `setInitialState` passes the initial state through the state interceptor twice, once in
  `setInitialState` and again in `dispatchStateIfPossible`. The model keeps this as written.
- Concurrent wait-until sequences have no closed form. Each FirstButtonClicked launches another
  sequence (`WaitUntilCoreactor.kt:29`), even while earlier ones are still waiting. How the
  sequences interleave is covered by `WaitUntilFeature.HandleAction` and `WaitUntilFeature.Run` alone;
  `FirstButtonThenBlock` and `RunOneSequence` require that no further FirstButtonClicked comes.
- Throwable identity. Kotlin compares throwables by reference, but the model's `Throwable`
  compares by message, so two distinct errors with the same message cannot be told apart.
- Exceptions thrown by a launched coroutine are not modelled. `WaitUntilFeature.SendActionStep`
  dispatches the sequences' reducers one after the other and stops at the first exception.
