/**
 * The scoped job scheduler: jobs launched for a lifecycle window are started when the window is
 * entered and cancelled when it is left. A job is modelled by an id and a status; its body is
 * not modelled.
 */
module ScopedJobs {
  import opened LifecycleStates

  type JobId = nat

  /** A coroutine job created lazily: it runs only once started, and cancellation is final. */
  datatype JobStatus = Lazy | Running | Cancelled

  /** The window a job is launched for: launchWhenCreated, launchWhenStarted, launchWhenResumed. */
  datatype Window = Created | Started | Resumed
  {
    /** The stage that enters the window; jobs waiting for it start there. */
    function EntryStage(): LifecycleState
    {
      match this
      case Created => OnCreate
      case Started => OnStart
      case Resumed => OnResume
    }

    /** The stage that leaves the window; jobs running in it are cancelled there. */
    function TeardownStage(): LifecycleState
    {
      match this
      case Created => OnDestroy
      case Started => OnStop
      case Resumed => OnPause
    }

    /** Whether the stage lies in the window. */
    predicate Contains(stage: LifecycleState)
    {
      match this
      case Created => stage.IsInCreatedState()
      case Started => stage.IsInStartedState()
      case Resumed => stage.IsInResumedState()
    }
  }

  /**
   * The scheduler's state: three lists of jobs waiting for a window's entry stage, three lists of
   * running jobs to cancel at a window's teardown stage, the status of every job created so far,
   * the next job id, and whether the engine's coroutine scope is still active.
   */
  datatype Jobs = Jobs(
    waitingForCreated: seq<JobId>,
    waitingForStarted: seq<JobId>,
    waitingForResumed: seq<JobId>,
    runningUntilPaused: seq<JobId>,
    runningUntilStopped: seq<JobId>,
    runningUntilDestroyed: seq<JobId>,
    status: map<JobId, JobStatus>,
    nextId: nat,
    scopeActive: bool)
  {
    /** The waiting list keyed by the window's entry stage. */
    function Waiting(w: Window): seq<JobId>
    {
      match w
      case Created => waitingForCreated
      case Started => waitingForStarted
      case Resumed => waitingForResumed
    }

    /** The running list keyed by the window's teardown stage. */
    function Running(w: Window): seq<JobId>
    {
      match w
      case Created => runningUntilDestroyed
      case Started => runningUntilStopped
      case Resumed => runningUntilPaused
    }

    function WithWaiting(w: Window, ids: seq<JobId>): (r: Jobs)
      ensures r.Waiting(w) == ids
      ensures forall v :: v != w ==> r.Waiting(v) == Waiting(v)
      ensures forall v :: r.Running(v) == Running(v)
      ensures r.status == status && r.nextId == nextId && r.scopeActive == scopeActive
    {
      match w
      case Created => this.(waitingForCreated := ids)
      case Started => this.(waitingForStarted := ids)
      case Resumed => this.(waitingForResumed := ids)
    }

    function WithRunning(w: Window, ids: seq<JobId>): (r: Jobs)
      ensures r.Running(w) == ids
      ensures forall v :: v != w ==> r.Running(v) == Running(v)
      ensures forall v :: r.Waiting(v) == Waiting(v)
      ensures r.status == status && r.nextId == nextId && r.scopeActive == scopeActive
    {
      match w
      case Created => this.(runningUntilDestroyed := ids)
      case Started => this.(runningUntilStopped := ids)
      case Resumed => this.(runningUntilPaused := ids)
    }
  }

  /** No scheduler state at all: what a new engine starts with. */
  function NoJobs(): Jobs
  {
    Jobs([], [], [], [], [], [], map[], 0, true)
  }

  predicate AllHave(ids: seq<JobId>, status: map<JobId, JobStatus>, s: JobStatus)
  {
    forall id :: id in ids ==> id in status && status[id] == s
  }

  function Count(b: bool): nat { if b then 1 else 0 }

  /** The id sits in at most one of the six lists. */
  predicate InOneListAtMost(js: Jobs, id: JobId)
  {
    Count(id in js.waitingForCreated) + Count(id in js.waitingForStarted) + Count(id in js.waitingForResumed)
    + Count(id in js.runningUntilPaused) + Count(id in js.runningUntilStopped) + Count(id in js.runningUntilDestroyed)
    <= 1
  }

  /** The id waits for a window's entry stage. */
  predicate IsWaiting(js: Jobs, id: JobId)
  {
    id in js.waitingForCreated || id in js.waitingForStarted || id in js.waitingForResumed
  }

  /** The id is registered for cancellation at a window's teardown stage. */
  predicate IsRunning(js: Jobs, id: JobId)
  {
    id in js.runningUntilPaused || id in js.runningUntilStopped || id in js.runningUntilDestroyed
  }

  /**
   * What the scheduler keeps true of one id: ids are handed out from a counter; a listed job is
   * known and sits in one list only; while the scope is active a waiting job is lazy and a listed
   * running job runs, and once the scope is cancelled every job is cancelled.
   */
  predicate JobValid(js: Jobs, id: JobId)
  {
    && (id in js.status ==> id < js.nextId)
    && InOneListAtMost(js, id)
    && (IsWaiting(js, id) || IsRunning(js, id) ==> id in js.status)
    && (js.scopeActive && IsWaiting(js, id) ==> js.status[id] == Lazy)
    && (js.scopeActive && IsRunning(js, id) ==> js.status[id] == Running)
    && (!js.scopeActive && id in js.status ==> js.status[id] == Cancelled)
  }

  /** The scheduler's invariant: every id satisfies JobValid. */
  ghost predicate Valid(js: Jobs)
  {
    forall id :: JobValid(js, id)
  }

  lemma NoJobsValid()
    ensures Valid(NoJobs())
  {
  }

  /** Job.start: a lazy job starts running; a running or cancelled job is left as it is. */
  function Start(status: map<JobId, JobStatus>, id: JobId): map<JobId, JobStatus>
  {
    if id in status && status[id] == Lazy then status[id := Running] else status
  }

  /** Job.cancel: a job that is not already cancelled becomes cancelled. */
  function Cancel(status: map<JobId, JobStatus>, id: JobId): map<JobId, JobStatus>
  {
    if id in status then status[id := Cancelled] else status
  }

  /** Starts the listed jobs one after the other. */
  function StartAll(status: map<JobId, JobStatus>, ids: seq<JobId>): (r: map<JobId, JobStatus>)
    ensures r.Keys == status.Keys
    ensures forall id :: id in r ==> r[id] == if id in ids && status[id] == Lazy then Running else status[id]
    decreases |ids|
  {
    if ids == [] then status
    else
      var init := ids[..|ids| - 1];
      assert forall id :: id in ids <==> id in init || id == ids[|ids| - 1];
      Start(StartAll(status, init), ids[|ids| - 1])
  }

  /** Starting one more job after a list is starting the longer list. */
  lemma StartAllSnoc(status: map<JobId, JobStatus>, ids: seq<JobId>, id: JobId)
    ensures StartAll(status, ids + [id]) == Start(StartAll(status, ids), id)
  {
    assert (ids + [id])[..|ids|] == ids;
  }

  /** Cancels the listed jobs one after the other. */
  function CancelAll(status: map<JobId, JobStatus>, ids: seq<JobId>): (r: map<JobId, JobStatus>)
    ensures r.Keys == status.Keys
    ensures forall id :: id in r ==> r[id] == if id in ids then Cancelled else status[id]
    decreases |ids|
  {
    if ids == [] then status
    else
      var init := ids[..|ids| - 1];
      assert forall id :: id in ids <==> id in init || id == ids[|ids| - 1];
      Cancel(CancelAll(status, init), ids[|ids| - 1])
  }

  /** Cancelling one more job after a list is cancelling the longer list. */
  lemma CancelAllSnoc(status: map<JobId, JobStatus>, ids: seq<JobId>, id: JobId)
    ensures CancelAll(status, ids + [id]) == Cancel(CancelAll(status, ids), id)
  {
    assert (ids + [id])[..|ids|] == ids;
  }

  /** Starts a job and registers it for cancellation at the teardown stage of its window. */
  function StartJobAndAddToRunningJobs(js: Jobs, id: JobId, w: Window): Jobs
  {
    js.(status := Start(js.status, id)).WithRunning(w, js.Running(w) + [id])
  }

  /** A new job under the next id: lazy while the scope is active, cancelled once it is not. */
  function ToLazyJob(js: Jobs): Jobs
  {
    js.(status := js.status[js.nextId := if js.scopeActive then Lazy else Cancelled], nextId := js.nextId + 1)
  }

  /**
   * launchWhenCreated / launchWhenStarted / launchWhenResumed: a new lazy job is created; if the
   * current stage lies in the window it is started at once and registered for cancellation at
   * the window's teardown stage, otherwise it is appended, not started, to the list of jobs
   * waiting for the window's entry stage. Nothing else changes.
   */
  function Launch(js: Jobs, w: Window, stage: LifecycleState): Jobs
  {
    var id := js.nextId;
    var created := ToLazyJob(js);
    if w.Contains(stage) then StartJobAndAddToRunningJobs(created, id, w)
    else created.WithWaiting(w, created.Waiting(w) + [id])
  }

  /** Starts every job waiting for the window's entry stage, moves it to the running list, clears the waiting list. */
  function StartAllWaitingJobs(js: Jobs, w: Window): Jobs
  {
    js.(status := StartAll(js.status, js.Waiting(w))).WithRunning(w, js.Running(w) + js.Waiting(w)).WithWaiting(w, [])
  }

  /** Cancels every job registered for the window's teardown stage and clears that list. */
  function CancelAllRunningJobs(js: Jobs, w: Window): Jobs
  {
    js.(status := CancelAll(js.status, js.Running(w))).WithRunning(w, [])
  }

  /**
   * The scheduler's reaction to a new stage: entry stages start their waiting jobs, teardown
   * stages cancel their running jobs, other stages change nothing.
   */
  function OnLifecycleState(js: Jobs, stage: LifecycleState): Jobs
  {
    match stage
    case OnCreate => StartAllWaitingJobs(js, Created)
    case OnStart => StartAllWaitingJobs(js, Started)
    case OnResume => StartAllWaitingJobs(js, Resumed)
    case OnPause => CancelAllRunningJobs(js, Resumed)
    case OnStop => CancelAllRunningJobs(js, Started)
    case OnDestroy => CancelAllRunningJobs(js, Created)
    case _ => js
  }

  /**
   * Cancelling the engine's coroutine scope: every job it ever created is cancelled, listed or
   * not, and a job launched afterwards is cancelled from the start. The lists are not cleared.
   */
  function CancelScope(js: Jobs): (r: Jobs)
    ensures !r.scopeActive && r.status.Keys == js.status.Keys
    ensures forall id :: id in r.status ==> r.status[id] == Cancelled
    ensures forall w :: r.Waiting(w) == js.Waiting(w) && r.Running(w) == js.Running(w)
  {
    js.(status := map id | id in js.status :: Cancelled, scopeActive := false)
  }

  // ---------------------------------------------------------------------------------------------
  // Properties

  /**
   * A launched job gets the next id. If the current stage lies in the window it is started and
   * appended to the window's running list; otherwise it is appended, lazy, to the window's waiting
   * list. A job launched after the scope was cancelled is cancelled from the start. No other list
   * and no other job's status changes.
   */
  lemma LaunchStartsOrQueues(js: Jobs, w: Window, stage: LifecycleState)
    requires Valid(js)
    ensures var r := Launch(js, w, stage);
      && r.nextId == js.nextId + 1 && r.scopeActive == js.scopeActive
      && (w.Contains(stage) ==> r.Running(w) == js.Running(w) + [js.nextId] && r.Waiting(w) == js.Waiting(w))
      && (!w.Contains(stage) ==> r.Waiting(w) == js.Waiting(w) + [js.nextId] && r.Running(w) == js.Running(w))
      && (forall v :: v != w ==> r.Waiting(v) == js.Waiting(v) && r.Running(v) == js.Running(v))
      && js.nextId !in js.status && js.nextId in r.status
      && r.status[js.nextId] == (if !js.scopeActive then Cancelled else if w.Contains(stage) then Running else Lazy)
      && (forall id :: id in js.status ==> id in r.status && r.status[id] == js.status[id])
  {
    assert JobValid(js, js.nextId);
  }

  /** Launching a job keeps the invariant. */
  lemma LaunchValid(js: Jobs, w: Window, stage: LifecycleState)
    requires Valid(js)
    ensures Valid(Launch(js, w, stage))
  {
    var created := ToLazyJob(js);
    ToLazyJobValid(js);
    var r := Launch(js, w, stage);
    forall id ensures JobValid(r, id) {
      assert JobValid(created, id);
    }
  }

  /** A new job is known, in no list, and keeps the invariant. */
  lemma ToLazyJobValid(js: Jobs)
    requires Valid(js)
    ensures var r := ToLazyJob(js);
      Valid(r) && js.nextId in r.status && !IsWaiting(r, js.nextId) && !IsRunning(r, js.nextId)
  {
    var r := ToLazyJob(js);
    assert JobValid(js, js.nextId);
    forall id ensures JobValid(r, id) {
      assert JobValid(js, id);
    }
  }

  /**
   * Entering a window starts every job that was waiting for it, moves them, in order, behind the
   * jobs already registered for the window's teardown, and empties the waiting list. No other list
   * changes, and the status of every job outside that waiting list is unchanged.
   */
  lemma {:induction false} EntryStageStartsWaitingJobs(js: Jobs, w: Window)
    requires Valid(js) && js.scopeActive
    ensures var r := OnLifecycleState(js, w.EntryStage());
      && r.Waiting(w) == []
      && r.Running(w) == js.Running(w) + js.Waiting(w)
      && AllHave(js.Waiting(w), r.status, Running)
      && (forall id :: id in js.status && id !in js.Waiting(w) ==> id in r.status && r.status[id] == js.status[id])
      && (forall v :: v != w ==> r.Waiting(v) == js.Waiting(v) && r.Running(v) == js.Running(v))
  {
    var r := OnLifecycleState(js, w.EntryStage());
    assert r == StartAllWaitingJobs(js, w);
    forall id | id in js.Waiting(w) ensures id in js.status && js.status[id] == Lazy {
      assert JobValid(js, id);
    }
  }

  /**
   * Leaving a window cancels every job registered for its teardown stage and empties that list.
   * No other list changes, and the status of every job outside that list is unchanged.
   */
  lemma {:induction false} TeardownStageCancelsRunningJobs(js: Jobs, w: Window)
    ensures var r := OnLifecycleState(js, w.TeardownStage());
      && r.Running(w) == []
      && (forall id :: id in js.Running(w) && id in js.status ==> r.status[id] == Cancelled)
      && (forall id :: id in js.status && id !in js.Running(w) ==> id in r.status && r.status[id] == js.status[id])
      && (forall v :: r.Waiting(v) == js.Waiting(v))
      && (forall v :: v != w ==> r.Running(v) == js.Running(v))
  {
    var r := OnLifecycleState(js, w.TeardownStage());
    assert r == CancelAllRunningJobs(js, w);
  }

  /** A stage that neither enters nor leaves a window leaves the scheduler untouched. */
  lemma OtherStagesChangeNothing(js: Jobs, stage: LifecycleState)
    requires stage in {Initial, OnAttach, OnDetach}
    ensures OnLifecycleState(js, stage) == js
  {
  }

  /** Reacting to any stage keeps the invariant. */
  lemma {:induction false} OnLifecycleStateValid(js: Jobs, stage: LifecycleState)
    requires Valid(js)
    ensures Valid(OnLifecycleState(js, stage))
  {
    var r := OnLifecycleState(js, stage);
    forall id ensures JobValid(r, id) {
      assert JobValid(js, id);
    }
  }

  /** Cancelling the scope keeps the invariant. */
  lemma CancelScopeValid(js: Jobs)
    requires Valid(js)
    ensures Valid(CancelScope(js))
  {
    var r := CancelScope(js);
    forall id ensures JobValid(r, id) {
      assert JobValid(js, id);
    }
  }

  /**
   * A job running in the resumed window is cancelled at ON_PAUSE and not before: at every other
   * stage it stays in the list for ON_PAUSE and keeps running.
   */
  lemma {:induction false} ResumedJobRunsUntilPause(js: Jobs, id: JobId, stage: LifecycleState)
    requires Valid(js) && js.scopeActive && id in js.runningUntilPaused
    ensures var r := OnLifecycleState(js, stage);
      && id in r.status
      && (if stage == OnPause then id !in r.runningUntilPaused && r.status[id] == Cancelled
          else id in r.runningUntilPaused && r.status[id] == Running)
  {
    assert JobValid(js, id);
    match stage
    case OnPause =>
      TeardownStageCancelsRunningJobs(js, Resumed);
    case OnStop =>
      TeardownStageCancelsRunningJobs(js, Started);
    case OnDestroy =>
      TeardownStageCancelsRunningJobs(js, Created);
    case OnCreate =>
      EntryStageStartsWaitingJobs(js, Created);
    case OnStart =>
      EntryStageStartsWaitingJobs(js, Started);
    case OnResume =>
      EntryStageStartsWaitingJobs(js, Resumed);
    case _ =>
  }
}
