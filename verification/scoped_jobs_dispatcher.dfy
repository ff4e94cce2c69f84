/**
 * The scoped job scheduler as the engine holds it: six job lists and a status table, updated in
 * place, each method proved to perform the step of the same name in ScopedJobs.
 */
module ScopedJobsDispatch {
  import opened LifecycleStates
  import opened ScopedJobs

  class ScopedJobsDispatcher {
    var jobsWaitingForCreatedState: seq<JobId>
    var jobsWaitingForStartedState: seq<JobId>
    var jobsWaitingForResumedState: seq<JobId>
    var jobsRunningUntilPausedState: seq<JobId>
    var jobsRunningUntilStoppedState: seq<JobId>
    var jobsRunningUntilDestroyedState: seq<JobId>
    /** The status of every job launched in the engine's scope so far. */
    var jobStatus: map<JobId, JobStatus>
    var nextJobId: nat
    var scopeActive: bool

    /** The scheduler's state as a value. */
    function Model(): Jobs
      reads this
    {
      Jobs(jobsWaitingForCreatedState, jobsWaitingForStartedState, jobsWaitingForResumedState,
           jobsRunningUntilPausedState, jobsRunningUntilStoppedState, jobsRunningUntilDestroyedState,
           jobStatus, nextJobId, scopeActive)
    }

    constructor()
      ensures Model() == NoJobs()
    {
      jobsWaitingForCreatedState := [];
      jobsWaitingForStartedState := [];
      jobsWaitingForResumedState := [];
      jobsRunningUntilPausedState := [];
      jobsRunningUntilStoppedState := [];
      jobsRunningUntilDestroyedState := [];
      jobStatus := map[];
      nextJobId := 0;
      scopeActive := true;
    }

    /** The list of jobs waiting for the window's entry stage. */
    function WaitingJobsListFor(w: Window): (ids: seq<JobId>)
      reads this
      ensures ids == Model().Waiting(w)
    {
      match w
      case Created => jobsWaitingForCreatedState
      case Started => jobsWaitingForStartedState
      case Resumed => jobsWaitingForResumedState
    }

    /** The list of jobs to cancel at the window's teardown stage. */
    function RunningJobsListFor(w: Window): (ids: seq<JobId>)
      reads this
      ensures ids == Model().Running(w)
    {
      match w
      case Created => jobsRunningUntilDestroyedState
      case Started => jobsRunningUntilStoppedState
      case Resumed => jobsRunningUntilPausedState
    }

    method SetWaitingJobsListFor(w: Window, ids: seq<JobId>)
      modifies this
      ensures Model() == old(Model()).WithWaiting(w, ids)
    {
      match w
      case Created => jobsWaitingForCreatedState := ids;
      case Started => jobsWaitingForStartedState := ids;
      case Resumed => jobsWaitingForResumedState := ids;
    }

    method SetRunningJobsListFor(w: Window, ids: seq<JobId>)
      modifies this
      ensures Model() == old(Model()).WithRunning(w, ids)
    {
      match w
      case Created => jobsRunningUntilDestroyedState := ids;
      case Started => jobsRunningUntilStoppedState := ids;
      case Resumed => jobsRunningUntilPausedState := ids;
    }

    /**
     * startOrWaitUntilCreatedState / StartedState / ResumedState: creates a lazy job in the scope
     * and starts it at once when the current stage lies in the window, or queues it for the
     * window's entry stage otherwise.
     */
    method StartOrWaitUntil(w: Window, stage: LifecycleState) returns (id: JobId)
      modifies this
      ensures id == old(nextJobId)
      ensures Model() == ScopedJobs.Launch(old(Model()), w, stage)
    {
      ghost var js := Model();
      id := ToLazyJob();
      ghost var created := Model();
      if w.Contains(stage) {
        StartJobAndAddToRunningJobs(id, w);
        assert ScopedJobs.Launch(js, w, stage) == ScopedJobs.StartJobAndAddToRunningJobs(created, id, w);
      } else {
        WaitUntilExpectedState(id, w);
        assert ScopedJobs.Launch(js, w, stage) == created.WithWaiting(w, created.Waiting(w) + [id]);
      }
    }

    /** A new job, lazy while the scope is active and cancelled once it is not, under a fresh id. */
    method ToLazyJob() returns (id: JobId)
      modifies this
      ensures id == old(nextJobId)
      ensures Model() == ScopedJobs.ToLazyJob(old(Model()))
    {
      id := nextJobId;
      jobStatus := jobStatus[id := if scopeActive then Lazy else Cancelled];
      nextJobId := id + 1;
    }

    /** Appends a job to the list of jobs waiting for the window's entry stage. */
    method WaitUntilExpectedState(id: JobId, w: Window)
      modifies this
      ensures Model() == old(Model()).WithWaiting(w, old(Model()).Waiting(w) + [id])
    {
      SetWaitingJobsListFor(w, WaitingJobsListFor(w) + [id]);
    }

    method StartJobAndAddToRunningJobs(id: JobId, w: Window)
      modifies this
      ensures Model() == ScopedJobs.StartJobAndAddToRunningJobs(old(Model()), id, w)
    {
      jobStatus := ScopedJobs.Start(jobStatus, id);
      SetRunningJobsListFor(w, RunningJobsListFor(w) + [id]);
    }

    /** Starts each job waiting for the window's entry stage, in order, then clears that list. */
    method StartAllWaitingJobs(w: Window)
      modifies this
      ensures Model() == ScopedJobs.StartAllWaitingJobs(old(Model()), w)
    {
      ghost var js := Model();
      var waiting := WaitingJobsListFor(w);
      var status := jobStatus;
      var started := RunningJobsListFor(w);
      var i := 0;
      while i < |waiting|
        invariant 0 <= i <= |waiting|
        invariant Model() == js
        invariant status == StartAll(js.status, waiting[..i])
        invariant started == js.Running(w) + waiting[..i]
      {
        status := ScopedJobs.Start(status, waiting[i]);
        started := started + [waiting[i]];
        assert waiting[..i + 1] == waiting[..i] + [waiting[i]];
        StartAllSnoc(js.status, waiting[..i], waiting[i]);
        i := i + 1;
      }
      assert waiting[..i] == waiting;
      ghost var startedAll := js.(status := StartAll(js.status, js.Waiting(w)));
      jobStatus := status;
      assert Model() == startedAll;
      SetRunningJobsListFor(w, started);
      SetWaitingJobsListFor(w, []);
    }

    /** Cancels each job registered for the window's teardown stage, in order, then clears that list. */
    method CancelAllRunningJobs(w: Window)
      modifies this
      ensures Model() == ScopedJobs.CancelAllRunningJobs(old(Model()), w)
    {
      ghost var js := Model();
      var running := RunningJobsListFor(w);
      var status := jobStatus;
      var i := 0;
      while i < |running|
        invariant 0 <= i <= |running|
        invariant status == CancelAll(js.status, running[..i])
        invariant Model() == js
      {
        status := ScopedJobs.Cancel(status, running[i]);
        assert running[..i + 1] == running[..i] + [running[i]];
        CancelAllSnoc(js.status, running[..i], running[i]);
        i := i + 1;
      }
      assert running[..i] == running;
      jobStatus := status;
      assert Model() == js.(status := CancelAll(js.status, js.Running(w)));
      SetRunningJobsListFor(w, []);
    }

    /** The scheduler's reaction to a new stage. */
    method OnLifecycleState(stage: LifecycleState)
      modifies this
      ensures Model() == ScopedJobs.OnLifecycleState(old(Model()), stage)
    {
      match stage
      case OnCreate => StartAllWaitingJobs(Created);
      case OnStart => StartAllWaitingJobs(Started);
      case OnResume => StartAllWaitingJobs(Resumed);
      case OnPause => CancelAllRunningJobs(Resumed);
      case OnStop => CancelAllRunningJobs(Started);
      case OnDestroy => CancelAllRunningJobs(Created);
      case _ =>
    }

    /** Cancelling the engine's coroutine scope cancels every job it created. */
    method CancelScope()
      modifies this
      ensures Model() == ScopedJobs.CancelScope(old(Model()))
    {
      jobStatus := map id | id in jobStatus :: Cancelled;
      scopeActive := false;
    }
  }
}
