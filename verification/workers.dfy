/** A worker serving one request to run a job, as the program text has it: every request is a run of the
    step system (queue_job/controllers/main.py, lines 54-197). */
module Workers {
  import opened JobStates
  import opened JobTable
  import opened Scheduler
  import opened Protocol
  import opened ExecutionSafety
  import opened Jobs

  const DEPENDS_MAX_TRIES := 5

  lemma NothingToRelease(rows: Rows, deps: Deps, j: JobId)
    requires Dependents(deps, j) == {}
    ensures Released(rows, deps, j) == rows
  {
  }

  class RunJobController {
    const site: Site
    const worker: Worker

    constructor (site: Site, worker: Worker)
      ensures this.site == site && this.worker == worker
    {
      this.site, this.worker := site, worker;
    }

    /** Load an enqueued job and commit it as started. */
    method MarkStarted(uuid: JobId, ghost sched: Sched, ghost runner: Runner) returns (job: Job)
      requires PhaseOf(site.Whole(sched, runner), worker) == Idle
      requires uuid in site.rows && site.rows[uuid].state == Enqueued
      modifies site
      ensures WorkerStep(old(site.Whole(sched, runner)), Acquire(worker, uuid), site.Whole(sched, runner))
      ensures fresh(job) && job.uuid == uuid && job.maxRetries == site.rows[uuid].maxRetries
      ensures uuid in site.rows && site.rows[uuid].state == Started
      ensures PhaseOf(site.Whole(sched, runner), worker) == Acquired(uuid, job.retry, job.ready)
    {
      ghost var rows := site.rows;
      job := new Job.Load(uuid, site.rows[uuid], DepsDone(site.rows, site.deps, uuid));
      job.SetStarted();
      site.AddLockRecord(uuid);
      site.Store(job);
      assert site.rows == rows[uuid := rows[uuid].(state := Started, lockRow := true)];
      site.phases := site.phases[worker := Acquired(uuid, job.retry, job.ready)];
    }

    method LockJob(job: Job, ghost sched: Sched, ghost runner: Runner) returns (locked: bool)
      requires PhaseOf(site.Whole(sched, runner), worker) == Acquired(job.uuid, job.retry, job.ready)
      modifies site
      ensures WorkerStep(old(site.Whole(sched, runner)), TryLock(worker), site.Whole(sched, runner))
      ensures site.rows == old(site.rows) && job.retry == old(job.retry)
      ensures PhaseOf(site.Whole(sched, runner), worker) ==
        if locked then Performing(job.uuid, job.retry, job.ready) else Idle
    {
      locked := site.Lock(job.uuid, worker);
      site.phases := site.phases[worker := if locked then Performing(job.uuid, job.retry, job.ready) else Idle];
    }

    /** A started job whose lock this worker holds, if it can have it. */
    method AcquireJob(uuid: JobId, ghost sched: Sched, ghost runner: Runner)
      returns (job: Job?, ghost ss: seq<Sys>, ghost acts: seq<Act>)
      requires PhaseOf(site.Whole(sched, runner), worker) == Idle
      modifies site
      ensures Execution(ss, acts) && |ss| == |acts| + 1
      ensures ss[0] == old(site.Whole(sched, runner)) && ss[|acts|] == site.Whole(sched, runner)
      ensures acts == if uuid in old(site.rows) && old(site.rows)[uuid].state == Enqueued
        then [Acquire(worker, uuid), TryLock(worker)] else []
      ensures job == null ==> PhaseOf(site.Whole(sched, runner), worker) == Idle
      ensures job != null ==>
        && fresh(job) && job.uuid in site.rows && job.maxRetries == site.rows[job.uuid].maxRetries
        && PhaseOf(site.Whole(sched, runner), worker) == Performing(job.uuid, job.retry, job.ready)
    {
      hide Execution, WorkerStep, RunnerStep, UserStep;
      ghost var s0 := site.Whole(sched, runner);
      ss, acts := [s0], [];
      ExecutionStart(s0);
      if uuid !in site.rows || site.rows[uuid].state != Enqueued {
        return null, ss, acts;
      }
      job := MarkStarted(uuid, sched, runner);
      ghost var s1 := site.Whole(sched, runner);
      ExecutionMore(ss, acts, Acquire(worker, uuid), s1);
      var locked := LockJob(job, sched, runner);
      ghost var s2 := site.Whole(sched, runner);
      ExecutionMore(ss + [s1], acts + [Acquire(worker, uuid)], TryLock(worker), s2);
      ss, acts := ss + [s1] + [s2], acts + [Acquire(worker, uuid)] + [TryLock(worker)];
      assert acts == [Acquire(worker, uuid), TryLock(worker)];
      if !locked {
        job := null;
      }
    }

    /** Perform the job; if that succeeds, mark it done and commit, which ends the lock. No commit is
        possible before. */
    method TryPerformJob(job: Job, outcome: Outcome, ghost sched: Sched, ghost runner: Runner) returns (raised: Raised)
      requires job.uuid in site.rows && job.maxRetries == site.rows[job.uuid].maxRetries
      requires PhaseOf(site.Whole(sched, runner), worker) == Performing(job.uuid, job.retry, job.ready)
      modifies site, job
      ensures var end := EndOf(old(job.retry), job.maxRetries, outcome);
        && (end.Finished? <==> raised == Nothing)
        && (end.Postponed? <==> raised == RetryableJobError || raised == OperationalError)
      ensures raised == Nothing ==>
        WorkerStep(old(site.Whole(sched, runner)), Finish(worker, outcome), site.Whole(sched, runner))
      ensures raised != Nothing ==>
        site.Whole(sched, runner) == old(site.Whole(sched, runner)) && job.retry == Tries(old(job.retry), outcome)
    {
      raised := job.Perform(outcome);
      if raised == Nothing {
        job.SetDone();
        site.Store(job);
        site.Release(job.uuid);
        site.phases := site.phases[worker := Releasing(job.uuid)];
      }
    }

    /** Store the outcome from another cursor: back in the queue, the count of retries kept. */
    method RetryPostpone(job: Job, ghost retry: nat, ghost outcome: Outcome, ghost sched: Sched, ghost runner: Runner)
      requires job.uuid in site.rows && EndOf(retry, site.rows[job.uuid].maxRetries, outcome).Postponed?
      requires PhaseOf(site.Whole(sched, runner), worker) == Performing(job.uuid, retry, job.ready)
      requires job.retry == Tries(retry, outcome)
      modifies site, job
      ensures WorkerStep(old(site.Whole(sched, runner)), Finish(worker, outcome), site.Whole(sched, runner))
      ensures PhaseOf(site.Whole(sched, runner), worker) == Settling(job.uuid)
    {
      job.SetPending(false);
      site.Store(job);
      site.phases := site.phases[worker := Settling(job.uuid)];
    }

    method StoreFailure(job: Job, ghost retry: nat, ghost outcome: Outcome, ghost sched: Sched, ghost runner: Runner)
      requires job.uuid in site.rows && EndOf(retry, site.rows[job.uuid].maxRetries, outcome).Broken?
      requires PhaseOf(site.Whole(sched, runner), worker) == Performing(job.uuid, retry, job.ready)
      requires job.retry == Tries(retry, outcome)
      modifies site, job
      ensures WorkerStep(old(site.Whole(sched, runner)), Finish(worker, outcome), site.Whole(sched, runner))
      ensures PhaseOf(site.Whole(sched, runner), worker) == Settling(job.uuid)
    {
      job.SetFailed();
      site.Store(job);
      site.phases := site.phases[worker := Settling(job.uuid)];
    }

    /** The rollback at the end of the request lets go of the lock. */
    method Rollback(j: JobId, ghost sched: Sched, ghost runner: Runner)
      requires PhaseOf(site.Whole(sched, runner), worker) == Settling(j)
      modifies site
      ensures WorkerStep(old(site.Whole(sched, runner)), Unlock(worker), site.Whole(sched, runner))
    {
      site.Release(j);
      site.phases := site.phases[worker := Idle];
    }

    /** Perform an acquired job and see to its outcome. */
    method Runjob(job: Job, outcome: Outcome, conflicts: nat -> bool, ghost sched: Sched, ghost runner: Runner)
      returns (ghost ss: seq<Sys>, ghost acts: seq<Act>)
      requires job.uuid in site.rows && job.maxRetries == site.rows[job.uuid].maxRetries
      requires PhaseOf(site.Whole(sched, runner), worker) == Performing(job.uuid, job.retry, job.ready)
      requires forall k <- site.locks | k != job.uuid :: site.locks[k] != worker
      modifies site, job
      ensures Execution(ss, acts) && |ss| == |acts| + 1
      ensures ss[0] == old(site.Whole(sched, runner)) && ss[|acts|] == site.Whole(sched, runner)
      ensures |acts| == 2 && acts[0] == Finish(worker, outcome)
      ensures acts[1] == if !outcome.Success? then Unlock(worker)
        else if Dependents(old(site.deps), job.uuid) == {} || exists k: nat :: k < 6 && !conflicts(k)
          then CheckDependents(worker) else Crash(worker)
      ensures job.uuid in site.rows && HasOutcome(site.rows[job.uuid], old(job.retry), job.maxRetries, job.ready, outcome)
    {
      hide Execution, WorkerStep, RunnerStep, UserStep;
      ghost var s0, retry := site.Whole(sched, runner), job.retry;
      ExecutionStart(s0);
      var raised := TryPerformJob(job, outcome, sched, runner);
      ghost var a: Act;
      ghost var s1: Sys;
      if raised == Nothing {
        s1 := site.Whole(sched, runner);
        Committed(s0, worker, outcome, s1);
        ExecutionMore([s0], [], Finish(worker, outcome), s1);
        ss := [s0] + [s1];
        var released := EnqueueDependentJobs(job.uuid, conflicts, sched, runner);
        a := if released then CheckDependents(worker) else Crash(worker);
      } else {
        if raised == RetryableJobError || raised == OperationalError {
          RetryPostpone(job, retry, outcome, sched, runner);
        } else {
          StoreFailure(job, retry, outcome, sched, runner);
        }
        s1 := site.Whole(sched, runner);
        ExecutionMore([s0], [], Finish(worker, outcome), s1);
        ss := [s0] + [s1];
        Rollback(job.uuid, sched, runner);
        a := Unlock(worker);
      }
      ExecutionMore(ss, [] + [Finish(worker, outcome)], a, site.Whole(sched, runner));
      ss, acts := ss + [site.Whole(sched, runner)], [] + [Finish(worker, outcome)] + [a];
      OutcomeStored(s0, worker, outcome, s1, a, site.Whole(sched, runner));
    }

    /** One request to run a job is a run of the step system, from this worker being idle to its being
        idle again. */
    method RunjobRequest(uuid: JobId, outcome: Outcome, conflicts: nat -> bool, ghost sched: Sched, ghost runner: Runner)
      returns (ghost ss: seq<Sys>, ghost acts: seq<Act>)
      requires Safe(site.Whole(sched, runner)) && PhaseOf(site.Whole(sched, runner), worker) == Idle
      modifies site
      ensures Execution(ss, acts) && |ss| == |acts| + 1
      ensures ss[0] == old(site.Whole(sched, runner)) && ss[|acts|] == site.Whole(sched, runner)
      ensures Safe(site.Whole(sched, runner)) && PhaseOf(site.Whole(sched, runner), worker) == Idle
      ensures acts == [] <==> !(uuid in old(site.rows) && old(site.rows)[uuid].state == Enqueued)
      ensures |acts| == 0 || |acts| == 2 || (|acts| == 4 && acts[2] == Finish(worker, outcome))
      ensures acts != [] ==> acts[0] == Acquire(worker, uuid) && acts[1] == TryLock(worker)
    {
      hide Execution, Safe, LocksOk, RunnerOk, Next, WorkerStep, RunnerStep, UserStep;
      ghost var s0 := site.Whole(sched, runner);
      var job;
      job, ss, acts := AcquireJob(uuid, sched, runner);
      SafeAlong(ss, acts);
      if job != null {
        HoldsOne(site.Whole(sched, runner), worker);
        ghost var ts, bs := Runjob(job, outcome, conflicts, sched, runner);
        ExecutionJoin(ss, acts, ts, bs);
        IdleAgain(ts, bs, worker);
        ss, acts := ss + ts[1..], acts + bs;
        SafeAlong(ss, acts);
      }
    }

    /** Release the dependents, again after a conflict, six times at most; `conflicts` says which tries
        end in one. */
    method EnqueueDependentJobs(j: JobId, conflicts: nat -> bool, ghost sched: Sched, ghost runner: Runner)
      returns (released: bool)
      requires PhaseOf(site.Whole(sched, runner), worker) == Releasing(j) && forall k <- site.locks :: site.locks[k] != worker
      modifies site
      ensures released <==> Dependents(site.deps, j) == {} || exists k: nat :: k < 6 && !conflicts(k)
      ensures WorkerStep(
        old(site.Whole(sched, runner)), if released then CheckDependents(worker) else Crash(worker),
        site.Whole(sched, runner))
    {
      if Dependents(site.deps, j) == {} {
        NothingToRelease(site.rows, site.deps, j);
        site.phases := site.phases[worker := Idle];
        return true;
      }
      var tries := 0;
      released := false;
      while true
        invariant tries <= DEPENDS_MAX_TRIES && forall k: nat :: k < tries ==> conflicts(k)
        invariant site.Whole(sched, runner) == old(site.Whole(sched, runner))
        decreases DEPENDS_MAX_TRIES - tries
      {
        if !conflicts(tries) {
          site.EnqueueWaiting(j);
          released := true;
          break;
        }
        if tries >= DEPENDS_MAX_TRIES {
          break;
        }
        tries := tries + 1;
      }
      site.phases := site.phases[worker := Idle];
    }
  }

  /** The row of a job after an attempt that started with this count of retries: done after a success; failed after
      a failure, or after a counted retryable error that is one too many; otherwise back in the queue. */
  predicate HasOutcome(row: Row, retry: nat, maxRetries: nat, ready: bool, outcome: Outcome) {
    && row.retry == (if outcome == Retryable(true) then retry else retry + 1)
    && row.state ==
      if outcome == Success then Done
      else if outcome == Failure || (outcome == Retryable(false) && 0 < maxRetries <= retry + 1) then Failed
      else if ready then Pending else WaitDependencies
  }

  lemma StoredOutcome(rows: Rows, j: JobId, retry: nat, ready: bool, outcome: Outcome)
    requires j in rows
    ensures j in Stored(rows, j, retry, ready, outcome)
    ensures HasOutcome(Stored(rows, j, retry, ready, outcome)[j], retry, rows[j].maxRetries, ready, outcome)
  {
  }

  /** What is stored stays, when the lock or the dependents are seen to. */
  lemma OutcomeStored(s: Sys, w: Worker, outcome: Outcome, s1: Sys, a: Act, s2: Sys)
    requires WorkerStep(s, Finish(w, outcome), s1) && WorkerStep(s1, a, s2)
    requires a == Unlock(w) || (outcome.Success? && (a == CheckDependents(w) || a == Crash(w)))
    ensures var p := PhaseOf(s, w);
      p.job in s.rows && p.job in s2.rows && HasOutcome(s2.rows[p.job], p.retry, s.rows[p.job].maxRetries, p.ready, outcome)
  {
    var p := PhaseOf(s, w);
    StoredOutcome(s.rows, p.job, p.retry, p.ready, outcome);
    hide Stored;
  }

  lemma Committed(s: Sys, w: Worker, outcome: Outcome, s': Sys)
    requires WorkerStep(s, Finish(w, outcome), s') && outcome.Success?
    ensures PhaseOf(s', w) == Releasing(PhaseOf(s, w).job) && s'.locks == s.locks - {PhaseOf(s, w).job}
    ensures s'.deps == s.deps
  {
  }

  /** A worker holds one lock at most, that of its job. */
  lemma HoldsOne(s: Sys, w: Worker)
    requires Safe(s) && PhaseOf(s, w).Performing?
    ensures forall k <- s.locks | k != PhaseOf(s, w).job :: s.locks[k] != w
    ensures PhaseOf(s, w).job in s.rows
  {
    hide RunnerOk;
  }

  lemma {:induction false} SafeAlong(ss: seq<Sys>, acts: seq<Act>)
    requires Execution(ss, acts) && Safe(ss[0])
    ensures Safe(ss[|acts|])
    decreases |acts|
  {
    if acts != [] {
      var n := |acts| - 1;
      assert Execution(ss[..n + 1], acts[..n]) by {
        hide Next;
      }
      SafeAlong(ss[..n + 1], acts[..n]);
      assert Next(ss[n], acts[n], ss[n + 1]);
      hide Safe, Next;
      SafeStep(ss[n], acts[n], ss[n + 1]);
    }
  }

  lemma IdleAgain(ss: seq<Sys>, acts: seq<Act>, w: Worker)
    requires Execution(ss, acts) && |acts| > 0
    requires var a := acts[|acts| - 1]; a == Unlock(w) || a == CheckDependents(w) || a == Crash(w)
    ensures PhaseOf(ss[|acts|], w) == Idle
  {
    assert Next(ss[|acts| - 1], acts[|acts| - 1], ss[|acts|]);
  }
}
