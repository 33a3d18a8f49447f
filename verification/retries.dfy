/** How often a job is attempted, across the two code paths that count retries
    (queue_job/job.py, lines 507-537; queue_job/jobrunner/runner.py, lines 217-280;
    queue_job/controllers/main.py, lines 153-181). */
module Retries {
  import opened Channels
  import opened JobStates
  import opened JobTable
  import opened Scheduler
  import opened Pipeline
  import opened ActiveJobs
  import opened QueuedJobs
  import opened Protocol
  import opened ExecutionSafety
  import opened Dependencies

  /** The step begins an attempt: a worker gets the job's lock and performs it. */
  predicate Begins(a: Act, s': Sys, j: JobId) {
    a.TryLock? && PhaseOf(s', a.worker).Performing? && PhaseOf(s', a.worker).job == j
  }

  ghost function Attempts(ss: seq<Sys>, acts: seq<Act>, j: JobId, i: nat): nat
    requires |ss| == |acts| + 1 && i <= |acts|
  {
    if i == 0 then 0 else Attempts(ss, acts, j, i - 1) + if Begins(acts[i - 1], ss[i], j) then 1 else 0
  }

  predicate IsAcquired(p: Phase, j: JobId) {
    p.Acquired? && p.job == j
  }

  predicate IsPerforming(p: Phase, j: JobId) {
    p.Performing? && p.job == j
  }

  /** Attempts on this job end in success, in failure, in a counted retryable error or in the death of
      the worker; a worker locks the job it has acquired before the requeuer deems it dead; and users do
      not requeue it. */
  predicate Counted(s: Sys, a: Act, j: JobId) {
    && (a.Finish? && IsPerforming(PhaseOf(s, a.worker), j) ==> a.outcome != Retryable(true) && !a.outcome.Conflict?)
    && (a.RequeueDead? && j in a.dead ==> forall w <- s.phases :: !IsAcquired(s.phases[w], j))
    && (a.Requeue? ==> a.job != j)
  }

  /** `n` attempts are paid for by the retries counted so far, but for the one under way. */
  ghost predicate Paid(row: Row, m: nat, n: nat) {
    && row.maxRetries == m > 0 && n <= m + 2
    && (row.state.Pending? || row.state.WaitDependencies? || row.state.Enqueued? ==> n <= row.retry <= m + 1)
    && (row.state.Started? ==> n <= row.retry + 1 <= m + 2)
  }

  ghost predicate TryInv(s: Sys, j: JobId, m: nat, n: nat) {
    && j in s.rows && Paid(s.rows[j], m, n)
    && (forall w <- s.phases :: IsAcquired(s.phases[w], j) ==>
          && s.rows[j].state == Started && s.phases[w].retry == s.rows[j].retry && n <= s.rows[j].retry
          && forall v <- s.phases :: IsPerforming(s.phases[v], j) || IsAcquired(s.phases[v], j) ==> v == w)
    && (forall w <- s.phases :: IsPerforming(s.phases[w], j) ==> s.phases[w].retry == s.rows[j].retry)
  }

  /** The runner may yet mark the job enqueued: it has been handed out, waits in the channels, or is to be loaded
      as pending. */
  ghost predicate MayBeMarked(sched: Sched, r: Runner, j: JobId) {
    r.Open? && (j in r.asked || Queued(sched, j) || (j in r.toLoad && r.toLoad[j] == JobState.Pending))
  }

  /** Whatever has become of the row of such a job, there is an attempt left to pay for. */
  ghost predicate RetryInv(s: Sys, j: JobId, m: nat, n: nat) {
    TryInv(s, j, m, n) && (MayBeMarked(s.sched, s.runner, j) ==> n <= s.rows[j].retry <= m + 1)
  }

  /** A job that may yet be marked is not active. */
  lemma MarkableIsQuiet(rows: Rows, sched: Sched, r: Runner, j: JobId)
    requires RunnerOk(rows, sched, r) && j in rows && MayBeMarked(sched, r, j)
    ensures !Active(rows[j].state)
  {
    hide Inv, Runs, Queued;
    if Runs(sched, j) {
      RunsNotQueued(sched, j);
    }
    if Queued(sched, j) {
      QueuedIsLive(sched, j);
    }
  }

  /** A change of the job's row by someone else than its worker. */
  lemma OthersKeep(s: Sys, s': Sys, j: JobId, m: nat, n: nat)
    requires LocksOk(s) && TryInv(s, j, m, n) && j in s'.rows && s'.phases == s.phases
    requires s'.rows[j].maxRetries == s.rows[j].maxRetries && s'.rows[j].retry == s.rows[j].retry
    requires s.rows[j].state == Started ==> s'.rows[j] == s.rows[j]
    requires s'.rows[j].state == Started ==> s.rows[j].state == Started
    requires s'.rows[j].state.Pending? || s'.rows[j].state.Enqueued? || s'.rows[j].state.WaitDependencies? ==>
      s.rows[j].state.Pending? || s.rows[j].state.Enqueued? || s.rows[j].state.WaitDependencies? ||
      n <= s.rows[j].retry <= m + 1
    ensures TryInv(s', j, m, n)
  {
  }

  lemma WorkerTries(s: Sys, a: Act, s': Sys, j: JobId, m: nat, n: nat)
    requires LocksOk(s) && TryInv(s, j, m, n) && WorkerStep(s, a, s') && Counted(s, a, j)
    ensures TryInv(s', j, m, if Begins(a, s', j) then n + 1 else n)
  {
    match a {
      case Finish(w, outcome) => FinishTries(s, w, outcome, s', j, m, n);
      case CheckDependents(w) => ReleaseTries(s, w, s', j, m, n);
      case TryLock(w) => LockTries(s, w, s', j, m, n);
      case Acquire(w, k) => AcquireTries(s, w, k, s', j, m, n);
      case Unlock(w) =>
      case Crash(w) =>
    }
  }

  lemma AcquireTries(s: Sys, w: Worker, k: JobId, s': Sys, j: JobId, m: nat, n: nat)
    requires LocksOk(s) && TryInv(s, j, m, n) && WorkerStep(s, Acquire(w, k), s')
    ensures TryInv(s', j, m, n)
  {
  }

  lemma LockTries(s: Sys, w: Worker, s': Sys, j: JobId, m: nat, n: nat)
    requires LocksOk(s) && TryInv(s, j, m, n) && WorkerStep(s, TryLock(w), s')
    ensures TryInv(s', j, m, if Begins(TryLock(w), s', j) then n + 1 else n)
  {
  }

  lemma FinishTries(s: Sys, w: Worker, outcome: Outcome, s': Sys, j: JobId, m: nat, n: nat)
    requires LocksOk(s) && TryInv(s, j, m, n) && WorkerStep(s, Finish(w, outcome), s') && Counted(s, Finish(w, outcome), j)
    ensures TryInv(s', j, m, n)
  {
    var p := PhaseOf(s, w);
    StoredRow(s.rows, p.job, p.retry, p.ready, outcome);
    if p.job != j {
      assert s'.rows[j] == s.rows[j];
    }
  }

  lemma ReleaseTries(s: Sys, w: Worker, s': Sys, j: JobId, m: nat, n: nat)
    requires LocksOk(s) && TryInv(s, j, m, n) && WorkerStep(s, CheckDependents(w), s')
    ensures TryInv(s', j, m, n)
  {
    var p := PhaseOf(s, w);
    assert s'.rows[j] == s.rows[j] ||
      (s.rows[j].state == WaitDependencies && s'.rows[j] == s.rows[j].(state := JobState.Pending));
    hide Released, LocksOk;
  }

  /** Two more deaths than `max_retries` are found out by the requeuer. */
  lemma DeadTries(s: Sys, dead: set<JobId>, s': Sys, j: JobId, m: nat, n: nat)
    requires LocksOk(s) && TryInv(s, j, m, n) && RunnerStep(s, RequeueDead(dead), s')
    requires Counted(s, RequeueDead(dead), j)
    ensures TryInv(s', j, m, n)
  {
    if j in dead {
      assert LooksDead(s.rows[j], j in s.locks);
      forall w <- s.phases ensures !IsPerforming(s.phases[w], j) {
      }
    } else {
      assert s'.rows[j] == s.rows[j];
    }
    hide LocksOk, Requeued;
  }

  lemma RunnerTries(s: Sys, a: Act, s': Sys, j: JobId, m: nat, n: nat)
    requires Safe(s) && RetryInv(s, j, m, n) && RunnerStep(s, a, s') && Counted(s, a, j)
    ensures TryInv(s', j, m, n)
  {
    hide Step, Inv, LooksDead, Requeued, RunnerOk;
    if a.RequeueDead? {
      DeadTries(s, a.dead, s', j, m, n);
    } else {
      RunnerRow(s, a, s', j);
      if a.Mark? {
        MarksNoActive(s, s');
        hide Queued;
        assert s.runner.asked[0] in s.runner.asked;
      }
      hide RunnerStep, LocksOk, TryInv;
      OthersKeep(s, s', j, m, n) by {
        hide MayBeMarked;
      }
    }
  }

  lemma RunnerRow(s: Sys, a: Act, s': Sys, j: JobId)
    requires RunnerStep(s, a, s') && !a.RequeueDead? && j in s.rows
    ensures s'.phases == s.phases && j in s'.rows
    ensures s'.rows[j] == s.rows[j] ||
      (a.Mark? && s.runner.asked[0] == j && s'.rows[j] == s.rows[j].(state := Enqueued))
  {
    hide Step, Inv;
  }

  /** What the users may do to the job's row. */
  lemma UserRow(s: Sys, a: Act, s': Sys, j: JobId)
    requires UserStep(s, a, s') && j in s.rows && (a.Requeue? ==> a.job != j)
    ensures s'.phases == s.phases && j in s'.rows
    ensures s'.rows[j] == s.rows[j].(state := s'.rows[j].state)
    ensures s'.rows[j].state == s.rows[j].state
      || (CanBeDone(s.rows[j].state) && (s'.rows[j].state.Done? || s'.rows[j].state.Cancelled?))
      || (s.rows[j].state == WaitDependencies && s'.rows[j].state == JobState.Pending)
  {
    match a {
      case PressCancel(k) =>
        if k in s.rows && CanBeDone(s.rows[k].state) {
          var m := WithState(s.rows, k, Cancelled);
          if Stranded(m, s.deps, k, j) {
            StrandedWaits(m, s.deps, k, j);
          }
          hide Stranded;
        }
      case PressDone(k) =>
      case Requeue(k) =>
      case Create(batch, limits) =>
    }
  }

  lemma UserTries(s: Sys, a: Act, s': Sys, j: JobId, m: nat, n: nat)
    requires LocksOk(s) && TryInv(s, j, m, n) && UserStep(s, a, s') && Counted(s, a, j)
    ensures TryInv(s', j, m, n)
  {
    UserRow(s, a, s', j);
    hide UserStep;
    OthersKeep(s, s', j, m, n);
  }

  // ----- jobs that may yet be marked --------------------------------------------------------------

  lemma WorkerLeavesQuiet(s: Sys, a: Act, s': Sys, j: JobId)
    requires LocksOk(s) && WorkerStep(s, a, s') && j in s.rows && !Active(s.rows[j].state)
    ensures s'.sched == s.sched && s'.runner == s.runner
    ensures j in s'.rows && s'.rows[j].retry == s.rows[j].retry && !Begins(a, s', j)
  {
    hide Released, DepsDone;
    match a {
      case Finish(w, outcome) =>
        var p := PhaseOf(s, w);
        StoredRow(s.rows, p.job, p.retry, p.ready, outcome);
        hide Stored;
      case CheckDependents(w) => ReleasedRetry(s.rows, s.deps, PhaseOf(s, w).job, j);
      case _ =>
    }
  }

  lemma ReleasedRetry(rows: Rows, deps: Deps, k: JobId, j: JobId)
    requires j in rows
    ensures j in Released(rows, deps, k) && Released(rows, deps, k)[j].retry == rows[j].retry
  {
  }

  /** The manager is told that a job is pending only when its row is. */
  lemma ToldPending(s: Sys, a: Act, s': Sys, j: JobId)
    requires Inv(s.sched) && RunnerStep(s, a, s') && (a.Tell? || a.Load?) && Queued(s'.sched, j)
    ensures Queued(s.sched, j)
      || (a.Tell? && j in s.rows && s.rows[j].state == JobState.Pending)
      || (a.Load? && j in s.runner.toLoad && s.runner.toLoad[j] == JobState.Pending)
  {
    hide Inv, Step, Queued;
    QueuedStep(s.sched, a.e, s'.sched, j);
  }

  lemma DrawnMarkable(s: Sys, a: Act, s': Sys, j: JobId)
    requires Inv(s.sched) && RunnerStep(s, a, s') && a.Draw? && MayBeMarked(s'.sched, s'.runner, j)
    ensures Queued(s.sched, j)
  {
    hide Inv, Queued, Step;
    var e := Drained(a.now, a.log);
    if Queued(s'.sched, j) {
      QueuedStep(s.sched, e, s'.sched, j);
    } else {
      var i :| 0 <= i < |a.log.out| && a.log.out[i].uuid == j;
      DrawnStep(s.sched, a.now, a.log, s'.sched);
      DrainedOut(s.sched, a.now, a.log, a.log.out[i]);
      DrawnQueued(s.sched, a.now, a.log, j);
    }
  }

  lemma TidyQueued(s: Sys, a: Act, s': Sys, j: JobId)
    requires Inv(s.sched) && RunnerStep(s, a, s') && a.Tidy? && Queued(s'.sched, j)
    ensures Queued(s.sched, j)
  {
    hide Inv, Queued, Step;
    QueuedStep(s.sched, a.e, s'.sched, j);
  }

  /** A step of the runner other than the reading of the table lets no job be marked that was neither so
      before nor is pending. */
  lemma MarkableBefore(s: Sys, a: Act, s': Sys, j: JobId)
    requires Inv(s.sched) && RunnerStep(s, a, s') && j in s.rows && MayBeMarked(s'.sched, s'.runner, j)
    ensures MayBeMarked(s.sched, s.runner, j) || s.rows[j].state == JobState.Pending
  {
    hide Inv, Queued, Step, LooksDead, Requeued;
    match a {
      case Reload =>
        if Queued(s'.sched, j) {
          QueuedIsLive(s'.sched, j);
        }
      case Draw(_, _) => DrawnMarkable(s, a, s', j);
      case Tidy(_) =>
        if Queued(s'.sched, j) {
          TidyQueued(s, a, s', j);
        }
      case Load(_) =>
        if Queued(s'.sched, j) {
          ToldPending(s, a, s', j);
        }
      case Tell(_) =>
        if Queued(s'.sched, j) {
          ToldPending(s, a, s', j);
        }
      case _ =>
    }
  }

  lemma DeadLeavesQuiet(s: Sys, dead: set<JobId>, s': Sys, j: JobId)
    requires RunnerStep(s, RequeueDead(dead), s') && j in s.rows && !Active(s.rows[j].state)
    ensures j in s'.rows && s'.rows[j] == s.rows[j]
  {
    assert j !in dead;
  }

  /** Every step keeps that. */
  lemma MarkableStep(s: Sys, a: Act, s': Sys, j: JobId, m: nat, n: nat)
    requires Safe(s) && RetryInv(s, j, m, n) && Next(s, a, s') && Counted(s, a, j)
    requires MayBeMarked(s'.sched, s'.runner, j)
    ensures j in s'.rows && (if Begins(a, s', j) then n + 1 else n) <= s'.rows[j].retry <= m + 1
  {
    hide LocksOk, Inv, MayBeMarked, Begins, WorkerStep, RunnerStep, UserStep;
    if WorkerStep(s, a, s') {
      WorkerSame(s, a, s');
      MarkableIsQuiet(s.rows, s.sched, s.runner, j);
      WorkerLeavesQuiet(s, a, s', j);
    } else {
      NotATry(s, a, s', j);
      if RunnerStep(s, a, s') {
        MarkableBefore(s, a, s', j);
        if MayBeMarked(s.sched, s.runner, j) {
          MarkableIsQuiet(s.rows, s.sched, s.runner, j);
        }
        if a.RequeueDead? {
          DeadLeavesQuiet(s, a.dead, s', j);
        } else {
          RunnerRow(s, a, s', j);
        }
      } else {
        UserSame(s, a, s');
        UserRow(s, a, s', j);
      }
    }
  }

  lemma WorkerSame(s: Sys, a: Act, s': Sys)
    requires WorkerStep(s, a, s')
    ensures s'.sched == s.sched && s'.runner == s.runner
  {
    hide Stored, Released, DepsDone;
  }

  lemma UserSame(s: Sys, a: Act, s': Sys)
    requires UserStep(s, a, s')
    ensures s'.sched == s.sched && s'.runner == s.runner
  {
    hide NewRows, UserDone, UserCancelled, UserRequeued;
  }

  lemma TriesStep(s: Sys, a: Act, s': Sys, j: JobId, m: nat, n: nat)
    requires Safe(s) && RetryInv(s, j, m, n) && Next(s, a, s') && Counted(s, a, j)
    ensures RetryInv(s', j, m, if Begins(a, s', j) then n + 1 else n)
  {
    hide LocksOk, RunnerOk, TryInv, Counted, MayBeMarked, WorkerStep, RunnerStep, UserStep;
    if MayBeMarked(s'.sched, s'.runner, j) {
      MarkableStep(s, a, s', j, m, n);
    }
    if WorkerStep(s, a, s') {
      WorkerTries(s, a, s', j, m, n);
    } else {
      NotATry(s, a, s', j);
      if RunnerStep(s, a, s') {
        RunnerTries(s, a, s', j, m, n);
      } else {
        UserTries(s, a, s', j, m, n);
      }
    }
  }

  lemma NotATry(s: Sys, a: Act, s': Sys, j: JobId)
    requires RunnerStep(s, a, s') || UserStep(s, a, s')
    ensures !Begins(a, s', j)
  {
    hide Step, Inv, LooksDead, Requeued, NewRows, UserDone, UserCancelled, UserRequeued;
  }

  /** A new job has no attempt to pay for. */
  lemma NewIsPaid(s: Sys, j: JobId, m: nat)
    requires j in s.rows && s.rows[j].maxRetries == m > 0 && s.rows[j].retry == 0
    requires s.rows[j].state.Pending? || s.rows[j].state.WaitDependencies?
    requires forall w <- s.phases :: !IsAcquired(s.phases[w], j) && !IsPerforming(s.phases[w], j)
    ensures RetryInv(s, j, m, 0)
  {
    hide MayBeMarked;
  }

  lemma {:induction false} RetryInvOverRuns(ss: seq<Sys>, acts: seq<Act>, j: JobId, m: nat, i: nat)
    requires Execution(ss, acts) && i < |ss| && Safe(ss[0]) && RetryInv(ss[0], j, m, 0)
    requires forall k | 0 <= k < |acts| :: Counted(ss[k], acts[k], j)
    ensures Safe(ss[i]) && RetryInv(ss[i], j, m, Attempts(ss, acts, j, i))
  {
    hide Safe, Next, Counted, RetryInv, Begins;
    if i > 0 {
      RetryInvOverRuns(ss, acts, j, m, i - 1);
      assert Next(ss[i - 1], acts[i - 1], ss[i]) && Counted(ss[i - 1], acts[i - 1], j);
      TriesStep(ss[i - 1], acts[i - 1], ss[i], j, m, Attempts(ss, acts, j, i - 1));
      SafeStep(ss[i - 1], acts[i - 1], ss[i]);
    }
  }

  /** A job with `max_retries` m > 0 is attempted m + 2 times at most, and when that often it is failed
      once the last attempt has ended (unless it succeeded or a user took it away): in every run
      where its attempts are counted, whatever becomes of other jobs and however late the runner's
      marks are. */
  lemma RetryBound(ss: seq<Sys>, acts: seq<Act>, j: JobId, m: nat, i: nat)
    requires Execution(ss, acts) && i < |ss| && Safe(ss[0])
    requires j in ss[0].rows && ss[0].rows[j].maxRetries == m > 0 && ss[0].rows[j].retry == 0
    requires ss[0].rows[j].state.Pending? || ss[0].rows[j].state.WaitDependencies?
    requires forall w <- ss[0].phases :: !IsAcquired(ss[0].phases[w], j)
    requires forall k | 0 <= k < |acts| :: Counted(ss[k], acts[k], j)
    ensures j in ss[i].rows && Attempts(ss, acts, j, i) <= m + 2
    ensures Attempts(ss, acts, j, i) == m + 2 ==>
      var state := ss[i].rows[j].state;
      state.Started? || state.Failed? || state.Done? || state.Cancelled?
  {
    NewIsPaid(ss[0], j, m);
    hide Execution, Safe, Counted, MayBeMarked, Attempts;
    RetryInvOverRuns(ss, acts, j, m, i);
  }
}
