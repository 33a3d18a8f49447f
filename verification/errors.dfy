/** How long a job goes on that raises counted retryable errors: exactly up to its `max_retries`
    (queue_job/job.py, lines 507-537; queue_job/controllers/main.py, lines 153-181). */
module RetryErrors {
  import opened Channels
  import opened JobStates
  import opened JobTable
  import opened Scheduler
  import opened Pipeline
  import opened ActiveJobs
  import opened QueuedJobs
  import opened Protocol
  import opened ExecutionSafety
  import opened Retries

  /** Every attempt on this job ends in a counted retryable error, its worker does not die meanwhile, the requeuer
      takes it from nobody who has acquired it, and users do not requeue it. */
  predicate Erring(s: Sys, a: Act, j: JobId) {
    && (a.Finish? && IsPerforming(PhaseOf(s, a.worker), j) ==> a.outcome == Retryable(false))
    && (a.Crash? ==> !IsPerforming(PhaseOf(s, a.worker), j))
    && (a.RequeueDead? && j in a.dead ==> j in s.rows && s.rows[j].state != Started)
    && (a.Requeue? ==> a.job != j)
  }

  /** `n` attempts have been begun; those that have ended are the retries counted. */
  ghost predicate ErrorRow(row: Row, m: nat, n: nat, performed: bool) {
    && row.maxRetries == m && n <= m
    && (row.state.Pending? || row.state.WaitDependencies? || row.state.Enqueued? ==> n == row.retry < m)
    && (row.state.Started? ==> if performed then n == row.retry + 1 else n == row.retry < m)
    && (row.state.Failed? ==> n == m)
  }

  ghost predicate IsPerformed(phases: map<Worker, Phase>, j: JobId) {
    exists w <- phases :: IsPerforming(phases[w], j)
  }

  ghost predicate ErrorsPaid(s: Sys, j: JobId, m: nat, n: nat) {
    && j in s.rows && ErrorRow(s.rows[j], m, n, IsPerformed(s.phases, j))
    && (forall w <- s.phases :: IsAcquired(s.phases[w], j) ==>
          && s.rows[j].state == Started && s.phases[w].retry == s.rows[j].retry
          && forall v <- s.phases :: IsPerforming(s.phases[v], j) || IsAcquired(s.phases[v], j) ==> v == w)
    && (forall w <- s.phases :: IsPerforming(s.phases[w], j) ==> s.phases[w].retry == s.rows[j].retry)
  }

  /** A job that the runner may yet mark has an attempt left. */
  ghost predicate ErrorInv(s: Sys, j: JobId, m: nat, n: nat) {
    ErrorsPaid(s, j, m, n) && (MayBeMarked(s.sched, s.runner, j) ==> n == s.rows[j].retry < m)
  }

  // ----- every step -----------------------------------------------------------------------------

  /** A change of the job's row by someone else than its worker. */
  lemma OthersErr(s: Sys, s': Sys, j: JobId, m: nat, n: nat)
    requires ErrorsPaid(s, j, m, n) && j in s'.rows && s'.phases == s.phases
    requires s'.rows[j].maxRetries == s.rows[j].maxRetries && s'.rows[j].retry == s.rows[j].retry
    requires s.rows[j].state == Started || s'.rows[j].state == Started ==> s'.rows[j] == s.rows[j]
    requires s'.rows[j].state.Failed? ==> s.rows[j].state.Failed?
    requires s'.rows[j].state.Pending? || s'.rows[j].state.Enqueued? || s'.rows[j].state.WaitDependencies? ==>
      s.rows[j].state.Pending? || s.rows[j].state.Enqueued? || s.rows[j].state.WaitDependencies? || n == s.rows[j].retry < m
    ensures ErrorsPaid(s', j, m, n)
  {
    hide IsPerformed;
  }

  lemma AcquireErrs(s: Sys, w: Worker, k: JobId, s': Sys, j: JobId, m: nat, n: nat)
    requires LocksOk(s) && ErrorsPaid(s, j, m, n) && WorkerStep(s, Acquire(w, k), s')
    ensures ErrorsPaid(s', j, m, n)
  {
    if k == j {
      NobodyPerforms(s, j);
    }
    if v :| v in s'.phases && IsPerforming(s'.phases[v], j) {
      assert v in s.phases && s.phases[v] == s'.phases[v];
    }
    if v :| v in s.phases && IsPerforming(s.phases[v], j) {
      assert PhaseOf(s, v) != Idle;
      assert s'.phases[v] == s.phases[v];
    }
    hide IsPerformed, LocksOk, DepsDone;
  }

  /** A job that is not started is performed by nobody. */
  lemma NobodyPerforms(s: Sys, j: JobId)
    requires LocksOk(s) && j in s.rows && s.rows[j].state != Started
    ensures !IsPerformed(s.phases, j)
  {
  }

  /** Only those in `vs` may differ in who performs the job. */
  lemma SamePerformers(phases: map<Worker, Phase>, phases': map<Worker, Phase>, j: JobId)
    requires forall v <- phases | IsPerforming(phases[v], j) :: v in phases' && IsPerforming(phases'[v], j)
    requires forall v <- phases' | IsPerforming(phases'[v], j) :: v in phases && IsPerforming(phases[v], j)
    ensures IsPerformed(phases', j) <==> IsPerformed(phases, j)
  {
  }

  lemma LockErrs(s: Sys, w: Worker, s': Sys, j: JobId, m: nat, n: nat)
    requires LocksOk(s) && ErrorsPaid(s, j, m, n) && WorkerStep(s, TryLock(w), s')
    ensures ErrorsPaid(s', j, m, if Begins(TryLock(w), s', j) then n + 1 else n)
  {
    var p := PhaseOf(s, w);
    if p.job == j {
      assert IsAcquired(s.phases[w], j);
      forall v <- s.phases ensures !IsPerforming(s.phases[v], j) {
      }
      assert !IsPerformed(s.phases, j);
      if Begins(TryLock(w), s', j) {
        assert IsPerforming(s'.phases[w], j);
      } else {
        assert s'.phases == s.phases[w := Idle];
        assert !IsPerformed(s'.phases, j);
      }
    } else {
      SamePerformers(s.phases, s'.phases, j);
      hide IsPerformed;
    }
  }

  lemma FinishErrs(s: Sys, w: Worker, outcome: Outcome, s': Sys, j: JobId, m: nat, n: nat)
    requires LocksOk(s) && ErrorsPaid(s, j, m, n) && WorkerStep(s, Finish(w, outcome), s') && Erring(s, Finish(w, outcome), j)
    ensures ErrorsPaid(s', j, m, n)
  {
    var p := PhaseOf(s, w);
    StoredRow(s.rows, p.job, p.retry, p.ready, outcome);
    if p.job == j {
      assert IsPerforming(s.phases[w], j);
      assert IsPerformed(s.phases, j);
      ErrorStored(s.rows, j, p.retry, p.ready, m);
      hide Stored;
    } else {
      hide Stored;
      assert s'.rows[j] == s.rows[j];
      SamePerformers(s.phases, s'.phases, j);
      hide IsPerformed, LocksOk;
    }
  }

  lemma ErrorStored(rows: Rows, j: JobId, retry: nat, ready: bool, m: nat)
    requires j in rows && rows[j].maxRetries == m && retry < m
    ensures var row := Stored(rows, j, retry, ready, Retryable(false))[j];
      && row.retry == retry + 1 && row.maxRetries == m
      && if retry + 1 == m then row.state.Failed? else row.state.Pending? || row.state.WaitDependencies?
  {
  }

  lemma UnlockErrs(s: Sys, a: Act, s': Sys, j: JobId, m: nat, n: nat)
    requires LocksOk(s) && ErrorsPaid(s, j, m, n) && WorkerStep(s, a, s') && (a.Unlock? || a.Crash?) && Erring(s, a, j)
    ensures ErrorsPaid(s', j, m, n)
  {
    SamePerformers(s.phases, s'.phases, j);
    hide IsPerformed, LocksOk;
  }

  lemma ReleaseErrs(s: Sys, w: Worker, s': Sys, j: JobId, m: nat, n: nat)
    requires LocksOk(s) && ErrorsPaid(s, j, m, n) && WorkerStep(s, CheckDependents(w), s')
    ensures ErrorsPaid(s', j, m, n)
  {
    var p := PhaseOf(s, w);
    assert s'.rows[j] == s.rows[j] ||
      (s.rows[j].state == WaitDependencies && s'.rows[j] == s.rows[j].(state := JobState.Pending));
    SamePerformers(s.phases, s'.phases, j);
    hide Released, LocksOk, IsPerformed;
  }

  lemma WorkerErrs(s: Sys, a: Act, s': Sys, j: JobId, m: nat, n: nat)
    requires LocksOk(s) && ErrorsPaid(s, j, m, n) && WorkerStep(s, a, s') && Erring(s, a, j)
    ensures ErrorsPaid(s', j, m, if Begins(a, s', j) then n + 1 else n)
  {
    hide ErrorsPaid, LocksOk, Erring;
    match a {
      case Finish(w, outcome) => FinishErrs(s, w, outcome, s', j, m, n);
      case CheckDependents(w) => ReleaseErrs(s, w, s', j, m, n);
      case TryLock(w) => LockErrs(s, w, s', j, m, n);
      case Acquire(w, k) => AcquireErrs(s, w, k, s', j, m, n);
      case Unlock(w) => UnlockErrs(s, a, s', j, m, n);
      case Crash(w) => UnlockErrs(s, a, s', j, m, n);
    }
  }

  lemma DeadErrs(s: Sys, dead: set<JobId>, s': Sys, j: JobId, m: nat, n: nat)
    requires LocksOk(s) && ErrorsPaid(s, j, m, n) && RunnerStep(s, RequeueDead(dead), s') && Erring(s, RequeueDead(dead), j)
    ensures ErrorsPaid(s', j, m, n)
  {
    if j in dead {
      assert LooksDead(s.rows[j], j in s.locks);
    } else {
      assert s'.rows[j] == s.rows[j];
    }
    hide LocksOk, Requeued, IsPerformed;
  }

  lemma RunnerErrs(s: Sys, a: Act, s': Sys, j: JobId, m: nat, n: nat)
    requires Safe(s) && ErrorInv(s, j, m, n) && RunnerStep(s, a, s') && Erring(s, a, j)
    ensures ErrorsPaid(s', j, m, n)
  {
    hide Step, Inv, LooksDead, Requeued, RunnerOk;
    if a.RequeueDead? {
      DeadErrs(s, a.dead, s', j, m, n);
    } else {
      RunnerRow(s, a, s', j);
      if a.Mark? {
        MarksNoActive(s, s');
        hide Queued;
        assert s.runner.asked[0] in s.runner.asked;
      }
      hide RunnerStep, LocksOk, ErrorsPaid;
      OthersErr(s, s', j, m, n) by {
        hide MayBeMarked;
      }
    }
  }

  lemma UserErrs(s: Sys, a: Act, s': Sys, j: JobId, m: nat, n: nat)
    requires ErrorsPaid(s, j, m, n) && UserStep(s, a, s') && Erring(s, a, j)
    ensures ErrorsPaid(s', j, m, n)
  {
    UserRow(s, a, s', j);
    hide UserStep;
    OthersErr(s, s', j, m, n);
  }

  /** A job that may be marked after a step was so before, with its row as it was but for its state, or is pending. */
  lemma MarkableErrs(s: Sys, a: Act, s': Sys, j: JobId, m: nat, n: nat)
    requires Safe(s) && ErrorInv(s, j, m, n) && Next(s, a, s') && Erring(s, a, j)
    requires MayBeMarked(s'.sched, s'.runner, j)
    ensures j in s'.rows && !Begins(a, s', j) && n == s'.rows[j].retry < m
  {
    hide LocksOk, Inv, MayBeMarked, Begins, WorkerStep, RunnerStep, UserStep, IsPerformed;
    if WorkerStep(s, a, s') {
      WorkerSame(s, a, s');
      MarkableIsQuiet(s.rows, s.sched, s.runner, j);
      WorkerLeavesQuiet(s, a, s', j);
    } else {
      NotATry(s, a, s', j);
      if RunnerStep(s, a, s') {
        MarkableBefore(s, a, s', j);
        if MayBeMarked(s.sched, s.runner, j) {
          MarkableIsQuiet(s.rows, s.sched, s.runner, j);
        }
        if a.RequeueDead? {
          DeadLeavesQuiet(s, a.dead, s', j);
        } else {
          RunnerRow(s, a, s', j);
        }
      } else {
        UserSame(s, a, s');
        UserRow(s, a, s', j);
      }
    }
  }

  lemma ErrorStep(s: Sys, a: Act, s': Sys, j: JobId, m: nat, n: nat)
    requires Safe(s) && ErrorInv(s, j, m, n) && Next(s, a, s') && Erring(s, a, j)
    ensures ErrorInv(s', j, m, if Begins(a, s', j) then n + 1 else n)
  {
    hide LocksOk, RunnerOk, ErrorsPaid, Erring, MayBeMarked, WorkerStep, RunnerStep, UserStep;
    if MayBeMarked(s'.sched, s'.runner, j) {
      MarkableErrs(s, a, s', j, m, n);
    }
    if WorkerStep(s, a, s') {
      WorkerErrs(s, a, s', j, m, n);
    } else {
      NotATry(s, a, s', j);
      if RunnerStep(s, a, s') {
        RunnerErrs(s, a, s', j, m, n);
      } else {
        UserErrs(s, a, s', j, m, n);
      }
    }
  }

  // ----- every run ------------------------------------------------------------------------------

  lemma NewHasNoErrors(s: Sys, j: JobId, m: nat)
    requires j in s.rows && s.rows[j].maxRetries == m > 0 && s.rows[j].retry == 0
    requires s.rows[j].state.Pending? || s.rows[j].state.WaitDependencies?
    requires forall w <- s.phases :: !IsAcquired(s.phases[w], j) && !IsPerforming(s.phases[w], j)
    ensures ErrorInv(s, j, m, 0)
  {
    hide MayBeMarked;
  }

  lemma {:induction false} ErrorInvOverRuns(ss: seq<Sys>, acts: seq<Act>, j: JobId, m: nat, i: nat)
    requires Execution(ss, acts) && i < |ss| && Safe(ss[0]) && ErrorInv(ss[0], j, m, 0)
    requires forall k | 0 <= k < |acts| :: Erring(ss[k], acts[k], j)
    ensures Safe(ss[i]) && ErrorInv(ss[i], j, m, Attempts(ss, acts, j, i))
  {
    hide Safe, Next, Erring, ErrorInv, Begins;
    if i > 0 {
      ErrorInvOverRuns(ss, acts, j, m, i - 1);
      assert Next(ss[i - 1], acts[i - 1], ss[i]) && Erring(ss[i - 1], acts[i - 1], j);
      ErrorStep(ss[i - 1], acts[i - 1], ss[i], j, m, Attempts(ss, acts, j, i - 1));
      SafeStep(ss[i - 1], acts[i - 1], ss[i]);
    }
  }

  /** A job with `max_retries` m > 0 whose attempts all end in counted retryable errors is attempted m times: it is
      not failed before the m-th attempt, and once that has ended it is failed, unless a user took it away. */
  lemma FailsAtTheLast(ss: seq<Sys>, acts: seq<Act>, j: JobId, m: nat, i: nat)
    requires Execution(ss, acts) && i < |ss| && Safe(ss[0])
    requires j in ss[0].rows && ss[0].rows[j].maxRetries == m > 0 && ss[0].rows[j].retry == 0
    requires ss[0].rows[j].state.Pending? || ss[0].rows[j].state.WaitDependencies?
    requires forall w <- ss[0].phases :: !IsAcquired(ss[0].phases[w], j)
    requires forall k | 0 <= k < |acts| :: Erring(ss[k], acts[k], j)
    ensures j in ss[i].rows && Attempts(ss, acts, j, i) <= m
    ensures ss[i].rows[j].state == Failed ==> Attempts(ss, acts, j, i) == m
    ensures Attempts(ss, acts, j, i) == m && (forall w :: !IsPerforming(PhaseOf(ss[i], w), j)) ==>
      ss[i].rows[j].state == Failed || ss[i].rows[j].state == Done || ss[i].rows[j].state == Cancelled
  {
    NewHasNoErrors(ss[0], j, m);
    hide Execution, Safe, Erring, MayBeMarked, Attempts;
    ErrorInvOverRuns(ss, acts, j, m, i);
    assert forall w <- ss[i].phases :: PhaseOf(ss[i], w) == ss[i].phases[w];
  }
}
