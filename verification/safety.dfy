/** Execution safety in every interleaving: at most one worker performs a job, nothing but that worker
    touches its row, and the runner never marks an enqueued or started job again
    (queue_job/controllers/main.py, lines 57-114; queue_job/jobrunner/runner.py, lines 207-280 and
    395-451; queue_job/job.py, lines 247-295). */
module ExecutionSafety {
  import opened Channels
  import opened JobStates
  import opened JobTable
  import opened Scheduler
  import opened Pipeline
  import opened ActiveJobs
  import opened Protocol

  predicate Holds(p: Phase, j: JobId) {
    (p.Performing? || p.Settling?) && p.job == j
  }

  /** The locks are the ones the workers hold, and a performed job is started. */
  ghost predicate LocksOk(s: Sys) {
    && (forall j <- s.locks :: Holds(PhaseOf(s, s.locks[j]), j))
    && (forall w <- s.phases :: (s.phases[w].Performing? || s.phases[w].Settling?) ==>
          s.phases[w].job in s.locks && s.locks[s.phases[w].job] == w)
    && (forall w <- s.phases :: s.phases[w].Performing? ==>
          s.phases[w].job in s.rows && s.rows[s.phases[w].job].state == Started && s.rows[s.phases[w].job].lockRow)
  }

  /** What the runner believes of the active jobs. */
  ghost predicate RunnerOk(rows: Rows, sched: Sched, r: Runner) {
    && Inv(sched)
    && (r.Open? ==>
      && (forall j <- rows | Active(rows[j].state) ::
            if j in r.toLoad then Active(r.toLoad[j]) else Runs(sched, j))
      && (forall j <- r.toLoad :: j !in sched.jobs)
      && (forall j <- r.asked :: Runs(sched, j) && (j in rows ==> !Active(rows[j].state)))
      && (forall i, k | 0 <= i < k < |r.asked| :: r.asked[i] != r.asked[k])
      && (r.asked != [] ==> r.toLoad == map[]))
  }

  ghost predicate Safe(s: Sys) {
    LocksOk(s) && RunnerOk(s.rows, s.sched, s.runner)
  }

  // ----- changes of the table that disturb nobody -----------------------------------------------

  /** No job is created or becomes active, and the row of a performed job is left alone. */
  ghost predicate Gentle(rows: Rows, rows': Rows, locked: set<JobId>) {
    && rows'.Keys == rows.Keys
    && (forall j <- rows :: Active(rows'[j].state) ==> Active(rows[j].state))
    && (forall j <- rows | j in locked && rows[j].state == Started && rows[j].lockRow :: rows'[j] == rows[j])
  }

  lemma GentleReleased(rows: Rows, deps: Deps, j: JobId, locked: set<JobId>)
    ensures Gentle(rows, Released(rows, deps, j), locked)
  {
  }

  lemma GentleCascaded(rows: Rows, deps: Deps, j: JobId, locked: set<JobId>)
    ensures Gentle(rows, Cascaded(rows, deps, j), locked)
  {
    hide Chain;
    forall c <- rows | Stranded(rows, deps, j, c) ensures rows[c].state == WaitDependencies {
      StrandedWaits(rows, deps, j, c);
    }
  }

  lemma StrandedWaits(rows: Rows, deps: Deps, j: JobId, c: JobId)
    requires Stranded(rows, deps, j, c)
    ensures c in rows && rows[c].state == WaitDependencies
  {
  }

  lemma GentleTwice(a: Rows, b: Rows, c: Rows, locked: set<JobId>)
    requires Gentle(a, b, locked) && Gentle(b, c, locked)
    ensures Gentle(a, c, locked)
  {
  }

  lemma GentleWith(rows: Rows, j: JobId, state: JobState, locked: set<JobId>)
    requires j in rows && rows[j].state != Started && !Active(state)
    ensures Gentle(rows, WithState(rows, j, state), locked)
  {
  }

  lemma GentleUser(s: Sys, a: Act, s': Sys)
    requires UserStep(s, a, s') && !a.Create?
    ensures Gentle(s.rows, s'.rows, s.locks.Keys) && s' == s.(rows := s'.rows)
  {
    hide Gentle, Released, Cascaded;
    var locked := s.locks.Keys;
    GentleSelf(s.rows, locked);
    match a {
      case PressDone(j) =>
        if j in s.rows && CanBeDone(s.rows[j].state) {
          GentleWith(s.rows, j, Done, locked);
          GentleReleased(WithState(s.rows, j, Done), s.deps, j, locked);
          GentleTwice(s.rows, WithState(s.rows, j, Done), s'.rows, locked);
        }
      case PressCancel(j) =>
        if j in s.rows && CanBeDone(s.rows[j].state) {
          GentleWith(s.rows, j, Cancelled, locked);
          GentleCascaded(WithState(s.rows, j, Cancelled), s.deps, j, locked);
          GentleTwice(s.rows, WithState(s.rows, j, Cancelled), s'.rows, locked);
        }
      case Requeue(j) => GentleRequeued(s.rows, s.deps, j, locked);
    }
  }

  lemma GentleSelf(rows: Rows, locked: set<JobId>)
    ensures Gentle(rows, rows, locked)
  {
  }

  lemma GentleRequeued(rows: Rows, deps: Deps, j: JobId, locked: set<JobId>)
    ensures Gentle(rows, UserRequeued(rows, deps, j), locked)
  {
  }

  /** The requeuer passes over the rows of performed jobs. */
  lemma GentleDead(s: Sys, dead: set<JobId>)
    requires dead <= s.rows.Keys && forall j <- dead :: LooksDead(s.rows[j], j in s.locks)
    ensures Gentle(s.rows, Requeued(s.rows, dead), s.locks.Keys)
  {
  }

  lemma GentleStep(s: Sys, rows: Rows)
    requires Safe(s) && Gentle(s.rows, rows, s.locks.Keys)
    ensures Safe(s.(rows := rows))
  {
    GentleRunner(s.rows, rows, s.locks.Keys, s.sched, s.runner);
    GentleLocks(s, rows);
  }

  lemma GentleLocks(s: Sys, rows: Rows)
    requires LocksOk(s) && Gentle(s.rows, rows, s.locks.Keys)
    ensures LocksOk(s.(rows := rows))
  {
  }

  lemma GentleRunner(rows: Rows, rows': Rows, locked: set<JobId>, sched: Sched, r: Runner)
    requires RunnerOk(rows, sched, r) && Gentle(rows, rows', locked)
    ensures RunnerOk(rows', sched, r)
  {
  }

  // ----- workers ------------------------------------------------------------------------------

  lemma AcquireSafe(s: Sys, w: Worker, j: JobId, s': Sys)
    requires Safe(s) && WorkerStep(s, Acquire(w, j), s')
    ensures Safe(s')
  {
    assert Gentle(s.rows, s'.rows, {});
    GentleRunner(s.rows, s'.rows, {}, s.sched, s.runner);
    hide RunnerOk, DepsDone;
  }

  lemma TryLockSafe(s: Sys, w: Worker, s': Sys)
    requires Safe(s) && WorkerStep(s, TryLock(w), s')
    ensures Safe(s')
  {
    hide RunnerOk;
  }

  /** Storing an outcome changes the job's own row only, which is then active no more. */
  lemma StoredRow(rows: Rows, j: JobId, retry: nat, ready: bool, outcome: Outcome)
    requires j in rows
    ensures var n := Stored(rows, j, retry, ready, outcome);
      && n.Keys == rows.Keys && !Active(n[j].state) && n[j].lockRow == rows[j].lockRow
      && (forall k <- rows | k != j :: n[k] == rows[k])
  {
  }

  lemma FinishSafe(s: Sys, w: Worker, outcome: Outcome, s': Sys)
    requires Safe(s) && WorkerStep(s, Finish(w, outcome), s')
    ensures Safe(s')
  {
    var p := PhaseOf(s, w);
    StoredRow(s.rows, p.job, p.retry, p.ready, outcome);
    hide Inv, Runs, Stored;
    assert Gentle(s.rows, s'.rows, {});
    GentleRunner(s.rows, s'.rows, {}, s.sched, s.runner);
    hide RunnerOk;
    assert LocksOk(s');
  }

  lemma UnlockSafe(s: Sys, w: Worker, s': Sys)
    requires Safe(s) && (WorkerStep(s, Unlock(w), s') || WorkerStep(s, Crash(w), s'))
    ensures Safe(s')
  {
    hide Inv, Runs, RunnerOk;
  }

  lemma ReleaseSafe(s: Sys, w: Worker, s': Sys)
    requires Safe(s) && WorkerStep(s, CheckDependents(w), s')
    ensures Safe(s')
  {
    var p := PhaseOf(s, w);
    GentleReleased(s.rows, s.deps, p.job, s.locks.Keys);
    GentleStep(s, s'.rows);
    hide Inv, Runs, RunnerOk, Released, Gentle;
  }

  lemma WorkerSafe(s: Sys, a: Act, s': Sys)
    requires Safe(s) && WorkerStep(s, a, s')
    ensures Safe(s')
  {
    hide Safe, LocksOk, RunnerOk, Stored, Released;
    match a {
      case Acquire(w, j) => AcquireSafe(s, w, j, s');
      case TryLock(w) => TryLockSafe(s, w, s');
      case Finish(w, outcome) => FinishSafe(s, w, outcome, s');
      case Unlock(w) => UnlockSafe(s, w, s');
      case CheckDependents(w) => ReleaseSafe(s, w, s');
      case Crash(w) => UnlockSafe(s, w, s');
    }
  }

  // ----- the runner ---------------------------------------------------------------------------

  /** An event that is not about a job leaves what the runner believes of it. */
  lemma RunnerKeeps(rows: Rows, s: Sched, e: Event, s': Sched, r: Runner)
    requires RunnerOk(rows, s, r) && Step(s, e, s') && (e.Grown? || e.Configured? || e.Forgotten?)
    ensures RunnerOk(rows, s', r)
  {
    InvStep(s, e, s');
    hide Inv, Runs, Step;
    if r.Open? {
      forall u | Runs(s, u) ensures Runs(s', u) {
        RunsStep(s, e, s', u);
      }
      TidyJobs(s, e, s');
    }
  }

  lemma TidyJobs(s: Sched, e: Event, s': Sched)
    requires Step(s, e, s') && (e.Grown? || e.Configured? || e.Forgotten?)
    ensures s'.jobs.Keys <= s.jobs.Keys
  {
  }

  lemma NoticeJobs(s: Sched, e: Event, s': Sched, u: string, state: JobState)
    requires Inv(s) && Step(s, e, s') && Notifies(e, u, state)
    ensures s'.jobs.Keys == s.jobs.Keys + {u} && (e.Kept? ==> u in s.jobs)
    ensures About(s, e, u) && (Active(state) ==> SaysActive(e)) && forall x | x != u :: !About(s, e, x)
  {
  }

  lemma LoadSafe(s: Sys, e: Event, s': Sys)
    requires Safe(s) && RunnerStep(s, Load(e), s')
    ensures Safe(s')
  {
    var r := s.runner;
    var u :| u in r.toLoad && Notifies(e, u, r.toLoad[u]) && s'.runner == r.(toLoad := r.toLoad - {u});
    InvStep(s.sched, e, s'.sched);
    NoticeJobs(s.sched, e, s'.sched, u, r.toLoad[u]);
    hide Inv, Step, Notifies, About;
    forall j <- s.rows | Active(s.rows[j].state)
      ensures if j in s'.runner.toLoad then Active(s'.runner.toLoad[j]) else Runs(s'.sched, j)
    {
      hide Runs;
      if j == u {
        assert Active(r.toLoad[u]);
        ToldRuns(s.sched, e, s'.sched, u);
      } else if j !in r.toLoad {
        RunsStep(s.sched, e, s'.sched, j);
      }
    }
    hide Runs;
  }

  lemma TellSafe(s: Sys, e: Event, s': Sys)
    requires Safe(s) && RunnerStep(s, Tell(e), s')
    ensures Safe(s')
  {
    InvStep(s.sched, e, s'.sched);
    forall j <- s.rows | Active(s.rows[j].state) ensures Runs(s'.sched, j) {
      hide Runs, Inv;
      if e.Removed? {
        RunsStep(s.sched, e, s'.sched, j);
      } else {
        var u :| u in s.rows && Notifies(e, u, s.rows[u].state);
        NoticeJobs(s.sched, e, s'.sched, u, s.rows[u].state);
        if j == u {
          ToldRuns(s.sched, e, s'.sched, u);
        } else {
          RunsStep(s.sched, e, s'.sched, j);
        }
      }
    }
    hide Runs, Inv;
  }

  /** The jobs drawn from the channels were not running, so their rows are not active. */
  lemma DrawSafe(s: Sys, now: Time, log: Drain, s': Sys)
    requires Safe(s) && RunnerStep(s, Draw(now, log), s')
    ensures Safe(s')
  {
    assert LocksOk(s') by {
      hide Inv, Step, RunnerOk;
    }
    hide LocksOk, Step;
    DrawnRunner(s.rows, s.sched, now, log, s'.sched);
  }

  lemma DrawnRunner(rows: Rows, s: Sched, now: Time, log: Drain, s': Sched)
    requires RunnerOk(rows, s, Open(map[], [])) && Step(s, Drained(now, log), s')
    ensures RunnerOk(rows, s', Open(map[], Uuids(log.out)))
  {
    hide Inv, Runs, Step;
    InvStep(s, Drained(now, log), s');
    DrawnStep(s, now, log, s');
    DrainedOnce(s, now, log);
    forall j <- Uuids(log.out) ensures Runs(s', j) && (j in rows ==> !Active(rows[j].state)) {
      var i :| 0 <= i < |log.out| && log.out[i].uuid == j;
      DrainedOut(s, now, log, log.out[i]);
    }
    forall j <- rows | Active(rows[j].state) ensures Runs(s', j) {
      RunsStep(s, Drained(now, log), s', j);
    }
  }

  lemma DrawnStep(s: Sched, now: Time, log: Drain, s': Sched)
    requires Step(s, Drained(now, log), s')
    ensures log.channel.parent == null && DrainOk(s.net, log, now) && s' == s.(net := Replay(s.net, log, now))
  {
  }

  lemma MarkSafe(s: Sys, s': Sys)
    requires Safe(s) && RunnerStep(s, Mark, s')
    ensures Safe(s')
  {
    hide Inv, Runs;
    var u := s.runner.asked[0];
    assert u in s.runner.asked;
    forall j <- s'.runner.asked ensures j != u && j in s.runner.asked {
      var i :| 0 <= i < |s'.runner.asked| && s'.runner.asked[i] == j;
      assert s.runner.asked[i + 1] == j;
    }
  }

  lemma ReloadSafe(s: Sys, s': Sys)
    requires Safe(s) && RunnerStep(s, Reload, s')
    ensures Safe(s')
  {
    hide Inv, Runs;
  }

  lemma CloseSafe(s: Sys, a: Act, s': Sys)
    requires Safe(s) && RunnerStep(s, a, s') && (a.Boot? || a.Close?)
    ensures Safe(s')
  {
    if a.Close? {
      InvStep(s.sched, a.e, s'.sched);
    }
    hide Inv, Step;
  }

  lemma RunnerSafe(s: Sys, a: Act, s': Sys)
    requires Safe(s) && RunnerStep(s, a, s')
    ensures Safe(s')
  {
    hide Safe, LocksOk, RunnerOk, Step, Inv, LooksDead;
    match a {
      case RequeueDead(dead) =>
        GentleDead(s, dead);
        GentleStep(s, s'.rows);
      case Boot(_) => CloseSafe(s, a, s');
      case Close(_) => CloseSafe(s, a, s');
      case Reload => ReloadSafe(s, s');
      case Load(e) => LoadSafe(s, e, s');
      case Tell(e) => TellSafe(s, e, s');
      case Tidy(e) => TidySafe(s, e, s');
      case Draw(now, log) => DrawSafe(s, now, log, s');
      case Mark => MarkSafe(s, s');
    }
  }

  lemma TidySafe(s: Sys, e: Event, s': Sys)
    requires Safe(s) && RunnerStep(s, Tidy(e), s')
    ensures Safe(s')
  {
    hide RunnerOk, Step, Inv;
    RunnerKeeps(s.rows, s.sched, e, s'.sched, s.runner);
  }

  // ----- users --------------------------------------------------------------------------------

  lemma CreateSafe(s: Sys, a: Act, s': Sys)
    requires Safe(s) && UserStep(s, a, s') && a.Create?
    ensures Safe(s')
  {
    forall j <- s'.rows | j !in s.rows ensures !Active(s'.rows[j].state) {
    }
    assert forall j <- s.rows :: j in s'.rows && s'.rows[j] == s.rows[j];
    hide Inv, Runs, NewRows;
    CreatedLocks(s, s');
    CreatedRunner(s.rows, s'.rows, s.sched, s.runner);
  }

  lemma CreatedLocks(s: Sys, s': Sys)
    requires LocksOk(s) && s' == s.(rows := s'.rows, deps := s'.deps)
    requires forall j <- s.rows :: j in s'.rows && s'.rows[j] == s.rows[j]
    ensures LocksOk(s')
  {
  }

  lemma CreatedRunner(rows: Rows, rows': Rows, sched: Sched, r: Runner)
    requires RunnerOk(rows, sched, r) && forall j <- rows :: j in rows' && rows'[j] == rows[j]
    requires forall j <- rows' | j !in rows :: !Active(rows'[j].state)
    ensures RunnerOk(rows', sched, r)
  {
    hide Inv, Runs;
  }

  lemma UserSafe(s: Sys, a: Act, s': Sys)
    requires Safe(s) && UserStep(s, a, s')
    ensures Safe(s')
  {
    if a.Create? {
      CreateSafe(s, a, s');
    } else {
      GentleUser(s, a, s');
      hide Safe, UserStep, Gentle;
      GentleStep(s, s'.rows);
    }
  }

  // ----- every step, every run ------------------------------------------------------------------

  lemma SafeStep(s: Sys, a: Act, s': Sys)
    requires Safe(s) && Next(s, a, s')
    ensures Safe(s')
  {
    hide Safe, WorkerStep, RunnerStep, UserStep;
    if WorkerStep(s, a, s') {
      WorkerSafe(s, a, s');
    } else if RunnerStep(s, a, s') {
      RunnerSafe(s, a, s');
    } else {
      UserSafe(s, a, s');
    }
  }

  lemma {:induction false} SafeOverRuns(ss: seq<Sys>, acts: seq<Act>, i: nat)
    requires Execution(ss, acts) && Initial(ss[0]) && i < |ss|
    ensures Safe(ss[i])
  {
    if i > 0 {
      SafeOverRuns(ss, acts, i - 1);
      hide Safe, Next;
      SafeStep(ss[i - 1], acts[i - 1], ss[i]);
    }
  }

  // ----- what safety means ----------------------------------------------------------------------

  lemma GentleRow(rows: Rows, rows': Rows, locked: set<JobId>, j: JobId)
    requires Gentle(rows, rows', locked) && j in rows && j in locked && rows[j].state == Started && rows[j].lockRow
    ensures j in rows' && rows'[j] == rows[j]
  {
  }

  lemma WorkerLeaves(s: Sys, a: Act, s': Sys, w: Worker)
    requires LocksOk(s) && WorkerStep(s, a, s') && PhaseOf(s, w).Performing? && !(a.Finish? && a.worker == w)
    ensures var j := PhaseOf(s, w).job; j in s.rows && j in s'.rows && s'.rows[j] == s.rows[j]
  {
    var j := PhaseOf(s, w).job;
    hide Stored, Released, Gentle, DepsDone;
    if a.Finish? {
      var p := PhaseOf(s, a.worker);
      StoredRow(s.rows, p.job, p.retry, p.ready, a.outcome);
    } else if a.CheckDependents? {
      GentleReleased(s.rows, s.deps, PhaseOf(s, a.worker).job, s.locks.Keys);
      GentleRow(s.rows, s'.rows, s.locks.Keys, j);
    }
  }

  lemma RunnerLeaves(s: Sys, a: Act, s': Sys, w: Worker)
    requires Safe(s) && RunnerStep(s, a, s') && PhaseOf(s, w).Performing?
    ensures var j := PhaseOf(s, w).job; j in s.rows && j in s'.rows && s'.rows[j] == s.rows[j]
  {
    var j := PhaseOf(s, w).job;
    if a.RequeueDead? {
      GentleDead(s, a.dead);
      hide Gentle, Requeued, LooksDead;
      GentleRow(s.rows, s'.rows, s.locks.Keys, j);
    } else if a.Mark? {
      MarksNoActive(s, s');
    }
    hide RunnerOk, Step, Gentle, LooksDead;
  }

  /** While a worker performs a job, no step but its own finish touches the job's row: no other
      worker's, nor the requeuer's, the runner's or a user's. */
  lemma OnlyItsWorker(s: Sys, a: Act, s': Sys, w: Worker)
    requires Safe(s) && Next(s, a, s') && PhaseOf(s, w).Performing? && !(a.Finish? && a.worker == w)
    ensures var j := PhaseOf(s, w).job; j in s.rows && j in s'.rows && s'.rows[j] == s.rows[j]
  {
    hide WorkerStep, RunnerStep, RunnerOk, Gentle;
    if WorkerStep(s, a, s') {
      WorkerLeaves(s, a, s', w);
    } else if RunnerStep(s, a, s') {
      RunnerLeaves(s, a, s', w);
    } else if !a.Create? {
      GentleUser(s, a, s');
      hide UserStep;
      GentleRow(s.rows, s'.rows, s.locks.Keys, PhaseOf(s, w).job);
    }
  }

  /** The runner marks no job that is enqueued or started. */
  lemma MarksNoActive(s: Sys, s': Sys)
    requires Safe(s) && RunnerStep(s, Mark, s')
    ensures var u := s.runner.asked[0]; u in s.rows ==> !Active(s.rows[u].state)
  {
    assert s.runner.asked[0] in s.runner.asked;
  }

  /** Execution safety, in every state of every run. */
  lemma SafeExecution(ss: seq<Sys>, acts: seq<Act>, i: nat)
    requires Execution(ss, acts) && Initial(ss[0]) && i < |acts|
    ensures forall v, w ::
      PhaseOf(ss[i], v).Performing? && PhaseOf(ss[i], w).Performing? && PhaseOf(ss[i], v).job == PhaseOf(ss[i], w).job
      ==> v == w
    ensures forall w :: PhaseOf(ss[i], w).Performing? ==>
      var j := PhaseOf(ss[i], w).job;
      && j in ss[i].rows && ss[i].rows[j].state == Started
      && (acts[i].RequeueDead? ==> j !in acts[i].dead)
      && ((acts[i].Finish? && acts[i].worker == w) || (j in ss[i + 1].rows && ss[i + 1].rows[j] == ss[i].rows[j]))
    ensures acts[i].Mark? ==>
      && ss[i].runner.Open? && ss[i].runner.asked != []
      && (ss[i].runner.asked[0] in ss[i].rows ==> !Active(ss[i].rows[ss[i].runner.asked[0]].state))
  {
    SafeOverRuns(ss, acts, i);
    var s, a, s' := ss[i], acts[i], ss[i + 1];
    assert Next(s, a, s');
    hide Execution, RunnerOk, Initial;
    if a.Mark? {
      MarksNoActive(s, s');
    }
    forall w | PhaseOf(s, w).Performing?
      ensures var j := PhaseOf(s, w).job;
        && j in s.rows && s.rows[j].state == Started
        && (a.RequeueDead? ==> j !in a.dead)
        && ((a.Finish? && a.worker == w) || (j in s'.rows && s'.rows[j] == s.rows[j]))
    {
      if !(a.Finish? && a.worker == w) {
        hide Next;
        OnlyItsWorker(s, a, s', w);
      }
    }
  }
}
