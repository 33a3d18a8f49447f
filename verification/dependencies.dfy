/** Dependencies in every interleaving: no release is lost, and a job that may run has its
    dependencies done (queue_job/controllers/main.py, lines 98-150; queue_job/job.py, lines 496-505,
    552-565 and 828-841; queue_job/models/queue_job.py, lines 375-424). */
module Dependencies {
  import opened Channels
  import opened Options
  import opened JobStates
  import opened JobTable
  import opened Scheduler
  import opened Pipeline
  import opened ActiveJobs
  import opened Protocol
  import opened ExecutionSafety

  /** Every job has its dependencies recorded, among the jobs of the table, itself apart. */
  ghost predicate Graphed(rows: Rows, deps: Deps) {
    rows.Keys == deps.Keys && forall c <- deps :: deps[c] <= deps.Keys - {c}
  }

  lemma WorkerSameJobs(s: Sys, a: Act, s': Sys)
    requires WorkerStep(s, a, s')
    ensures s'.deps == s.deps && s'.rows.Keys == s.rows.Keys
  {
  }

  lemma RunnerSameJobs(s: Sys, a: Act, s': Sys)
    requires RunnerStep(s, a, s')
    ensures s'.deps == s.deps && s'.rows.Keys == s.rows.Keys
  {
    hide Step, LooksDead, Inv;
  }

  lemma UserSameJobs(s: Sys, a: Act, s': Sys)
    requires UserStep(s, a, s')
    ensures !a.Create? ==> s'.deps == s.deps && s'.rows.Keys == s.rows.Keys
    ensures a.Create? && Graphed(s.rows, s.deps) ==> Graphed(s'.rows, s'.deps)
  {
  }

  lemma GraphedStep(s: Sys, a: Act, s': Sys)
    requires Graphed(s.rows, s.deps) && Next(s, a, s')
    ensures Graphed(s'.rows, s'.deps) && (!a.Create? ==> s'.deps == s.deps && s'.rows.Keys == s.rows.Keys)
  {
    hide WorkerStep, RunnerStep, UserStep;
    if WorkerStep(s, a, s') {
      WorkerSameJobs(s, a, s');
    } else if RunnerStep(s, a, s') {
      RunnerSameJobs(s, a, s');
    } else {
      UserSameJobs(s, a, s');
    }
  }

  // ----- released jobs --------------------------------------------------------------------------

  /** The job waits although nothing is left to wait for. */
  predicate Overdue(rows: Rows, deps: Deps, c: JobId) {
    c in rows && rows[c].state == WaitDependencies && DepsDone(rows, deps, c)
  }

  /** Some worker has committed a dependency of the job and is about to look at its dependents. */
  ghost predicate InHand(phases: map<Worker, Phase>, deps: Deps, c: JobId) {
    exists w <- phases :: phases[w].Releasing? && phases[w].job in DepsOf(deps, c)
  }

  ghost predicate NoneLost(s: Sys) {
    forall c <- s.rows :: Overdue(s.rows, s.deps, c) ==> InHand(s.phases, s.deps, c)
  }

  /** The step is not the loss of a worker between its commit and the release of the dependents, and a
      job is acquired with its dependencies done. */
  predicate Careful(s: Sys, a: Act) {
    && (a.Crash? ==> !PhaseOf(s, a.worker).Releasing?)
    && (a.Acquire? ==> DepsDone(s.rows, s.deps, a.job))
  }

  /** Workers at work know that the dependencies of their jobs were done. */
  ghost predicate AllReady(phases: map<Worker, Phase>) {
    forall w <- phases :: phases[w].Acquired? || phases[w].Performing? ==> phases[w].ready
  }

  /** No job becomes overdue. */
  ghost predicate NoneOverdueAnew(rows: Rows, rows': Rows, deps: Deps) {
    forall c <- rows' :: Overdue(rows', deps, c) ==> Overdue(rows, deps, c)
  }

  /** No job becomes done, and jobs only start to wait when they have to. */
  lemma NoNewDone(rows: Rows, rows': Rows, deps: Deps)
    requires rows'.Keys == rows.Keys
    requires forall p <- rows :: rows'[p].state == Done ==> rows[p].state == Done
    requires forall c <- rows ::
      rows'[c].state == WaitDependencies && rows[c].state != WaitDependencies ==> !DepsDone(rows', deps, c)
    ensures NoneOverdueAnew(rows, rows', deps)
  {
  }

  lemma KeptInHand(s: Sys, s': Sys)
    requires NoneLost(s) && s'.deps == s.deps && NoneOverdueAnew(s.rows, s'.rows, s.deps) && s'.rows.Keys == s.rows.Keys
    requires forall w <- s.phases | s.phases[w].Releasing? :: w in s'.phases && s'.phases[w] == s.phases[w]
    ensures NoneLost(s')
  {
    forall c <- s'.rows | Overdue(s'.rows, s'.deps, c) ensures InHand(s'.phases, s'.deps, c) {
      var w :| w in s.phases && s.phases[w].Releasing? && s.phases[w].job in DepsOf(s.deps, c);
      assert w in s'.phases;
    }
  }

  /** A worker that commits a job as done has its dependents in hand. */
  lemma DoneInHand(s: Sys, w: Worker, s': Sys)
    requires NoneLost(s) && WorkerStep(s, Finish(w, Success), s')
    requires PhaseOf(s, w).job in s.rows && s.rows[PhaseOf(s, w).job].state == Started
    ensures NoneLost(s')
  {
    var j := PhaseOf(s, w).job;
    forall c <- s'.rows | Overdue(s'.rows, s'.deps, c) ensures InHand(s'.phases, s'.deps, c) {
      if j in DepsOf(s.deps, c) {
        assert w in s'.phases;
      } else {
        assert Overdue(s.rows, s.deps, c);
        var v :| v in s.phases && s.phases[v].Releasing? && s.phases[v].job in DepsOf(s.deps, c);
        assert v in s'.phases;
      }
    }
  }

  /** Storing any other outcome makes overdue at most the job itself, when it is postponed on the word of
      a memory that is out of date. */
  lemma StoredOverdue(rows: Rows, deps: Deps, j: JobId, retry: nat, ready: bool, outcome: Outcome, c: JobId)
    requires j in rows && rows[j].state == Started && !outcome.Success?
    ensures Overdue(Stored(rows, j, retry, ready, outcome), deps, c) <==>
      if c == j then EndOf(retry, rows[j].maxRetries, outcome).Postponed? && !ready && DepsDone(rows, deps, j) && j !in DepsOf(deps, j)
      else Overdue(rows, deps, c) && j !in DepsOf(deps, c)
  {
    var n := Stored(rows, j, retry, ready, outcome);
    if c in rows {
      if j in DepsOf(deps, c) {
        assert n[j].state != Done;
        assert !DepsDone(n, deps, c);
      } else {
        assert DepsDone(n, deps, c) <==> DepsDone(rows, deps, c);
      }
    }
  }

  lemma SameHands(s: Sys, s': Sys, c: JobId)
    requires s'.deps == s.deps
    requires forall v :: PhaseOf(s, v).Releasing? || PhaseOf(s', v).Releasing? ==> PhaseOf(s', v) == PhaseOf(s, v)
    ensures InHand(s'.phases, s'.deps, c) <==> InHand(s.phases, s.deps, c)
  {
    if w :| w in s.phases && s.phases[w].Releasing? && s.phases[w].job in DepsOf(s.deps, c) {
      assert PhaseOf(s', w) == PhaseOf(s, w);
    }
    if w :| w in s'.phases && s'.phases[w].Releasing? && s'.phases[w].job in DepsOf(s'.deps, c) {
      assert PhaseOf(s', w) == PhaseOf(s, w);
    }
  }

  /** The end of a job loses a release exactly when the job is postponed, the worker's memory says that its
      dependencies are not done, and meanwhile they are, with nobody about to release it. */
  lemma FinishKeepsIff(s: Sys, w: Worker, outcome: Outcome, s': Sys)
    requires Graphed(s.rows, s.deps) && NoneLost(s) && WorkerStep(s, Finish(w, outcome), s')
    requires var p := PhaseOf(s, w); p.job in s.rows && s.rows[p.job].state == Started
    ensures var p := PhaseOf(s, w);
      NoneLost(s') <==>
        !(EndOf(p.retry, s.rows[p.job].maxRetries, outcome).Postponed? && !p.ready && DepsDone(s.rows, s.deps, p.job)
          && !InHand(s.phases, s.deps, p.job))
  {
    var p := PhaseOf(s, w);
    if outcome.Success? {
      DoneInHand(s, w, s');
    } else {
      assert p.job in s.deps && p.job !in DepsOf(s.deps, p.job);
      var lost := EndOf(p.retry, s.rows[p.job].maxRetries, outcome).Postponed? && !p.ready && DepsDone(s.rows, s.deps, p.job);
      hide Graphed, Stored, DepsDone, InHand, EndOf;
      forall c ensures Overdue(s'.rows, s'.deps, c) <==> if c == p.job then lost else Overdue(s.rows, s.deps, c) && p.job !in DepsOf(s.deps, c) {
        StoredOverdue(s.rows, s.deps, p.job, p.retry, p.ready, outcome, c);
      }
      forall c ensures InHand(s'.phases, s'.deps, c) <==> InHand(s.phases, s.deps, c) {
        SameHands(s, s', c);
      }
      StartedBlocks(s, p.job);
      hide Overdue;
    }
  }

  /** A started job is not done, so whoever depends on it is not overdue. */
  lemma StartedBlocks(s: Sys, j: JobId)
    requires j in s.rows && s.rows[j].state == Started
    ensures forall c | j in DepsOf(s.deps, c) :: !Overdue(s.rows, s.deps, c)
    ensures !Overdue(s.rows, s.deps, j)
  {
  }

  /** A crash loses a release exactly when it takes away the last worker that has some overdue dependent of
      its job in hand. */
  lemma CrashKeepsIff(s: Sys, w: Worker, s': Sys)
    requires NoneLost(s) && WorkerStep(s, Crash(w), s')
    ensures NoneLost(s') <==>
      (PhaseOf(s, w).Releasing? ==>
        forall c <- Dependents(s.deps, PhaseOf(s, w).job) ::
          Overdue(s.rows, s.deps, c) ==> InHand(s.phases[w := Idle], s.deps, c))
  {
    hide Overdue;
    if !PhaseOf(s, w).Releasing? {
      forall c ensures InHand(s'.phases, s'.deps, c) <==> InHand(s.phases, s.deps, c) {
        SameHands(s, s', c);
      }
    } else {
      forall c | InHand(s.phases, s.deps, c) ensures c in Dependents(s.deps, PhaseOf(s, w).job) || InHand(s'.phases, s'.deps, c) {
        var v :| v in s.phases && s.phases[v].Releasing? && s.phases[v].job in DepsOf(s.deps, c);
        assert v != w ==> v in s'.phases && s'.phases[v] == s.phases[v];
      }
      OverdueRows(s);
    }
  }

  lemma OverdueRows(s: Sys)
    ensures forall c | Overdue(s.rows, s.deps, c) :: c in s.rows
  {
  }

  lemma ReleaseKeeps(s: Sys, w: Worker, s': Sys)
    requires Graphed(s.rows, s.deps) && NoneLost(s) && WorkerStep(s, CheckDependents(w), s')
    ensures NoneLost(s')
  {
    var j := PhaseOf(s, w).job;
    ReleasedAnew(s.rows, s.deps, j);
    forall c <- s'.rows | Overdue(s'.rows, s'.deps, c) ensures InHand(s'.phases, s'.deps, c) {
      var v :| v in s.phases && s.phases[v].Releasing? && s.phases[v].job in DepsOf(s.deps, c);
      assert v in s'.phases;
    }
  }

  /** After the release of a job's dependents none of them is overdue, and nothing else changes. */
  lemma ReleasedAnew(rows: Rows, deps: Deps, j: JobId)
    requires Graphed(rows, deps)
    ensures NoneOverdueAnew(rows, Released(rows, deps, j), deps)
    ensures forall c <- Dependents(deps, j) :: !Overdue(Released(rows, deps, j), deps, c)
  {
    var n := Released(rows, deps, j);
    forall c <- n ensures DepsDone(n, deps, c) == DepsDone(rows, deps, c) {
      assert forall p <- n :: n[p].state == Done <==> rows[p].state == Done;
    }
  }

  lemma DoneKeeps(s: Sys, j: JobId)
    requires Graphed(s.rows, s.deps) && NoneLost(s) && j in s.rows
    ensures NoneLost(s.(rows := Released(WithState(s.rows, j, Done), s.deps, j)))
  {
    var n := WithState(s.rows, j, Done);
    ReleasedAnew(n, s.deps, j);
    var s' := s.(rows := Released(n, s.deps, j));
    forall c <- s'.rows | Overdue(s'.rows, s.deps, c) ensures InHand(s.phases, s.deps, c) {
      assert Overdue(n, s.deps, c) && c !in Dependents(s.deps, j);
      assert Overdue(s.rows, s.deps, c);
    }
  }

  lemma CascadeAnew(rows: Rows, deps: Deps, j: JobId)
    requires j in rows && rows[j].state != Done
    ensures NoneOverdueAnew(rows, Cascaded(WithState(rows, j, Cancelled), deps, j), deps)
  {
    hide Stranded;
    var n := Cascaded(WithState(rows, j, Cancelled), deps, j);
    NoNewDone(rows, n, deps);
  }

  lemma RequeueAnew(rows: Rows, deps: Deps, j: JobId)
    requires Graphed(rows, deps)
    ensures NoneOverdueAnew(rows, UserRequeued(rows, deps, j), deps)
  {
    var n := UserRequeued(rows, deps, j);
    if j in rows && CanBeRequeued(rows[j].state) && n[j].state == WaitDependencies {
      assert !DepsDone(rows, deps, j);
      assert !DepsDone(n, deps, j);
    }
    NoNewDone(rows, n, deps);
  }

  lemma DeadAnew(rows: Rows, deps: Deps, dead: set<JobId>)
    requires forall j <- dead :: j in rows && Active(rows[j].state)
    ensures NoneOverdueAnew(rows, Requeued(rows, dead), deps)
  {
    NoNewDone(rows, Requeued(rows, dead), deps);
  }

  lemma MarkAnew(rows: Rows, deps: Deps, u: JobId)
    ensures NoneOverdueAnew(rows, WithState(rows, u, Enqueued), deps)
  {
    NoNewDone(rows, WithState(rows, u, Enqueued), deps);
  }

  lemma UserKeeps(s: Sys, a: Act, s': Sys)
    requires Graphed(s.rows, s.deps) && NoneLost(s) && UserStep(s, a, s') && !a.Create?
    ensures NoneLost(s')
  {
    hide NoneLost, NoneOverdueAnew, Graphed, Released, Cascaded, UserRequeued;
    match a {
      case PressDone(j) =>
        if j in s.rows && CanBeDone(s.rows[j].state) {
          DoneKeeps(s, j);
        } else {
          assert s' == s;
        }
      case PressCancel(j) =>
        if j in s.rows && CanBeDone(s.rows[j].state) {
          CascadeAnew(s.rows, s.deps, j);
          SameKeys(s, a, s');
          KeptInHand(s, s');
        } else {
          assert s' == s;
        }
      case Requeue(j) =>
        RequeueAnew(s.rows, s.deps, j);
        SameKeys(s, a, s');
        KeptInHand(s, s');
    }
  }

  lemma SameKeys(s: Sys, a: Act, s': Sys)
    requires UserStep(s, a, s') && !a.Create?
    ensures s'.rows.Keys == s.rows.Keys
  {
  }

  lemma NewNotOverdue(s: Sys, a: Act, s': Sys, c: JobId)
    requires UserStep(s, a, s') && a.Create? && c in a.batch
    ensures !Overdue(s'.rows, s'.deps, c)
  {
    if s'.rows[c].state == WaitDependencies {
      var p :| p in a.batch[c];
      assert p in DepsOf(s'.deps, c) && s'.rows[p].state != Done;
    }
  }

  lemma CreateKeeps(s: Sys, a: Act, s': Sys)
    requires Graphed(s.rows, s.deps) && NoneLost(s) && UserStep(s, a, s') && a.Create?
    ensures NoneLost(s')
  {
    forall c <- s'.rows | Overdue(s'.rows, s'.deps, c) ensures InHand(s'.phases, s'.deps, c) {
      if c in s.rows {
        assert s'.deps[c] == s.deps[c];
        assert Overdue(s.rows, s.deps, c);
      } else {
        NewNotOverdue(s, a, s', c);
        assert false;
      }
    }
  }

  lemma RunnerKeepsReleases(s: Sys, a: Act, s': Sys)
    requires NoneLost(s) && RunnerStep(s, a, s')
    ensures NoneLost(s')
  {
    hide NoneLost, Overdue, Step, Inv;
    if a.RequeueDead? {
      DeadAnew(s.rows, s.deps, a.dead);
      KeptInHand(s, s');
    } else if a.Mark? {
      MarkAnew(s.rows, s.deps, s.runner.asked[0]);
      KeptInHand(s, s');
    } else {
      assert s'.rows == s.rows && s'.deps == s.deps && s'.phases == s.phases;
      SameSame(s, s');
    }
  }

  lemma SameSame(s: Sys, s': Sys)
    requires NoneLost(s) && s'.rows == s.rows && s'.deps == s.deps && s'.phases == s.phases
    ensures NoneLost(s')
  {
  }

  // ----- exactly which steps lose a release -----------------------------------------------------

  /** What is left to look at before a step. A postponed job must not be left waiting on the word of a
      memory that is out of date, unless somebody is about to release it; and a worker must not be lost
      that alone has an overdue dependent in hand. */
  ghost predicate Harmless(s: Sys, a: Act) {
    match a
    case Finish(w, outcome) =>
      var p := PhaseOf(s, w);
      (p.Performing? && p.job in s.rows && EndOf(p.retry, s.rows[p.job].maxRetries, outcome).Postponed?
        && !p.ready && DepsDone(s.rows, s.deps, p.job)) ==> InHand(s.phases, s.deps, p.job)
    case Crash(w) =>
      PhaseOf(s, w).Releasing? ==>
        forall c <- Dependents(s.deps, PhaseOf(s, w).job) ::
          Overdue(s.rows, s.deps, c) ==> InHand(s.phases[w := Idle], s.deps, c)
    case _ => true
  }

  lemma WorkerKeepsIff(s: Sys, a: Act, s': Sys)
    requires Graphed(s.rows, s.deps) && NoneLost(s) && LocksOk(s) && WorkerStep(s, a, s')
    ensures NoneLost(s') <==> Harmless(s, a)
  {
    match a {
      case Finish(w, outcome) =>
        var p := PhaseOf(s, w);
        assert p.job in s.rows && s.rows[p.job].state == Started;
        hide NoneLost, Graphed, Stored, DepsDone, InHand, EndOf, LocksOk;
        FinishKeepsIff(s, w, outcome, s');
      case Crash(w) =>
        hide NoneLost, Graphed, InHand, Overdue, LocksOk;
        CrashKeepsIff(s, w, s');
      case CheckDependents(w) =>
        hide NoneLost, Graphed, Released, LocksOk;
        ReleaseKeeps(s, w, s');
      case _ =>
        hide NoneLost, Graphed, DepsDone, NoneOverdueAnew, LocksOk;
        NoNewDone(s.rows, s'.rows, s.deps);
        KeptInHand(s, s');
    }
  }

  /** A step loses no release exactly when it is harmless: whoever takes it, worker, runner, requeuer or
      user. */
  lemma ReleaseStepIff(s: Sys, a: Act, s': Sys)
    requires Safe(s) && Graphed(s.rows, s.deps) && NoneLost(s) && Next(s, a, s')
    ensures NoneLost(s') <==> Harmless(s, a)
  {
    hide NoneLost, Graphed, WorkerStep, RunnerStep, UserStep, RunnerOk, LocksOk;
    if WorkerStep(s, a, s') {
      WorkerKeepsIff(s, a, s');
    } else {
      NotOfWorkers(s, a, s');
      if RunnerStep(s, a, s') {
        RunnerKeepsReleases(s, a, s');
      } else if a.Create? {
        CreateKeeps(s, a, s');
      } else {
        UserKeeps(s, a, s');
      }
    }
  }

  lemma NotOfWorkers(s: Sys, a: Act, s': Sys)
    requires RunnerStep(s, a, s') || UserStep(s, a, s')
    ensures Harmless(s, a)
  {
    hide Step, Inv, LooksDead, Requeued, UserDone, UserCancelled, UserRequeued, NewRows, WithState;
  }

  lemma {:induction false} GraphedOverRuns(ss: seq<Sys>, acts: seq<Act>, i: nat)
    requires Execution(ss, acts) && Initial(ss[0]) && i < |ss|
    ensures Graphed(ss[i].rows, ss[i].deps)
  {
    if i > 0 {
      GraphedOverRuns(ss, acts, i - 1);
      assert Next(ss[i - 1], acts[i - 1], ss[i]);
      hide Execution, Initial, Graphed, Next;
      GraphedStep(ss[i - 1], acts[i - 1], ss[i]);
    }
  }

  lemma HarmlessStep(ss: seq<Sys>, acts: seq<Act>, k: nat)
    requires Execution(ss, acts) && Initial(ss[0]) && k < |acts| && NoneLost(ss[k])
    ensures NoneLost(ss[k + 1]) <==> Harmless(ss[k], acts[k])
  {
    GraphedOverRuns(ss, acts, k);
    SafeOverRuns(ss, acts, k);
    assert Next(ss[k], acts[k], ss[k + 1]);
    hide Execution, Initial, NoneLost, Graphed, Safe, Next, Harmless;
    ReleaseStepIff(ss[k], acts[k], ss[k + 1]);
  }

  lemma {:induction false} NoneLostAt(ss: seq<Sys>, acts: seq<Act>, i: nat)
    requires Execution(ss, acts) && Initial(ss[0]) && i < |ss|
    requires forall k | 0 <= k < i :: Harmless(ss[k], acts[k])
    ensures NoneLost(ss[i])
  {
    if i > 0 {
      NoneLostAt(ss, acts, i - 1);
      hide Execution, Initial, NoneLost, Harmless;
      HarmlessStep(ss, acts, i - 1);
    }
  }

  /** A run loses no release, in any of its states, exactly when each of its steps is harmless. */
  lemma NoneLostIff(ss: seq<Sys>, acts: seq<Act>)
    requires Execution(ss, acts) && Initial(ss[0])
    ensures (forall i | 0 <= i < |ss| :: NoneLost(ss[i])) <==> (forall k | 0 <= k < |acts| :: Harmless(ss[k], acts[k]))
  {
    hide Initial, NoneLost, Harmless, Next;
    if forall i | 0 <= i < |ss| :: NoneLost(ss[i]) {
      forall k | 0 <= k < |acts| ensures Harmless(ss[k], acts[k]) {
        HarmlessStep(ss, acts, k);
      }
    }
    if forall k | 0 <= k < |acts| :: Harmless(ss[k], acts[k]) {
      forall i | 0 <= i < |ss| ensures NoneLost(ss[i]) {
        NoneLostAt(ss, acts, i);
      }
    }
  }

  // ----- runs that lose no release ---------------------------------------------------------------

  lemma SamePhases(s: Sys, a: Act, s': Sys)
    requires RunnerStep(s, a, s') || UserStep(s, a, s')
    ensures s'.phases == s.phases
  {
    hide Step, Inv, LooksDead, Requeued, UserDone, UserCancelled, UserRequeued, NewRows, WithState;
  }

  lemma ReadyPhases(s: Sys, a: Act, s': Sys)
    requires WorkerStep(s, a, s') && Careful(s, a) && AllReady(s.phases)
    ensures AllReady(s'.phases)
  {
    hide Released, Stored, DepsDone;
  }

  lemma {:induction false} ReadyWorkers(ss: seq<Sys>, acts: seq<Act>, i: nat)
    requires Execution(ss, acts) && Initial(ss[0]) && i < |ss|
    requires forall k | 0 <= k < i :: Careful(ss[k], acts[k])
    ensures AllReady(ss[i].phases)
  {
    if i > 0 {
      ReadyWorkers(ss, acts, i - 1);
      var s, a, s' := ss[i - 1], acts[i - 1], ss[i];
      assert Next(s, a, s') && Careful(s, a);
      hide Execution, Initial, WorkerStep, RunnerStep, UserStep, Careful, AllReady;
      if WorkerStep(s, a, s') {
        ReadyPhases(s, a, s');
      } else {
        SamePhases(s, a, s');
      }
    }
  }

  lemma CarefulIsHarmless(s: Sys, a: Act)
    requires Careful(s, a) && AllReady(s.phases)
    ensures Harmless(s, a)
  {
    hide InHand, DepsDone, Overdue, EndOf;
  }

  /** No release is lost, in every state of every run without a crash between commit and release, where
      jobs are acquired with their dependencies done. */
  lemma NoneLostOverRuns(ss: seq<Sys>, acts: seq<Act>, i: nat)
    requires Execution(ss, acts) && Initial(ss[0]) && i < |ss|
    requires forall k | 0 <= k < |acts| :: Careful(ss[k], acts[k])
    ensures NoneLost(ss[i])
  {
    forall k | 0 <= k < i ensures Harmless(ss[k], acts[k]) {
      ReadyWorkers(ss, acts, k);
      hide Execution, Initial, AllReady, Harmless;
      CarefulIsHarmless(ss[k], acts[k]);
    }
    hide Execution, Initial, NoneLost, Harmless;
    NoneLostAt(ss, acts, i);
  }

  /** So when no worker is at work, every job that waits has something to wait for. */
  lemma NoneOverdueAtRest(ss: seq<Sys>, acts: seq<Act>, i: nat, c: JobId)
    requires Execution(ss, acts) && Initial(ss[0]) && i < |ss|
    requires forall k | 0 <= k < i :: Harmless(ss[k], acts[k])
    requires forall w :: PhaseOf(ss[i], w) == Idle
    requires c in ss[i].rows && ss[i].rows[c].state == WaitDependencies
    ensures exists p <- DepsOf(ss[i].deps, c) :: p in ss[i].rows && ss[i].rows[p].state != Done
  {
    NoneLostAt(ss, acts, i);
    hide Execution, Initial, Harmless;
    var s := ss[i];
    NobodyAtWork(s, c);
  }

  lemma NobodyAtWork(s: Sys, c: JobId)
    requires forall w :: PhaseOf(s, w) == Idle
    ensures !InHand(s.phases, s.deps, c)
  {
    forall w <- s.phases ensures !s.phases[w].Releasing? {
      assert PhaseOf(s, w) == s.phases[w];
    }
  }

  // ----- jobs that may run ----------------------------------------------------------------------

  /** The job is on its way to run. */
  predicate MayRun(state: JobState) {
    state.Pending? || state.Enqueued? || state.Started?
  }

  ghost predicate Ready(rows: Rows, deps: Deps) {
    forall c <- rows :: MayRun(rows[c].state) ==> DepsDone(rows, deps, c)
  }

  ghost predicate NoneDependsLive(rows: Rows, deps: Deps, j: JobId) {
    forall c <- Dependents(deps, j) :: c in rows ==> !MayRun(rows[c].state)
  }

  /** What is left to look at before a step: a done job must not be requeued while a dependent is on its way;
      and a job that is marked enqueued must have its dependencies done, and no dependent on its way should it be
      done itself. */
  ghost predicate InTime(s: Sys, a: Act) {
    match a
    case Requeue(j) => IsDone(s.rows, j) ==> NoneDependsLive(s.rows, s.deps, j)
    case Mark =>
      s.runner.Open? && s.runner.asked != [] && s.runner.asked[0] in s.rows ==>
        var u := s.runner.asked[0];
        DepsDone(s.rows, s.deps, u) && (IsDone(s.rows, u) ==> NoneDependsLive(s.rows, s.deps, u))
    case _ => true
  }

  /** In particular: no done job is requeued, and the runner marks pending jobs only. */
  predicate Orderly(s: Sys, a: Act) {
    && (a.Requeue? ==> !IsDone(s.rows, a.job))
    && (a.Mark? && s.runner.Open? && s.runner.asked != [] ==>
          var u := s.runner.asked[0]; u in s.rows && s.rows[u].state == JobState.Pending)
  }

  lemma OrderlyIsInTime(s: Sys, a: Act)
    requires Ready(s.rows, s.deps) && Orderly(s, a)
    ensures InTime(s, a)
  {
    hide DepsDone, NoneDependsLive;
  }

  /** Jobs stay done, and a job comes to be on its way only with its dependencies done. */
  lemma StaysReady(rows: Rows, rows': Rows, deps: Deps)
    requires Ready(rows, deps) && rows'.Keys == rows.Keys
    requires forall p <- rows :: rows[p].state == Done ==> rows'[p].state == Done
    requires forall c <- rows :: MayRun(rows'[c].state) && !MayRun(rows[c].state) ==> DepsDone(rows', deps, c)
    ensures Ready(rows', deps)
  {
  }

  lemma StoredReady(rows: Rows, deps: Deps, j: JobId, retry: nat, ready: bool, outcome: Outcome)
    requires Ready(rows, deps) && j in rows && rows[j].state == Started
    ensures Ready(Stored(rows, j, retry, ready, outcome), deps)
  {
    StaysReady(rows, Stored(rows, j, retry, ready, outcome), deps);
  }

  lemma ReleasedReady(rows: Rows, deps: Deps, j: JobId)
    requires Ready(rows, deps)
    ensures Ready(Released(rows, deps, j), deps)
  {
    StaysReady(rows, Released(rows, deps, j), deps);
  }

  lemma DoneReady(rows: Rows, deps: Deps, j: JobId)
    requires Ready(rows, deps)
    ensures Ready(UserDone(rows, deps, j), deps)
  {
    if j in rows && CanBeDone(rows[j].state) {
      var n := WithState(rows, j, Done);
      StaysReady(rows, n, deps);
      ReleasedReady(n, deps, j);
    }
  }

  lemma CancelledReady(rows: Rows, deps: Deps, j: JobId)
    requires Ready(rows, deps)
    ensures Ready(UserCancelled(rows, deps, j), deps)
  {
    if j in rows && CanBeDone(rows[j].state) {
      var m := WithState(rows, j, Cancelled);
      var n := Cascaded(m, deps, j);
      StaysReady(rows, m, deps);
      forall c | Stranded(m, deps, j, c) ensures c in m && m[c].state == WaitDependencies {
        StrandedWaits(m, deps, j, c);
      }
      hide Stranded;
      StaysReady(m, n, deps);
    }
  }

  lemma RequeuedReady(rows: Rows, deps: Deps, j: JobId)
    requires Graphed(rows, deps) && Ready(rows, deps) && !IsDone(rows, j)
    ensures Ready(UserRequeued(rows, deps, j), deps)
  {
    StaysReady(rows, UserRequeued(rows, deps, j), deps);
  }

  lemma CreatedReady(s: Sys, a: Act, s': Sys)
    requires Graphed(s.rows, s.deps) && Ready(s.rows, s.deps) && UserStep(s, a, s') && a.Create?
    ensures Ready(s'.rows, s'.deps)
  {
    forall c <- s'.rows | MayRun(s'.rows[c].state) ensures DepsDone(s'.rows, s'.deps, c) {
    }
  }

  lemma RunnerReady(s: Sys, a: Act, s': Sys)
    requires Ready(s.rows, s.deps) && RunnerStep(s, a, s') && !a.Mark?
    ensures Ready(s'.rows, s'.deps)
  {
    RunnerSameJobs(s, a, s');
    hide Step, Inv, Ready;
    StaysReady(s.rows, s'.rows, s.deps);
  }

  lemma MarkedReady(s: Sys, s': Sys)
    requires Graphed(s.rows, s.deps) && Ready(s.rows, s.deps) && RunnerStep(s, Mark, s')
    ensures Ready(s'.rows, s'.deps) <==> InTime(s, Mark)
  {
    hide Graphed, Ready, NoneDependsLive, DepsDone;
    var u := s.runner.asked[0];
    if u in s.rows {
      MarkReadyIff(s.rows, s.deps, u);
    } else {
      assert s'.rows == s.rows;
    }
  }

  lemma WorkerReady(s: Sys, a: Act, s': Sys)
    requires Graphed(s.rows, s.deps) && Ready(s.rows, s.deps) && WorkerStep(s, a, s')
    requires forall w <- s.phases | s.phases[w].Performing? ::
      s.phases[w].job in s.rows && s.rows[s.phases[w].job].state == Started
    ensures Ready(s'.rows, s'.deps)
  {
    hide Ready, Stored, Released, Graphed;
    match a {
      case Finish(w, outcome) =>
        var p := PhaseOf(s, w);
        StoredReady(s.rows, s.deps, p.job, p.retry, p.ready, outcome);
      case CheckDependents(w) => ReleasedReady(s.rows, s.deps, PhaseOf(s, w).job);
      case Acquire(w, j) => StaysReady(s.rows, s'.rows, s.deps);
      case _ =>
    }
  }

  lemma UserReady(s: Sys, a: Act, s': Sys)
    requires Graphed(s.rows, s.deps) && Ready(s.rows, s.deps) && UserStep(s, a, s')
    ensures Ready(s'.rows, s'.deps) <==> InTime(s, a)
  {
    hide Ready, Graphed, NoneDependsLive, UserDone, UserCancelled, UserRequeued;
    if a.Create? {
      hide NewRows, UserStep;
      CreatedReady(s, a, s');
    } else {
      DoneReady(s.rows, s.deps, a.job);
      CancelledReady(s.rows, s.deps, a.job);
      RequeueReadyIff(s.rows, s.deps, a.job);
    }
  }

  lemma WorkersInTime(s: Sys, a: Act, s': Sys)
    requires WorkerStep(s, a, s') || (RunnerStep(s, a, s') && !a.Mark?)
    ensures InTime(s, a)
  {
    hide Step, Inv, LooksDead, Requeued, Stored, Released, DepsDone;
  }

  /** A step lets no job be on its way too early, exactly when it is in time. */
  lemma ReadyStepIff(s: Sys, a: Act, s': Sys)
    requires Safe(s) && Graphed(s.rows, s.deps) && Ready(s.rows, s.deps) && Next(s, a, s')
    ensures Ready(s'.rows, s'.deps) <==> InTime(s, a)
  {
    hide Ready, Graphed, WorkerStep, RunnerStep, UserStep, RunnerOk, InTime;
    if WorkerStep(s, a, s') {
      WorkerReady(s, a, s');
      WorkersInTime(s, a, s');
    } else if RunnerStep(s, a, s') {
      if a.Mark? {
        MarkedReady(s, s');
      } else {
        RunnerReady(s, a, s');
        WorkersInTime(s, a, s');
      }
    } else {
      UserReady(s, a, s');
    }
  }

  lemma InTimeStep(ss: seq<Sys>, acts: seq<Act>, k: nat)
    requires Execution(ss, acts) && Initial(ss[0]) && k < |acts| && Ready(ss[k].rows, ss[k].deps)
    ensures Ready(ss[k + 1].rows, ss[k + 1].deps) <==> InTime(ss[k], acts[k])
  {
    GraphedOverRuns(ss, acts, k);
    SafeOverRuns(ss, acts, k);
    assert Next(ss[k], acts[k], ss[k + 1]);
    hide Execution, Initial, Ready, Graphed, Safe, Next, InTime;
    ReadyStepIff(ss[k], acts[k], ss[k + 1]);
  }

  lemma {:induction false} ReadyAt(ss: seq<Sys>, acts: seq<Act>, i: nat)
    requires Execution(ss, acts) && Initial(ss[0]) && i < |ss|
    requires forall k | 0 <= k < i :: InTime(ss[k], acts[k])
    ensures Ready(ss[i].rows, ss[i].deps)
  {
    if i > 0 {
      ReadyAt(ss, acts, i - 1);
      hide Execution, Initial, Ready, InTime;
      InTimeStep(ss, acts, i - 1);
    }
  }

  /** In every state of a run the jobs that are pending, enqueued or started have all their dependencies done,
      exactly when each of its steps is in time. */
  lemma ReadyIff(ss: seq<Sys>, acts: seq<Act>)
    requires Execution(ss, acts) && Initial(ss[0])
    ensures (forall i | 0 <= i < |ss| :: Ready(ss[i].rows, ss[i].deps)) <==>
      (forall k | 0 <= k < |acts| :: InTime(ss[k], acts[k]))
  {
    hide Initial, Ready, InTime, Next;
    if forall i | 0 <= i < |ss| :: Ready(ss[i].rows, ss[i].deps) {
      forall k | 0 <= k < |acts| ensures InTime(ss[k], acts[k]) {
        InTimeStep(ss, acts, k);
      }
    }
    if forall k | 0 <= k < |acts| :: InTime(ss[k], acts[k]) {
      forall i | 0 <= i < |ss| ensures Ready(ss[i].rows, ss[i].deps) {
        ReadyAt(ss, acts, i);
      }
    }
  }

  /** So it is in every run where no done job is requeued and the runner marks pending jobs only. */
  lemma {:induction false} ReadyOverRuns(ss: seq<Sys>, acts: seq<Act>, i: nat)
    requires Execution(ss, acts) && Initial(ss[0]) && i < |ss|
    requires forall k | 0 <= k < i :: Orderly(ss[k], acts[k])
    ensures Ready(ss[i].rows, ss[i].deps)
  {
    if i > 0 {
      ReadyOverRuns(ss, acts, i - 1);
      hide Execution, Initial, Ready, InTime, Orderly;
      OrderlyIsInTime(ss[i - 1], acts[i - 1]);
      InTimeStep(ss, acts, i - 1);
    }
  }

  /** In runs that are in time no release is lost but by a crash between commit and release. */
  lemma NoneLostInOrder(ss: seq<Sys>, acts: seq<Act>, i: nat)
    requires Execution(ss, acts) && Initial(ss[0]) && i < |ss|
    requires forall k | 0 <= k < |acts| :: InTime(ss[k], acts[k])
    requires forall k | 0 <= k < |acts| :: acts[k].Crash? ==> !PhaseOf(ss[k], acts[k].worker).Releasing?
    ensures NoneLost(ss[i])
  {
    forall k | 0 <= k < |acts| ensures Careful(ss[k], acts[k]) {
      ReadyAt(ss, acts, k);
      assert Next(ss[k], acts[k], ss[k + 1]);
      hide Execution, Initial, RunnerStep, UserStep, InTime;
    }
    hide Execution, InTime, Careful;
    NoneLostOverRuns(ss, acts, i);
  }

  /** Requeuing a done job keeps this exactly when none of its dependents is on its way. */
  lemma RequeueReadyIff(rows: Rows, deps: Deps, j: JobId)
    requires Graphed(rows, deps) && Ready(rows, deps)
    ensures Ready(UserRequeued(rows, deps, j), deps) <==> (IsDone(rows, j) ==> NoneDependsLive(rows, deps, j))
  {
    var n := UserRequeued(rows, deps, j);
    if !IsDone(rows, j) {
      RequeuedReady(rows, deps, j);
    } else if NoneDependsLive(rows, deps, j) {
      forall c <- n | MayRun(n[c].state) ensures DepsDone(n, deps, c) {
        assert c != j ==> c !in Dependents(deps, j);
      }
    } else {
      var c :| c in Dependents(deps, j) && c in rows && MayRun(rows[c].state);
      assert n[c] == rows[c] && j in DepsOf(deps, c) && n[j].state != Done;
    }
  }

  /** Marking a job enqueued keeps it exactly when the job's own dependencies are done and, should
      the job be done already, none of its dependents is on its way. */
  lemma MarkReadyIff(rows: Rows, deps: Deps, u: JobId)
    requires Graphed(rows, deps) && Ready(rows, deps) && u in rows
    ensures Ready(WithState(rows, u, Enqueued), deps) <==>
      DepsDone(rows, deps, u) && (IsDone(rows, u) ==> NoneDependsLive(rows, deps, u))
  {
    var n := WithState(rows, u, Enqueued);
    assert DepsDone(n, deps, u) == DepsDone(rows, deps, u);
    if DepsDone(rows, deps, u) && (IsDone(rows, u) ==> NoneDependsLive(rows, deps, u)) {
      forall c <- n | MayRun(n[c].state) ensures DepsDone(n, deps, c) {
        if c != u && IsDone(rows, u) {
          assert c !in Dependents(deps, u);
        }
      }
    } else if DepsDone(rows, deps, u) {
      var c :| c in Dependents(deps, u) && c in rows && MayRun(rows[c].state);
      assert n[c] == rows[c] && u in DepsOf(deps, c);
    }
  }
}
