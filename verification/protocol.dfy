/** The execution of jobs as an interleaving of workers, one runner, its requeuer of dead jobs and
    the users, over the shared job table. Each step is one transaction or one move of the runner
    (queue_job/controllers/main.py, lines 54-197; queue_job/jobrunner/runner.py, lines 207-280 and
    395-451; queue_job/job.py, lines 231-295 and 496-587; queue_job/models/queue_job.py, lines
    375-424). */
module Protocol {
  import opened Channels
  import opened Options
  import opened JobStates
  import opened JobTable
  import opened Scheduler
  import opened Pipeline
  import opened ActiveJobs

  type Worker = nat

  /** What a worker is doing. `ready` tells whether the job's dependencies were done when the worker
      loaded the job: the answer is kept in memory, and used when the job is postponed.
      - `Acquired`: the job is committed as started, its lock not yet asked for
      - `Performing`: the lock is held, and the job's function runs
      - `Settling`: the outcome is committed from another cursor, the lock is still held
      - `Releasing`: done is committed (so the lock is gone), the dependents not yet looked at */
  datatype Phase =
    | Idle
    | Acquired(job: JobId, retry: nat, ready: bool)
    | Performing(job: JobId, retry: nat, ready: bool)
    | Settling(job: JobId)
    | Releasing(job: JobId)

  /** The runner has no databases at hand; or it has, with rows still to load and jobs handed out by
      the channels but not yet marked enqueued. */
  datatype Runner = Closed | Open(toLoad: map<JobId, JobState>, asked: seq<JobId>)

  datatype Sys = Sys(
    rows: Rows, deps: Deps, locks: map<JobId, Worker>, phases: map<Worker, Phase>, sched: Sched, runner: Runner)

  function PhaseOf(s: Sys, w: Worker): Phase {
    if w in s.phases then s.phases[w] else Idle
  }

  // ----- performing a job ---------------------------------------------------------------------

  /** How the job's function ends. A conflict is a concurrency error of the database. */
  datatype Outcome = Success | Retryable(ignoreRetry: bool) | Conflict | Failure

  datatype End = Finished | Postponed | Broken

  function EndOf(retry: nat, maxRetries: nat, outcome: Outcome): End {
    match outcome
    case Success => Finished
    case Retryable(ignoreRetry) =>
      if ignoreRetry || maxRetries == 0 then Postponed else if retry + 1 >= maxRetries then Broken else Postponed
    case Conflict => Postponed
    case Failure => Broken
  }

  function Tries(retry: nat, outcome: Outcome): nat {
    if outcome == Retryable(true) then retry else retry + 1
  }

  /** The table once the outcome is stored. */
  function Stored(rows: Rows, j: JobId, retry: nat, ready: bool, outcome: Outcome): Rows
    requires j in rows
  {
    var n := match EndOf(retry, rows[j].maxRetries, outcome)
      case Finished => WithState(rows, j, Done)
      case Postponed => WithState(rows, j, if ready then JobState.Pending else WaitDependencies)
      case Broken => WithState(rows, j, Failed);
    n[j := n[j].(retry := Tries(retry, outcome))]
  }

  // ----- steps --------------------------------------------------------------------------------

  datatype Act =
    | Acquire(worker: Worker, job: JobId)
    | TryLock(worker: Worker)
    | Finish(worker: Worker, outcome: Outcome)
    | Unlock(worker: Worker)
    | CheckDependents(worker: Worker)
    | Crash(worker: Worker)                       // or giving up on the dependents
    | RequeueDead(dead: set<JobId>)
    | Boot(anew: Sched)                          // a new runner process
    | Close(e: Event)
    | Reload
    | Load(e: Event)
    | Tell(e: Event)
    | Tidy(e: Event)
    | Draw(now: Time, log: Drain)
    | Mark
    | Create(batch: Deps, limits: map<JobId, nat>)
    | PressDone(job: JobId)
    | PressCancel(job: JobId)
    | Requeue(job: JobId)

  ghost predicate WorkerStep(s: Sys, a: Act, s': Sys) {
    match a
    case Acquire(w, j) =>
      && PhaseOf(s, w) == Idle && j in s.rows && s.rows[j].state == Enqueued
      && s' == s.(
          rows := s.rows[j := s.rows[j].(state := Started, lockRow := true)],
          phases := s.phases[w := Acquired(j, s.rows[j].retry, DepsDone(s.rows, s.deps, j))])
    case TryLock(w) =>
      var p := PhaseOf(s, w);
      && p.Acquired?
      && s' == if p.job in s.rows && s.rows[p.job].state == Started && s.rows[p.job].lockRow && p.job !in s.locks
        then s.(locks := s.locks[p.job := w], phases := s.phases[w := Performing(p.job, p.retry, p.ready)])
        else s.(phases := s.phases[w := Idle])
    case Finish(w, outcome) =>
      var p := PhaseOf(s, w);
      && p.Performing? && p.job in s.rows
      && var rows := Stored(s.rows, p.job, p.retry, p.ready, outcome);
         s' == if outcome.Success?
          then s.(rows := rows, locks := s.locks - {p.job}, phases := s.phases[w := Releasing(p.job)])
          else s.(rows := rows, phases := s.phases[w := Settling(p.job)])
    case Unlock(w) =>
      var p := PhaseOf(s, w);
      p.Settling? && s' == s.(locks := s.locks - {p.job}, phases := s.phases[w := Idle])
    case CheckDependents(w) =>
      var p := PhaseOf(s, w);
      p.Releasing? && s' == s.(rows := Released(s.rows, s.deps, p.job), phases := s.phases[w := Idle])
    case Crash(w) =>
      s' == s.(
        locks := map j <- s.locks | s.locks[j] != w :: s.locks[j],
        phases := s.phases[w := Idle])
    case _ => false
  }

  /** The rows of dead jobs as the requeuer leaves them. */
  function Requeued(rows: Rows, dead: set<JobId>): Rows {
    map j <- rows :: if j in dead then DeadRow(rows[j]) else rows[j]
  }

  /** The rows to load when the databases are opened. */
  function NotDone(rows: Rows): map<JobId, JobState> {
    map j <- rows | !rows[j].state.Done? && !rows[j].state.Cancelled? :: rows[j].state
  }

  /** The event notifies the channels of a job in that state. */
  predicate Notifies(e: Event, uuid: JobId, state: JobState) {
    match e
    case Kept(u, _, st) => u == uuid && st == Some(state)
    case Rescheduled(j, _, st) => j.uuid == uuid && st == Some(state)
    case _ => false
  }

  predicate Looping(r: Runner) {
    r.Open? && r.toLoad == map[] && r.asked == []
  }

  function Uuids(out: seq<ChannelJob>): seq<JobId> {
    seq(|out|, i requires 0 <= i < |out| => out[i].uuid)
  }

  ghost predicate RunnerStep(s: Sys, a: Act, s': Sys) {
    match a
    case RequeueDead(dead) =>
      && dead <= s.rows.Keys && (forall j <- dead :: LooksDead(s.rows[j], j in s.locks))
      && s' == s.(rows := Requeued(s.rows, dead))
    case Boot(anew) =>
      anew.jobs == map[] && Inv(anew) && s' == s.(sched := anew, runner := Closed)
    case Close(e) =>
      e.RemovedDb? && Step(s.sched, e, s'.sched) && s' == s.(sched := s'.sched, runner := Closed)
    case Reload =>
      s.runner.Closed? && s.sched.jobs == map[] && s' == s.(runner := Open(NotDone(s.rows), []))
    case Load(e) =>
      && s.runner.Open? && s.runner.asked == []
      && (exists u <- s.runner.toLoad :: Notifies(e, u, s.runner.toLoad[u]) &&
            s'.runner == s.runner.(toLoad := s.runner.toLoad - {u}))
      && Step(s.sched, e, s'.sched) && s' == s.(sched := s'.sched, runner := s'.runner)
    case Tell(e) =>
      && Looping(s.runner)
      && (if e.Removed? then e.uuid !in s.rows else exists u <- s.rows :: Notifies(e, u, s.rows[u].state))
      && Step(s.sched, e, s'.sched) && s' == s.(sched := s'.sched)
    case Tidy(e) =>
      (e.Grown? || e.Configured? || e.Forgotten?) && Step(s.sched, e, s'.sched) && s' == s.(sched := s'.sched)
    case Draw(now, log) =>
      && Looping(s.runner) && Step(s.sched, Drained(now, log), s'.sched)
      && s' == s.(sched := s'.sched, runner := s.runner.(asked := Uuids(log.out)))
    case Mark =>
      && s.runner.Open? && s.runner.asked != []
      && s' == s.(
          rows := WithState(s.rows, s.runner.asked[0], Enqueued),
          runner := s.runner.(asked := s.runner.asked[1..]))
    case _ => false
  }

  function NewState(batch: Deps, j: JobId): JobState
    requires j in batch
  {
    if batch[j] == {} then JobState.Pending else WaitDependencies
  }

  /** A new graph of jobs: those that depend on others wait for them. */
  function NewRows(batch: Deps, limits: map<JobId, nat>): Rows
    requires limits.Keys == batch.Keys
  {
    map j <- batch :: Row(NewState(batch, j), 0, limits[j], false)
  }

  ghost predicate UserStep(s: Sys, a: Act, s': Sys) {
    match a
    case Create(batch, limits) =>
      && limits.Keys == batch.Keys && batch.Keys !! s.rows.Keys && batch.Keys !! s.deps.Keys
      && (forall j <- batch :: batch[j] <= batch.Keys - {j})
      && s' == s.(rows := s.rows + NewRows(batch, limits), deps := s.deps + batch)
    case PressDone(j) => s' == s.(rows := UserDone(s.rows, s.deps, j))
    case PressCancel(j) => s' == s.(rows := UserCancelled(s.rows, s.deps, j))
    case Requeue(j) => s' == s.(rows := UserRequeued(s.rows, s.deps, j))
    case _ => false
  }

  ghost predicate Next(s: Sys, a: Act, s': Sys) {
    WorkerStep(s, a, s') || RunnerStep(s, a, s') || UserStep(s, a, s')
  }

  /** A run: one more state than steps. */
  ghost predicate Execution(ss: seq<Sys>, acts: seq<Act>) {
    |ss| == |acts| + 1 && forall i | 0 <= i < |acts| :: Next(ss[i], acts[i], ss[i + 1])
  }

  /** Nothing has happened yet. */
  ghost predicate Initial(s: Sys) {
    && s.rows == map[] && s.deps == map[] && s.locks == map[] && s.phases == map[]
    && s.runner == Closed && s.sched.jobs == map[] && Inv(s.sched)
  }

  lemma ExecutionMore(ss: seq<Sys>, acts: seq<Act>, a: Act, s: Sys)
    requires Execution(ss, acts) && Next(ss[|acts|], a, s)
    ensures Execution(ss + [s], acts + [a])
  {
    hide Next;
    var ts, bs := ss + [s], acts + [a];
    forall i | 0 <= i < |bs| ensures Next(ts[i], bs[i], ts[i + 1]) {
      if i < |acts| {
        assert Next(ss[i], acts[i], ss[i + 1]);
      }
    }
  }

  lemma ExecutionStart(s: Sys)
    ensures Execution([s], [])
  {
    hide Next;
  }

  lemma ExecutionJoin(ss: seq<Sys>, acts: seq<Act>, ts: seq<Sys>, bs: seq<Act>)
    requires Execution(ss, acts) && Execution(ts, bs) && ts[0] == ss[|acts|]
    ensures Execution(ss + ts[1..], acts + bs) && (ss + ts[1..])[|acts + bs|] == ts[|bs|]
  {
    hide Next;
    var us, cs := ss + ts[1..], acts + bs;
    forall i | 0 <= i < |cs| ensures Next(us[i], cs[i], us[i + 1]) {
      if i < |acts| {
        assert Next(ss[i], acts[i], ss[i + 1]);
      } else {
        assert us[i] == ts[i - |acts|] && us[i + 1] == ts[i - |acts| + 1];
      }
    }
  }
}
