/** Runs from the start in which the code gives less than one may expect of it, on a network of one channel:
    each is an input for which the condition of another module fails. */
module Scenarios {
  import opened Channels
  import opened Options
  import opened JobStates
  import opened JobTable
  import opened Scheduler
  import opened Pipeline
  import opened ActiveJobs
  import opened Protocol
  import opened Dependencies
  import Capacity
  import Retries
  import SystemCapacity

  // ----- a network of one channel ---------------------------------------------------------------

  /** A root channel without a capacity, and what it holds. */
  function Holding(ready: set<ChannelJob>, running: set<ChannelJob>): ChannelView {
    EMPTY.(waiting := Waiting(ready, map[]), running := running)
  }

  /** The one channel runs these jobs and holds no others. */
  ghost predicate Alone(s: Sched, root: Channel, running: set<ChannelJob>) {
    root.parent == null && root.depth == 0 && s.net == map[root := Holding({}, running)]
  }

  ghost function Start(root: Channel): Sys {
    Sys(map[], map[], map[], map[], Sched(map[root := EMPTY], map[]), Closed)
  }

  lemma StartIsInitial(root: Channel)
    requires root.parent == null && root.depth == 0
    ensures Initial(Start(root)) && Alone(Start(root).sched, root, {})
  {
    assert JobsAt(EMPTY) == {};
  }

  // ----- a job is told, drawn and marked ----------------------------------------------------------

  lemma QueuedAlone(net: Network, root: Channel, running: set<ChannelJob>, j: ChannelJob)
    requires root.parent == null && net == map[root := Holding({}, running)] && j.channel == root
    ensures Moved(net, j, None, Some(JobState.Pending)) == map[root := Holding({j}, running - {j})]
  {
    var n := Moved(net, j, None, Some(JobState.Pending));
    assert n.Keys == {root};
    assert n[root] == Holding({j}, running - {j});
  }

  /** The job is new to the channels, or its object is at hand. */
  ghost predicate Tellable(s: Sched, j: ChannelJob) {
    if j.uuid in s.jobs then s.jobs[j.uuid] == j else j !in JobsIn(s.net) && j !in s.jobs.Values
  }

  /** The notification that the job is pending. */
  ghost function Telling(s: Sched, j: ChannelJob): Event {
    if j.uuid in s.jobs then Kept(j.uuid, None, Some(JobState.Pending))
    else Rescheduled(j, None, Some(JobState.Pending))
  }

  lemma ToldAlone(s: Sched, root: Channel, running: set<ChannelJob>, j: ChannelJob)
    requires Alone(s, root, running) && j.channel == root && Tellable(s, j)
    ensures Step(s, Telling(s, j), Sched(map[root := Holding({j}, running - {j})], s.jobs[j.uuid := j]))
  {
    QueuedAlone(s.net, root, running, j);
    hide Moved;
    assert j.uuid in s.jobs ==> s.jobs[j.uuid := j] == s.jobs;
  }

  lemma DrawnAlone(s: Sched, root: Channel, running: set<ChannelJob>, j: ChannelJob, now: Time)
    requires root.parent == null && s.net == map[root := Holding({j}, running)]
    ensures Step(s, Drained(now, Drain(root, [], [j])), s.(net := map[root := Holding({}, running + {j})]))
  {
    var d, v := Drain(root, [], [j]), s.net[root];
    assert Enumerates(s.net.Keys, root, []);
    YieldsOne(v, running, j, now);
    hide RunsOk, AfterRun;
    assert DrainOk(s.net, d, now);
    assert Replay(s.net, d, now) == map[root := Holding({}, running + {j})];
  }

  lemma YieldsOne(v: ChannelView, running: set<ChannelJob>, j: ChannelJob, now: Time)
    requires v == Holding({j}, running)
    ensures RunsOk(v, now, [j]) && AfterRun(v, now, [j]) == Holding({}, running + {j})
  {
    var out := [j];
    assert v.waiting.Promote(now) == v.waiting;
    assert out[..|out| - 1] == [] && Yielded(v, now, []) == v && MayYield(v, now, []);
    assert Poppable(false, v.waiting, Some(j));
    assert MayYield(v, now, out);
    var w := Yielded(v, now, out);
    assert w == Holding({}, running + {j});
    assert w.waiting.Promote(now) == w.waiting;
  }

  // ----- the same as steps of the system ----------------------------------------------------------

  /** The run goes on with one more step. */
  lemma Then(ss: seq<Sys>, acts: seq<Act>, a: Act, s': Sys) returns (ts: seq<Sys>, bs: seq<Act>)
    requires Execution(ss, acts) && Next(ss[|acts|], a, s')
    ensures Execution(ts, bs) && ts == ss + [s'] && bs == acts + [a] && ts[0] == ss[0] && ts[|bs|] == s' && ss <= ts
  {
    ExecutionMore(ss, acts, a, s');
    ts, bs := ss + [s'], acts + [a];
  }

  /** The system once a pending job has been told to the channels, drawn and marked enqueued. */
  ghost function Dispatched(s: Sys, root: Channel, running: set<ChannelJob>, j: ChannelJob): Sys {
    s.(rows := WithState(s.rows, j.uuid, Enqueued),
       sched := Sched(map[root := Holding({}, running + {j})], s.sched.jobs[j.uuid := j]))
  }

  ghost predicate Dispatchable(s: Sys, root: Channel, running: set<ChannelJob>, j: ChannelJob) {
    && Alone(s.sched, root, running) && j.channel == root && Tellable(s.sched, j) && Looping(s.runner)
    && j.uuid in s.rows && s.rows[j.uuid].state == JobState.Pending
  }

  ghost function DispatchActs(s: Sys, root: Channel, j: ChannelJob): seq<Act> {
    [Tell(Telling(s.sched, j)), Draw(0.0, Drain(root, [], [j])), Mark]
  }

  lemma TellAlone(s: Sys, root: Channel, running: set<ChannelJob>, j: ChannelJob)
    requires Dispatchable(s, root, running, j)
    ensures Next(s, Tell(Telling(s.sched, j)),
      s.(sched := Sched(map[root := Holding({j}, running - {j})], s.sched.jobs[j.uuid := j])))
  {
    ToldAlone(s.sched, root, running, j);
    hide Step, Alone, JobsIn;
    var s' := s.(sched := Sched(map[root := Holding({j}, running - {j})], s.sched.jobs[j.uuid := j]));
    assert Notifies(Telling(s.sched, j), j.uuid, s.rows[j.uuid].state);
    assert RunnerStep(s, Tell(Telling(s.sched, j)), s');
  }

  lemma DrawAlone(s: Sys, root: Channel, running: set<ChannelJob>, j: ChannelJob)
    requires root.parent == null && s.sched.net == map[root := Holding({j}, running)] && Looping(s.runner)
    ensures Next(s, Draw(0.0, Drain(root, [], [j])),
      s.(sched := s.sched.(net := map[root := Holding({}, running + {j})]), runner := Open(map[], [j.uuid])))
  {
    DrawnAlone(s.sched, root, running, j, 0.0);
    hide Step;
    assert Uuids([j]) == [j.uuid];
    assert RunnerStep(s, Draw(0.0, Drain(root, [], [j])),
      s.(sched := s.sched.(net := map[root := Holding({}, running + {j})]), runner := Open(map[], [j.uuid])));
  }

  lemma MarkFirst(s: Sys, u: JobId)
    requires s.runner == Open(map[], [u])
    ensures Next(s, Mark, s.(rows := WithState(s.rows, u, Enqueued), runner := Open(map[], [])))
  {
    assert [u][1..] == [];
    assert RunnerStep(s, Mark, s.(rows := WithState(s.rows, u, Enqueued), runner := Open(map[], [])));
  }

  /** The system once a pending job has been told to the channels and drawn from them. */
  ghost function HandedOut(s: Sys, root: Channel, running: set<ChannelJob>, j: ChannelJob): Sys {
    s.(sched := Sched(map[root := Holding({}, running + {j})], s.sched.jobs[j.uuid := j]), runner := Open(map[], [j.uuid]))
  }

  lemma HandOut(ss: seq<Sys>, acts: seq<Act>, root: Channel, running: set<ChannelJob>, j: ChannelJob)
      returns (ts: seq<Sys>, bs: seq<Act>)
    requires Execution(ss, acts) && Dispatchable(ss[|acts|], root, running, j)
    ensures Execution(ts, bs) && ss <= ts && bs == acts + DispatchActs(ss[|acts|], root, j)[..2]
    ensures ts[|bs|] == HandedOut(ss[|acts|], root, running, j)
  {
    hide Next, WithState;
    var s := ss[|acts|];
    TellAlone(s, root, running, j);
    var s1 := s.(sched := Sched(map[root := Holding({j}, running - {j})], s.sched.jobs[j.uuid := j]));
    DrawAlone(s1, root, running - {j}, j);
    assert running - {j} + {j} == running + {j};
    ts, bs := Then(ss, acts, Tell(Telling(s.sched, j)), s1);
    ts, bs := Then(ts, bs, Draw(0.0, Drain(root, [], [j])), HandedOut(s, root, running, j));
  }

  lemma Dispatch(ss: seq<Sys>, acts: seq<Act>, root: Channel, running: set<ChannelJob>, j: ChannelJob)
      returns (ts: seq<Sys>, bs: seq<Act>)
    requires Execution(ss, acts) && Dispatchable(ss[|acts|], root, running, j)
    ensures Execution(ts, bs) && ss <= ts && bs == acts + DispatchActs(ss[|acts|], root, j)
    ensures ts[|bs|] == Dispatched(ss[|acts|], root, running, j)
  {
    hide Next, WithState, Dispatchable;
    var s := ss[|acts|];
    ts, bs := HandOut(ss, acts, root, running, j);
    MarkFirst(ts[|bs|], j.uuid);
    assert s.runner == Open(map[], []) by {
      RunnerLoops(s, root, running, j);
    }
    ts, bs := Then(ts, bs, Mark, Dispatched(s, root, running, j));
  }

  lemma RunnerLoops(s: Sys, root: Channel, running: set<ChannelJob>, j: ChannelJob)
    requires Dispatchable(s, root, running, j)
    ensures s.runner == Open(map[], [])
  {
  }

  // ----- single steps ---------------------------------------------------------------------------

  /** The runner has loaded the empty table, and a user has created a graph of jobs. */
  ghost function Created(root: Channel, batch: Deps, limits: map<JobId, nat>): Sys
    requires limits.Keys == batch.Keys
  {
    Start(root).(runner := Open(map[], []), rows := NewRows(batch, limits), deps := batch)
  }

  lemma Begin(root: Channel, batch: Deps, limits: map<JobId, nat>) returns (ss: seq<Sys>, acts: seq<Act>)
    requires root.parent == null && root.depth == 0
    requires limits.Keys == batch.Keys && forall j <- batch :: batch[j] <= batch.Keys - {j}
    ensures Execution(ss, acts) && Initial(ss[0]) && acts == [Reload, Create(batch, limits)]
    ensures ss[2] == Created(root, batch, limits) && Alone(ss[2].sched, root, {})
  {
    StartIsInitial(root);
    CanReload(Start(root));
    var s1 := Start(root).(runner := Open(map[], []));
    CanCreate(s1, batch, limits);
    hide Next, Initial;
    ExecutionStart(Start(root));
    ss, acts := Then([Start(root)], [], Reload, s1);
    ss, acts := Then(ss, acts, Create(batch, limits), Created(root, batch, limits));
  }

  lemma CanReload(s: Sys)
    requires s.runner == Closed && s.sched.jobs == map[] && s.rows == map[]
    ensures Next(s, Reload, s.(runner := Open(map[], [])))
  {
    assert NotDone(s.rows) == map[];
    assert RunnerStep(s, Reload, s.(runner := Open(map[], [])));
  }

  lemma CanCreate(s: Sys, batch: Deps, limits: map<JobId, nat>)
    requires limits.Keys == batch.Keys && s.rows == map[] && s.deps == map[]
    requires forall j <- batch :: batch[j] <= batch.Keys - {j}
    ensures Next(s, Create(batch, limits), s.(rows := NewRows(batch, limits), deps := batch))
  {
    assert s.rows + NewRows(batch, limits) == NewRows(batch, limits) && s.deps + batch == batch;
    assert UserStep(s, Create(batch, limits), s.(rows := NewRows(batch, limits), deps := batch));
  }

  lemma CanPressDone(s: Sys, j: JobId)
    ensures Next(s, PressDone(j), s.(rows := UserDone(s.rows, s.deps, j)))
  {
    assert UserStep(s, PressDone(j), s.(rows := UserDone(s.rows, s.deps, j)));
  }

  lemma CanRequeue(s: Sys, j: JobId)
    ensures Next(s, Act.Requeue(j), s.(rows := UserRequeued(s.rows, s.deps, j)))
  {
    assert UserStep(s, Act.Requeue(j), s.(rows := UserRequeued(s.rows, s.deps, j)));
  }

  /** The system once a worker has acquired and locked the job. */
  function Taken(s: Sys, w: Worker, j: JobId): Sys
    requires j in s.rows
  {
    s.(rows := s.rows[j := s.rows[j].(state := Started, lockRow := true)], locks := s.locks[j := w],
       phases := s.phases[w := Performing(j, s.rows[j].retry, DepsDone(s.rows, s.deps, j))])
  }

  lemma Take(ss: seq<Sys>, acts: seq<Act>, w: Worker, j: JobId) returns (ts: seq<Sys>, bs: seq<Act>)
    requires Execution(ss, acts) && PhaseOf(ss[|acts|], w) == Idle
    requires j in ss[|acts|].rows && ss[|acts|].rows[j].state == Enqueued && j !in ss[|acts|].locks
    ensures Execution(ts, bs) && ss <= ts && bs == acts + [Acquire(w, j), TryLock(w)]
    ensures ts[|bs|] == Taken(ss[|acts|], w, j)
  {
    var s := ss[|acts|];
    var s1 := s.(
      rows := s.rows[j := s.rows[j].(state := Started, lockRow := true)],
      phases := s.phases[w := Acquired(j, s.rows[j].retry, DepsDone(s.rows, s.deps, j))]);
    CanAcquire(s, w, j, s1);
    CanLock(s1, w, Taken(s, w, j));
    hide Next, Taken, DepsDone;
    ts, bs := Then(ss, acts, Acquire(w, j), s1);
    ts, bs := Then(ts, bs, TryLock(w), Taken(s, w, j));
  }

  lemma CanAcquire(s: Sys, w: Worker, j: JobId, s': Sys)
    requires WorkerStep(s, Acquire(w, j), s')
    ensures Next(s, Acquire(w, j), s')
  {
  }

  lemma CanLock(s: Sys, w: Worker, s': Sys)
    requires PhaseOf(s, w).Acquired?
    requires var p := PhaseOf(s, w);
      && p.job in s.rows && s.rows[p.job].state == Started && s.rows[p.job].lockRow && p.job !in s.locks
      && s' == s.(locks := s.locks[p.job := w], phases := s.phases[w := Performing(p.job, p.retry, p.ready)])
    ensures Next(s, TryLock(w), s')
  {
    assert WorkerStep(s, TryLock(w), s');
  }

  /** The system once the worker has stored an outcome other than success. */
  function Ended(s: Sys, w: Worker, outcome: Outcome): Sys
    requires PhaseOf(s, w).Performing? && PhaseOf(s, w).job in s.rows
  {
    var p := PhaseOf(s, w);
    s.(rows := Stored(s.rows, p.job, p.retry, p.ready, outcome), locks := s.locks - {p.job}, phases := s.phases[w := Idle])
  }

  lemma EndAndUnlock(ss: seq<Sys>, acts: seq<Act>, w: Worker, outcome: Outcome) returns (ts: seq<Sys>, bs: seq<Act>)
    requires Execution(ss, acts) && !outcome.Success?
    requires PhaseOf(ss[|acts|], w).Performing? && PhaseOf(ss[|acts|], w).job in ss[|acts|].rows
    ensures Execution(ts, bs) && ss <= ts && bs == acts + [Finish(w, outcome), Unlock(w)]
    ensures ts[|bs|] == Ended(ss[|acts|], w, outcome)
  {
    var s := ss[|acts|];
    var p := PhaseOf(s, w);
    hide Stored;
    var s1 := s.(rows := Stored(s.rows, p.job, p.retry, p.ready, outcome), phases := s.phases[w := Settling(p.job)]);
    assert WorkerStep(s, Finish(w, outcome), s1);
    assert WorkerStep(s1, Unlock(w), Ended(s, w, outcome));
    hide Next;
    ts, bs := Then(ss, acts, Finish(w, outcome), s1);
    ts, bs := Then(ts, bs, Unlock(w), Ended(s, w, outcome));
  }

  lemma EnqueuedRow(rows: Rows, u: JobId)
    requires u in rows
    ensures WithState(rows, u, Enqueued) == rows[u := rows[u].(state := Enqueued)]
  {
  }

  lemma NewHere(s: Sched, root: Channel, j: ChannelJob)
    requires Alone(s, root, {}) && s.jobs == map[]
    ensures Tellable(s, j)
  {
    assert JobsAt(s.net[root]) == {};
  }

  lemma Press(ss: seq<Sys>, acts: seq<Act>, j: JobId) returns (ts: seq<Sys>, bs: seq<Act>)
    requires Execution(ss, acts)
    ensures Execution(ts, bs) && bs == acts + [PressDone(j)] && ts == ss + [ts[|acts| + 1]]
    ensures var s := ss[|acts|]; ts[|acts| + 1] == s.(rows := UserDone(s.rows, s.deps, j))
  {
    CanPressDone(ss[|acts|], j);
    hide Next, UserDone;
    var s := ss[|acts|];
    ts, bs := Then(ss, acts, PressDone(j), s.(rows := UserDone(s.rows, s.deps, j)));
  }

  lemma Again(ss: seq<Sys>, acts: seq<Act>, j: JobId) returns (ts: seq<Sys>, bs: seq<Act>)
    requires Execution(ss, acts)
    ensures Execution(ts, bs) && bs == acts + [Act.Requeue(j)] && ts == ss + [ts[|acts| + 1]]
    ensures var s := ss[|acts|]; ts[|acts| + 1] == s.(rows := UserRequeued(s.rows, s.deps, j))
  {
    CanRequeue(ss[|acts|], j);
    hide Next, UserRequeued;
    var s := ss[|acts|];
    ts, bs := Then(ss, acts, Act.Requeue(j), s.(rows := UserRequeued(s.rows, s.deps, j)));
  }

  // ----- dependencies ---------------------------------------------------------------------------

  const DONE := Row(Done, 0, 0, false)
  const WAITING := Row(WaitDependencies, 0, 0, false)
  const PENDING := Row(JobState.Pending, 0, 0, false)

  /** Two jobs, the second waiting for the first. */
  function Pair(p: JobId, c: JobId): Deps {
    map[p := {}, c := {p}]
  }

  lemma PairCreated(p: JobId, c: JobId)
    requires p != c
    ensures NewRows(Pair(p, c), map[p := 0, c := 0]) == map[p := PENDING, c := WAITING]
  {
  }

  lemma PairPressed(rows: Rows, p: JobId, c: JobId)
    requires p != c && rows.Keys == {p, c} && CanBeDone(rows[p].state)
    ensures UserDone(rows, Pair(p, c), p) ==
      map[p := rows[p].(state := Done), c := if rows[c].state == WaitDependencies then rows[c].(state := JobState.Pending) else rows[c]]
  {
    var n := UserDone(rows, Pair(p, c), p);
    assert n.Keys == {p, c};
  }

  lemma PairRequeued(rows: Rows, p: JobId, c: JobId)
    requires p != c && rows.Keys == {p, c} && CanBeRequeued(rows[p].state)
    ensures UserRequeued(rows, Pair(p, c), p) == map[p := rows[p].(state := JobState.Pending, retry := 0), c := rows[c]]
  {
    assert DepsDone(rows, Pair(p, c), p);
  }

  /** The second job of a pair enqueued, its dependency marked done by a user and then requeued. */
  lemma RequeuedBehind(root: Channel, c: ChannelJob, p: JobId) returns (ss: seq<Sys>, acts: seq<Act>)
    requires root.parent == null && root.depth == 0 && c.channel == root && p != c.uuid
    ensures Execution(ss, acts) && Initial(ss[0]) && forall a <- acts :: !a.Crash?
    ensures var s := ss[|acts|];
      && s.rows == map[p := PENDING, c.uuid := PENDING.(state := Enqueued)] && s.deps == Pair(p, c.uuid)
      && s.locks == map[] && s.phases == map[]
  {
    hide Initial, Next, Alone, UserDone, UserRequeued, NewRows, WithState, JobsIn;
    var u := c.uuid;
    ss, acts := Begin(root, Pair(p, u), map[p := 0, u := 0]);
    PairCreated(p, u);
    ss, acts := Press(ss, acts, p);
    PairPressed(map[p := PENDING, u := WAITING], p, u);
    var s := ss[|acts|];
    assert s.rows == map[p := DONE, u := PENDING];
    NewHere(s.sched, root, c);
    ss, acts := Dispatch(ss, acts, root, {}, c);
    EnqueuedRow(s.rows, u);
    s := ss[|acts|];
    assert s.rows == map[p := DONE, u := PENDING.(state := Enqueued)];
    ss, acts := Again(ss, acts, p);
    PairRequeued(s.rows, p, u);
  }

  lemma PairTaken(s: Sys, p: JobId, c: JobId, w: Worker)
    requires p != c && s.deps == Pair(p, c) && s.rows == map[p := PENDING, c := PENDING.(state := Enqueued)]
    ensures var t := Taken(s, w, c);
      && t.rows == map[p := PENDING, c := PENDING.(state := Started, lockRow := true)] && t.deps == s.deps
      && t.phases == s.phases[w := Performing(c, 0, false)]
  {
    assert p in DepsOf(s.deps, c) && !DepsDone(s.rows, s.deps, c);
  }

  lemma PairStored(p: JobId, c: JobId)
    requires p != c
    ensures Stored(map[p := DONE, c := PENDING.(state := Started, lockRow := true)], c, 0, false, Retryable(false)) ==
      map[p := DONE, c := Row(WaitDependencies, 1, 0, true)]
  {
  }

  /** No worker crashes in this run, and yet a job is left waiting for ever, with its only dependency done and
      all workers idle: it was acquired while a user had its dependency pending again, and postponed, on what the
      worker remembered, after that was done again. */
  lemma StaleWait(root: Channel, c: ChannelJob, p: JobId) returns (ss: seq<Sys>, acts: seq<Act>)
    requires root.parent == null && root.depth == 0 && c.channel == root && p != c.uuid
    ensures Execution(ss, acts) && Initial(ss[0]) && forall a <- acts :: !a.Crash?
    ensures !NoneLost(ss[|acts|]) && forall w :: PhaseOf(ss[|acts|], w) == Idle
    ensures ss[|acts|].rows == map[p := DONE, c.uuid := Row(WaitDependencies, 1, 0, true)]
    ensures ss[|acts|].deps == Pair(p, c.uuid)
  {
    hide Initial, Next, NoneLost, UserDone, Stored, DepsDone, Taken;
    var u := c.uuid;
    ss, acts := RequeuedBehind(root, c, p);
    var s := ss[|acts|];
    ss, acts := Take(ss, acts, 0, u);
    PairTaken(s, p, u, 0);
    s := ss[|acts|];
    ss, acts := Press(ss, acts, p);
    PairPressed(s.rows, p, u);
    s := ss[|acts|];
    ss, acts := EndAndUnlock(ss, acts, 0, Retryable(false));
    PairStored(p, u);
    PairLost(ss[|acts|], p, u);
  }

  lemma PairLost(s: Sys, p: JobId, c: JobId)
    requires p != c && p in s.rows && c in s.rows && s.deps == Pair(p, c)
    requires s.rows[p].state == Done && s.rows[c].state == WaitDependencies
    requires forall w <- s.phases :: s.phases[w] == Idle
    ensures !NoneLost(s)
  {
    assert Overdue(s.rows, s.deps, c);
  }

  /** The system once the worker has died. */
  function Crashed(s: Sys, w: Worker): Sys {
    s.(locks := map j <- s.locks | s.locks[j] != w :: s.locks[j], phases := s.phases[w := Idle])
  }

  lemma DoneAndCrash(ss: seq<Sys>, acts: seq<Act>, w: Worker) returns (ts: seq<Sys>, bs: seq<Act>)
    requires Execution(ss, acts) && PhaseOf(ss[|acts|], w).Performing? && PhaseOf(ss[|acts|], w).job in ss[|acts|].rows
    ensures Execution(ts, bs) && ss <= ts && bs == acts + [Finish(w, Success), Crash(w)]
    ensures var s := ss[|acts|];
      var p := PhaseOf(s, w);
      && ts[|bs|].rows == Stored(s.rows, p.job, p.retry, p.ready, Success) && ts[|bs|].deps == s.deps
      && ts[|bs|].phases == s.phases[w := Idle]
  {
    var s := ss[|acts|];
    var p := PhaseOf(s, w);
    hide Stored;
    var s1 := s.(
      rows := Stored(s.rows, p.job, p.retry, p.ready, Success), locks := s.locks - {p.job}, phases := s.phases[w := Releasing(p.job)]);
    assert WorkerStep(s, Finish(w, Success), s1);
    assert WorkerStep(s1, Crash(w), Crashed(s1, w));
    hide Next;
    ts, bs := Then(ss, acts, Finish(w, Success), s1);
    ts, bs := Then(ts, bs, Crash(w), Crashed(s1, w));
  }

  lemma FirstStored(p: JobId, c: JobId, ready: bool)
    requires p != c
    ensures Stored(map[p := PENDING.(state := Started, lockRow := true), c := WAITING], p, 0, ready, Success) ==
      map[p := Row(Done, 1, 0, true), c := WAITING]
  {
  }

  /** The first job of a pair performed by a worker. */
  lemma FirstTaken(root: Channel, p: ChannelJob, c: JobId) returns (ss: seq<Sys>, acts: seq<Act>)
    requires root.parent == null && root.depth == 0 && p.channel == root && c != p.uuid
    ensures Execution(ss, acts) && Initial(ss[0])
    ensures var s := ss[|acts|];
      && s.rows == map[p.uuid := PENDING.(state := Started, lockRow := true), c := WAITING] && s.deps == Pair(p.uuid, c)
      && s.phases.Keys == {0} && s.phases[0].Performing? && s.phases[0].job == p.uuid && s.phases[0].retry == 0
  {
    hide Initial, Next, Alone, NewRows, WithState, JobsIn, Tellable, DepsDone;
    var u := p.uuid;
    ss, acts := Begin(root, Pair(u, c), map[u := 0, c := 0]);
    PairCreated(u, c);
    var s := ss[|acts|];
    NewHere(s.sched, root, p);
    ss, acts := Dispatch(ss, acts, root, {}, p);
    EnqueuedRow(s.rows, u);
    ss, acts := Take(ss, acts, 0, u);
  }

  /** A worker dies after it has committed a job as done: nobody is left to release the job's dependent. */
  lemma CrashLosesRelease(root: Channel, p: ChannelJob, c: JobId) returns (ss: seq<Sys>, acts: seq<Act>)
    requires root.parent == null && root.depth == 0 && p.channel == root && c != p.uuid
    ensures Execution(ss, acts) && Initial(ss[0]) && acts != [] && acts[|acts| - 1] == Crash(0)
    ensures !NoneLost(ss[|acts|]) && forall w :: PhaseOf(ss[|acts|], w) == Idle
    ensures ss[|acts|].rows == map[p.uuid := Row(Done, 1, 0, true), c := WAITING] && ss[|acts|].deps == Pair(p.uuid, c)
  {
    hide Initial, Next, NoneLost, Stored;
    ss, acts := FirstTaken(root, p, c);
    FirstStored(p.uuid, c, ss[|acts|].phases[0].ready);
    ss, acts := DoneAndCrash(ss, acts, 0);
    PairLost(ss[|acts|], p.uuid, c);
  }

  /** A user marks a job done, which releases its dependent, and then requeues it: the dependent is on its way
      while its dependency is pending. */
  lemma RequeuedTooEarly(root: Channel, p: JobId, c: JobId) returns (ss: seq<Sys>, acts: seq<Act>)
    requires root.parent == null && root.depth == 0 && c != p
    ensures Execution(ss, acts) && Initial(ss[0]) && |acts| == 4 && acts[2..] == [PressDone(p), Act.Requeue(p)]
    ensures Ready(ss[3].rows, ss[3].deps) && !Ready(ss[4].rows, ss[4].deps)
    ensures ss[4].rows == map[p := PENDING, c := PENDING] && ss[4].deps == Pair(p, c)
  {
    hide Initial, Next, NewRows, UserDone, UserRequeued, Ready;
    ss, acts := Begin(root, Pair(p, c), map[p := 0, c := 0]);
    PairCreated(p, c);
    ss, acts := Press(ss, acts, p);
    PairPressed(map[p := PENDING, c := WAITING], p, c);
    PairReady(ss[|acts|].rows, p, c);
    ss, acts := Again(ss, acts, p);
    PairRequeued(map[p := DONE, c := PENDING], p, c);
    PairReady(ss[|acts|].rows, p, c);
  }

  lemma PairReady(rows: Rows, p: JobId, c: JobId)
    requires p != c && rows.Keys == {p, c}
    ensures Ready(rows, Pair(p, c)) <==> (MayRun(rows[c].state) ==> rows[p].state == Done)
  {
    assert DepsOf(Pair(p, c), p) == {} && DepsOf(Pair(p, c), c) == {p};
    assert DepsDone(rows, Pair(p, c), p);
    assert p in DepsOf(Pair(p, c), c);
  }

  /** The channels hand out a job before they hear that a user has marked it done: the runner then marks it
      enqueued, with its dependent released. */
  lemma StaleMark(root: Channel, p: ChannelJob, c: JobId) returns (ss: seq<Sys>, acts: seq<Act>)
    requires root.parent == null && root.depth == 0 && p.channel == root && c != p.uuid
    ensures Execution(ss, acts) && Initial(ss[0]) && |acts| == 6 && acts[4..] == [PressDone(p.uuid), Mark]
    ensures Ready(ss[5].rows, ss[5].deps) && !Ready(ss[6].rows, ss[6].deps)
    ensures ss[6].rows == map[p.uuid := PENDING.(state := Enqueued), c := PENDING] && ss[6].deps == Pair(p.uuid, c)
  {
    hide Initial, Next, Alone, NewRows, UserDone, WithState, Ready, JobsIn, Tellable;
    var u := p.uuid;
    ss, acts := Begin(root, Pair(u, c), map[u := 0, c := 0]);
    PairCreated(u, c);
    var s := ss[|acts|];
    NewHere(s.sched, root, p);
    ss, acts := HandOut(ss, acts, root, {}, p);
    ss, acts := Press(ss, acts, u);
    PairPressed(map[u := PENDING, c := WAITING], u, c);
    var s3 := ss[|acts|];
    assert s3.rows == map[u := DONE, c := PENDING];
    PairReady(s3.rows, u, c);
    MarkFirst(s3, u);
    ss, acts := Then(ss, acts, Mark, s3.(rows := WithState(s3.rows, u, Enqueued), runner := Open(map[], [])));
    EnqueuedRow(s3.rows, u);
    PairReady(ss[|acts|].rows, u, c);
  }

  // ----- capacities -----------------------------------------------------------------------------

  /** A pending job of the table that is new to the channels. */
  ghost predicate Fresh(s: Sys, j: ChannelJob) {
    j.uuid in s.rows && s.rows[j.uuid].state == JobState.Pending && j.uuid !in s.sched.jobs && j !in s.sched.jobs.Values
  }

  lemma FreshIsDispatchable(s: Sys, root: Channel, running: set<ChannelJob>, j: ChannelJob)
    requires Alone(s.sched, root, running) && j.channel == root && Looping(s.runner) && Fresh(s, j) && j !in running
    ensures Dispatchable(s, root, running, j)
  {
    assert JobsAt(s.sched.net[root]) == running;
  }

  /** Two jobs are enqueued, the channel having no capacity. */
  lemma TwoEnqueued(root: Channel, a: ChannelJob, b: ChannelJob) returns (ss: seq<Sys>, acts: seq<Act>)
    requires root.parent == null && root.depth == 0 && a.channel == b.channel == root && a.uuid != b.uuid
    ensures Execution(ss, acts) && Initial(ss[0])
    ensures ss[|acts|].rows == map[a.uuid := PENDING.(state := Enqueued), b.uuid := PENDING.(state := Enqueued)]
  {
    hide Initial, Next, NewRows, WithState, Dispatchable, JobsIn;
    ss, acts := Begin(root, map[a.uuid := {}, b.uuid := {}], map[a.uuid := 0, b.uuid := 0]);
    var s := ss[|acts|];
    TwoCreated(a.uuid, b.uuid);
    FreshIsDispatchable(s, root, {}, a);
    ss, acts := Dispatch(ss, acts, root, {}, a);
    EnqueuedRow(s.rows, a.uuid);
    s := ss[|acts|];
    FreshIsDispatchable(s, root, {} + {a}, b);
    ss, acts := Dispatch(ss, acts, root, {} + {a}, b);
    EnqueuedRow(s.rows, b.uuid);
  }

  lemma TwoCreated(a: JobId, b: JobId)
    requires a != b
    ensures NewRows(map[a := {}, b := {}], map[a := 0, b := 0]) == map[a := PENDING, b := PENDING]
  {
  }

  /** The channels of a new process, with a capacity of 1. */
  ghost function Anew(root: Channel): Sched {
    Sched(map[root := EMPTY.(capacity := Some(1))], map[])
  }

  lemma CanBoot(s: Sys, root: Channel)
    requires root.parent == null && root.depth == 0
    ensures Next(s, Boot(Anew(root)), s.(sched := Anew(root), runner := Closed))
  {
    Capacity.EmptyWithin(Anew(root), root);
    hide Inv;
    assert RunnerStep(s, Boot(Anew(root)), s.(sched := Anew(root), runner := Closed));
  }

  lemma CanReloadAll(s: Sys)
    requires s.runner == Closed && s.sched.jobs == map[]
    ensures Next(s, Reload, s.(runner := Open(NotDone(s.rows), [])))
  {
    hide NotDone;
    assert RunnerStep(s, Reload, s.(runner := Open(NotDone(s.rows), [])));
  }

  /** The runner loads an enqueued job. */
  lemma LoadEnqueued(s: Sys, root: Channel, j: ChannelJob, rest: map<JobId, JobState>) returns (s': Sys)
    requires root.parent == null && j.channel == root && j.uuid !in s.sched.jobs && j !in s.sched.jobs.Values
    requires s.sched.net.Keys == {root} && s.sched.net[root].waiting == Waiting({}, map[]) && s.sched.net[root].failed == {}
    requires j !in s.sched.net[root].running
    requires s.runner == Open(rest[j.uuid := Enqueued], []) && j.uuid !in rest
    ensures Next(s, Load(Rescheduled(j, None, Some(Enqueued))), s')
    ensures s'.sched.net == map[root := s.sched.net[root].(running := s.sched.net[root].running + {j})]
    ensures s'.sched.jobs == s.sched.jobs[j.uuid := j] && s'.runner == Open(rest, [])
  {
    var e := Rescheduled(j, None, Some(Enqueued));
    var t := Capacity.StartedAlone(s.sched, root, j, Some(Enqueued));
    hide Step;
    s' := s.(sched := t, runner := Open(rest, []));
    assert rest[j.uuid := Enqueued] - {j.uuid} == rest;
    assert Notifies(e, j.uuid, s.runner.toLoad[j.uuid]);
    assert RunnerStep(s, Load(e), s');
  }

  /** The runner is started again with a smaller capacity, when two jobs are enqueued: both are running jobs to
      the channels. */
  lemma RestartBeyondCapacity(root: Channel, a: ChannelJob, b: ChannelJob, next: Channel, c: ChannelJob, d: ChannelJob)
      returns (ss: seq<Sys>, acts: seq<Act>)
    requires root.parent == null && root.depth == 0 && a.channel == b.channel == root && a.uuid != b.uuid
    requires next.parent == null && next.depth == 0 && c.channel == d.channel == next && c.uuid == a.uuid && d.uuid == b.uuid
    ensures Execution(ss, acts) && Initial(ss[0]) && |acts| >= 4 && acts[|acts| - 4..] == [Boot(Anew(next)), Reload] +
      [Load(Rescheduled(c, None, Some(Enqueued))), Load(Rescheduled(d, None, Some(Enqueued)))]
    ensures ss[|acts|].sched.net == map[next := EMPTY.(capacity := Some(1), running := {c, d})]
    ensures Capacity.WithinCapacity(ss[|acts| - 1].sched.net) && !Capacity.WithinCapacity(ss[|acts|].sched.net)
  {
    hide Initial, Next, JobsIn, Capacity.WithinCapacity;
    ss, acts := Restarted(root, a, b, next);
    var s := ss[|acts|];
    var s1 := LoadEnqueued(s, next, c, map[b.uuid := Enqueued]);
    assert s1.sched.net == map[next := EMPTY.(capacity := Some(1), running := {} + {c})];
    var s2 := LoadEnqueued(s1, next, d, map[]);
    assert {} + {c} + {d} == {c, d};
    Capacity.OneOrTwo(next, c, d);
    ss, acts := Then(ss, acts, Load(Rescheduled(c, None, Some(Enqueued))), s1);
    ss, acts := Then(ss, acts, Load(Rescheduled(d, None, Some(Enqueued))), s2);
    assert ss[|acts| - 1] == s1;
  }

  lemma Restarted(root: Channel, a: ChannelJob, b: ChannelJob, next: Channel) returns (ss: seq<Sys>, acts: seq<Act>)
    requires root.parent == null && root.depth == 0 && a.channel == b.channel == root && a.uuid != b.uuid
    requires next.parent == null && next.depth == 0
    ensures Execution(ss, acts) && Initial(ss[0]) && |acts| >= 2 && acts[|acts| - 2..] == [Boot(Anew(next)), Reload]
    ensures ss[|acts|].sched == Anew(next)
    ensures ss[|acts|].runner == Open(map[b.uuid := Enqueued][a.uuid := Enqueued], [])
  {
    hide Initial, Next, NotDone, JobsIn;
    ss, acts := TwoEnqueued(root, a, b);
    var s := ss[|acts|];
    CanBoot(s, next);
    ss, acts := Then(ss, acts, Boot(Anew(next)), s.(sched := Anew(next), runner := Closed));
    s := ss[|acts|];
    CanReloadAll(s);
    TwoToLoad(s.rows, a.uuid, b.uuid);
    ss, acts := Then(ss, acts, Reload, s.(runner := Open(NotDone(s.rows), [])));
  }

  lemma TwoToLoad(rows: Rows, a: JobId, b: JobId)
    requires rows == map[a := PENDING.(state := Enqueued), b := PENDING.(state := Enqueued)]
    ensures NotDone(rows) == map[b := Enqueued][a := Enqueued]
  {
  }

  // ----- retries --------------------------------------------------------------------------------

  lemma {:induction false} AttemptsKept(ss: seq<Sys>, acts: seq<Act>, ts: seq<Sys>, bs: seq<Act>, j: JobId, i: nat)
    requires |ss| == |acts| + 1 && |ts| == |bs| + 1 && ss <= ts && acts <= bs && i <= |acts|
    ensures Retries.Attempts(ts, bs, j, i) == Retries.Attempts(ss, acts, j, i)
  {
    if i > 0 {
      AttemptsKept(ss, acts, ts, bs, j, i - 1);
    }
  }

  lemma {:induction false} AttemptsFrom(ss: seq<Sys>, acts: seq<Act>, j: JobId, i: nat, k: nat)
    requires |ss| == |acts| + 1 && i <= k <= |acts| && forall l | i <= l < k :: !acts[l].TryLock?
    ensures Retries.Attempts(ss, acts, j, k) == Retries.Attempts(ss, acts, j, i)
  {
    if i < k {
      AttemptsFrom(ss, acts, j, i, k - 1);
    }
  }

  ghost predicate AllCounted(ss: seq<Sys>, acts: seq<Act>, j: JobId)
    requires |ss| == |acts| + 1
  {
    forall k | 0 <= k < |acts| :: Retries.Counted(ss[k], acts[k], j)
  }

  /** The step ends no attempt and requeues nothing. */
  predicate Plain(a: Act) {
    !a.Finish? && !a.Requeue? && !a.RequeueDead?
  }

  lemma PlainCounted(ss: seq<Sys>, acts: seq<Act>, ts: seq<Sys>, bs: seq<Act>, j: JobId)
    requires |ss| == |acts| + 1 && |ts| == |bs| + 1 && ss <= ts && acts <= bs && AllCounted(ss, acts, j)
    requires forall k | |acts| <= k < |bs| :: Plain(bs[k])
    ensures AllCounted(ts, bs, j)
  {
    forall k | 0 <= k < |bs| ensures Retries.Counted(ts[k], bs[k], j) {
      if k < |acts| {
        assert Retries.Counted(ss[k], acts[k], j);
      }
    }
  }

  /** The job has been attempted `n` times so far, in a run whose attempts are all counted, if so wanted. */
  ghost predicate Tried(ss: seq<Sys>, acts: seq<Act>, j: JobId, n: nat, counted: bool) {
    Execution(ss, acts) && (counted ==> AllCounted(ss, acts, j)) && Retries.Attempts(ss, acts, j, |acts|) == n
  }

  /** The job is in that state, having been requeued `k` times; no lock is held, and the runner waits for
      notifications. */
  ghost predicate Between(s: Sys, root: Channel, j: ChannelJob, m: nat, k: nat, state: JobState) {
    && j.channel == root && (Alone(s.sched, root, {}) || Alone(s.sched, root, {j}))
    && Tellable(s.sched, j) && Looping(s.runner)
    && s.rows.Keys == {j.uuid} && s.rows[j.uuid].state == state
    && s.rows[j.uuid].retry == k && s.rows[j.uuid].maxRetries == m && s.deps == map[j.uuid := {}]
    && s.locks == map[] && forall w <- s.phases :: s.phases[w] == Idle
  }

  /** The worker holds the job's lock and performs it. */
  ghost predicate Performed(s: Sys, root: Channel, j: ChannelJob, m: nat, k: nat) {
    && Alone(s.sched, root, {j}) && Tellable(s.sched, j) && Looping(s.runner)
    && s.rows == map[j.uuid := Row(Started, k, m, true)] && s.deps == map[j.uuid := {}]
    && s.locks == map[j.uuid := 0] && PhaseOf(s, 0) == Performing(j.uuid, k, true)
    && forall w <- s.phases | w != 0 :: s.phases[w] == Idle
  }

  /** The run goes on by plain steps, of which the last begins an attempt. */
  lemma OneMoreTry(ss: seq<Sys>, acts: seq<Act>, ts: seq<Sys>, bs: seq<Act>, j: JobId, n: nat, counted: bool)
    requires Tried(ss, acts, j, n, counted) && Execution(ts, bs) && ss <= ts && acts <= bs && |acts| < |bs|
    requires forall k | |acts| <= k < |bs| :: Plain(bs[k])
    requires forall k | |acts| <= k < |bs| - 1 :: !bs[k].TryLock?
    requires Retries.Begins(bs[|bs| - 1], ts[|bs|], j)
    ensures Tried(ts, bs, j, n + 1, counted)
  {
    hide Next, Retries.Counted, Retries.Begins;
    if counted {
      PlainCounted(ss, acts, ts, bs, j);
    }
    AttemptsKept(ss, acts, ts, bs, j, |acts|);
    AttemptsFrom(ts, bs, j, |acts|, |bs| - 1);
  }

  /** Where a pending job is once it has been dispatched, and taken by a worker. */
  lemma ReadyToTake(s: Sys, root: Channel, j: ChannelJob, m: nat, k: nat) returns (running: set<ChannelJob>)
    requires Between(s, root, j, m, k, JobState.Pending)
    ensures Dispatchable(s, root, running, j)
    ensures var d := Dispatched(s, root, running, j);
      && PhaseOf(d, 0) == Idle && j.uuid in d.rows && d.rows[j.uuid].state == Enqueued && j.uuid !in d.locks
      && Performed(Taken(d, 0, j.uuid), root, j, m, k)
  {
    hide WithState, JobsIn, DepsDone;
    var u := j.uuid;
    running := if s.sched.net == map[root := Holding({}, {})] then {} else {j};
    EnqueuedRow(s.rows, u);
    assert running + {j} == {j};
    NothingToWaitFor(Dispatched(s, root, running, j), u);
  }

  /** A pending job is dispatched and taken by a worker. */
  lemma TryOnce(ss: seq<Sys>, acts: seq<Act>, root: Channel, j: ChannelJob, m: nat, k: nat, n: nat, counted: bool)
      returns (ts: seq<Sys>, bs: seq<Act>)
    requires Tried(ss, acts, j.uuid, n, counted) && Between(ss[|acts|], root, j, m, k, JobState.Pending)
    ensures Tried(ts, bs, j.uuid, n + 1, counted) && ss[0] == ts[0] && Performed(ts[|bs|], root, j, m, k)
  {
    hide Next, Retries.Attempts, Between, Dispatchable, Dispatched, AllCounted;
    var running := ReadyToTake(ss[|acts|], root, j, m, k);
    ts, bs := Dispatch(ss, acts, root, running, j);
    ts, bs := Take(ts, bs, 0, j.uuid);
    OneMoreTry(ss, acts, ts, bs, j.uuid, n, counted);
  }

  lemma NothingToWaitFor(s: Sys, u: JobId)
    requires s.deps == map[u := {}]
    ensures DepsDone(s.rows, s.deps, u)
  {
  }

  /** The run goes on by a step that begins no attempt. */
  lemma OneMoreStep(ss: seq<Sys>, acts: seq<Act>, a: Act, s': Sys, j: JobId, n: nat, counted: bool)
      returns (ts: seq<Sys>, bs: seq<Act>)
    requires Tried(ss, acts, j, n, counted) && Next(ss[|acts|], a, s') && !a.TryLock?
    requires counted ==> Retries.Counted(ss[|acts|], a, j)
    ensures Tried(ts, bs, j, n, counted) && ts[0] == ss[0] && ts[|bs|] == s'
  {
    hide Next, Retries.Counted, Retries.Begins;
    ts, bs := Then(ss, acts, a, s');
    forall k | counted && 0 <= k < |bs| ensures Retries.Counted(ts[k], bs[k], j) {
      if k < |acts| {
        assert Retries.Counted(ss[k], acts[k], j);
      }
    }
    AttemptsKept(ss, acts, ts, bs, j, |acts|);
    AttemptsFrom(ts, bs, j, |acts|, |bs|);
  }

  /** The requeuer's statement on the row of the job whose worker has died. */
  function Found(s: Sys, u: JobId): Sys {
    s.(rows := Requeued(s.rows, {u}))
  }

  lemma CanDie(s: Sys, root: Channel, j: ChannelJob, m: nat, k: nat)
    requires Performed(s, root, j, m, k)
    ensures var s1 := Crashed(s, 0);
      && Next(s, Crash(0), s1) && Next(s1, RequeueDead({j.uuid}), Found(s1, j.uuid))
      && s1.locks == map[] && s1.rows == s.rows && s1.deps == s.deps && s1.sched == s.sched && s1.runner == s.runner
      && forall w <- s1.phases :: s1.phases[w] == Idle
  {
    hide Alone, Tellable, Requeued;
    var s1 := Crashed(s, 0);
    assert WorkerStep(s, Crash(0), s1);
    assert LooksDead(s1.rows[j.uuid], j.uuid in s1.locks);
    assert RunnerStep(s1, RequeueDead({j.uuid}), Found(s1, j.uuid));
  }

  lemma DeadRowOf(u: JobId, m: nat, k: nat)
    ensures Requeued(map[u := Row(Started, k, m, true)], {u}) ==
      map[u := Row(if m != 0 && k > m then Failed else JobState.Pending, k + 1, m, true)]
  {
  }

  /** The worker dies, and the requeuer finds the job. */
  lemma DieOnce(ss: seq<Sys>, acts: seq<Act>, root: Channel, j: ChannelJob, m: nat, k: nat, n: nat, counted: bool)
      returns (ts: seq<Sys>, bs: seq<Act>)
    requires j.channel == root && Tried(ss, acts, j.uuid, n, counted) && Performed(ss[|acts|], root, j, m, k)
    ensures Tried(ts, bs, j.uuid, n, counted) && ss[0] == ts[0]
    ensures Between(ts[|bs|], root, j, m, k + 1, if m != 0 && k > m then JobState.Failed else JobState.Pending)
  {
    hide Next, Retries.Attempts, Retries.Counted, Alone, Tellable, Requeued, AllCounted;
    var u, s := j.uuid, ss[|acts|];
    CanDie(s, root, j, m, k);
    DeadRowOf(u, m, k);
    var s1 := Crashed(s, 0);
    assert Retries.Counted(s, Crash(0), u) && Retries.Counted(s1, RequeueDead({u}), u) by {
      DeathIsCounted(s, s1, u);
    }
    ts, bs := OneMoreStep(ss, acts, Crash(0), s1, u, n, counted);
    ts, bs := OneMoreStep(ts, bs, RequeueDead({u}), Found(s1, u), u, n, counted);
  }

  lemma DeathIsCounted(s: Sys, s1: Sys, u: JobId)
    requires forall w <- s1.phases :: s1.phases[w] == Idle
    ensures Retries.Counted(s, Crash(0), u) && Retries.Counted(s1, RequeueDead({u}), u)
  {
  }

  /** The first `k` attempts all end in the death of the worker. */
  lemma {:induction false} DieOften(root: Channel, j: ChannelJob, m: nat, k: nat) returns (ss: seq<Sys>, acts: seq<Act>)
    requires root.parent == null && root.depth == 0 && j.channel == root && 0 < m && k <= m + 2
    ensures Tried(ss, acts, j.uuid, k, true) && ss[0] == Created(root, map[j.uuid := {}], map[j.uuid := m])
    ensures Between(ss[|acts|], root, j, m, k, if k == m + 2 then JobState.Failed else JobState.Pending)
  {
    hide Next, Between, Performed, Tried;
    if k == 0 {
      ss, acts := [Created(root, map[j.uuid := {}], map[j.uuid := m])], [];
      NoneTried(ss[0], root, j, m);
    } else {
      ss, acts := DieOften(root, j, m, k - 1);
      ss, acts := TryOnce(ss, acts, root, j, m, k - 1, k - 1, true);
      ss, acts := DieOnce(ss, acts, root, j, m, k - 1, k, true);
    }
  }

  lemma NoneTried(s: Sys, root: Channel, j: ChannelJob, m: nat)
    requires root.parent == null && root.depth == 0 && j.channel == root
    requires s == Created(root, map[j.uuid := {}], map[j.uuid := m])
    ensures Tried([s], [], j.uuid, 0, true) && Between(s, root, j, m, 0, JobState.Pending)
  {
    ExecutionStart(s);
    NewHere(s.sched, root, j);
    hide Next, Tellable;
  }

  /** The bound on attempts is met: from the creation of the job on, where `Begin` leads, there is a run, all of
      whose attempts are counted, in which its worker dies m + 2 times; the job is failed then. */
  lemma RetryBoundIsTight(root: Channel, j: ChannelJob, m: nat) returns (ss: seq<Sys>, acts: seq<Act>)
    requires root.parent == null && root.depth == 0 && j.channel == root && 0 < m
    ensures Execution(ss, acts) && ss[0] == Created(root, map[j.uuid := {}], map[j.uuid := m])
    ensures forall k | 0 <= k < |acts| :: Retries.Counted(ss[k], acts[k], j.uuid)
    ensures Retries.Attempts(ss, acts, j.uuid, |acts|) == m + 2
    ensures j.uuid in ss[|acts|].rows && ss[|acts|].rows[j.uuid].state == Failed
  {
    ss, acts := DieOften(root, j, m, m + 2);
    hide Next, Retries.Counted, Retries.Attempts, Alone, Tellable;
  }

  lemma ConflictRow(u: JobId, m: nat, k: nat)
    ensures Stored(map[u := Row(Started, k, m, true)], u, k, true, Conflict) ==
      map[u := Row(JobState.Pending, k + 1, m, true)]
  {
  }

  /** The job's function runs into a concurrency error of the database. */
  lemma ConflictOnce(ss: seq<Sys>, acts: seq<Act>, root: Channel, j: ChannelJob, m: nat, k: nat, n: nat)
      returns (ts: seq<Sys>, bs: seq<Act>)
    requires j.channel == root && Tried(ss, acts, j.uuid, n, false) && Performed(ss[|acts|], root, j, m, k)
    ensures Tried(ts, bs, j.uuid, n, false) && ss[0] == ts[0]
    ensures Between(ts[|bs|], root, j, m, k + 1, JobState.Pending)
  {
    hide Next, Retries.Begins, Alone, Tellable, Stored, AllCounted;
    var u := j.uuid;
    ConflictRow(u, m, k);
    ts, bs := EndAndUnlock(ss, acts, 0, Conflict);
    AttemptsKept(ss, acts, ts, bs, u, |acts|);
    AttemptsFrom(ts, bs, u, |acts|, |bs|);
  }

  /** Concurrency errors are counted as retries and yet never end a job: whatever its `max_retries`, there is a run
      in which it is attempted any number of times, and pending after that. */
  lemma {:induction false} ConflictsWithoutEnd(root: Channel, j: ChannelJob, m: nat, k: nat)
      returns (ss: seq<Sys>, acts: seq<Act>)
    requires root.parent == null && root.depth == 0 && j.channel == root
    ensures Execution(ss, acts) && ss[0] == Created(root, map[j.uuid := {}], map[j.uuid := m])
    ensures Retries.Attempts(ss, acts, j.uuid, |acts|) == k
    ensures Between(ss[|acts|], root, j, m, k, JobState.Pending)
  {
    hide Next, Between, Performed, Retries.Attempts, AllCounted;
    if k == 0 {
      ss, acts := [Created(root, map[j.uuid := {}], map[j.uuid := m])], [];
      NoneTried(ss[0], root, j, m);
    } else {
      ss, acts := ConflictsWithoutEnd(root, j, m, k - 1);
      ss, acts := TryOnce(ss, acts, root, j, m, k - 1, k - 1, false);
      ss, acts := ConflictOnce(ss, acts, root, j, m, k - 1, k);
    }
  }
}
