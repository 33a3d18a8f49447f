/** The runner, as the program text has it: what its loop does is a run of the step system
    (queue_job/jobrunner/runner.py, lines 207-280 and 376-451). */
module Runners {
  import opened Channels
  import opened Options
  import opened JobStates
  import opened JobTable
  import opened Jobs
  import opened Scheduler
  import opened Pipeline
  import opened Manager
  import opened ChannelNames
  import opened Protocol

  /** What the runner reads of a job beside its state. */
  datatype Props = Props(dbName: string, channelName: string, rank: Rank, eta: Eta)

  /** The channels that a lookup creates are steps of their own. */
  lemma {:induction false} GrowthIsTidy(s: Sys, created: seq<Channel>) returns (ss: seq<Sys>, acts: seq<Act>)
    requires MayGrow(s.sched, created)
    ensures Execution(ss, acts) && ss[0] == s && ss[|acts|] == s.(sched := GrownBy(s.sched, created))
    ensures |ss| == |acts| + 1 && forall a <- acts :: a.Tidy?
    decreases |created|
  {
    hide Execution, Step;
    if created == [] {
      ExecutionStart(s);
      ss, acts := [s], [];
    } else {
      var front, c := created[..|created| - 1], created[|created| - 1];
      ss, acts := GrowthIsTidy(s, front);
      var m, n := ss[|acts|], s.(sched := GrownBy(s.sched, created));
      assert Step(m.sched, Grown(c), n.sched);
      assert RunnerStep(m, Tidy(Grown(c)), n);
      ExecutionMore(ss, acts, Tidy(Grown(c)), n);
      ss, acts := ss + [n], acts + [Tidy(Grown(c))];
    }
  }

  lemma TellStep(s: Sys, e: Event, sched: Sched, uuid: JobId)
    requires Looping(s.runner) && Step(s.sched, e, sched)
    requires if e.Removed? then e.uuid == uuid && uuid !in s.rows
      else uuid in s.rows && Notifies(e, uuid, s.rows[uuid].state)
    ensures Next(s, Tell(e), s.(sched := sched))
  {
  }

  function DeadAmong(rows: Rows, locks: map<JobId, Worker>, overdue: set<JobId>): set<JobId>
    requires overdue <= rows.Keys
  {
    set j <- overdue | LooksDead(rows[j], j in locks)
  }

  lemma RequeueStep(s: Sys, overdue: set<JobId>)
    requires overdue <= s.rows.Keys
    ensures var dead := DeadAmong(s.rows, s.locks, overdue);
      Next(s, Act.RequeueDead(dead), s.(rows := Protocol.Requeued(s.rows, dead)))
    ensures forall dead :: Protocol.Requeued(s.rows, dead).Keys == s.rows.Keys
  {
    hide LooksDead;
  }

  /** What the statement makes of a row: one that is overdue, enqueued or started, and has no lock row or a lock that
      nobody holds goes back to pending, or fails when it has been retried too often, and a started one is counted a
      retry; any other row stays. */
  predicate FoundDead(row: Row, overdue: bool, held: bool, after: Row) {
    if overdue && (row.state.Enqueued? || row.state.Started?) && !(row.lockRow && held) then
      && after.state == (if row.maxRetries != 0 && row.retry > row.maxRetries then JobState.Failed else JobState.Pending)
      && after.retry == row.retry + (if row.state.Started? then 1 else 0)
      && after.maxRetries == row.maxRetries && after.lockRow == row.lockRow
    else after == row
  }

  lemma FoundRows(rows: Rows, locks: map<JobId, Worker>, overdue: set<JobId>)
    requires overdue <= rows.Keys
    ensures var n := Protocol.Requeued(rows, DeadAmong(rows, locks, overdue));
      n.Keys == rows.Keys && forall j <- rows :: FoundDead(rows[j], j in overdue, j in locks, n[j])
  {
  }

  lemma DrawStep(s: Sys, now: Time, log: Drain, s': Sys) returns (ss: seq<Sys>, acts: seq<Act>)
    requires Looping(s.runner) && Step(s.sched, Drained(now, log), s'.sched)
    requires s' == s.(sched := s'.sched, runner := Open(map[], Uuids(log.out)))
    ensures Execution(ss, acts) && ss == [s, s'] && acts == [Draw(now, log)]
  {
    ExecutionStart(s);
    assert RunnerStep(s, Draw(now, log), s') by {
      hide Step;
    }
    hide Execution, RunnerStep, WorkerStep, UserStep;
    ExecutionMore([s], [], Draw(now, log), s');
    ss, acts := [s] + [s'], [] + [Draw(now, log)];
  }

  lemma MarkStep(ss: seq<Sys>, acts: seq<Act>, s: Sys, s': Sys) returns (ts: seq<Sys>, bs: seq<Act>)
    requires Execution(ss, acts) && |ss| == |acts| + 1 && ss[|acts|] == s && s.runner.Open? && s.runner.asked != []
    requires s' == s.(
      rows := WithState(s.rows, s.runner.asked[0], Enqueued), runner := s.runner.(asked := s.runner.asked[1..]))
    ensures Execution(ts, bs) && ts == ss + [s'] && bs == acts + [Mark]
  {
    assert RunnerStep(s, Mark, s');
    hide Execution, RunnerStep, WorkerStep, UserStep;
    ExecutionMore(ss, acts, Mark, s');
    ts, bs := ss + [s'], acts + [Mark];
  }

  lemma SameJobs(rows: Rows, j: JobId, state: JobState)
    ensures WithState(rows, j, state).Keys == rows.Keys
  {
  }

  lemma UuidsHead(out: seq<ChannelJob>, i: nat)
    requires i < |out|
    ensures Uuids(out[i..]) != [] && Uuids(out[i..])[0] == out[i].uuid && Uuids(out[i..])[1..] == Uuids(out[i + 1..])
  {
  }

  lemma AllUuids(out: seq<ChannelJob>)
    ensures out[0..] == out && Uuids(out[|out|..]) == [] && Looping(Open(map[], []))
  {
  }

  lemma ReloadStep(s: Sys) returns (ss: seq<Sys>, acts: seq<Act>)
    requires s.runner.Closed? && s.sched.jobs == map[]
    ensures Execution(ss, acts) && ss == [s, s.(runner := Open(Protocol.NotDone(s.rows), []))] && acts == [Reload]
  {
    var s' := s.(runner := Open(Protocol.NotDone(s.rows), []));
    ExecutionStart(s);
    assert RunnerStep(s, Reload, s');
    hide Execution, RunnerStep, WorkerStep, UserStep;
    ExecutionMore([s], [], Reload, s');
    ss, acts := [s] + [s'], [] + [Reload];
  }

  lemma LoadStep(s: Sys, e: Event, uuid: JobId, s': Sys)
    requires s.runner.Open? && s.runner.asked == [] && uuid in s.runner.toLoad
    requires Notifies(e, uuid, s.runner.toLoad[uuid]) && Step(s.sched, e, s'.sched)
    requires s' == s.(sched := s'.sched, runner := s.runner.(toLoad := s.runner.toLoad - {uuid}))
    ensures Next(s, Load(e), s')
  {
    hide Step, Notifies;
  }

  lemma CloseStep(s: Sys, e: Event, s': Sys)
    requires e.RemovedDb? && Step(s.sched, e, s'.sched) && s' == s.(sched := s'.sched, runner := Closed)
    ensures Next(s, Close(e), s')
  {
    hide Step;
  }

  // ----- what is marked -------------------------------------------------------------------------

  /** The rows of these jobs are enqueued now, and no other row has changed. */
  predicate MarkedRows(rows: Rows, out: seq<ChannelJob>, after: Rows) {
    after.Keys == rows.Keys &&
    forall u <- rows :: after[u] == if (exists i :: 0 <= i < |out| && out[i].uuid == u) then rows[u].(state := Enqueued) else rows[u]
  }

  lemma NoneMarked(rows: Rows)
    ensures MarkedRows(rows, [], rows)
  {
  }

  lemma MarkedMore(rows: Rows, out: seq<ChannelJob>, after: Rows, j: ChannelJob)
    requires MarkedRows(rows, out, after)
    ensures MarkedRows(rows, out + [j], WithState(after, j.uuid, Enqueued))
  {
    var more, n := out + [j], WithState(after, j.uuid, Enqueued);
    forall u <- rows
      ensures (exists i :: 0 <= i < |more| && more[i].uuid == u) <==> (exists i :: 0 <= i < |out| && out[i].uuid == u) || j.uuid == u
    {
      if i :| 0 <= i < |out| && out[i].uuid == u {
        assert more[i].uuid == u;
      }
      if j.uuid == u {
        assert more[|out|].uuid == u;
      }
    }
  }

  // ----- what is loaded -------------------------------------------------------------------------

  /** The rows that are still of interest to the channels, with their states. */
  function ToLoad(rows: Rows): map<JobId, JobState> {
    map u <- rows | rows[u].state != Done && rows[u].state != Cancelled :: rows[u].state
  }

  lemma NotDoneRows(rows: Rows)
    ensures Protocol.NotDone(rows) == ToLoad(rows) && ToLoad(rows).Keys <= rows.Keys
  {
  }

  /** The step loads this job, on a new job object, with that eta and state. */
  predicate IsLoadOf(a: Act, u: JobId, eta: Eta, state: JobState) {
    a.Load? && a.e.Rescheduled? && a.e.job.uuid == u && a.e.eta == eta && a.e.state == Some(state)
  }

  /** The steps load these jobs, each once, and no others. */
  ghost predicate Loads(acts: seq<Act>, jobs: map<JobId, JobState>, props: map<JobId, Props>)
    requires jobs.Keys <= props.Keys
  {
    && (forall i | 0 <= i < |acts| && acts[i].Load? ::
          acts[i].e.Rescheduled? && acts[i].e.job.uuid in jobs
          && IsLoadOf(acts[i], acts[i].e.job.uuid, props[acts[i].e.job.uuid].eta, jobs[acts[i].e.job.uuid]))
    && (forall u <- jobs :: exists i :: 0 <= i < |acts| && IsLoadOf(acts[i], u, props[u].eta, jobs[u]))
    && (forall i, k | 0 <= i < k < |acts| && acts[i].Load? && acts[k].Load? ::
          acts[i].e.Rescheduled? && acts[k].e.Rescheduled? && acts[i].e.job.uuid != acts[k].e.job.uuid)
  }

  lemma NoLoads(acts: seq<Act>, props: map<JobId, Props>)
    requires forall a <- acts :: !a.Load?
    ensures Loads(acts, map[], props)
  {
  }

  lemma LoadsMore(acts: seq<Act>, bs: seq<Act>, a: Act, jobs: map<JobId, JobState>, props: map<JobId, Props>, u: JobId, state: JobState)
    requires jobs.Keys <= props.Keys && u in props && u !in jobs
    requires Loads(acts, jobs, props) && (forall b <- bs :: b.Tidy?) && IsLoadOf(a, u, props[u].eta, state)
    ensures Loads(acts + (bs + [a]), jobs[u := state], props)
  {
    var more, all := jobs[u := state], acts + (bs + [a]);
    assert forall i | |acts| <= i < |acts| + |bs| :: all[i] == bs[i - |acts|] && bs[i - |acts|] in bs;
    assert all[|all| - 1] == a;
    forall i | 0 <= i < |all| && all[i].Load? ensures i < |acts| || i == |all| - 1 {
    }
    forall v <- more ensures exists i :: 0 <= i < |all| && IsLoadOf(all[i], v, props[v].eta, more[v]) {
      if v == u {
        assert IsLoadOf(all[|all| - 1], v, props[v].eta, more[v]);
      } else {
        var i :| 0 <= i < |acts| && IsLoadOf(acts[i], v, props[v].eta, jobs[v]);
        assert IsLoadOf(all[i], v, props[v].eta, more[v]);
      }
    }
  }

  /** Exactly these jobs are live, each where a job in its state belongs. */
  ghost predicate AllPlaced(s: Sched, jobs: map<JobId, JobState>, props: map<JobId, Props>)
    requires jobs.Keys <= props.Keys
  {
    && s.jobs.Keys == jobs.Keys
    && forall u <- jobs :: PlacedAs(s.net, s.jobs[u], props[u].eta, Some(jobs[u]), true)
  }

  lemma PlacedMore(s: Sched, s': Sched, jobs: map<JobId, JobState>, props: map<JobId, Props>, u: JobId, state: JobState)
    requires Inv(s) && jobs.Keys <= props.Keys && u in props && u !in jobs && AllPlaced(s, jobs, props)
    requires OthersStay(s, s', u) && s'.jobs.Keys == s.jobs.Keys + {u}
    requires PlacedAs(s'.net, s'.jobs[u], props[u].eta, Some(state), true)
    ensures AllPlaced(s', jobs[u := state], props)
  {
    var more := jobs[u := state];
    forall v <- more ensures PlacedAs(s'.net, s'.jobs[v], props[v].eta, Some(more[v]), true) {
      if v != u {
        hide PlacedAs, Undisturbed;
        StillPlaced(s.net, s'.net, s.jobs[v], props[v].eta, Some(jobs[v]), true);
      }
    }
  }

  /** The steps have loaded one new job more, and left the others where they were. */
  ghost predicate LoadedOne(s: Sched, acts: seq<Act>, s': Sched, u: JobId, eta: Eta, state: JobState) {
    && acts != [] && (forall a <- acts[..|acts| - 1] :: a.Tidy?) && IsLoadOf(acts[|acts| - 1], u, eta, state)
    && OthersStay(s, s', u) && s'.jobs.Keys == s.jobs.Keys + {u} && PlacedAs(s'.net, s'.jobs[u], eta, Some(state), true)
  }

  lemma OneMoreLoaded(s: Sched, acts: seq<Act>, bs: seq<Act>, s': Sched, jobs: map<JobId, JobState>, props: map<JobId, Props>,
      u: JobId, state: JobState)
    requires Inv(s) && jobs.Keys <= props.Keys && u in props && u !in jobs
    requires Loads(acts, jobs, props) && AllPlaced(s, jobs, props) && LoadedOne(s, bs, s', u, props[u].eta, state)
    ensures Loads(acts + bs, jobs[u := state], props) && AllPlaced(s', jobs[u := state], props)
    ensures forall a <- bs :: a.Tidy? || a.Load?
  {
    hide OthersStay, PlacedAs, Loads, AllPlaced, Inv;
    LoadsMore(acts, bs[..|bs| - 1], bs[|bs| - 1], jobs, props, u, state);
    assert bs[..|bs| - 1] + [bs[|bs| - 1]] == bs;
    PlacedMore(s, s', jobs, props, u, state);
  }

  /** The event notified the job with the properties and the state of its row, and the job is where a job in that
      state belongs. */
  ghost predicate Told(s: Sched, e: Event, u: JobId, p: Props, state: JobState) {
    && (e.Kept? || e.Rescheduled?) && e.eta == p.eta && e.state == Some(state)
    && (if e.Kept? then e.uuid == u else e.job.uuid == u)
    && u in s.jobs && s.jobs[u].dbName == p.dbName && s.jobs[u].rank == p.rank
    && PlacedAs(s.net, s.jobs[u], p.eta, Some(state), e.Rescheduled?)
  }

  lemma IsTold(s: Sched, e: Event, u: JobId, p: Props, state: JobState)
    requires (e.Kept? && e == Kept(u, p.eta, Some(state))) || (e.Rescheduled? && e.job.uuid == u && e.eta == p.eta && e.state == Some(state))
    requires u in s.jobs && s.jobs[u].dbName == p.dbName && s.jobs[u].rank == p.rank
    requires PlacedAs(s.net, s.jobs[u], p.eta, Some(state), e.Rescheduled?)
    ensures Told(s, e, u, p, state)
  {
    hide PlacedAs;
  }

  class QueueJobRunner {
    const site: Site
    const manager: ChannelManager
    var props: map<JobId, Props>
    ghost var runner: Runner

    ghost function Whole(): Sys
      requires Channels.Valid(manager.all)
      reads this, site, manager, Objects(manager.all), HeapJobs(manager.all)
    {
      site.Whole(manager.State(), runner)
    }

    /** The live jobs are those of the database: its name and their dates of creation never change. */
    ghost predicate Ok()
      reads this, site, manager, Objects(manager.all), HeapJobs(manager.all)
    {
      && manager.Ok() && props.Keys == site.rows.Keys
      && forall u <- manager.jobsByUuid | u in props ::
        manager.jobsByUuid[u].dbName == props[u].dbName &&
        manager.jobsByUuid[u].rank.dateCreated == props[u].rank.dateCreated
    }

    /** The runner and the database are no part of the channels. */
    lemma Apart(s: set<Channel>)
      ensures this as object !in Objects(s) && site as object !in Objects(s)
      ensures forall j <- HeapJobs(s) :: j as object != this && j as object != site
      ensures this as object != manager && site as object != manager
      ensures manager as object !in Objects(s)
    {
    }

    /** A new runner, with the rows that are in the database, and channels that hold no job yet. */
    constructor (site: Site, manager: ChannelManager, props: map<JobId, Props>)
      requires manager.Ok() && manager.jobsByUuid == map[] && props.Keys == site.rows.Keys
      ensures Ok() && this.site == site && this.manager == manager && runner == Closed && this.props == props
    {
      hide *;
      this.site, this.manager, this.props, runner := site, manager, props, Closed;
      new;
      Apart(old(manager.all));
      assert HeapJobs(manager.all) == old(HeapJobs(manager.all));
      StillOk();
    }

    lemma Parts()
      requires Ok()
      ensures manager.Ok() && Channels.Valid(manager.all) && props.Keys == site.rows.Keys
      ensures Whole() == Sys(site.rows, site.deps, site.locks, site.phases, manager.State(), runner)
      ensures forall u <- manager.jobsByUuid | u in props ::
        manager.jobsByUuid[u].dbName == props[u].dbName &&
        manager.jobsByUuid[u].rank.dateCreated == props[u].rank.dateCreated
    {
      manager.OkParts();
      hide Channels.Valid, Indexed, OneRoot, Inv;
    }

    lemma StillOk()
      requires manager.Ok() && props.Keys == site.rows.Keys
      requires forall u <- manager.jobsByUuid | u in props ::
        manager.jobsByUuid[u].dbName == props[u].dbName &&
        manager.jobsByUuid[u].rank.dateCreated == props[u].rank.dateCreated
      ensures Ok() && Channels.Valid(manager.all)
      ensures Whole() == Sys(site.rows, site.deps, site.locks, site.phases, manager.State(), runner)
    {
      manager.OkParts();
      hide Channels.Valid, Indexed, OneRoot, Inv;
    }

    /** A notification: the job's row is read as it is now; a job that is no more is removed. */
    method ProcessNotification(uuid: JobId) returns (ghost ss: seq<Sys>, ghost acts: seq<Act>)
      requires Ok() && Looping(runner)
      modifies manager`channelsByName, manager`all, manager`jobsByUuid, Objects(manager.all)
      ensures Ok() && Execution(ss, acts) && |ss| == |acts| + 1
      ensures ss[0] == old(Whole()) && ss[|acts|] == Whole()
      ensures acts != [] && acts[|acts| - 1].Tell? && forall i | 0 <= i < |acts| - 1 :: acts[i].Tidy?
      ensures site.rows == old(site.rows) && props == old(props)
      ensures if uuid in site.rows then Told(ss[|acts|].sched, acts[|acts| - 1].e, uuid, old(props[uuid]), site.rows[uuid].state)
        else acts == [Tell(Removed(uuid))] && uuid !in ss[|acts|].sched.jobs
    {
      hide *;
      Parts();
      Apart(manager.all);
      ghost var s0 := Whole();
      if uuid in site.rows {
        var p := props[uuid];
        ghost var created, e, made;
        created, e, made := manager.Notify(p.dbName, p.channelName, uuid, p.rank, p.eta, Some(site.rows[uuid].state));
        StillOk();
        ss, acts := GrowthIsTidy(s0, created);
        TellStep(ss[|acts|], e, manager.State(), uuid);
        ExecutionMore(ss, acts, Tell(e), Whole());
        manager.OkParts();
        IsTold(manager.State(), e, uuid, p, site.rows[uuid].state);
        ss, acts := ss + [Whole()], acts + [Tell(e)];
      } else {
        manager.RemoveJob(uuid);
        StillOk();
        manager.OkParts();
        ExecutionStart(s0);
        TellStep(s0, Removed(uuid), manager.State(), uuid);
        ExecutionMore([s0], [], Tell(Removed(uuid)), Whole());
        ss, acts := [s0] + [Whole()], [] + [Tell(Removed(uuid))];
      }
    }

    /** All rows that look dead and were enqueued long enough ago, in one statement. */
    method RequeueDeadJobs(overdue: set<JobId>)
      requires Ok() && overdue <= site.rows.Keys
      modifies site`rows
      ensures Ok()
      ensures Next(old(Whole()), Act.RequeueDead(DeadAmong(old(site.rows), site.locks, overdue)), Whole())
      ensures site.locks == old(site.locks) && site.rows.Keys == old(site.rows).Keys
      ensures forall j <- site.rows :: FoundDead(old(site.rows)[j], j in overdue, j in site.locks, site.rows[j])
    {
      hide *;
      Parts();
      Apart(manager.all);
      ghost var s0 := Whole();
      var dead := DeadAmong(site.rows, site.locks, overdue);
      RequeueStep(s0, overdue);
      FoundRows(site.rows, site.locks, overdue);
      site.rows := Protocol.Requeued(site.rows, dead);
      StillOk();
    }

    /** The jobs the channels let run are marked enqueued, one after the other. */
    method RunJobs(now: Time) returns (ghost ss: seq<Sys>, ghost acts: seq<Act>)
      requires Ok() && Looping(runner)
      modifies site`rows, this`runner, Objects(manager.all), HeapJobs(manager.all)
      ensures Ok() && Looping(runner) && Execution(ss, acts) && |ss| == |acts| + 1
      ensures ss[0] == old(Whole()) && ss[|acts|] == Whole()
      ensures acts != [] && acts[0].Draw? && acts[0].now == now && forall i | 0 < i < |acts| :: acts[i] == Mark
      ensures |acts| == 1 + |acts[0].log.out|
      ensures MarkedRows(old(site.rows), acts[0].log.out, site.rows)
    {
      hide *;
      Parts();
      Apart(manager.all);
      ghost var s0 := Whole();
      var out;
      ghost var log;
      out, log := manager.GetJobsToRun(now);
      Apart(manager.all);
      runner := Open(map[], Uuids(out));
      StillOk();
      ss, acts := DrawStep(s0, now, log, Whole());
      AllUuids(out);
      ghost var rows := site.rows;
      NoneMarked(rows);
      assert out[..0] == [];
      for i := 0 to |out|
        invariant Ok() && Channels.Valid(manager.all) && Execution(ss, acts) && |ss| == |acts| + 1
        invariant ss[0] == s0 && ss[|acts|] == Whole()
        invariant |acts| == i + 1 && acts[0] == Draw(now, log) && forall k | 0 < k < |acts| :: acts[k] == Mark
        invariant runner == Open(map[], Uuids(out[i..]))
        invariant MarkedRows(rows, out[..i], site.rows)
      {
        Parts();
        Apart(manager.all);
        ghost var s1 := Whole();
        UuidsHead(out, i);
        MarkedMore(rows, out[..i], site.rows, out[i]);
        assert out[..i] + [out[i]] == out[..i + 1];
        site.rows := WithState(site.rows, out[i].uuid, Enqueued);
        runner := Open(map[], Uuids(out[i + 1..]));
        SameJobs(s1.rows, out[i].uuid, Enqueued);
        StillOk();
        ss, acts := MarkStep(ss, acts, s1, Whole());
      }
      assert out[..|out|] == out;
    }

    /** The rows that are not done are read when a database is opened, and notified one after the other. After that
        exactly they are live, and each job is where a job in its state belongs. */
    method InitializeDatabases() returns (ghost ss: seq<Sys>, ghost acts: seq<Act>)
      requires Ok() && runner.Closed? && manager.jobsByUuid == map[]
      modifies this`runner, manager`channelsByName, manager`all, manager`jobsByUuid, Objects(manager.all)
      ensures Ok() && Looping(runner) && Execution(ss, acts) && |ss| == |acts| + 1
      ensures ss[0] == old(Whole()) && ss[|acts|] == Whole()
      ensures acts != [] && acts[0] == Reload && forall i | 0 < i < |acts| :: acts[i].Tidy? || acts[i].Load?
      ensures site.rows == old(site.rows) && props == old(props)
      ensures Loads(acts, ToLoad(site.rows), props)
      ensures AllPlaced(ss[|acts|].sched, ToLoad(site.rows), props)
      ensures forall u <- site.rows :: u in manager.jobsByUuid <==> !site.rows[u].state.Done? && !site.rows[u].state.Cancelled?
    {
      hide *;
      Parts();
      Apart(manager.all);
      manager.OkParts();
      var toLoad := Protocol.NotDone(site.rows);
      ghost var objects, made := Objects(manager.all), {};
      ss, acts := ReloadStep(Whole());
      runner := Open(toLoad, []);
      StillOk();
      NotDoneRows(site.rows);
      ghost var all := toLoad;
      ghost var loaded: map<JobId, JobState> := map[];
      LoadingStart(ss, acts, props);
      DivideStart(all);
      while toLoad != map[]
        invariant Ok() && Channels.Valid(manager.all) && runner == Open(toLoad, []) && all.Keys <= props.Keys
        invariant |ss| == |acts| + 1 && ss[0] == old(Whole()) && ss[|acts|] == Whole()
        invariant Loading(ss, acts, loaded, props)
        invariant Objects(manager.all) == objects + made && fresh(made)
        invariant site.rows == old(site.rows) && props == old(props)
        invariant Divided(all, loaded, toLoad)
        invariant manager.jobsByUuid.Keys == loaded.Keys
        decreases toLoad.Keys
      {
        var uuid :| uuid in toLoad;
        DivideMore(all, loaded, toLoad, uuid);
        Parts();
        manager.OkParts();
        ghost var ts, bs, more := LoadOne(uuid, toLoad);
        made := made + more;
        LoadingMore(ss, acts, ts, bs, loaded, props, uuid, toLoad[uuid]);
        ss, acts := ss + ts[1..], acts + bs;
        loaded := loaded[uuid := toLoad[uuid]];
        toLoad := toLoad - {uuid};
      }
      Loaded();
      AllLoaded(all, loaded);
      LoadingParts(ss, acts, loaded, props);
      LiveRows(site.rows, manager.jobsByUuid);
    }

    method LoadOne(uuid: JobId, toLoad: map<JobId, JobState>)
      returns (ghost ss: seq<Sys>, ghost acts: seq<Act>, ghost made: set<object>)
      requires Ok() && runner == Open(toLoad, []) && uuid in toLoad && uuid in props && uuid !in manager.jobsByUuid
      modifies this`runner, manager`channelsByName, manager`all, manager`jobsByUuid, Objects(manager.all)
      ensures Ok() && Channels.Valid(manager.all) && runner == Open(toLoad - {uuid}, [])
      ensures Execution(ss, acts) && |ss| == |acts| + 1 && ss[0] == old(Whole()) && ss[|acts|] == Whole()
      ensures LoadedOne(ss[0].sched, acts, ss[|acts|].sched, uuid, old(props[uuid]).eta, toLoad[uuid])
      ensures props == old(props) && site.rows == old(site.rows)
      ensures Objects(manager.all) == Objects(old(manager.all)) + made && fresh(made)
      ensures manager.jobsByUuid.Keys == old(manager.jobsByUuid).Keys + {uuid}
    {
      hide *;
      Parts();
      Apart(manager.all);
      manager.OkParts();
      var p := props[uuid];
      ghost var s0, sched := Whole(), manager.State();
      ghost var created, e;
      created, e, made := manager.Notify(p.dbName, p.channelName, uuid, p.rank, p.eta, Some(toLoad[uuid]));
      manager.OkParts();
      NewJobDisturbsNone(sched, created, e, manager.State(), uuid);
      Apart(manager.all);
      runner := Open(toLoad - {uuid}, []);
      StillOk();
      ss, acts := GrowthIsTidy(s0, created);
      NoticeOf(e, uuid, toLoad[uuid]);
      LoadStep(ss[|acts|], e, uuid, Whole());
      ExecutionMore(ss, acts, Load(e), Whole());
      IsLoaded(sched, acts, e, manager.State(), uuid, p.eta, toLoad[uuid]);
      ss, acts := ss + [Whole()], acts + [Load(e)];
    }

    /** The live jobs of the databases are dropped. */
    method CloseDatabases(names: seq<string>) returns (ghost ss: seq<Sys>, ghost acts: seq<Act>)
      requires Ok()
      modifies this`runner, manager`jobsByUuid, Objects(manager.all)
      ensures Ok() && Execution(ss, acts) && |ss| == |acts| + 1
      ensures ss[0] == old(Whole()) && ss[|acts|] == Whole()
      ensures |acts| == |names| && forall i | 0 <= i < |acts| :: acts[i] == Close(RemovedDb(names[i]))
      ensures manager.jobsByUuid ==
        map u <- old(manager.jobsByUuid) | old(manager.jobsByUuid)[u].dbName !in names :: old(manager.jobsByUuid)[u]
    {
      hide *;
      Parts();
      Apart(manager.all);
      ExecutionStart(Whole());
      ss, acts := [Whole()], [];
      ghost var jobs := manager.jobsByUuid;
      for i := 0 to |names|
        invariant Ok() && Channels.Valid(manager.all) && manager.all == old(manager.all)
        invariant Execution(ss, acts) && |ss| == |acts| + 1 && ss[0] == old(Whole()) && ss[|acts|] == Whole()
        invariant |acts| == i && forall k | 0 <= k < i :: acts[k] == Close(RemovedDb(names[k]))
        invariant manager.jobsByUuid == map u <- jobs | jobs[u].dbName !in names[..i] :: jobs[u]
      {
        Parts();
        Apart(manager.all);
        ghost var s1 := Whole();
        manager.RemoveDb(names[i]);
        Apart(manager.all);
        runner := Closed;
        StillOk();
        CloseStep(s1, RemovedDb(names[i]), Whole());
        ExecutionMore(ss, acts, Close(RemovedDb(names[i])), Whole());
        ss, acts := ss + [Whole()], acts + [Close(RemovedDb(names[i]))];
        assert names[..i + 1] == names[..i] + [names[i]];
      }
      assert names[..|names|] == names;
    }
  }

  /** How far loading has come. */
  ghost predicate Loading(ss: seq<Sys>, acts: seq<Act>, loaded: map<JobId, JobState>, props: map<JobId, Props>) {
    && Execution(ss, acts) && |ss| == |acts| + 1
    && acts != [] && acts[0] == Reload && (forall i | 0 < i < |acts| :: acts[i].Tidy? || acts[i].Load?)
    && loaded.Keys <= props.Keys && Loads(acts, loaded, props) && AllPlaced(ss[|acts|].sched, loaded, props)
  }

  lemma LoadingStart(ss: seq<Sys>, acts: seq<Act>, props: map<JobId, Props>)
    requires Execution(ss, acts) && |ss| == 2 && acts == [Reload] && ss[1].sched.jobs == map[]
    ensures Loading(ss, acts, map[], props)
  {
    hide Execution;
    NoLoads(acts, props);
  }

  lemma LoadingMore(ss: seq<Sys>, acts: seq<Act>, ts: seq<Sys>, bs: seq<Act>, loaded: map<JobId, JobState>,
      props: map<JobId, Props>, u: JobId, state: JobState)
    requires Loading(ss, acts, loaded, props) && Execution(ts, bs) && |ts| == |bs| + 1 && ts[0] == ss[|acts|]
    requires u in props && u !in loaded && Inv(ts[0].sched)
    requires LoadedOne(ts[0].sched, bs, ts[|bs|].sched, u, props[u].eta, state)
    ensures Loading(ss + ts[1..], acts + bs, loaded[u := state], props)
  {
    hide Execution, Loads, AllPlaced, Inv, LoadedOne;
    ExecutionJoin(ss, acts, ts, bs);
    OneMoreLoaded(ts[0].sched, acts, bs, ts[|bs|].sched, loaded, props, u, state);
    forall i | 0 < i < |acts + bs| ensures (acts + bs)[i].Tidy? || (acts + bs)[i].Load? {
      if i >= |acts| {
        assert (acts + bs)[i] == bs[i - |acts|] && bs[i - |acts|] in bs;
      }
    }
  }

  lemma LoadingParts(ss: seq<Sys>, acts: seq<Act>, loaded: map<JobId, JobState>, props: map<JobId, Props>)
    requires Loading(ss, acts, loaded, props)
    ensures Execution(ss, acts) && |ss| == |acts| + 1
    ensures acts != [] && acts[0] == Reload && forall i | 0 < i < |acts| :: acts[i].Tidy? || acts[i].Load?
    ensures loaded.Keys <= props.Keys && Loads(acts, loaded, props) && AllPlaced(ss[|acts|].sched, loaded, props)
  {
  }

  /** What has been loaded and what is to load. */
  ghost predicate Divided(all: map<JobId, JobState>, loaded: map<JobId, JobState>, toLoad: map<JobId, JobState>) {
    && loaded.Keys + toLoad.Keys == all.Keys && loaded.Keys !! toLoad.Keys
    && (forall u <- loaded :: loaded[u] == all[u])
    && (forall u <- toLoad :: toLoad[u] == all[u])
  }

  lemma DivideStart(all: map<JobId, JobState>)
    ensures Divided(all, map[], all)
  {
  }

  lemma DivideMore(all: map<JobId, JobState>, loaded: map<JobId, JobState>, toLoad: map<JobId, JobState>, u: JobId)
    requires Divided(all, loaded, toLoad) && u in toLoad
    ensures Divided(all, loaded[u := toLoad[u]], toLoad - {u}) && u !in loaded && loaded.Keys <= all.Keys
  {
  }

  lemma AllLoaded(all: map<JobId, JobState>, loaded: map<JobId, JobState>)
    requires Divided(all, loaded, map[])
    ensures loaded == all
  {
  }

  lemma LiveRows(rows: Rows, jobs: map<JobId, ChannelJob>)
    requires jobs.Keys == ToLoad(rows).Keys
    ensures forall u <- rows :: u in jobs <==> !rows[u].state.Done? && !rows[u].state.Cancelled?
  {
  }

  lemma IsLoaded(s: Sched, bs: seq<Act>, e: Event, s': Sched, u: JobId, eta: Eta, state: JobState)
    requires (forall a <- bs :: a.Tidy?) && e.Rescheduled? && e.job.uuid == u && e.eta == eta && e.state == Some(state)
    requires OthersStay(s, s', u) && s'.jobs.Keys == s.jobs.Keys + {u} && PlacedAs(s'.net, s'.jobs[u], eta, Some(state), true)
    ensures LoadedOne(s, bs + [Load(e)], s', u, eta, state)
  {
    assert (bs + [Load(e)])[..|bs|] == bs;
    hide OthersStay, PlacedAs;
  }

  lemma Loaded()
    ensures Looping(Open(map[], []))
  {
  }

  lemma NoticeOf(e: Event, uuid: JobId, state: JobState)
    requires (e.Kept? && e.uuid == uuid && e.state == Some(state)) ||
      (e.Rescheduled? && e.job.uuid == uuid && e.state == Some(state))
    ensures Notifies(e, uuid, state)
  {
  }
}
