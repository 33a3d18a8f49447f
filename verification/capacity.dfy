/** Capacities and throttle delays over whole runs
    (queue_job/jobrunner/channels.py, lines 525-583 and 1059-1109). */
module Capacity {
  import opened Channels
  import opened Options
  import opened JobStates
  import opened Scheduler
  import opened Pipeline
  import opened DrainOrder

  ghost predicate Limited(v: ChannelView) {
    v.capacity.Some? && v.capacity.value > 0
  }

  /** Every channel runs at most as many jobs as its capacity, when it has one. */
  ghost predicate WithinCapacity(net: Network) {
    forall c <- net | Limited(net[c]) :: |net[c].running| <= net[c].capacity.value
  }

  /** The running jobs grew, if at all, up to the capacity at most. */
  ghost predicate GrewWithin(v: ChannelView, w: ChannelView) {
    w.capacity == v.capacity &&
    (Limited(v) ==> |w.running| <= |v.running| || |w.running| <= v.capacity.value)
  }

  lemma {:induction false} YieldingWithin(v: ChannelView, now: Time, out: seq<ChannelJob>)
    requires MayYield(v, now, out)
    ensures GrewWithin(v, Yielded(v, now, out))
    decreases |out|
  {
    if out != [] {
      var front, last := out[..|out| - 1], out[|out| - 1];
      YieldingWithin(v, now, front);
      var w := Yielded(v, now, front);
      assert w.HasCapacity();
      assert |w.running + {last}| <= |w.running| + 1;
    }
  }

  lemma RunningWithin(v: ChannelView, now: Time, out: seq<ChannelJob>)
    requires RunsOk(v, now, out)
    ensures GrewWithin(v, AfterRun(v, now, out))
  {
    if !Throttled(v, now) {
      YieldingWithin(Unpause(v), now, out);
    }
  }

  lemma {:induction false} KidsWithin(net: Network, c: Channel, kids: seq<Drain>, now: Time)
    requires Rooted(net.Keys) && c in net && KidsAt(net.Keys, c, kids) && KidsOk(net, c, kids, now)
    ensures AfterKids(net, c, kids, now).Keys == net.Keys
    ensures forall x <- net :: GrewWithin(net[x], AfterKids(net, c, kids, now)[x])
    decreases kids, 0
  {
    if kids != [] {
      var front, last := kids[..|kids| - 1], kids[|kids| - 1];
      KidsWithin(net, c, front, now);
      DrainWithin(AfterKids(net, c, front, now), last, now);
    }
  }

  /** A drained call never raises a channel's running jobs above its capacity, nor above what
      they were. */
  lemma {:induction false} DrainWithin(net: Network, d: Drain, now: Time)
    requires Rooted(net.Keys) && DrainOk(net, d, now)
    ensures Replay(net, d, now).Keys == net.Keys
    ensures forall x <- net :: GrewWithin(net[x], Replay(net, d, now)[x])
    decreases d, 1
  {
    hide RunsOk, AfterRun;
    KidsWithin(net, d.channel, d.kids, now);
    var n := AfterKids(net, d.channel, d.kids, now);
    RunningWithin(n[d.channel], now, d.out);
  }

  // ----- notifications ------------------------------------------------------------------------

  predicate StartsRunning(state: Option<JobState>) {
    state == Some(Enqueued) || state == Some(JobState.Started)
  }

  /** Every limited channel in which the job would take a slot has one left. */
  ghost predicate SlotsFree(net: Network, j: ChannelJob) {
    forall c <- net | c in NotYetRunning(net, j.channel, j) && Limited(net[c]) :: |net[c].running| < net[c].capacity.value
  }

  /** What an event must respect for capacities to be kept: `enqueued` and `started`, which do not look at
      capacities themselves, are notified when a slot is left for the job, a new job object having freed
      those of the old one; and no capacity is set below the number of running jobs. */
  ghost predicate Orderly(s: Sched, e: Event) {
    match e
    case Kept(uuid, eta, state) => StartsRunning(state) && uuid in s.jobs ==> SlotsFree(s.net, s.jobs[uuid])
    case Rescheduled(j, eta, state) => StartsRunning(state) ==> SlotsFree(Dropped(s, j.uuid).net, j)
    case Configured(c, capacity, throttle, sequential, paused) =>
      c in s.net && capacity.Some? && capacity.value > 0 ==> |s.net[c].running| <= capacity.value
    case _ => true
  }

  lemma {:induction false} NotYetRuns(net: Network, c: Channel, j: ChannelJob)
    ensures forall d <- NotYetRunning(net, c, j) :: j !in At(net, d).running
    decreases c.depth
  {
    if c.parent != null && c.parent.depth < c.depth {
      NotYetRuns(net, c.parent, j);
    }
  }

  /** A notification that starts a job keeps the capacities exactly when there are slots for it. */
  lemma StartedWithinIff(net: Network, j: ChannelJob, eta: Eta, state: Option<JobState>)
    requires StartsRunning(state) && WithinCapacity(net)
    ensures WithinCapacity(Moved(net, j, eta, state)) <==> SlotsFree(net, j)
  {
    var n := Moved(net, j, eta, state);
    NotYetRuns(net, j.channel, j);
    hide NotYetRunning;
    var line := NotYetRunning(net, j.channel, j);
    assert n.Keys == net.Keys;
    forall c <- net ensures n[c].capacity == net[c].capacity && |n[c].running| == |net[c].running| + if c in line then 1 else 0 {
      if c in line {
        assert n[c].running == net[c].running + {j};
      }
    }
  }

  /** The job runs in the root channel. */
  ghost predicate RunsAtRoot(net: Network, j: ChannelJob) {
    exists c <- net :: c.parent == null && c in Line(j.channel) && j in net[c].running
  }

  /** No channel runs more jobs than before. */
  ghost predicate NoMoreRunning(net: Network, n: Network) {
    n.Keys == net.Keys && forall c <- net ::
      n[c].capacity == net[c].capacity && |n[c].running| <= |net[c].running|
  }

  lemma SubsetsNoMore(net: Network, n: Network)
    requires n.Keys == net.Keys
    requires forall c <- net :: n[c].capacity == net[c].capacity && n[c].running <= net[c].running
    ensures NoMoreRunning(net, n)
  {
    forall c <- net ensures |n[c].running| <= |net[c].running| {
      assert net[c].running == n[c].running + (net[c].running - n[c].running);
    }
  }

  /** A job that runs in the root channel runs all along its line. */
  lemma RunsEverywhere(net: Network, j: ChannelJob)
    requires Rooted(net.Keys) && WellPlaced(net, j) && RunsAtRoot(net, j)
    ensures forall c <- net :: j in net[c].running <==> c in Line(j.channel)
  {
    var pos :| Settled(j, pos) && Sits(net, j, pos);
    var r :| r in net && r.parent == null && r in Line(j.channel) && j in net[r].running;
    assert IsAt(net[r], j, PlaceOf(j, pos, r));
    LineDepth(j.channel);
    assert pos == Passed(-1);
    forall c <- net ensures j in net[c].running <==> c in Line(j.channel) {
      assert IsAt(net[c], j, PlaceOf(j, pos, c));
    }
  }

  lemma DroppedNoMore(s: Sched, uuid: string)
    ensures NoMoreRunning(s.net, Dropped(s, uuid).net)
  {
    SubsetsNoMore(s.net, Dropped(s, uuid).net);
  }

  lemma MovedNoMore(net: Network, j: ChannelJob, eta: Eta, state: Option<JobState>)
    requires j.channel in net && !StartsRunning(state)
    ensures NoMoreRunning(net, Moved(net, j, eta, state))
  {
    hide Line, NotYetRunning, NoMoreRunning;
    SubsetsNoMore(net, Moved(net, j, eta, state));
  }

  lemma KeptRunning(s: Sched, uuid: string, state: Option<JobState>, eta: Eta)
    requires Inv(s) && uuid in s.jobs && StartsRunning(state) && RunsAtRoot(s.net, s.jobs[uuid])
    ensures Moved(s.net, s.jobs[uuid], eta, state) == s.net
  {
    var j := s.jobs[uuid];
    Known(s, j);
    RunsEverywhere(s.net, j);
    LineDepth(j.channel);
    assert NotYetRunning(s.net, j.channel, j) == {};
  }

  /** The eta of a job is cleared when it is popped, so the notification that it was enqueued
      reschedules it: the new object takes exactly the slots of the old one. */
  lemma RescheduledRunning(s: Sched, j: ChannelJob, state: Option<JobState>, eta: Eta)
    requires Inv(s) && j.channel in s.net && j !in JobsIn(s.net)
    requires StartsRunning(state) && j.uuid in s.jobs && s.jobs[j.uuid].channel == j.channel && RunsAtRoot(s.net, s.jobs[j.uuid])
    ensures NoMoreRunning(s.net, Moved(Dropped(s, j.uuid).net, j, eta, state))
  {
    hide JobsIn, WellPlaced, RunsAtRoot, RemoveAlong, RunAlong, Line, NotYetRunning;
    var o, d := s.jobs[j.uuid], Dropped(s, j.uuid).net;
    Known(s, o);
    RunsEverywhere(s.net, o);
    AbsentFromAll(s.net, j);
    RemovalRunsNothing(s.net, Line(j.channel), o, j);
    NoneRuns(d, j, j.channel);
    SlotsTaken(s.net, Line(j.channel), o, j);
  }

  lemma RemovalRunsNothing(net: Network, line: set<Channel>, o: ChannelJob, j: ChannelJob)
    requires forall c <- net :: j !in net[c].running
    ensures RemoveAlong(net, line, o).Keys == net.Keys
    ensures forall c <- RemoveAlong(net, line, o) :: j !in RemoveAlong(net, line, o)[c].running
  {
  }

  lemma AbsentFromAll(net: Network, j: ChannelJob)
    requires j !in JobsIn(net)
    ensures forall c <- net :: j !in net[c].running
  {
    forall c <- net ensures j !in net[c].running {
      assert j !in JobsAt(net[c]);
    }
  }

  lemma SlotsTaken(net: Network, line: set<Channel>, o: ChannelJob, j: ChannelJob)
    requires forall c <- net | c in line :: o in net[c].running && j !in net[c].running
    ensures NoMoreRunning(net, RunAlong(RemoveAlong(net, line, o), line, j))
  {
    var n := RunAlong(RemoveAlong(net, line, o), line, j);
    forall c <- net ensures |n[c].running| <= |net[c].running| {
      if c in line {
        assert n[c].running == net[c].running - {o} + {j};
      }
    }
  }

  lemma NoMoreKeeps(net: Network, n: Network)
    requires NoMoreRunning(net, n) && WithinCapacity(net)
    ensures WithinCapacity(n)
  {
  }

  lemma NoMoreTwice(a: Network, b: Network, c: Network)
    requires NoMoreRunning(a, b) && NoMoreRunning(b, c)
    ensures NoMoreRunning(a, c)
  {
  }

  lemma PurgedNoMore(s: Sched, uuids: set<string>)
    ensures NoMoreRunning(s.net, Purged(s, uuids).net)
  {
    SubsetsNoMore(s.net, Purged(s, uuids).net);
  }

  /** The other events free slots, if anything. */
  lemma FreeingStep(s: Sched, e: Event, s': Sched)
    requires Inv(s) && Step(s, e, s') && WithinCapacity(s.net)
    requires e.Removed? || e.RemovedDb? || (e.Kept? && !StartsRunning(e.state)) || (e.Rescheduled? && !StartsRunning(e.state))
    ensures WithinCapacity(s'.net)
  {
    hide Inv, Moved, Dropped, Purged, NoMoreRunning, JobsIn, WithinCapacity;
    match e {
      case Kept(uuid, eta, state) =>
        InDomain(s, uuid);
        MovedNoMore(s.net, s.jobs[uuid], eta, state);
      case Rescheduled(j, eta, state) =>
        DroppedNoMore(s, j.uuid);
        DroppedInv(s, j.uuid);
        MovedNoMore(Dropped(s, j.uuid).net, j, eta, state);
        NoMoreTwice(s.net, Dropped(s, j.uuid).net, s'.net);
      case Removed(uuid) => DroppedNoMore(s, uuid);
      case RemovedDb(db) => PurgedNoMore(s, set u <- s.jobs | s.jobs[u].dbName == db);
    }
    NoMoreKeeps(s.net, s'.net);
  }

  lemma DroppedWithin(s: Sched, uuid: string)
    requires WithinCapacity(s.net)
    ensures WithinCapacity(Dropped(s, uuid).net)
  {
    hide Dropped, WithinCapacity, NoMoreRunning;
    DroppedNoMore(s, uuid);
    NoMoreKeeps(s.net, Dropped(s, uuid).net);
  }

  lemma ConfiguredWithin(net: Network, c: Channel, v: ChannelView)
    requires c in net && WithinCapacity(net) && v.running == net[c].running
    ensures WithinCapacity(net[c := v]) <==> (Limited(v) ==> |net[c].running| <= v.capacity.value)
  {
    assert net[c := v][c] == v;
  }

  /** An event keeps the capacities exactly when it is orderly. */
  lemma CapacityStepIff(s: Sched, e: Event, s': Sched)
    requires Inv(s) && Step(s, e, s') && WithinCapacity(s.net)
    ensures WithinCapacity(s'.net) <==> Orderly(s, e)
  {
    hide Inv, Moved, Dropped, Purged, DrainOk, Replay, SlotsFree, JobsIn, WithinCapacity;
    match e
    case Grown(c) => GrownWithin(s.net, c);
    case Configured(c, _, _, _, _) => ConfiguredWithin(s.net, c, s'.net[c]);
    case Kept(uuid, eta, state) =>
      if StartsRunning(state) {
        StartedWithinIff(s.net, s.jobs[uuid], eta, state);
      } else {
        FreeingStep(s, e, s');
      }
    case Rescheduled(j, eta, state) =>
      if StartsRunning(state) {
        DroppedWithin(s, j.uuid);
        StartedWithinIff(Dropped(s, j.uuid).net, j, eta, state);
      } else {
        FreeingStep(s, e, s');
      }
    case Removed(uuid) => FreeingStep(s, e, s');
    case RemovedDb(db) => FreeingStep(s, e, s');
    case Forgotten(_) =>
    case Drained(now, log) => DrainKeeps(s, now, log);
  }

  lemma GrownWithin(net: Network, c: Channel)
    requires WithinCapacity(net) && c !in net
    ensures WithinCapacity(net[c := EMPTY])
  {
  }

  /** A notification about a job that runs in the root channel is orderly, while its channel stays. */
  lemma RunningIsOrderly(s: Sched, e: Event, s': Sched, uuid: string)
    requires Inv(s) && Step(s, e, s') && WithinCapacity(s.net) && uuid in s.jobs && RunsAtRoot(s.net, s.jobs[uuid])
    requires (e.Kept? && e.uuid == uuid) || (e.Rescheduled? && e.job.uuid == uuid && e.job.channel == s.jobs[uuid].channel)
    requires StartsRunning(e.state)
    ensures Orderly(s, e)
  {
    hide Inv, Moved, Dropped, RunsAtRoot, NoMoreRunning, JobsIn, Orderly, WithinCapacity;
    if e.Kept? {
      KeptRunning(s, uuid, e.state, e.eta);
      assert s'.net == s.net;
    } else {
      RescheduledRunning(s, e.job, e.state, e.eta);
      NoMoreKeeps(s.net, s'.net);
    }
    CapacityStepIff(s, e, s');
  }

  lemma InDomain(s: Sched, uuid: string)
    requires Inv(s) && uuid in s.jobs
    ensures s.jobs[uuid].channel in s.net
  {
  }

  lemma DrainKeeps(s: Sched, now: Time, log: Drain)
    requires Inv(s) && DrainOk(s.net, log, now) && WithinCapacity(s.net)
    ensures WithinCapacity(Replay(s.net, log, now))
  {
    hide Replay, DrainOk;
    DrainWithin(s.net, log, now);
    forall c <- s.net ensures GrewWithin(s.net[c], Replay(s.net, log, now)[c]) {
    }
  }

  /** Every positive capacity is respected in every state of a run, exactly when every event is orderly. */
  lemma CapacityOverRuns(ss: seq<Sched>, es: seq<Event>)
    requires Run(ss, es) && Inv(ss[0]) && WithinCapacity(ss[0].net)
    ensures (forall i | 0 <= i < |ss| :: WithinCapacity(ss[i].net)) <==> (forall k | 0 <= k < |es| :: Orderly(ss[k], es[k]))
  {
    hide Inv, WithinCapacity, Orderly, Step;
    if forall i | 0 <= i < |ss| :: WithinCapacity(ss[i].net) {
      forall k | 0 <= k < |es| ensures Orderly(ss[k], es[k]) {
        OrderlyIff(ss, es, k);
      }
    }
    if forall k | 0 <= k < |es| :: Orderly(ss[k], es[k]) {
      forall i | 0 <= i < |ss| ensures WithinCapacity(ss[i].net) {
        WithinAt(ss, es, i);
      }
    }
  }

  lemma OrderlyIff(ss: seq<Sched>, es: seq<Event>, k: nat)
    requires Run(ss, es) && Inv(ss[0]) && k < |es| && WithinCapacity(ss[k].net)
    ensures WithinCapacity(ss[k + 1].net) <==> Orderly(ss[k], es[k])
  {
    InvOverRuns(ss, es, k);
    hide Inv, WithinCapacity, Orderly, Step;
    CapacityStepIff(ss[k], es[k], ss[k + 1]);
  }

  lemma {:induction false} WithinAt(ss: seq<Sched>, es: seq<Event>, i: nat)
    requires Run(ss, es) && Inv(ss[0]) && WithinCapacity(ss[0].net) && i < |ss|
    requires forall k | 0 <= k < i :: Orderly(ss[k], es[k])
    ensures WithinCapacity(ss[i].net)
  {
    if i > 0 {
      hide Inv, WithinCapacity, Orderly, Step;
      WithinAt(ss, es, i - 1);
      OrderlyIff(ss, es, i - 1);
    }
  }

  /** The proviso is needed: told of two started jobs, a root channel of capacity 1 runs both. */
  lemma StartedBeyondCapacity(root: Channel, a: ChannelJob, b: ChannelJob) returns (ss: seq<Sched>, es: seq<Event>)
    requires root.parent == null && root.depth == 0 && a.channel == b.channel == root && a.uuid != b.uuid
    ensures Run(ss, es) && Inv(ss[0]) && ss[0].jobs == map[]
    ensures ss[0].net == map[root := EMPTY.(capacity := Some(1))] && WithinCapacity(ss[0].net)
    ensures |es| == 2 && Orderly(ss[0], es[0]) && !Orderly(ss[1], es[1])
    ensures ss[2].net == map[root := EMPTY.(capacity := Some(1), running := {a, b})] && !WithinCapacity(ss[2].net)
  {
    hide Step, Orderly, WithinCapacity, JobsIn;
    var s0 := Sched(map[root := EMPTY.(capacity := Some(1))], map[]);
    EmptyWithin(s0, root);
    var s1 := StartedAlone(s0, root, a, Some(JobState.Started));
    var s2 := StartedAlone(s1, root, b, Some(JobState.Started));
    ss, es := [s0, s1, s2], [Rescheduled(a, None, Some(JobState.Started)), Rescheduled(b, None, Some(JobState.Started))];
    assert {} + {a} + {b} == {a, b};
    OneOrTwo(root, a, b);
    CapacityStepIff(s0, es[0], s1);
    InvStep(s0, es[0], s1);
    CapacityStepIff(s1, es[1], s2);
  }

  lemma EmptyWithin(s: Sched, root: Channel)
    requires root.parent == null && root.depth == 0
    requires s == Sched(map[root := EMPTY.(capacity := Some(1))], map[])
    ensures Inv(s) && WithinCapacity(s.net)
  {
    assert JobsAt(s.net[root]) == {};
  }

  lemma OneOrTwo(root: Channel, a: ChannelJob, b: ChannelJob)
    requires a != b
    ensures WithinCapacity(map[root := EMPTY.(capacity := Some(1), running := {} + {a})])
    ensures !WithinCapacity(map[root := EMPTY.(capacity := Some(1), running := {a, b})])
  {
    var full: Network := map[root := EMPTY.(capacity := Some(1), running := {a, b})];
    assert Limited(full[root]) && |{a, b}| == 2;
  }

  /** A job new to a network of one channel is told to be active. */
  lemma StartedAlone(s: Sched, root: Channel, j: ChannelJob, state: Option<JobState>) returns (s': Sched)
    requires StartsRunning(state) && root.parent == null && j.channel == root && j.uuid !in s.jobs && j !in s.jobs.Values
    requires s.net.Keys == {root} && s.net[root].waiting == Waiting({}, map[]) && s.net[root].failed == {}
    requires j !in s.net[root].running
    ensures Step(s, Rescheduled(j, None, state), s')
    ensures s'.net == map[root := s.net[root].(running := s.net[root].running + {j})] && s'.jobs == s.jobs[j.uuid := j]
  {
    var n := Moved(s.net, j, None, state);
    s' := Sched(n, s.jobs[j.uuid := j]);
    assert j !in JobsAt(s.net[root]);
    assert n[root] == s.net[root].(running := s.net[root].running + {j});
  }

  // ----- throttle delays ------------------------------------------------------------------------

  /** What a channel yielded in a drained call, wherever it was made. */
  ghost function YieldsAt(d: Drain, c: Channel): seq<ChannelJob>
    decreases d, 1
  {
    if d.channel == c then d.out else KidsYieldsAt(d.kids, c)
  }

  ghost function KidsYieldsAt(kids: seq<Drain>, c: Channel): seq<ChannelJob>
    decreases kids, 0
  {
    if kids == [] then [] else KidsYieldsAt(kids[..|kids| - 1], c) + YieldsAt(kids[|kids| - 1], c)
  }

  /** A throttled channel yields one job at most, outside its delay only, and starts a new delay;
      otherwise the delay stands, or is over. */
  ghost predicate Delayed(v: ChannelView, w: ChannelView, now: Time, out: seq<ChannelJob>) {
    && w.throttle == v.throttle
    && (out != [] ==> |out| == 1 && w.pauseUntil == now + v.throttle && (v.pauseUntil == 0.0 || v.pauseUntil <= now))
    && (out == [] ==> w.pauseUntil == v.pauseUntil || (w.pauseUntil == 0.0 && v.pauseUntil <= now))
  }

  lemma RunDelayed(v: ChannelView, now: Time, out: seq<ChannelJob>)
    requires RunsOk(v, now, out) && v.throttle != 0.0
    ensures Delayed(v, AfterRun(v, now, out), now, out)
  {
    if !Throttled(v, now) && out != [] {
      assert out[..|out| - 1] == [];
    }
  }

  /** A call yields nothing in a channel that is not upstream of where it is made. */
  lemma {:induction false} Elsewhere(net: Network, d: Drain, now: Time, x: Channel)
    requires Rooted(net.Keys) && DrainOk(net, d, now) && x in net && d.channel !in Line(x)
    ensures YieldsAt(d, x) == []
    decreases d, 1
  {
    LineDepth(x);
    KidsNowhere(net, d.channel, d.kids, now, x);
  }

  lemma {:induction false} KidsNowhere(net: Network, c: Channel, kids: seq<Drain>, now: Time, x: Channel)
    requires Rooted(net.Keys) && c in net && KidsAt(net.Keys, c, kids) && KidsOk(net, c, kids, now)
    requires x in net && (c !in Line(x) || x == c)
    ensures KidsYieldsAt(kids, x) == []
    decreases kids, 0
  {
    if kids != [] {
      var front, last := kids[..|kids| - 1], kids[|kids| - 1];
      KidsNowhere(net, c, front, now, x);
      KidsFrame(net, c, front, now);
      NotUpstream(net.Keys, c, last.channel);
      Elsewhere(AfterKids(net, c, front, now), last, now, x);
    }
  }

  lemma {:induction false} KidsDelayed(net: Network, c: Channel, kids: seq<Drain>, now: Time, x: Channel)
    requires Rooted(net.Keys) && c in net && KidsAt(net.Keys, c, kids) && KidsOk(net, c, kids, now)
    requires forall i, j | 0 <= i < j < |kids| :: kids[i].channel != kids[j].channel
    requires x in net && x != c && net[x].throttle != 0.0
    ensures x in AfterKids(net, c, kids, now)
    ensures Delayed(net[x], AfterKids(net, c, kids, now)[x], now, KidsYieldsAt(kids, x))
    ensures (forall i | 0 <= i < |kids| :: kids[i].channel !in Line(x)) ==>
      KidsYieldsAt(kids, x) == [] && AfterKids(net, c, kids, now)[x] == net[x]
    decreases kids, 0
  {
    hide DrainOk, Replay, Delayed, Line, Receive;
    if kids != [] {
      var front, last := kids[..|kids| - 1], kids[|kids| - 1];
      KidsFrame(net, c, front, now);
      var n := AfterKids(net, c, front, now);
      KidsDelayed(net, c, front, now, x);
      ReplayFrame(n, last, now);
      if last.channel in Line(x) {
        OnlyLast(net.Keys, c, kids, x);
        assert KidsYieldsAt(front, x) == [] && n[x] == net[x];
        DrainDelayed(n, last, now, x);
        assert KidsYieldsAt(kids, x) == YieldsAt(last, x);
      } else {
        Elsewhere(n, last, now, x);
        assert KidsYieldsAt(kids, x) == KidsYieldsAt(front, x);
      }
      assert forall i | 0 <= i < |front| :: front[i].channel == kids[i].channel;
    } else {
      NoDelay(net[x], now);
    }
  }

  lemma OnlyLast(all: set<Channel>, c: Channel, kids: seq<Drain>, x: Channel)
    requires Rooted(all) && x in all && KidsAt(all, c, kids) && kids != []
    requires forall i, j | 0 <= i < j < |kids| :: kids[i].channel != kids[j].channel
    requires kids[|kids| - 1].channel in Line(x)
    ensures var front := kids[..|kids| - 1]; forall i | 0 <= i < |front| :: front[i].channel !in Line(x)
  {
    var front := kids[..|kids| - 1];
    forall i | 0 <= i < |front| ensures front[i].channel !in Line(x) {
      if kids[i].channel in Line(x) {
        OneEachDepth(all, x, kids[i].channel, kids[|kids| - 1].channel);
      }
    }
  }

  lemma NoDelay(v: ChannelView, now: Time)
    ensures Delayed(v, v, now, [])
  {
  }

  lemma {:induction false} DrainDelayed(net: Network, d: Drain, now: Time, x: Channel)
    requires Rooted(net.Keys) && DrainOk(net, d, now) && x in net && net[x].throttle != 0.0
    ensures x in Replay(net, d, now) && Delayed(net[x], Replay(net, d, now)[x], now, YieldsAt(d, x))
    decreases d, 1
  {
    var c := d.channel;
    KidsFrame(net, c, d.kids, now);
    var n := AfterKids(net, c, d.kids, now);
    if x == c {
      RunDelayed(n[c], now, d.out);
    } else {
      KidsDelayed(net, c, d.kids, now, x);
    }
  }

  // ----- channels that hand up nothing ------------------------------------------------------------

  lemma {:induction false} NoneMayYield(v: ChannelView, now: Time, out: seq<ChannelJob>)
    requires MayYield(v, now, out) && Barred(v)
    ensures out == []
    decreases |out|
  {
    if out != [] {
      NoneMayYield(v, now, out[..|out| - 1]);
    }
  }

  lemma BarredRun(v: ChannelView, now: Time, out: seq<ChannelJob>)
    requires RunsOk(v, now, out) && Barred(v)
    ensures out == [] && Barred(AfterRun(v, now, out))
  {
    if !Throttled(v, now) {
      NoneMayYield(Unpause(v), now, out);
    }
  }

  lemma {:induction false} KidsBarred(net: Network, c: Channel, kids: seq<Drain>, now: Time, x: Channel)
    requires Rooted(net.Keys) && c in net && KidsAt(net.Keys, c, kids) && KidsOk(net, c, kids, now)
    requires x in net && x != c && Barred(net[x])
    ensures KidsYieldsAt(kids, x) == []
    ensures x in AfterKids(net, c, kids, now) && Barred(AfterKids(net, c, kids, now)[x])
    decreases kids, 0
  {
    hide DrainOk, Replay, Receive, Barred;
    if kids != [] {
      var front, last := kids[..|kids| - 1], kids[|kids| - 1];
      KidsFrame(net, c, front, now);
      KidsBarred(net, c, front, now, x);
      BarredYieldsNothing(AfterKids(net, c, front, now), last, now, x);
    }
  }

  lemma ReceivesBarred(v: ChannelView, out: seq<ChannelJob>)
    ensures Barred(Receive(v, out)) <==> Barred(v)
  {
  }

  /** A channel that is paused, blocked by a failed job or full hands nothing to the channel downstream, or to the
      runner when it is the root, wherever it is in the tree. */
  lemma {:induction false} BarredYieldsNothing(net: Network, d: Drain, now: Time, x: Channel)
    requires Rooted(net.Keys) && DrainOk(net, d, now) && x in net && Barred(net[x])
    ensures YieldsAt(d, x) == [] && (d.channel == x ==> d.out == [])
    ensures x in Replay(net, d, now) && Barred(Replay(net, d, now)[x])
    decreases d, 1
  {
    hide RunsOk, AfterRun, Receive, Barred;
    if x == d.channel {
      KidsFrame(net, x, d.kids, now);
      ReceivesBarred(net[x], OutOf(d.kids));
      BarredRun(AfterKids(net, x, d.kids, now)[x], now, d.out);
    } else {
      KidsFrame(net, d.channel, d.kids, now);
      KidsBarred(net, d.channel, d.kids, now, x);
    }
  }

  // ----- throttle delays over runs ----------------------------------------------------------------

  lemma MovedKeepsDelay(net: Network, j: ChannelJob, eta: Eta, state: Option<JobState>, c: Channel)
    requires c in net && j.channel in net
    ensures c in Moved(net, j, eta, state)
    ensures Moved(net, j, eta, state)[c].throttle == net[c].throttle
    ensures Moved(net, j, eta, state)[c].pauseUntil == net[c].pauseUntil
  {
    hide Line, NotYetRunning;
  }

  /** Nothing but a drained call or a new configuration touches a throttle delay. */
  lemma OthersKeepDelay(s: Sched, e: Event, s': Sched, c: Channel)
    requires Inv(s) && Step(s, e, s') && c in s.net && !e.Drained? && !(e.Configured? && e.channel == c)
    ensures c in s'.net && s'.net[c].throttle == s.net[c].throttle && s'.net[c].pauseUntil == s.net[c].pauseUntil
  {
    hide Moved, Line, WellPlaced, JobsIn;
    match e
    case Grown(_) =>
    case Configured(_, _, _, _, _) =>
    case Kept(uuid, eta, state) => MovedKeepsDelay(s.net, s.jobs[uuid], eta, state, c);
    case Rescheduled(j, eta, state) => MovedKeepsDelay(Dropped(s, j.uuid).net, j, eta, state, c);
    case Removed(uuid) =>
    case RemovedDb(_) =>
    case Forgotten(_) =>
  }

  ghost predicate YieldsIn(e: Event, c: Channel) {
    e.Drained? && YieldsAt(e.log, c) != []
  }

  /** The clock of the drained calls does not go back. */
  ghost predicate Monotone(es: seq<Event>) {
    forall i, k | 0 <= i < k < |es| && es[i].Drained? && es[k].Drained? :: es[i].now <= es[k].now
  }

  /** Until `limit` the channel is in a delay that lasts at least as long, or the limit is past. */
  ghost predicate DelayedUntil(ss: seq<Sched>, es: seq<Event>, c: Channel, limit: Time, from: nat, m: nat)
    requires m < |ss| && m <= |es|
  {
    c in ss[m].net &&
    (ss[m].net[c].pauseUntil >= limit || exists l :: from <= l < m && es[l].Drained? && es[l].now >= limit)
  }

  lemma StepOf(ss: seq<Sched>, es: seq<Event>, m: nat)
    requires Run(ss, es) && Inv(ss[0]) && m < |es|
    ensures Inv(ss[m]) && Step(ss[m], es[m], ss[m + 1])
  {
    InvOverRuns(ss, es, m);
  }

  lemma DrainedStep(s: Sched, e: Event, s': Sched, c: Channel)
    requires Inv(s) && Step(s, e, s') && e.Drained? && c in s.net && s.net[c].throttle != 0.0
    ensures c in s'.net && Delayed(s.net[c], s'.net[c], e.now, YieldsAt(e.log, c))
  {
    hide DrainOk, Replay, JobsIn, WellPlaced, Delayed;
    DrainDelayed(s.net, e.log, e.now, c);
  }

  ghost predicate Constant(es: seq<Event>, c: Channel) {
    forall k | 0 <= k < |es| :: !(es[k].Configured? && es[k].channel == c)
  }

  ghost predicate ThrottleFixed(ss: seq<Sched>, c: Channel, m: nat)
    requires 0 < |ss| && m < |ss|
  {
    c in ss[0].net && c in ss[m].net && ss[m].net[c].throttle == ss[0].net[c].throttle
  }

  lemma {:induction false} FixedThrottle(ss: seq<Sched>, es: seq<Event>, c: Channel, m: nat)
    requires Run(ss, es) && Inv(ss[0]) && m < |ss| && c in ss[0].net && ss[0].net[c].throttle > 0.0 && Constant(es, c)
    ensures ThrottleFixed(ss, c, m)
  {
    if m > 0 {
      FixedThrottle(ss, es, c, m - 1);
      StepOf(ss, es, m - 1);
      hide Step, Inv, YieldsAt;
      if es[m - 1].Drained? {
        DrainedStep(ss[m - 1], es[m - 1], ss[m], c);
      } else {
        OthersKeepDelay(ss[m - 1], es[m - 1], ss[m], c);
      }
    }
  }

  /** A delay that lasts until the limit goes on, or the limit is past. */
  lemma DelayStep(s: Sched, e: Event, s': Sched, c: Channel, limit: Time)
    requires Inv(s) && Step(s, e, s') && c in s.net && s.net[c].throttle > 0.0 && limit > 0.0
    requires !(e.Configured? && e.channel == c)
    ensures c in s'.net
    ensures s.net[c].pauseUntil >= limit ==> s'.net[c].pauseUntil >= limit || (e.Drained? && e.now >= limit)
  {
    hide Step, Inv, YieldsAt, Delayed;
    if e.Drained? {
      DrainedStep(s, e, s', c);
      DelayGoesOn(s.net[c], s'.net[c], e.now, YieldsAt(e.log, c), limit);
    } else {
      OthersKeepDelay(s, e, s', c);
    }
  }

  lemma DelayStart(s: Sched, e: Event, s': Sched, c: Channel)
    requires Inv(s) && Step(s, e, s') && c in s.net && s.net[c].throttle > 0.0 && YieldsIn(e, c) && e.now > 0.0
    ensures c in s'.net && s'.net[c].pauseUntil >= e.now + s.net[c].throttle
  {
    hide Step, Inv, YieldsAt, Delayed;
    DrainedStep(s, e, s', c);
    DelayBegins(s.net[c], s'.net[c], e.now, YieldsAt(e.log, c));
  }

  lemma {:induction false} DelayLasts(ss: seq<Sched>, es: seq<Event>, c: Channel, i: nat, m: nat)
    requires Run(ss, es) && Inv(ss[0]) && i < m <= |es| && Constant(es, c)
    requires c in ss[0].net && ss[0].net[c].throttle > 0.0
    requires YieldsIn(es[i], c) && es[i].now > 0.0
    ensures DelayedUntil(ss, es, c, es[i].now + ss[0].net[c].throttle, i, m)
    decreases m
  {
    hide Step, Inv, YieldsAt;
    FixedThrottle(ss, es, c, m - 1);
    StepOf(ss, es, m - 1);
    if m - 1 == i {
      DelayStart(ss[i], es[i], ss[m], c);
    } else {
      DelayLasts(ss, es, c, i, m - 1);
      DelayStep(ss[m - 1], es[m - 1], ss[m], c, es[i].now + ss[0].net[c].throttle);
    }
  }

  lemma DelayBegins(v: ChannelView, w: ChannelView, now: Time, out: seq<ChannelJob>)
    requires Delayed(v, w, now, out) && v.throttle > 0.0 && now > 0.0 && out != []
    ensures w.pauseUntil >= now + v.throttle
  {
  }

  lemma DelayGoesOn(v: ChannelView, w: ChannelView, now: Time, out: seq<ChannelJob>, limit: Time)
    requires Delayed(v, w, now, out) && v.throttle > 0.0 && limit > 0.0
    ensures v.pauseUntil >= limit ==> w.pauseUntil >= limit || now >= limit
  {
  }

  /** In every run with a monotone clock, a channel with a throttle delay yields one job at a time,
      and two of its yields are at least that delay apart. */
  lemma ThrottledYieldsApart(ss: seq<Sched>, es: seq<Event>, c: Channel, i: nat, k: nat)
    requires Run(ss, es) && Inv(ss[0]) && Monotone(es) && i < k < |es| && Constant(es, c)
    requires c in ss[0].net && ss[0].net[c].throttle > 0.0
    requires YieldsIn(es[i], c) && YieldsIn(es[k], c) && es[i].now > 0.0
    ensures es[k].now >= es[i].now + ss[0].net[c].throttle
    ensures |YieldsAt(es[k].log, c)| == 1
  {
    DelayLasts(ss, es, c, i, k);
    FixedThrottle(ss, es, c, k);
    StepOf(ss, es, k);
    hide Step, Inv, YieldsAt, Run;
    DrainedStep(ss[k], es[k], ss[k + 1], c);
  }
}
