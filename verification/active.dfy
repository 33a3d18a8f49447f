/** Which jobs take a slot all the way to the root, event by event
    (queue_job/jobrunner/channels.py, lines 472-583 and 1059-1109). */
module ActiveJobs {
  import opened Channels
  import opened Options
  import opened JobStates
  import opened Scheduler
  import opened Pipeline
  import opened DrainOrder

  /** The live job of that uuid runs in every channel from its own to the root, and is nowhere else. */
  ghost predicate Runs(s: Sched, uuid: string) {
    uuid in s.jobs && Sits(s.net, s.jobs[uuid], Passed(-1))
  }

  predicate Active(state: JobState) {
    state.Enqueued? || state.Started?
  }

  /** The event is a notification about this uuid, or drops it. */
  predicate About(s: Sched, e: Event, uuid: string) {
    match e
    case Kept(u, _, _) => u == uuid
    case Rescheduled(j, _, _) => j.uuid == uuid
    case Removed(u) => u == uuid
    case RemovedDb(db) => uuid in s.jobs && s.jobs[uuid].dbName == db
    case _ => false
  }

  /** The event is a notification that the job is active. */
  predicate SaysActive(e: Event) {
    match e
    case Kept(_, _, state) => state.Some? && Active(state.value)
    case Rescheduled(_, _, state) => state.Some? && Active(state.value)
    case _ => false
  }

  lemma RunsThere(s: Sched, uuid: string)
    requires Inv(s) && Runs(s, uuid)
    ensures s.jobs[uuid].uuid == uuid && s.jobs[uuid] in JobsIn(s.net)
    ensures s.jobs[uuid].channel in s.net && s.jobs[uuid] in s.net[s.jobs[uuid].channel].running
  {
    var j := s.jobs[uuid];
    LineDepth(j.channel);
    assert IsAt(s.net[j.channel], j, PlaceOf(j, Passed(-1), j.channel));
    assert j in JobsAt(s.net[j.channel]);
  }

  lemma SameSits(net: Network, n: Network, k: ChannelJob, pos: Position)
    requires SamePlaces(net, n, k) && Sits(net, k, pos)
    ensures Sits(n, k, pos)
  {
  }

  /** A job that runs in its own channel and is told to run stays as it is. */
  lemma RunningStays(net: Network, j: ChannelJob)
    requires j.channel in net && Sits(net, j, Passed(-1))
    ensures RunningFrom(net, j.channel, j) == net
  {
    LineDepth(j.channel);
    assert IsAt(net[j.channel], j, PlaceOf(j, Passed(-1), j.channel));
    assert NotYetRunning(net, j.channel, j) == {};
  }

  /** A job that is nowhere and is told to run takes a slot all the way to the root. */
  lemma RunningStarts(net: Network, j: ChannelJob)
    requires Rooted(net.Keys) && j.channel in net && Sits(net, j, Passed(j.channel.depth))
    ensures Sits(RunningFrom(net, j.channel, j), j, Passed(-1))
  {
    var h := j.channel;
    LineDepth(h);
    var n := RunningFrom(net, h, j);
    forall d <- Line(h) | d in net ensures j !in net[d].running {
      assert IsAt(net[d], j, PlaceOf(j, Passed(h.depth), d));
    }
    NoneRuns(net, j, h);
    forall c <- n ensures IsAt(n[c], j, PlaceOf(j, Passed(-1), c)) {
      assert IsAt(net[c], j, PlaceOf(j, Passed(h.depth), c));
    }
  }

  lemma DroppedOther(s: Sched, uuid: string, u: string)
    requires Inv(s) && Runs(s, u) && u != uuid
    ensures Runs(Dropped(s, uuid), u)
  {
    if uuid in s.jobs {
      var j, k := s.jobs[uuid], s.jobs[u];
      RunsThere(s, u);
      MovedOthers(s.net, j, None, None, k);
      SameSits(s.net, Dropped(s, uuid).net, k, Passed(-1));
    }
  }

  lemma MovedOther(s: Sched, j: ChannelJob, eta: Eta, state: Option<JobState>, u: string)
    requires Inv(s) && j.channel in s.net && u in s.jobs && s.jobs[u] != j && Sits(s.net, s.jobs[u], Passed(-1))
    ensures Sits(Moved(s.net, j, eta, state), s.jobs[u], Passed(-1))
  {
    MovedOthers(s.net, j, eta, state, s.jobs[u]);
    SameSits(s.net, Moved(s.net, j, eta, state), s.jobs[u], Passed(-1));
  }

  lemma RescheduledOther(s: Sched, j: ChannelJob, eta: Eta, state: Option<JobState>, u: string)
    requires Inv(s) && j.channel in s.net && j !in JobsIn(s.net) && Runs(s, u) && u != j.uuid
    ensures var d := Dropped(s, j.uuid); Runs(Sched(Moved(d.net, j, eta, state), d.jobs[j.uuid := j]), u)
  {
    DroppedInv(s, j.uuid);
    DroppedOther(s, j.uuid, u);
    RunsThere(s, u);
    var d := Dropped(s, j.uuid);
    MovedOther(d, j, eta, state, u);
  }

  /** A new job object told to be active runs, whatever was there before. */
  lemma RescheduledRuns(s: Sched, j: ChannelJob, eta: Eta, state: JobState)
    requires Inv(s) && j.channel in s.net && j !in JobsIn(s.net) && Active(state)
    ensures var d := Dropped(s, j.uuid); Runs(Sched(Moved(d.net, j, eta, Some(state)), d.jobs[j.uuid := j]), j.uuid)
  {
    DroppedInv(s, j.uuid);
    var d := Dropped(s, j.uuid);
    assert j !in JobsIn(d.net);
    AbsentJobs(d.net, j);
    RunningStarts(d.net, j);
  }

  lemma GrownOther(s: Sched, c: Channel, u: string)
    requires Inv(s) && c !in s.net && Runs(s, u)
    ensures Runs(s.(net := s.net[c := EMPTY]), u)
  {
    RunsThere(s, u);
    LineIn(s.net.Keys, s.jobs[u].channel);
  }

  lemma ConfiguredOther(s: Sched, c: Channel, v: ChannelView, u: string)
    requires c in s.net && Runs(s, u)
    requires v.waiting == s.net[c].waiting && v.running == s.net[c].running && v.failed == s.net[c].failed
    ensures Runs(s.(net := s.net[c := v]), u)
  {
    SameSits(s.net, s.net[c := v], s.jobs[u], Passed(-1));
  }

  lemma PurgedRuns(s: Sched, uuids: set<string>, u: string)
    requires Inv(s) && Runs(s, u) && u !in uuids
    ensures Runs(Purged(s, uuids), u)
  {
    RunsThere(s, u);
    PurgedOther(s, uuids, s.jobs[u]);
    SameSits(s.net, Purged(s, uuids).net, s.jobs[u], Passed(-1));
  }

  // ----- draining -----------------------------------------------------------------------------

  /** A job found running in the root runs all the way. */
  lemma RunsAtRoot(net: Network, root: Channel, j: ChannelJob)
    requires root in net && root.depth == 0 && WellPlaced(net, j) && j in net[root].running
    ensures Sits(net, j, Passed(-1))
  {
    var pos :| Settled(j, pos) && Sits(net, j, pos);
    assert IsAt(net[root], j, PlaceOf(j, pos, root));
    LineDepth(j.channel);
  }

  lemma RootOfLine(all: set<Channel>, h: Channel) returns (root: Channel)
    requires Rooted(all) && h in all
    ensures root in Line(h) && root in all && root.parent == null && root.depth == 0
    decreases h.depth
  {
    if h.parent == null {
      root := h;
    } else {
      root := RootOfLine(all, h.parent);
    }
  }

  /** The jobs handed to the runner did not run and now do; each appears once. */
  lemma DrainedOut(s: Sched, now: Time, log: Drain, j: ChannelJob)
    requires Inv(s) && log.channel.parent == null && DrainOk(s.net, log, now) && j in log.out
    ensures j.uuid in s.jobs && s.jobs[j.uuid] == j && !Runs(s, j.uuid)
    ensures Runs(s.(net := Replay(s.net, log, now)), j.uuid)
  {
    hide DrainOk, Replay, WellPlaced, Sits;
    if j !in JobsIn(s.net) {
      ReplayAbsent(s.net, log, now, j);
    }
    ReplayPlaces(s.net, log, now, j);
    RootDepth(s.net, log, now);
    NotRunningBefore(s, now, log, j);
  }

  lemma RootDepth(net: Network, log: Drain, now: Time)
    requires Rooted(net.Keys) && log.channel.parent == null && DrainOk(net, log, now)
    ensures log.channel in net && log.channel.depth == 0
  {
  }

  lemma NotRunningBefore(s: Sched, now: Time, log: Drain, j: ChannelJob)
    requires Inv(s) && log.channel.parent == null && DrainOk(s.net, log, now) && j in log.out
    requires j.uuid in s.jobs && s.jobs[j.uuid] == j && log.channel in Line(j.channel)
    ensures !Runs(s, j.uuid)
  {
    hide DrainOk, Replay, WellPlaced, JobsIn, InOrder, Available, Barred;
    RootDepth(s.net, log, now);
    RootHandsUp(s, now, log);
    var v := Fed(s.net, log);
    FedApart(s, now, log);
    assert j in v.waiting.Promote(now).ready;
    if Runs(s, j.uuid) {
      RunsIn(s, j.uuid, log.channel);
      assert false;
    }
  }

  lemma RunsIn(s: Sched, u: string, c: Channel)
    requires Runs(s, u) && c in s.net && c in Line(s.jobs[u].channel)
    ensures s.jobs[u] in s.net[c].running
  {
    assert IsAt(s.net[c], s.jobs[u], PlaceOf(s.jobs[u], Passed(-1), c));
  }

  lemma FedApart(s: Sched, now: Time, log: Drain)
    requires Inv(s) && DrainOk(s.net, log, now)
    ensures Apart(Fed(s.net, log))
  {
    assert NetInv(s.net);
    KidsNetInv(s.net, log.channel, log.kids, now);
    KidsFrame(s.net, log.channel, log.kids, now);
    ApartIn(AfterKids(s.net, log.channel, log.kids, now), log.channel);
  }

  /** A drained call takes no running job out of a root. */
  lemma StillAtRoot(s: Sched, now: Time, log: Drain, j: ChannelJob, root: Channel)
    requires Inv(s) && log.channel.parent == null && DrainOk(s.net, log, now)
    requires root in s.net && root.parent == null && root.depth == 0 && j in s.net[root].running
    ensures var n := Replay(s.net, log, now); n.Keys == s.net.Keys && j in n[root].running
  {
    hide DrainOk, Replay, WellPlaced, JobsIn, InOrder, HandsUp, Barred, AfterKids, KidsOk;
    ReplayFrame(s.net, log, now);
    if root == log.channel {
      RootHandsUp(s, now, log);
      RootDepth(s.net, log, now);
      FedRuns(s, now, log);
    } else {
      assert log.channel !in Line(root);
    }
  }

  /** What the children hand up does not change what runs. */
  lemma FedRuns(s: Sched, now: Time, log: Drain)
    requires Inv(s) && log.channel.parent == null && DrainOk(s.net, log, now)
    ensures log.channel in s.net && Fed(s.net, log).running == s.net[log.channel].running
  {
  }

  lemma DrainedRuns(s: Sched, now: Time, log: Drain, u: string)
    requires Inv(s) && log.channel.parent == null && DrainOk(s.net, log, now) && Runs(s, u)
    ensures Runs(s.(net := Replay(s.net, log, now)), u)
  {
    hide DrainOk, Replay, WellPlaced, JobsIn, Sits;
    var j := s.jobs[u];
    RunsThere(s, u);
    if j in log.out {
      DrainedOut(s, now, log, j);
      return;
    }
    Known(s, j);
    ReplayPlaces(s.net, log, now, j);
    var root := RootOfLine(s.net.Keys, j.channel);
    RunsIn(s, u, root);
    StillAtRoot(s, now, log, j, root);
    RunsAtRoot(Replay(s.net, log, now), root, j);
  }

  lemma DrainedOnce(s: Sched, now: Time, log: Drain)
    requires Inv(s) && log.channel.parent == null && DrainOk(s.net, log, now)
    ensures forall i, k | 0 <= i < k < |log.out| :: log.out[i].uuid != log.out[k].uuid
  {
    hide DrainOk, Replay, Runs, InOrder, Available, Barred;
    RootHandsUp(s, now, log);
    forall i, k | 0 <= i < k < |log.out| ensures log.out[i].uuid != log.out[k].uuid {
      DrainedOut(s, now, log, log.out[i]);
      DrainedOut(s, now, log, log.out[k]);
    }
  }

  // ----- every event --------------------------------------------------------------------------

  /** A running job goes on running, unless the event is about it. */
  lemma RunsStep(s: Sched, e: Event, s': Sched, u: string)
    requires Inv(s) && Step(s, e, s') && Runs(s, u) && !About(s, e, u)
    ensures Runs(s', u)
  {
    RunsThere(s, u);
    hide Inv, Runs, Dropped, Moved, Purged, DrainOk, Replay, Rooted, JobsIn;
    match e
    case Grown(c) => GrownOther(s, c, u);
    case Configured(c, capacity, throttle, sequential, paused) => ConfiguredOther(s, c, s'.net[c], u);
    case Kept(uuid, eta, state) => KeptOther(s, uuid, eta, state, u);
    case Rescheduled(j, eta, state) => RescheduledOther(s, j, eta, state, u);
    case Removed(uuid) => DroppedOther(s, uuid, u);
    case RemovedDb(db) => PurgedRuns(s, (set x <- s.jobs | s.jobs[x].dbName == db), u);
    case Forgotten(uuids) => ForgottenRuns(s, uuids, u);
    case Drained(now, log) => DrainedRuns(s, now, log, u);
  }

  lemma ForgottenRuns(s: Sched, uuids: set<string>, u: string)
    requires Inv(s) && Runs(s, u) && uuids <= s.jobs.Keys && forall x <- uuids :: s.jobs[x] !in JobsIn(s.net)
    ensures Runs(s.(jobs := s.jobs - uuids), u)
  {
    RunsThere(s, u);
  }

  lemma KeptOther(s: Sched, uuid: string, eta: Eta, state: Option<JobState>, u: string)
    requires Inv(s) && uuid in s.jobs && Runs(s, u) && u != uuid
    ensures Runs(s.(net := Moved(s.net, s.jobs[uuid], eta, state)), u)
  {
    RunsThere(s, u);
    MovedOther(s, s.jobs[uuid], eta, state, u);
  }

  /** A job told to be active runs, if it did before or if a new object was made for it. */
  lemma ToldRuns(s: Sched, e: Event, s': Sched, u: string)
    requires Inv(s) && Step(s, e, s') && About(s, e, u) && SaysActive(e) && (e.Rescheduled? || Runs(s, u))
    ensures Runs(s', u)
  {
    match e {
      case Kept(uuid, eta, state) =>
        RunsThere(s, u);
        RunningStays(s.net, s.jobs[u]);
        assert s'.net == s.net;
      case Rescheduled(j, eta, state) => RescheduledRuns(s, j, eta, state.value);
      case _ =>
    }
  }
}
