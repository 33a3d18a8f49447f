/** Which jobs wait in the channels, event by event: a job only joins a queue when the manager is told that it
    is pending, and only a queued job is handed out (queue_job/jobrunner/channels.py, lines 488-583 and
    1059-1109). */
module QueuedJobs {
  import opened Channels
  import opened Options
  import opened JobStates
  import opened Scheduler
  import opened Pipeline
  import opened ActiveJobs

  /** The live job of that uuid waits in the queue of some channel. */
  ghost predicate Queued(s: Sched, uuid: string) {
    uuid in s.jobs && IsQueued(s.net, s.jobs[uuid])
  }

  ghost predicate IsQueued(net: Network, j: ChannelJob) {
    exists c <- net :: net[c].waiting.Contains(j)
  }

  lemma QueuedIsLive(s: Sched, uuid: string)
    requires Queued(s, uuid)
    ensures uuid in s.jobs
  {
  }

  // ----- draining -----------------------------------------------------------------------------

  lemma LineAt(all: set<Channel>, h: Channel, d: nat) returns (c: Channel)
    requires Rooted(all) && h in all && d <= h.depth
    ensures c in Line(h) && c in all && c.depth == d
    decreases h.depth
  {
    if h.depth == d {
      c := h;
    } else {
      c := LineAt(all, h.parent, d);
    }
  }

  /** A position in no queue. */
  predicate OutOfQueues(pos: Position) {
    pos.Errored? || pos.Passed?
  }

  lemma InAQueue(net: Network, j: ChannelJob, pos: Position)
    requires Rooted(net.Keys) && j.channel in net && Settled(j, pos) && Sits(net, j, pos) && !OutOfQueues(pos)
    ensures IsQueued(net, j)
  {
    LineDepth(j.channel);
    if pos.Held? {
      assert IsAt(net[j.channel], j, PlaceOf(j, pos, j.channel));
    } else {
      var c := LineAt(net.Keys, j.channel, pos.depth);
      assert IsAt(net[c], j, PlaceOf(j, pos, c));
    }
  }

  lemma NotWaiting(net: Network, j: ChannelJob) returns (pos: Position)
    requires Rooted(net.Keys) && j.channel in net && WellPlaced(net, j) && !IsQueued(net, j)
    ensures Settled(j, pos) && Sits(net, j, pos) && OutOfQueues(pos)
  {
    pos :| Settled(j, pos) && Sits(net, j, pos);
    hide Settled, Sits, IsQueued;
    if !OutOfQueues(pos) {
      InAQueue(net, j, pos);
      assert false;
    }
  }

  lemma {:induction false} KidsIdle(net: Network, c: Channel, kids: seq<Drain>, now: Time, j: ChannelJob, pos: Position)
    requires Rooted(net.Keys) && c in net && KidsAt(net.Keys, c, kids) && KidsOk(net, c, kids, now)
    requires Sits(net, j, pos) && OutOfQueues(pos)
    ensures Sits(AfterKids(net, c, kids, now), j, pos) && AfterKids(net, c, kids, now).Keys == net.Keys
    decreases kids, 0
  {
    hide DrainOk, Replay, IsAt, PlaceOf;
    if kids != [] {
      var front, last := kids[..|kids| - 1], kids[|kids| - 1];
      KidsIdle(net, c, front, now, j, pos);
      var n := AfterKids(net, c, front, now);
      ReplayIdle(n, last, now, j, pos);
      ReplayFrame(n, last, now);
      ReceivingOthers(Replay(n, last, now), c, last.out, j, pos);
    }
  }

  lemma ReceivingOthers(net: Network, c: Channel, out: seq<ChannelJob>, j: ChannelJob, pos: Position)
    requires c in net && Sits(net, j, pos) && j !in out
    ensures Sits(net[c := Receive(At(net, c), out)], j, pos)
  {
  }

  /** Draining leaves a job that waits nowhere where it is. */
  lemma {:induction false} ReplayIdle(net: Network, d: Drain, now: Time, j: ChannelJob, pos: Position)
    requires Rooted(net.Keys) && DrainOk(net, d, now) && Sits(net, j, pos) && OutOfQueues(pos)
    ensures Sits(Replay(net, d, now), j, pos) && j !in d.out
    decreases d, 1
  {
    hide RunsOk, AfterRun, PlaceOf;
    KidsIdle(net, d.channel, d.kids, now, j, pos);
    var n := AfterKids(net, d.channel, d.kids, now);
    var p := PlaceOf(j, pos, d.channel);
    PlaceOutOfQueues(j, pos, d.channel);
    RunningPlaces(n[d.channel], now, d.out, j, p);
  }

  lemma PlaceOutOfQueues(j: ChannelJob, pos: Position, c: Channel)
    requires OutOfQueues(pos)
    ensures !PlaceOf(j, pos, c).InReady? && !PlaceOf(j, pos, c).InDelayed?
  {
  }

  lemma SitsOut(net: Network, j: ChannelJob, pos: Position)
    requires Sits(net, j, pos) && OutOfQueues(pos)
    ensures !IsQueued(net, j)
  {
    forall c <- net ensures !net[c].waiting.Contains(j) {
      assert IsAt(net[c], j, PlaceOf(j, pos, c));
    }
  }

  /** Only queued jobs are handed out, and none is queued by it. */
  lemma DrawnQueued(s: Sched, now: Time, log: Drain, u: string)
    requires Inv(s) && log.channel.parent == null && DrainOk(s.net, log, now) && u in s.jobs
    requires s.jobs[u] in log.out || IsQueued(Replay(s.net, log, now), s.jobs[u])
    ensures Queued(s, u)
  {
    hide DrainOk, Replay, Sits, WellPlaced, IsQueued;
    var j := s.jobs[u];
    Known(s, j);
    if !IsQueued(s.net, j) {
      var pos := NotWaiting(s.net, j);
      ReplayIdle(s.net, log, now, j, pos);
      SitsOut(Replay(s.net, log, now), j, pos);
    }
  }

  // ----- notifications --------------------------------------------------------------------------

  lemma MovedOnlyPending(net: Network, j: ChannelJob, eta: Eta, state: Option<JobState>, k: ChannelJob)
    requires j.channel in net && IsQueued(Moved(net, j, eta, state), k)
    ensures IsQueued(net, k) || (k == j && state == Some(JobState.Pending))
  {
    hide Line, NotYetRunning;
    var n := Moved(net, j, eta, state);
    var c :| c in n && n[c].waiting.Contains(k);
    assert c in net;
    if !(k == j && state == Some(JobState.Pending)) {
      assert net[c].waiting.Contains(k);
    }
  }

  lemma RemovedBefore(net: Network, line: set<Channel>, j: ChannelJob, k: ChannelJob)
    requires IsQueued(RemoveAlong(net, line, j), k)
    ensures IsQueued(net, k)
  {
    var n := RemoveAlong(net, line, j);
    var c :| c in n && n[c].waiting.Contains(k);
    assert net[c].waiting.Contains(k);
  }

  lemma QueuedIsIn(net: Network, j: ChannelJob)
    requires IsQueued(net, j)
    ensures j in JobsIn(net)
  {
    var c :| c in net && net[c].waiting.Contains(j);
    assert j in JobsAt(net[c]);
  }

  lemma DroppedBefore(s: Sched, uuid: string, k: ChannelJob)
    requires IsQueued(Dropped(s, uuid).net, k)
    ensures IsQueued(s.net, k)
  {
    if uuid in s.jobs {
      RemovedBefore(s.net, Line(s.jobs[uuid].channel), s.jobs[uuid], k);
    }
  }

  lemma PurgedBefore(s: Sched, uuids: set<string>, k: ChannelJob)
    requires IsQueued(Purged(s, uuids).net, k)
    ensures IsQueued(s.net, k)
  {
    var n := Purged(s, uuids).net;
    var c :| c in n && n[c].waiting.Contains(k);
    assert s.net[c].waiting.Contains(k);
  }

  lemma SetBefore(net: Network, c: Channel, v: ChannelView, k: ChannelJob)
    requires IsQueued(net[c := v], k) && (v.waiting == At(net, c).waiting || v == EMPTY)
    ensures IsQueued(net, k)
  {
    var n := net[c := v];
    var d :| d in n && n[d].waiting.Contains(k);
    if d != c {
      assert net[d].waiting.Contains(k);
    }
  }

  lemma ChannelOf(s: Sched, uuid: string)
    requires Inv(s) && uuid in s.jobs
    ensures s.jobs[uuid].channel in s.net && s.jobs[uuid].uuid == uuid
  {
  }

  /** The event tells the manager that this job is pending. */
  predicate SaysPending(s: Sched, e: Event, uuid: string) {
    About(s, e, uuid) && (e.Kept? || e.Rescheduled?) && e.state == Some(JobState.Pending)
  }

  /** A job that waits after an event did before, unless the event tells that it is pending. */
  lemma QueuedStep(s: Sched, e: Event, s': Sched, u: string)
    requires Inv(s) && Step(s, e, s') && Queued(s', u)
    ensures Queued(s, u) || SaysPending(s, e, u)
  {
    hide Inv, IsQueued, Dropped, Moved, Purged, DrainOk, Replay, JobsIn;
    match e
    case Grown(c) => SetBefore(s.net, c, EMPTY, s.jobs[u]);
    case Configured(c, capacity, throttle, sequential, paused) => SetBefore(s.net, c, s'.net[c], s.jobs[u]);
    case Kept(uuid, eta, state) => KeptQueued(s, e, s', u);
    case Rescheduled(j, eta, state) => RescheduledQueued(s, e, s', u);
    case Removed(uuid) => DroppedQueued(s, uuid, u);
    case RemovedDb(db) => PurgedQueued(s, (set x <- s.jobs | s.jobs[x].dbName == db), u);
    case Forgotten(_) =>
    case Drained(now, log) => DrawnQueued(s, now, log, u);
  }

  lemma DroppedQueued(s: Sched, uuid: string, u: string)
    requires Queued(Dropped(s, uuid), u)
    ensures Queued(s, u)
  {
    hide IsQueued;
    DroppedBefore(s, uuid, s.jobs[u]);
  }

  lemma PurgedQueued(s: Sched, uuids: set<string>, u: string)
    requires Queued(Purged(s, uuids), u)
    ensures Queued(s, u)
  {
    hide IsQueued;
    PurgedBefore(s, uuids, s.jobs[u]);
  }

  lemma KeptQueued(s: Sched, e: Event, s': Sched, u: string)
    requires Inv(s) && Step(s, e, s') && e.Kept? && Queued(s', u)
    ensures Queued(s, u) || SaysPending(s, e, u)
  {
    hide Inv, IsQueued, Moved;
    ChannelOf(s, e.uuid);
    ChannelOf(s, u);
    MovedOnlyPending(s.net, s.jobs[e.uuid], e.eta, e.state, s.jobs[u]);
  }

  lemma RescheduledQueued(s: Sched, e: Event, s': Sched, u: string)
    requires Inv(s) && Step(s, e, s') && e.Rescheduled? && Queued(s', u)
    ensures Queued(s, u) || SaysPending(s, e, u)
  {
    DroppedInv(s, e.job.uuid);
    hide Inv, IsQueued, Moved, JobsIn;
    var d := Dropped(s, e.job.uuid);
    MovedOnlyPending(d.net, e.job, e.eta, e.state, s'.jobs[u]);
    if IsQueued(d.net, s'.jobs[u]) {
      DroppedBefore(s, e.job.uuid, s'.jobs[u]);
      QueuedIsIn(s.net, s'.jobs[u]);
    }
  }

  /** A job that runs all the way to the root waits nowhere. */
  lemma RunsNotQueued(s: Sched, u: string)
    requires Runs(s, u)
    ensures !Queued(s, u)
  {
    SitsOut(s.net, s.jobs[u], Passed(-1));
  }
}
