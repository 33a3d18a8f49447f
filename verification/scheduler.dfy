/** The channel manager as a state machine over values
    (queue_job/jobrunner/channels.py, lines 1059-1115). */
module Scheduler {
  import opened Channels
  import opened Options
  import opened JobStates

  /** The channel network and the live job object of each uuid. */
  datatype Sched = Sched(net: Network, jobs: map<string, ChannelJob>)

  /** What a notified state does to the channels; an empty state means the job is gone, and
      `wait_dependencies` leaves the job where it is. */
  ghost function Moved(net: Network, j: ChannelJob, eta: Eta, state: Option<JobState>): Network {
    match state
    case None => RemoveAlong(net, Line(j.channel), j)
    case Some(Done) => RemoveAlong(net, Line(j.channel), j)
    case Some(Cancelled) => RemoveAlong(net, Line(j.channel), j)
    case Some(Pending) => PendingIn(net, j.channel, j, eta)
    case Some(Enqueued) => RunningFrom(net, j.channel, j)
    case Some(Started) => RunningFrom(net, j.channel, j)
    case Some(Failed) => FailedIn(net, j.channel, j)
    case Some(WaitDependencies) => net
  }

  /** Drop the live object of a uuid, if there is one. */
  ghost function Dropped(s: Sched, uuid: string): Sched {
    if uuid in s.jobs then
      Sched(RemoveAlong(s.net, Line(s.jobs[uuid].channel), s.jobs[uuid]), s.jobs - {uuid})
    else s
  }

  ghost function JobsAt(v: ChannelView): set<ChannelJob> {
    v.waiting.ready + v.waiting.delayed.Keys + v.running + v.failed
  }

  ghost function JobsIn(net: Network): set<ChannelJob> {
    set c <- net, j <- JobsAt(net[c]) :: j
  }

  datatype Event =
    | Grown(channel: Channel)                                     // a channel is created
    | Configured(channel: Channel, capacity: Option<int>, throttle: Time, sequential: bool, paused: bool)
    | Kept(uuid: string, eta: Eta, state: Option<JobState>)       // notify, on the job object at hand
    | Rescheduled(job: ChannelJob, eta: Eta, state: Option<JobState>)  // notify, on a new job object
    | Removed(uuid: string)
    | RemovedDb(dbName: string)
    | Forgotten(uuids: set<string>)                               // weak entries of jobs nobody holds
    | Drained(now: Time, log: Drain)                              // get_jobs_to_run, drained

  function WithoutAll(v: ChannelView, js: set<ChannelJob>): ChannelView {
    v.(waiting := Waiting(v.waiting.ready - js, v.waiting.delayed - js), running := v.running - js, failed := v.failed - js)
  }

  /** Drop the live objects of several uuids. */
  ghost function Purged(s: Sched, uuids: set<string>): Sched {
    Sched(
      map c <- s.net :: WithoutAll(s.net[c], set u <- uuids | u in s.jobs && c in Line(s.jobs[u].channel) :: s.jobs[u]),
      s.jobs - uuids)
  }

  ghost predicate Step(s: Sched, e: Event, s': Sched) {
    match e
    case Grown(c) =>
      && c !in s.net && c.parent != null && c.parent in s.net && c.depth == c.parent.depth + 1
      && s' == s.(net := s.net[c := EMPTY])
    case Configured(c, capacity, throttle, sequential, paused) =>
      && c in s.net
      && s' == s.(net := s.net[c := s.net[c].(
          capacity := capacity, throttle := throttle, sequential := sequential, paused := paused)])
    case Kept(uuid, eta, state) =>
      && uuid in s.jobs
      && s' == s.(net := Moved(s.net, s.jobs[uuid], eta, state))
    case Rescheduled(j, eta, state) =>
      && j.channel in s.net && j !in JobsIn(s.net) && j !in s.jobs.Values
      && var d := Dropped(s, j.uuid);
         s' == Sched(Moved(d.net, j, eta, state), d.jobs[j.uuid := j])
    case Removed(uuid) => s' == Dropped(s, uuid)
    case RemovedDb(db) => s' == Purged(s, set u <- s.jobs | s.jobs[u].dbName == db)
    case Forgotten(uuids) =>
      && uuids <= s.jobs.Keys && (forall u <- uuids :: s.jobs[u] !in JobsIn(s.net))
      && s' == s.(jobs := s.jobs - uuids)
    case Drained(now, log) =>
      && log.channel.parent == null && DrainOk(s.net, log, now)
      && s' == s.(net := Replay(s.net, log, now))
  }

  /** A run of the manager: one more state than events. */
  ghost predicate Run(ss: seq<Sched>, es: seq<Event>) {
    |ss| == |es| + 1 && forall i | 0 <= i < |es| :: Step(ss[i], es[i], ss[i + 1])
  }

  /** The channels hang together: every parent is there, one step closer to the root. */
  ghost predicate Rooted(all: set<Channel>) {
    forall c <- all :: if c.parent == null then c.depth == 0 else c.parent in all && c.depth == c.parent.depth + 1
  }
}
