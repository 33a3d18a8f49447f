/** Where a job may sit in the channels, over every run of the manager. */
module Pipeline {
  import opened Channels
  import opened Options
  import opened JobStates
  import opened Scheduler

  /** Where a channel holds a job. */
  datatype Place = Absent | InReady | InDelayed | InRunning | InFailed

  ghost predicate IsAt(v: ChannelView, j: ChannelJob, p: Place) {
    && (j in v.waiting.ready <==> p.InReady?)
    && (j in v.waiting.delayed <==> p.InDelayed?)
    && (j in v.running <==> p.InRunning?)
    && (j in v.failed <==> p.InFailed?)
  }

  /** Where a job sits along the line from its home channel to the root.
      - `Errored`: failed in its home channel only
      - `Held`: set aside until its eta, in its home channel only
      - `Waits(d)`: running in the channels upstream of the one at depth `d`, ready there
      - `Passed(d)`: running in the channels deeper than `d`, nowhere further */
  datatype Position = Errored | Held | Waits(depth: int) | Passed(depth: int)

  ghost function PlaceOf(j: ChannelJob, pos: Position, c: Channel): Place {
    if c !in Line(j.channel) then Absent
    else match pos
      case Errored => if c == j.channel then InFailed else Absent
      case Held => if c == j.channel then InDelayed else Absent
      case Waits(d) => if c.depth > d then InRunning else if c.depth == d then InReady else Absent
      case Passed(d) => if c.depth > d then InRunning else Absent
  }

  ghost predicate Sits(net: Network, j: ChannelJob, pos: Position) {
    forall c <- net :: IsAt(net[c], j, PlaceOf(j, pos, c))
  }

  /** Positions between two events: a job that has passed a channel has been queued in the next one,
      so it has passed all of them (it runs) or none (it is nowhere). */
  ghost predicate Settled(j: ChannelJob, pos: Position) {
    match pos
    case Errored => true
    case Held => true
    case Waits(d) => 0 <= d <= j.channel.depth
    case Passed(d) => d == -1 || d == j.channel.depth
  }

  ghost predicate WellPlaced(net: Network, j: ChannelJob) {
    exists pos :: Settled(j, pos) && Sits(net, j, pos)
  }

  /** The pipeline invariant, and one live job object per uuid. */
  ghost predicate Inv(s: Sched) {
    && Rooted(s.net.Keys)
    && (forall u <- s.jobs :: s.jobs[u].uuid == u && s.jobs[u].channel in s.net)
    && (forall j <- JobsIn(s.net) :: j.uuid in s.jobs && s.jobs[j.uuid] == j && WellPlaced(s.net, j))
  }

  // ----- lines ------------------------------------------------------------------------------

  lemma LineIn(all: set<Channel>, c: Channel)
    requires Rooted(all) && c in all
    ensures Line(c) <= all
    decreases c.depth
  {
    if c.parent != null {
      LineIn(all, c.parent);
    }
  }

  lemma LineUp(all: set<Channel>, c: Channel, d: Channel)
    requires Rooted(all) && c in all && d in Line(c) && d.parent != null
    ensures d.parent in Line(c)
    decreases c.depth
  {
    if c.parent != null {
      if d == c {
        LineDepth(c.parent);
      } else {
        LineUp(all, c.parent, d);
      }
    }
  }

  // ----- one job, one event -----------------------------------------------------------------

  lemma AbsentJobs(net: Network, j: ChannelJob)
    requires j !in JobsIn(net)
    ensures Sits(net, j, Passed(j.channel.depth))
  {
    forall c <- net ensures IsAt(net[c], j, PlaceOf(j, Passed(j.channel.depth), c)) {
      assert j !in JobsAt(net[c]);
      LineDepth(j.channel);
    }
  }

  lemma Removing(net: Network, j: ChannelJob, pos: Position)
    requires Sits(net, j, pos)
    ensures Sits(RemoveAlong(net, Line(j.channel), j), j, Passed(j.channel.depth))
  {
    LineDepth(j.channel);
    var n := RemoveAlong(net, Line(j.channel), j);
    forall c <- n ensures IsAt(n[c], j, PlaceOf(j, Passed(j.channel.depth), c)) {
      assert IsAt(net[c], j, PlaceOf(j, pos, c));
    }
  }

  lemma Leaving(net: Network, j: ChannelJob)
    requires WellPlaced(net, j)
    ensures WellPlaced(RemoveAlong(net, Line(j.channel), j), j) && RemoveAlong(net, Line(j.channel), j).Keys == net.Keys
  {
    var pos :| Settled(j, pos) && Sits(net, j, pos);
    Removing(net, j, pos);
    assert Settled(j, Passed(j.channel.depth));
  }

  lemma Pending(net: Network, j: ChannelJob, eta: Eta)
    requires j.channel in net && WellPlaced(net, j)
    ensures WellPlaced(PendingIn(net, j.channel, j, eta), j) && PendingIn(net, j.channel, j, eta).Keys == net.Keys
  {
    var pos :| Settled(j, pos) && Sits(net, j, pos);
    var h := j.channel;
    LineDepth(h);
    var n := PendingIn(net, h, j, eta);
    assert IsAt(net[h], j, PlaceOf(j, pos, h));
    if net[h].waiting.Contains(j) {
      assert Sits(n, j, pos);
    } else {
      var pos' := if eta.Some? then Held else Waits(h.depth);
      Removing(net, j, pos);
      forall c <- n ensures IsAt(n[c], j, PlaceOf(j, pos', c)) {
        assert c != h ==> IsAt(RemoveAlong(net, Line(h), j)[c], j, PlaceOf(j, Passed(h.depth), c));
      }
      assert Settled(j, pos') && Sits(n, j, pos');
    }
  }

  lemma Failing(net: Network, j: ChannelJob)
    requires j.channel in net && WellPlaced(net, j)
    ensures WellPlaced(FailedIn(net, j.channel, j), j) && FailedIn(net, j.channel, j).Keys == net.Keys
  {
    var pos :| Settled(j, pos) && Sits(net, j, pos);
    var h := j.channel;
    LineDepth(h);
    var n := FailedIn(net, h, j);
    if j in net[h].failed {
      assert Sits(n, j, pos);
    } else {
      Removing(net, j, pos);
      forall c <- n ensures IsAt(n[c], j, PlaceOf(j, Errored, c)) {
        assert c != h ==> IsAt(RemoveAlong(net, Line(h), j)[c], j, PlaceOf(j, Passed(h.depth), c));
      }
      assert Settled(j, Errored) && Sits(n, j, Errored);
    }
  }

  /** A job that does not run in its home channel runs nowhere downstream either. */
  lemma NoneRuns(net: Network, j: ChannelJob, c: Channel)
    requires Rooted(net.Keys) && c in net && forall d <- Line(c) :: d in net ==> j !in net[d].running
    ensures NotYetRunning(net, c, j) == Line(c)
    decreases c.depth
  {
    if c.parent != null {
      NoneRuns(net, j, c.parent);
    }
  }

  lemma StartingToRun(net: Network, j: ChannelJob)
    requires Rooted(net.Keys) && j.channel in net && WellPlaced(net, j)
    ensures WellPlaced(RunningFrom(net, j.channel, j), j) && RunningFrom(net, j.channel, j).Keys == net.Keys
  {
    var pos :| Settled(j, pos) && Sits(net, j, pos);
    var h := j.channel;
    LineDepth(h);
    var n := RunningFrom(net, h, j);
    assert IsAt(net[h], j, PlaceOf(j, pos, h));
    if j in net[h].running {
      assert NotYetRunning(net, h, j) == {};
      assert n == net;
      assert Sits(n, j, pos);
    } else {
      forall d <- Line(h) | d in net ensures j !in net[d].running {
        assert IsAt(net[d], j, PlaceOf(j, pos, d));
      }
      NoneRuns(net, j, h);
      forall c <- n ensures IsAt(n[c], j, PlaceOf(j, Passed(-1), c)) {
        assert IsAt(net[c], j, PlaceOf(j, pos, c));
      }
      assert Settled(j, Passed(-1)) && Sits(n, j, Passed(-1));
    }
  }

  /** A notified state takes its job from one settled position to another. */
  lemma MovedPlaces(net: Network, j: ChannelJob, eta: Eta, state: Option<JobState>)
    requires Rooted(net.Keys) && j.channel in net && WellPlaced(net, j)
    ensures WellPlaced(Moved(net, j, eta, state), j) && Moved(net, j, eta, state).Keys == net.Keys
  {
    hide Sits, Settled, RemoveAlong, PendingIn, FailedIn, RunningFrom;
    match state
    case None => Leaving(net, j);
    case Some(Done) => Leaving(net, j);
    case Some(Cancelled) => Leaving(net, j);
    case Some(Pending) => Pending(net, j, eta);
    case Some(Enqueued) => StartingToRun(net, j);
    case Some(Started) => StartingToRun(net, j);
    case Some(Failed) => Failing(net, j);
    case Some(WaitDependencies) =>
  }

  /** ... and leaves every other job where it was. */
  lemma MovedOthers(net: Network, j: ChannelJob, eta: Eta, state: Option<JobState>, k: ChannelJob)
    requires k != j && j.channel in net
    ensures SamePlaces(net, Moved(net, j, eta, state), k)
  {
    hide Line, NotYetRunning;
    var n := Moved(net, j, eta, state);
    forall c <- net, p | IsAt(net[c], k, p) ensures IsAt(n[c], k, p) {
    }
  }

  /** The channel does not hold the job. */
  predicate NotIn(v: ChannelView, j: ChannelJob) {
    j !in v.waiting.ready && j !in v.waiting.delayed && j !in v.running && j !in v.failed
  }

  /** The job is held by its own channel alone. */
  ghost predicate OnlyAtHome(net: Network, j: ChannelJob) {
    j.channel in net && forall c <- net | c != j.channel :: NotIn(net[c], j)
  }

  /** Where a settled job is when its own channel holds it in one of its places. */
  lemma HomePlaces(net: Network, j: ChannelJob)
    requires j.channel in net && WellPlaced(net, j)
    ensures j in net[j.channel].failed ==>
      OnlyAtHome(net, j) && !net[j.channel].waiting.Contains(j) && j !in net[j.channel].running
    ensures j in net[j.channel].waiting.ready ==>
      OnlyAtHome(net, j) && j !in net[j.channel].waiting.delayed && j !in net[j.channel].running + net[j.channel].failed
    ensures j in net[j.channel].waiting.delayed ==>
      OnlyAtHome(net, j) && j !in net[j.channel].waiting.ready && j !in net[j.channel].running + net[j.channel].failed
  {
    LineDepth(j.channel);
    var pos :| Settled(j, pos) && Sits(net, j, pos);
    assert IsAt(net[j.channel], j, PlaceOf(j, pos, j.channel));
    forall c <- net | c != j.channel && (j in net[j.channel].failed || net[j.channel].waiting.Contains(j))
      ensures NotIn(net[c], j)
    {
      assert IsAt(net[c], j, PlaceOf(j, pos, c));
    }
  }

  ghost predicate Nowhere(net: Network, j: ChannelJob) {
    forall c <- net :: NotIn(net[c], j)
  }

  /** Running in every channel from its own to the root, and held in no other way. */
  ghost predicate RunsAlong(net: Network, j: ChannelJob) {
    forall c <- net :: if c in Line(j.channel)
      then j in net[c].running && !net[c].waiting.Contains(j) && j !in net[c].failed
      else NotIn(net[c], j)
  }

  lemma GoneWhere(net: Network, j: ChannelJob)
    requires j.channel in net && WellPlaced(net, j)
    ensures Nowhere(RemoveAlong(net, Line(j.channel), j), j)
  {
    LineDepth(j.channel);
    var pos :| Settled(j, pos) && Sits(net, j, pos);
    var n := RemoveAlong(net, Line(j.channel), j);
    forall c <- n ensures NotIn(n[c], j) {
      assert IsAt(net[c], j, PlaceOf(j, pos, c));
    }
  }

  lemma PendingWhere(net: Network, j: ChannelJob, eta: Eta)
    requires j.channel in net && WellPlaced(net, j)
    ensures var n, h := PendingIn(net, j.channel, j, eta), j.channel;
      && n.Keys == net.Keys && OnlyAtHome(n, j) && j !in n[h].running + n[h].failed
      && (if j in net[h].waiting.ready || j in net[h].waiting.delayed then n == net
          else if eta.Some? then j !in n[h].waiting.ready && j in n[h].waiting.delayed && n[h].waiting.delayed[j] == eta.value
          else j in n[h].waiting.ready && j !in n[h].waiting.delayed)
  {
    LineDepth(j.channel);
    HomePlaces(net, j);
    GoneWhere(net, j);
    hide RemoveAlong, Line, WellPlaced;
  }

  lemma FailedWhere(net: Network, j: ChannelJob)
    requires j.channel in net && WellPlaced(net, j)
    ensures var n, h := FailedIn(net, j.channel, j), j.channel;
      n.Keys == net.Keys && OnlyAtHome(n, j) && j in n[h].failed && !n[h].waiting.Contains(j) && j !in n[h].running
  {
    LineDepth(j.channel);
    HomePlaces(net, j);
    GoneWhere(net, j);
    hide RemoveAlong, Line, WellPlaced;
  }

  lemma RunningWhere(net: Network, j: ChannelJob)
    requires Rooted(net.Keys) && j.channel in net && WellPlaced(net, j)
    ensures var n, h := RunningFrom(net, j.channel, j), j.channel;
      && n.Keys == net.Keys && j in n[h].running
      && (if j in net[h].running then n == net else RunsAlong(n, j))
  {
    var h := j.channel;
    LineDepth(h);
    var n := RunningFrom(net, h, j);
    var pos :| Settled(j, pos) && Sits(net, j, pos);
    assert IsAt(net[h], j, PlaceOf(j, pos, h));
    if j in net[h].running {
      assert NotYetRunning(net, h, j) == {};
      assert n == net;
    } else {
      forall d <- Line(h) | d in net ensures j !in net[d].running {
        assert IsAt(net[d], j, PlaceOf(j, pos, d));
      }
      NoneRuns(net, j, h);
      forall c <- n ensures c !in Line(h) ==> NotIn(n[c], j) {
        assert IsAt(net[c], j, PlaceOf(j, pos, c));
      }
    }
  }

  /** Where a notified state leaves the job. Pending: in the queue of its own channel, set aside until its eta or
      ready when it has none, unless it was in that queue already. Failed: among the failed of its channel. Done,
      cancelled or gone: nowhere. Enqueued or started: running down to the root, unless it ran already. */
  lemma MovedWhere(net: Network, j: ChannelJob, eta: Eta, state: Option<JobState>)
    requires Rooted(net.Keys) && j.channel in net && WellPlaced(net, j)
    ensures var n, h := Moved(net, j, eta, state), j.channel;
      && n.Keys == net.Keys
      && (state == Some(JobState.Pending) ==>
            && OnlyAtHome(n, j) && j !in n[h].running + n[h].failed
            && (if j in net[h].waiting.ready || j in net[h].waiting.delayed then n == net
                else if eta.Some? then j !in n[h].waiting.ready && j in n[h].waiting.delayed && n[h].waiting.delayed[j] == eta.value
                else j in n[h].waiting.ready && j !in n[h].waiting.delayed))
      && (state == Some(JobState.Failed) ==>
            OnlyAtHome(n, j) && j in n[h].failed && !n[h].waiting.Contains(j) && j !in n[h].running)
      && (state == None || state == Some(JobState.Done) || state == Some(JobState.Cancelled) ==> Nowhere(n, j))
      && (state == Some(JobState.Enqueued) || state == Some(JobState.Started) ==>
            j in n[h].running && if j in net[h].running then n == net else RunsAlong(n, j))
      && (state == Some(WaitDependencies) ==> n == net)
  {
    hide RemoveAlong, PendingIn, FailedIn, RunningFrom, WellPlaced, OnlyAtHome, Nowhere, RunsAlong, NotIn;
    GoneKeys(net, j);
    GoneWhere(net, j);
    PendingWhere(net, j, eta);
    FailedWhere(net, j);
    RunningWhere(net, j);
  }

  lemma GoneKeys(net: Network, j: ChannelJob)
    ensures RemoveAlong(net, Line(j.channel), j).Keys == net.Keys
  {
  }

  /** The job is where a job in that state belongs; one that is new to the channels when it is told to be active runs
      all the way, and is nowhere as long as it waits for others. */
  ghost predicate PlacedAs(net: Network, j: ChannelJob, eta: Eta, state: Option<JobState>, anew: bool) {
    match state
    case Some(Pending) =>
      && OnlyAtHome(net, j)
      && (if eta.Some? then j in net[j.channel].waiting.delayed && net[j.channel].waiting.delayed[j] == eta.value
          else j in net[j.channel].waiting.ready)
    case Some(Failed) => OnlyAtHome(net, j) && j in net[j.channel].failed
    case Some(Enqueued) => if anew then RunsAlong(net, j) else j.channel in net && j in net[j.channel].running
    case Some(Started) => if anew then RunsAlong(net, j) else j.channel in net && j in net[j.channel].running
    case Some(WaitDependencies) => anew ==> Nowhere(net, j)
    case _ => Nowhere(net, j)
  }

  /** So it is once it has been notified, if what waits in its channel is sorted by having an eta. */
  lemma MovedIsPlaced(net: Network, j: ChannelJob, eta: Eta, state: Option<JobState>, anew: bool)
    requires Rooted(net.Keys) && j.channel in net && WellPlaced(net, j) && (anew ==> Nowhere(net, j))
    requires var v := Moved(net, j, eta, state)[j.channel];
      && (j in v.waiting.ready ==> eta == None)
      && (j in v.waiting.delayed ==> eta == Some(v.waiting.delayed[j]))
    ensures PlacedAs(Moved(net, j, eta, state), j, eta, state, anew)
  {
    MovedWhere(net, j, eta, state);
    hide Moved, WellPlaced, OnlyAtHome, RunsAlong;
  }

  lemma AbsentNowhere(net: Network, j: ChannelJob)
    requires j !in JobsIn(net)
    ensures Nowhere(net, j)
  {
    forall c <- net ensures NotIn(net[c], j) {
      assert j !in JobsAt(net[c]);
    }
  }

  /** The channel holds the job just as before. */
  predicate HeldAlike(v: ChannelView, w: ChannelView, k: ChannelJob) {
    && (k in w.waiting.ready <==> k in v.waiting.ready)
    && (k in w.waiting.delayed <==> k in v.waiting.delayed)
    && (k in v.waiting.delayed ==> w.waiting.delayed[k] == v.waiting.delayed[k])
    && (k in w.running <==> k in v.running)
    && (k in w.failed <==> k in v.failed)
  }

  /** All channels hold the job just as before, and new channels do not hold it. */
  ghost predicate Undisturbed(net: Network, n: Network, k: ChannelJob) {
    && net.Keys <= n.Keys
    && (forall c <- net :: HeldAlike(net[c], n[c], k))
    && (forall c <- n | c !in net :: NotIn(n[c], k))
  }

  lemma StillPlaced(net: Network, n: Network, k: ChannelJob, eta: Eta, state: Option<JobState>, anew: bool)
    requires Rooted(net.Keys) && k.channel in net && Undisturbed(net, n, k) && PlacedAs(net, k, eta, state, anew)
    ensures PlacedAs(n, k, eta, state, anew)
  {
    LineIn(net.Keys, k.channel);
  }

  lemma UndisturbedTwice(a: Network, b: Network, c: Network, k: ChannelJob)
    requires Undisturbed(a, b, k) && Undisturbed(b, c, k)
    ensures Undisturbed(a, c, k)
  {
  }

  lemma ViewsAlike(v: ChannelView, j: ChannelJob, eta: Eta, k: ChannelJob)
    requires k != j
    ensures HeldAlike(v, v, k) && HeldAlike(v, v.Without(j), k) && HeldAlike(v, v.Queued(j, eta), k)
    ensures HeldAlike(v, v.Running(j), k) && HeldAlike(v, v.Failed(j), k)
  {
  }

  /** A notified state disturbs no other job. */
  lemma MovedUndisturbs(net: Network, j: ChannelJob, eta: Eta, state: Option<JobState>, k: ChannelJob)
    requires k != j && j.channel in net
    ensures Undisturbed(net, Moved(net, j, eta, state), k)
  {
    hide Line, NotYetRunning, HeldAlike, ChannelView.Without, ChannelView.Queued, ChannelView.Running, ChannelView.Failed;
    var n := Moved(net, j, eta, state);
    forall c <- net ensures HeldAlike(net[c], n[c], k) {
      ViewsAlike(net[c], j, eta, k);
    }
  }

  // ----- draining ---------------------------------------------------------------------------

  function AfterYielding(w: ChannelView, now: Time, r: ChannelJob): ChannelView {
    w.(waiting := AfterPop(w.waiting.Promote(now), Some(r)), running := w.running + {r})
  }

  lemma YieldingPlace(w: ChannelView, now: Time, r: ChannelJob, j: ChannelJob, p: Place)
    requires r in w.waiting.Promote(now).ready && IsAt(w, j, p)
    ensures j == r ==> (p.InReady? || p.InDelayed?) && IsAt(AfterYielding(w, now, r), j, InRunning)
    ensures j != r ==>
      IsAt(AfterYielding(w, now, r), j, p) || (p.InDelayed? && IsAt(AfterYielding(w, now, r), j, InReady))
  {
  }

  /** Yielding moves a job from the queue to the running ones; a job not yielded stays, but for
      joining the ready ones once its eta is past due. */
  lemma {:induction false} YieldingPlaces(v: ChannelView, now: Time, out: seq<ChannelJob>, j: ChannelJob, p: Place)
    requires MayYield(v, now, out) && IsAt(v, j, p)
    ensures j in out ==> (p.InReady? || p.InDelayed?) && IsAt(Yielded(v, now, out), j, InRunning)
    ensures j !in out ==> IsAt(Yielded(v, now, out), j, p) || (p.InDelayed? && IsAt(Yielded(v, now, out), j, InReady))
    decreases |out|
  {
    hide IsAt, Waiting.Promote, ChannelView.HasCapacity;
    if out != [] {
      var front, last := out[..|out| - 1], out[|out| - 1];
      YieldingPlaces(v, now, front, j, p);
      var w := Yielded(v, now, front);
      assert FirstIn(last, w.waiting.Promote(now).ready);
      assert Yielded(v, now, out) == AfterYielding(w, now, last);
      assert j in out <==> j in front || j == last by {
        assert out == front + [last];
      }
      var q := if j in front then InRunning else if IsAt(w, j, p) then p else InReady;
      YieldingPlace(w, now, last, j, q);
    }
  }

  lemma RunningPlaces(v: ChannelView, now: Time, out: seq<ChannelJob>, j: ChannelJob, p: Place)
    requires RunsOk(v, now, out) && IsAt(v, j, p)
    ensures j in out ==> (p.InReady? || p.InDelayed?) && IsAt(AfterRun(v, now, out), j, InRunning)
    ensures j !in out ==> IsAt(AfterRun(v, now, out), j, p) || (p.InDelayed? && IsAt(AfterRun(v, now, out), j, InReady))
  {
    if !Throttled(v, now) {
      YieldingPlaces(Unpause(v), now, out, j, p);
    }
  }

  /** What the children yielded, in order. */
  function OutOf(kids: seq<Drain>): seq<ChannelJob> {
    if kids == [] then [] else OutOf(kids[..|kids| - 1]) + kids[|kids| - 1].out
  }

  /** The recorded calls were made on children of `c`. */
  ghost predicate KidsAt(all: set<Channel>, c: Channel, kids: seq<Drain>) {
    forall i | 0 <= i < |kids| :: kids[i].channel in all && kids[i].channel.parent == c
  }

  /** The children's turns change nothing but what is upstream of `c`, and queue their jobs in it. */
  lemma {:induction false} KidsFrame(net: Network, c: Channel, kids: seq<Drain>, now: Time)
    requires Rooted(net.Keys) && c in net && KidsAt(net.Keys, c, kids) && KidsOk(net, c, kids, now)
    ensures AfterKids(net, c, kids, now).Keys == net.Keys
    ensures forall x <- net | c !in Line(x) :: AfterKids(net, c, kids, now)[x] == net[x]
    ensures AfterKids(net, c, kids, now)[c] == Receive(net[c], OutOf(kids))
    decreases kids, 0
  {
    hide DrainOk, Replay, Receive, Line;
    if kids != [] {
      var front, last := kids[..|kids| - 1], kids[|kids| - 1];
      KidsFrame(net, c, front, now);
      var n := AfterKids(net, c, front, now);
      ReplayFrame(n, last, now);
      NotUpstream(net.Keys, c, last.channel);
      ReceivingMore(net[c], OutOf(front), last.out);
    } else {
      ReceivingNone(net[c]);
    }
  }

  lemma NotUpstream(all: set<Channel>, c: Channel, kid: Channel)
    requires Rooted(all) && c in all && kid in all && kid.parent == c
    ensures forall x <- all | c !in Line(x) :: kid !in Line(x)
    ensures kid !in Line(c) && c in Line(c)
  {
    LineDepth(c);
    forall x <- all | c !in Line(x) ensures kid !in Line(x) {
      if kid in Line(x) {
        LineUp(all, x, kid);
      }
    }
  }

  lemma ReceivingNone(v: ChannelView)
    ensures Receive(v, []) == v
  {
  }

  lemma ReceivingMore(v: ChannelView, a: seq<ChannelJob>, b: seq<ChannelJob>)
    ensures Receive(Receive(v, a), b) == Receive(v, a + b)
  {
  }

  /** A drained call changes nothing but the channel it was made on and those upstream. */
  lemma {:induction false} ReplayFrame(net: Network, d: Drain, now: Time)
    requires Rooted(net.Keys) && DrainOk(net, d, now)
    ensures Replay(net, d, now).Keys == net.Keys
    ensures forall x <- net | d.channel !in Line(x) :: Replay(net, d, now)[x] == net[x]
    decreases d, 1
  {
    KidsFrame(net, d.channel, d.kids, now);
    LineDepth(d.channel);
  }

  /** The view a channel yields from: its own, with the children's jobs queued. */
  ghost function Fed(net: Network, d: Drain): ChannelView {
    Receive(At(net, d.channel), OutOf(d.kids))
  }

  /** Where a job is after a drained call on `c`: passed on if it was yielded, settled otherwise. */
  ghost predicate DrainedAt(net: Network, c: Channel, out: seq<ChannelJob>, j: ChannelJob) {
    if j in out then c in Line(j.channel) && Sits(net, j, Passed(c.depth - 1))
    else WellPlaced(net, j)
  }

  lemma {:induction false} KidsPlaces(net: Network, c: Channel, kids: seq<Drain>, now: Time, j: ChannelJob)
    requires Rooted(net.Keys) && c in net && KidsAt(net.Keys, c, kids) && KidsOk(net, c, kids, now)
    requires j.channel in net && WellPlaced(net, j)
    ensures WellPlaced(AfterKids(net, c, kids, now), j)
    decreases kids, 0
  {
    if kids != [] {
      var front, last := kids[..|kids| - 1], kids[|kids| - 1];
      KidsFrame(net, c, front, now);
      KidsPlaces(net, c, front, now, j);
      var n := AfterKids(net, c, front, now);
      ReplayPlaces(n, last, now, j);
      ReplayFrame(n, last, now);
      Receiving(Replay(n, last, now), c, last.channel, last.out, j);
    }
  }

  /** A job handed up by a child waits in the parent. */
  lemma Receiving(net: Network, c: Channel, kid: Channel, out: seq<ChannelJob>, j: ChannelJob)
    requires Rooted(net.Keys) && c in net && kid in net && kid.parent == c
    requires j.channel in net && DrainedAt(net, kid, out, j)
    ensures WellPlaced(net[c := Receive(net[c], out)], j)
  {
    var n := net[c := Receive(net[c], out)];
    if j in out {
      LineUp(net.Keys, j.channel, kid);
      LineDepth(j.channel);
      forall x <- n ensures IsAt(n[x], j, PlaceOf(j, Waits(c.depth), x)) {
        assert IsAt(net[x], j, PlaceOf(j, Passed(c.depth), x));
        if x != c && x in Line(j.channel) && x.depth == c.depth {
          OneEachDepth(net.Keys, j.channel, x, c);
        }
      }
      assert Settled(j, Waits(c.depth)) && Sits(n, j, Waits(c.depth));
    } else {
      var pos :| Settled(j, pos) && Sits(net, j, pos);
      assert Sits(n, j, pos);
    }
  }

  lemma OneEachDepth(all: set<Channel>, h: Channel, c: Channel, d: Channel)
    requires Rooted(all) && h in all && c in Line(h) && d in Line(h) && c.depth == d.depth
    ensures c == d
    decreases h.depth
  {
    LineDepth(h);
    if h.parent != null && c != h && d != h {
      OneEachDepth(all, h.parent, c, d);
    }
  }

  lemma {:induction false} ReplayPlaces(net: Network, d: Drain, now: Time, j: ChannelJob)
    requires Rooted(net.Keys) && DrainOk(net, d, now) && j.channel in net && WellPlaced(net, j)
    ensures DrainedAt(Replay(net, d, now), d.channel, d.out, j)
    decreases d, 1
  {
    KidsPlaces(net, d.channel, d.kids, now, j);
    KidsFrame(net, d.channel, d.kids, now);
    RunPlaces(AfterKids(net, d.channel, d.kids, now), d.channel, now, d.out, j);
  }

  lemma RunPlaces(net: Network, c: Channel, now: Time, out: seq<ChannelJob>, j: ChannelJob)
    requires Rooted(net.Keys) && c in net && RunsOk(net[c], now, out) && j.channel in net && WellPlaced(net, j)
    ensures DrainedAt(net[c := AfterRun(net[c], now, out)], c, out, j)
  {
    hide RunsOk, AfterRun;
    var n := net[c := AfterRun(net[c], now, out)];
    var pos :| Settled(j, pos) && Sits(net, j, pos);
    var p := PlaceOf(j, pos, c);
    RunningPlaces(net[c], now, out, j, p);
    LineDepth(j.channel);
    if j in out {
      forall x <- n ensures IsAt(n[x], j, PlaceOf(j, Passed(c.depth - 1), x)) {
        assert IsAt(net[x], j, PlaceOf(j, pos, x));
        if x != c && x in Line(j.channel) && x.depth == c.depth {
          OneEachDepth(net.Keys, j.channel, x, c);
        }
      }
    } else if IsAt(n[c], j, p) {
      assert Sits(n, j, pos);
    } else {
      forall x <- n ensures IsAt(n[x], j, PlaceOf(j, Waits(c.depth), x)) {
        assert IsAt(net[x], j, PlaceOf(j, pos, x));
      }
      assert Settled(j, Waits(c.depth)) && Sits(n, j, Waits(c.depth));
    }
  }

  // ----- the invariant over runs --------------------------------------------------------------

  /** The job is in the same places in both networks. */
  ghost predicate SamePlaces(net: Network, n: Network, k: ChannelJob) {
    n.Keys == net.Keys && forall c <- net, p :: IsAt(net[c], k, p) ==> IsAt(n[c], k, p)
  }

  lemma SamePlacesKept(net: Network, n: Network, k: ChannelJob)
    requires SamePlaces(net, n, k)
    ensures WellPlaced(net, k) ==> WellPlaced(n, k)
    ensures k !in JobsIn(net) ==> k !in JobsIn(n)
  {
    if WellPlaced(net, k) {
      var pos :| Settled(k, pos) && Sits(net, k, pos);
      assert Sits(n, k, pos);
    }
    if k !in JobsIn(net) {
      forall c <- n ensures k !in JobsAt(n[c]) {
        assert k !in JobsAt(net[c]);
        assert IsAt(net[c], k, Absent);
      }
    }
  }

  /** A job that has left its line is in no channel. */
  lemma Left(net: Network, j: ChannelJob)
    requires Sits(net, j, Passed(j.channel.depth))
    ensures j !in JobsIn(net)
  {
    LineDepth(j.channel);
    forall c <- net ensures j !in JobsAt(net[c]) {
      assert IsAt(net[c], j, PlaceOf(j, Passed(j.channel.depth), c));
    }
  }

  lemma Known(s: Sched, j: ChannelJob)
    requires Inv(s)
    ensures WellPlaced(s.net, j)
  {
    if j !in JobsIn(s.net) {
      AbsentJobs(s.net, j);
      assert Settled(j, Passed(j.channel.depth));
    }
  }

  /** A job that stays in the channels when another is dropped was there, and keeps its place. */
  lemma DroppedJob(s: Sched, uuid: string, k: ChannelJob)
    requires Inv(s) && uuid in s.jobs && k in JobsIn(Dropped(s, uuid).net) && k != s.jobs[uuid]
    ensures k in JobsIn(s.net) && WellPlaced(Dropped(s, uuid).net, k)
  {
    MovedOthers(s.net, s.jobs[uuid], None, None, k);
    hide WellPlaced, JobsIn;
    SamePlacesKept(s.net, Dropped(s, uuid).net, k);
  }

  lemma DroppedInv(s: Sched, uuid: string)
    requires Inv(s)
    ensures Inv(Dropped(s, uuid)) && Dropped(s, uuid).net.Keys == s.net.Keys
    ensures JobsIn(Dropped(s, uuid).net) <= JobsIn(s.net)
    ensures forall k <- JobsIn(Dropped(s, uuid).net) :: k.uuid != uuid
  {
    hide Sits, Settled, JobsIn;
    if uuid in s.jobs {
      var j, n := s.jobs[uuid], Dropped(s, uuid).net;
      Known(s, j);
      var pos :| Settled(j, pos) && Sits(s.net, j, pos);
      Removing(s.net, j, pos);
      Left(n, j);
      forall k <- JobsIn(n) ensures k in JobsIn(s.net) && k.uuid != uuid && WellPlaced(n, k) {
        DroppedJob(s, uuid, k);
      }
    }
  }

  lemma MovedInv(s: Sched, j: ChannelJob, eta: Eta, state: Option<JobState>)
    requires Inv(s) && j.uuid in s.jobs && s.jobs[j.uuid] == j
    ensures Inv(s.(net := Moved(s.net, j, eta, state)))
  {
    var n := Moved(s.net, j, eta, state);
    Known(s, j);
    MovedPlaces(s.net, j, eta, state);
    forall k <- JobsIn(n) ensures k.uuid in s.jobs && s.jobs[k.uuid] == k && WellPlaced(n, k) {
      if k != j {
        MovedOthers(s.net, j, eta, state, k);
        assert SamePlaces(s.net, n, k);
        SamePlacesKept(s.net, n, k);
      }
    }
  }

  lemma RescheduledInv(s: Sched, j: ChannelJob, eta: Eta, state: Option<JobState>)
    requires Inv(s) && j.channel in s.net && j !in JobsIn(s.net)
    ensures var d := Dropped(s, j.uuid); Inv(Sched(Moved(d.net, j, eta, state), d.jobs[j.uuid := j]))
  {
    DroppedInv(s, j.uuid);
    var d := Dropped(s, j.uuid);
    MovedInv(d.(jobs := d.jobs[j.uuid := j]), j, eta, state);
  }

  lemma GrownJob(s: Sched, c: Channel, k: ChannelJob)
    requires Inv(s) && c !in s.net && k in JobsIn(s.net[c := EMPTY])
    ensures k in JobsIn(s.net) && WellPlaced(s.net[c := EMPTY], k)
  {
    var n := s.net[c := EMPTY];
    var d :| d in n && k in JobsAt(n[d]);
    assert k in JobsAt(s.net[d]);
    assert k in JobsIn(s.net);
    var pos :| Settled(k, pos) && Sits(s.net, k, pos);
    LineIn(s.net.Keys, k.channel);
    assert Sits(n, k, pos);
  }

  lemma GrownInv(s: Sched, c: Channel)
    requires Inv(s) && c !in s.net && c.parent != null && c.parent in s.net && c.depth == c.parent.depth + 1
    ensures Inv(s.(net := s.net[c := EMPTY]))
  {
    hide WellPlaced, JobsIn;
    forall k <- JobsIn(s.net[c := EMPTY]) ensures k in JobsIn(s.net) && WellPlaced(s.net[c := EMPTY], k) {
      GrownJob(s, c, k);
    }
  }

  lemma ConfiguredInv(s: Sched, c: Channel, v: ChannelView)
    requires Inv(s) && c in s.net
    requires v.waiting == s.net[c].waiting && v.running == s.net[c].running && v.failed == s.net[c].failed
    ensures Inv(s.(net := s.net[c := v]))
  {
    var n := s.net[c := v];
    forall k <- JobsIn(n) ensures k in JobsIn(s.net) && WellPlaced(n, k) {
      assert SamePlaces(s.net, n, k);
      SamePlacesKept(s.net, n, k);
    }
  }

  /** A live job is only found along its line, so dropping its uuid takes it out of the channels. */
  lemma PurgedJob(s: Sched, uuids: set<string>, c: Channel, k: ChannelJob)
    requires Inv(s) && c in s.net && k in JobsAt(Purged(s, uuids).net[c])
    ensures k in JobsIn(s.net) && k.uuid !in uuids
  {
    assert k in JobsAt(s.net[c]);
    assert k in JobsIn(s.net);
    var pos :| Settled(k, pos) && Sits(s.net, k, pos);
    assert IsAt(s.net[c], k, PlaceOf(k, pos, c));
    var gone := set u <- uuids | u in s.jobs && c in Line(s.jobs[u].channel) :: s.jobs[u];
    assert k !in gone;
    assert k.uuid in uuids ==> k in gone;
  }

  lemma PurgedOther(s: Sched, uuids: set<string>, k: ChannelJob)
    requires Inv(s) && k in JobsIn(s.net) && k.uuid !in uuids
    ensures SamePlaces(s.net, Purged(s, uuids).net, k)
  {
    var n := Purged(s, uuids).net;
    forall x <- s.net, p | IsAt(s.net[x], k, p) ensures IsAt(n[x], k, p) {
      assert k !in (set u <- uuids | u in s.jobs && x in Line(s.jobs[u].channel) :: s.jobs[u]);
    }
  }

  lemma PurgedInv(s: Sched, uuids: set<string>)
    requires Inv(s)
    ensures Inv(Purged(s, uuids))
  {
    hide WellPlaced, SamePlaces;
    var n := Purged(s, uuids).net;
    forall k <- JobsIn(n) ensures k in JobsIn(s.net) && k.uuid !in uuids && WellPlaced(n, k) {
      var c :| c in n && k in JobsAt(n[c]);
      PurgedJob(s, uuids, c, k);
      PurgedOther(s, uuids, k);
      SamePlacesKept(s.net, n, k);
    }
  }

  lemma ForgottenInv(s: Sched, uuids: set<string>)
    requires Inv(s) && uuids <= s.jobs.Keys && forall u <- uuids :: s.jobs[u] !in JobsIn(s.net)
    ensures Inv(s.(jobs := s.jobs - uuids))
  {
  }

  /** Draining brings no new job into the channels. */
  lemma {:induction false} ReplayAbsent(net: Network, d: Drain, now: Time, j: ChannelJob)
    requires Rooted(net.Keys) && DrainOk(net, d, now) && j !in JobsIn(net)
    ensures j !in JobsIn(Replay(net, d, now)) && j !in d.out
    decreases d, 1
  {
    KidsAbsent(net, d.channel, d.kids, now, j);
    KidsFrame(net, d.channel, d.kids, now);
    var n := AfterKids(net, d.channel, d.kids, now);
    assert j !in JobsAt(n[d.channel]);
    RunningPlaces(n[d.channel], now, d.out, j, Absent);
    forall c <- Replay(net, d, now) ensures j !in JobsAt(Replay(net, d, now)[c]) {
      if c != d.channel {
        assert j !in JobsAt(n[c]);
      }
    }
  }

  lemma {:induction false} KidsAbsent(net: Network, c: Channel, kids: seq<Drain>, now: Time, j: ChannelJob)
    requires Rooted(net.Keys) && c in net && KidsAt(net.Keys, c, kids) && KidsOk(net, c, kids, now) && j !in JobsIn(net)
    ensures j !in JobsIn(AfterKids(net, c, kids, now))
    decreases kids, 0
  {
    if kids != [] {
      var front, last := kids[..|kids| - 1], kids[|kids| - 1];
      KidsFrame(net, c, front, now);
      KidsAbsent(net, c, front, now, j);
      var n := AfterKids(net, c, front, now);
      ReplayAbsent(n, last, now, j);
      ReplayFrame(n, last, now);
      var m := Replay(n, last, now);
      forall x <- AfterKids(net, c, kids, now) ensures j !in JobsAt(AfterKids(net, c, kids, now)[x]) {
        assert j !in JobsAt(m[x]);
      }
    }
  }

  lemma DrainedJob(s: Sched, now: Time, log: Drain, j: ChannelJob)
    requires Inv(s) && log.channel.parent == null && DrainOk(s.net, log, now) && j in JobsIn(Replay(s.net, log, now))
    ensures j in JobsIn(s.net) && WellPlaced(Replay(s.net, log, now), j)
  {
    hide Replay, Sits, JobsIn, KidsOk, RunsOk, Enumerates;
    if j !in JobsIn(s.net) {
      ReplayAbsent(s.net, log, now, j);
    }
    ReplayPlaces(s.net, log, now, j);
    if j in log.out {
      assert Settled(j, Passed(-1));
    }
  }

  lemma DrainedInv(s: Sched, now: Time, log: Drain)
    requires Inv(s) && log.channel.parent == null && DrainOk(s.net, log, now)
    ensures Inv(s.(net := Replay(s.net, log, now)))
  {
    hide DrainOk, Replay, WellPlaced, JobsIn;
    ReplayFrame(s.net, log, now);
    forall j <- JobsIn(Replay(s.net, log, now))
      ensures j in JobsIn(s.net) && WellPlaced(Replay(s.net, log, now), j)
    {
      DrainedJob(s, now, log, j);
    }
  }

  /** Every event keeps the pipeline invariant. */
  lemma InvStep(s: Sched, e: Event, s': Sched)
    requires Inv(s) && Step(s, e, s')
    ensures Inv(s')
  {
    hide Inv, Dropped, Moved, Purged, DrainOk, Replay, Rooted;
    match e
    case Grown(c) => GrownInv(s, c);
    case Configured(c, capacity, throttle, sequential, paused) => ConfiguredInv(s, c, s'.net[c]);
    case Kept(uuid, eta, state) => KeptInv(s, uuid, eta, state);
    case Rescheduled(j, eta, state) => RescheduledInv(s, j, eta, state);
    case Removed(uuid) => DroppedInv(s, uuid);
    case RemovedDb(db) => PurgedInv(s, set u <- s.jobs | s.jobs[u].dbName == db);
    case Forgotten(uuids) => ForgottenInv(s, uuids);
    case Drained(now, log) => DrainedInv(s, now, log);
  }

  lemma KeptInv(s: Sched, uuid: string, eta: Eta, state: Option<JobState>)
    requires Inv(s) && uuid in s.jobs
    ensures Inv(s.(net := Moved(s.net, s.jobs[uuid], eta, state)))
  {
    MovedInv(s, s.jobs[uuid], eta, state);
  }

  /** The pipeline invariant holds in every state of every run. */
  lemma {:induction false} InvOverRuns(ss: seq<Sched>, es: seq<Event>, i: nat)
    requires Run(ss, es) && Inv(ss[0]) && i < |ss|
    ensures Inv(ss[i])
  {
    if i > 0 {
      InvOverRuns(ss, es, i - 1);
      InvStep(ss[i - 1], es[i - 1], ss[i]);
    }
  }
}
