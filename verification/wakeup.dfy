/** Timed wakeups of the runner: none is missed and none is perpetual
    (queue_job/jobrunner/channels.py, lines 335-357 and 536-603). */
module WakeupTimes {
  import opened Channels
  import opened Options
  import opened JobStates
  import opened Scheduler
  import opened Pipeline

  /** The throttle delays of a channel whose configuration was not changed since it was created:
      they do not go back in time, and only a throttled channel is ever paused by them. */
  ghost predicate Clocked(net: Network) {
    forall c <- net :: net[c].throttle >= 0.0 && (net[c].throttle == 0.0 ==> net[c].pauseUntil == 0.0)
  }

  /** The channel is full, within a throttle delay, or has nothing to pop. */
  ghost predicate Quiet(v: ChannelView, now: Time) {
    || !v.HasCapacity()
    || (v.pauseUntil != 0.0 && now < v.pauseUntil)
    || (v.pauseUntil == 0.0 && Poppable(v.sequential, v.waiting, None) && forall t <- v.waiting.delayed.Values :: now < t)
  }

  lemma QuietAfterRun(v: ChannelView, now: Time, out: seq<ChannelJob>)
    requires RunsOk(v, now, out) && now > 0.0
    requires v.throttle >= 0.0 && (v.throttle == 0.0 ==> v.pauseUntil == 0.0)
    ensures Quiet(AfterRun(v, now, out), now)
  {
    if !Throttled(v, now) {
      var w := Yielded(Unpause(v), now, out);
      hide Yielded, MayYield, Poppable, ChannelView.HasCapacity;
      var p := w.waiting.Promote(now);
      assert forall t <- p.delayed.Values :: now < t;
      StillFull(w, p);
    }
  }

  /** Whether there is capacity does not depend on what waits. */
  lemma StillFull(w: ChannelView, p: Waiting)
    ensures w.(waiting := p).HasCapacity() == w.HasCapacity()
  {
  }

  /** The child of `c` that leads to a channel upstream of it. */
  lemma ChildToward(all: set<Channel>, c: Channel, x: Channel) returns (k: Channel)
    requires Rooted(all) && x in all && c in Line(x) && x != c
    ensures k in all && k.parent == c && k in Line(x)
    decreases x.depth
  {
    LineDepth(x);
    if x.parent == c {
      k := x;
    } else {
      k := ChildToward(all, c, x.parent);
    }
  }

  /** A child is not upstream of another child of the same channel. */
  lemma SiblingsApart(all: set<Channel>, k: Channel, l: Channel, x: Channel)
    requires Rooted(all) && x in all && k in Line(x) && l in Line(x) && k.depth == l.depth
    ensures k == l
  {
    OneEachDepth(all, x, k, l);
  }

  lemma {:induction false} QuietAfterKids(net: Network, c: Channel, kids: seq<Drain>, now: Time)
    requires Rooted(net.Keys) && c in net && KidsAt(net.Keys, c, kids) && KidsOk(net, c, kids, now)
    requires forall i, j | 0 <= i < j < |kids| :: kids[i].channel != kids[j].channel
    requires Clocked(net) && now > 0.0
    ensures Clocked(AfterKids(net, c, kids, now)) && AfterKids(net, c, kids, now).Keys == net.Keys
    ensures forall x <- net, i | 0 <= i < |kids| && kids[i].channel in Line(x) ::
      Quiet(AfterKids(net, c, kids, now)[x], now)
    decreases kids, 0
  {
    hide DrainOk, Replay, Quiet, Receive, Line;
    if kids != [] {
      var front, last := kids[..|kids| - 1], kids[|kids| - 1];
      QuietAfterKids(net, c, front, now);
      KidsFrame(net, c, kids, now);
      var n := AfterKids(net, c, front, now);
      QuietAfterDrain(n, last, now);
      ReplayFrame(n, last, now);
      NotUpstream(net.Keys, c, last.channel);
      var m := AfterKids(net, c, kids, now);
      forall x <- net, i | 0 <= i < |kids| && kids[i].channel in Line(x) ensures Quiet(m[x], now) {
        NotUpstream(net.Keys, c, kids[i].channel);
        assert x != c;
        if i < |front| {
          assert front[i] == kids[i];
          if last.channel in Line(x) {
            SiblingsApart(net.Keys, kids[i].channel, last.channel, x);
            assert false;
          }
        }
      }
      ReceiveClocked(Replay(n, last, now), c, last.out);
    }
  }

  lemma ReceiveClocked(net: Network, c: Channel, out: seq<ChannelJob>)
    requires Clocked(net) && c in net
    ensures Clocked(net[c := Receive(At(net, c), out)])
  {
  }

  lemma RunClocked(v: ChannelView, now: Time, out: seq<ChannelJob>)
    requires v.throttle >= 0.0 && (v.throttle == 0.0 ==> v.pauseUntil == 0.0)
    ensures var w := AfterRun(v, now, out); w.throttle == v.throttle && (w.throttle == 0.0 ==> w.pauseUntil == 0.0)
  {
  }

  /** After a drained call every channel upstream is quiet. */
  lemma {:induction false} QuietAfterDrain(net: Network, d: Drain, now: Time)
    requires Rooted(net.Keys) && DrainOk(net, d, now) && Clocked(net) && now > 0.0
    ensures Clocked(Replay(net, d, now)) && Replay(net, d, now).Keys == net.Keys
    ensures forall x <- net | d.channel in Line(x) :: Quiet(Replay(net, d, now)[x], now)
    decreases d, 1
  {
    var c := d.channel;
    QuietAfterKids(net, c, d.kids, now);
    KidsFrame(net, c, d.kids, now);
    hide AfterRun, RunsOk, Quiet, Line;
    var n := AfterKids(net, c, d.kids, now);
    QuietAfterRun(n[c], now, d.out);
    RunClocked(n[c], now, d.out);
    forall x <- net | c in Line(x) ensures Quiet(Replay(net, d, now)[x], now) {
      if x != c {
        var k := ChildToward(net.Keys, c, x);
        assert exists i :: 0 <= i < |d.kids| && d.kids[i].channel == k;
      }
    }
  }

  // ----- until the wakeup time ----------------------------------------------------------------

  /** Before the wakeup time; a wakeup time of 0 never comes. */
  predicate Before(t: Time, w: Time) {
    w == 0.0 || t < w
  }

  /** Nothing leaves the channel before `w`, as long as nothing is queued in it. */
  ghost predicate Blocked(v: ChannelView, w: Time) {
    || !v.HasCapacity()
    || (v.pauseUntil != 0.0 && v.throttle != 0.0 && w != 0.0 && w <= v.pauseUntil)
    || (v.pauseUntil == 0.0 && Poppable(v.sequential, v.waiting, None) &&
        forall t <- v.waiting.delayed.Values :: w != 0.0 && w <= t)
  }

  /** Every channel consulted for the wakeup time is blocked until then. */
  ghost predicate AllBlocked(net: Network, root: Channel, w: Time) {
    forall c <- net | Consulted(net, root, c) :: Blocked(net[c], w)
  }

  /** The wakeup time asked for after a drained call is in the future, and blocks the channels. */
  lemma WakeupBlocks(net: Network, root: Channel, now: Time, w: Time)
    requires Clocked(net) && now > 0.0
    requires forall c <- net | Consulted(net, root, c) :: Quiet(net[c], now)
    requires IsWakeup(w, Wakeups(net, root))
    ensures w == 0.0 || w > now
    ensures AllBlocked(net, root, w)
  {
    forall c <- net, t <- OwnWakeups(net[c]) | Consulted(net, root, c) ensures t > now {
      assert Quiet(net[c], now);
    }
    forall c <- net, t <- OwnWakeups(net[c]) | Consulted(net, root, c) ensures w != 0.0 && w <= t {
      assert t in Wakeups(net, root);
    }
    forall c <- net | Consulted(net, root, c) ensures Blocked(net[c], w) {
      assert Quiet(net[c], now);
      if net[c].HasCapacity() {
        if net[c].pauseUntil != 0.0 {
          assert net[c].pauseUntil in OwnWakeups(net[c]);
        } else {
          assert forall t <- net[c].waiting.delayed.Values :: t in OwnWakeups(net[c]);
        }
      }
    }
  }

  /** The consulted channels stay blocked, and open or closed as they were. */
  ghost predicate Calm(net: Network, n: Network, root: Channel, w: Time) {
    n.Keys == net.Keys &&
    forall c <- net | Consulted(net, root, c) :: Blocked(n[c], w) && Open(n[c]) == Open(net[c])
  }

  lemma CalmConsulted(net: Network, n: Network, root: Channel, w: Time, c: Channel)
    requires Calm(net, n, root, w) && c in net
    ensures Consulted(n, root, c) <==> Consulted(net, root, c)
    decreases c.depth
  {
    hide Open, Blocked;
    if c != root && c.parent != null && c.parent.depth < c.depth && c.parent in net {
      CalmConsulted(net, n, root, w, c.parent);
    }
  }

  lemma CalmBlocked(net: Network, n: Network, root: Channel, w: Time)
    requires Calm(net, n, root, w)
    ensures AllBlocked(n, root, w) && forall c <- net :: Consulted(n, root, c) <==> Consulted(net, root, c)
  {
    forall c <- net ensures Consulted(n, root, c) <==> Consulted(net, root, c) {
      CalmConsulted(net, n, root, w, c);
    }
  }

  lemma CalmTwice(a: Network, b: Network, c: Network, root: Channel, w: Time)
    requires Calm(a, b, root, w) && Calm(b, c, root, w)
    ensures Calm(a, c, root, w)
  {
    CalmBlocked(a, b, root, w);
    hide Consulted, Open, Blocked;
  }

  /** Queueing jobs in a blocked channel that is not open does not unblock it. */
  lemma ReceiveBlocked(v: ChannelView, w: Time, jobs: seq<ChannelJob>)
    requires Blocked(v, w) && (Open(v) ==> jobs == [])
    ensures Blocked(Receive(v, jobs), w) && Open(Receive(v, jobs)) == Open(v)
  {
    if jobs == [] {
      ReceivingNone(v);
    } else {
      StillFull(v, Receive(v, jobs).waiting);
    }
  }

  /** A blocked channel yields nothing before the wakeup time, and stays blocked. */
  lemma RunBlocked(v: ChannelView, t: Time, w: Time, out: seq<ChannelJob>)
    requires Blocked(v, w) && Before(t, w) && RunsOk(v, t, out)
    ensures out == [] && Blocked(AfterRun(v, t, out), w) && Open(AfterRun(v, t, out)) == Open(v)
  {
    if !Throttled(v, t) {
      var u := Unpause(v);
      if out != [] {
        FirstYield(u, t, out);
      }
      if v.HasCapacity() {
        assert u == v;
        NothingDue(v.waiting, t);
      }
    }
  }

  lemma NothingDue(p: Waiting, t: Time)
    requires forall x <- p.delayed.Values :: t < x
    ensures p.Promote(t) == p
  {
    assert forall j <- p.delayed :: p.delayed[j] in p.delayed.Values;
  }

  /** To yield at all a channel must have capacity and something to pop. */
  lemma {:induction false} FirstYield(u: ChannelView, t: Time, out: seq<ChannelJob>)
    requires MayYield(u, t, out) && out != []
    ensures u.HasCapacity() && Poppable(u.sequential, u.waiting.Promote(t), Some(out[0]))
    decreases |out|
  {
    if |out| > 1 {
      FirstYield(u, t, out[..|out| - 1]);
    }
  }

  /** A consulted channel's children are consulted if it is open. */
  lemma {:induction false} KidsCalm(net: Network, root: Channel, c: Channel, kids: seq<Drain>, t: Time, w: Time)
    requires Rooted(net.Keys) && c in net && KidsAt(net.Keys, c, kids) && KidsOk(net, c, kids, t)
    requires AllBlocked(net, root, w) && Before(t, w)
    ensures Calm(net, AfterKids(net, c, kids, t), root, w)
    decreases kids, 0
  {
    hide DrainOk, Replay, Receive, Blocked, Open, Before;
    if kids != [] {
      var front, last := kids[..|kids| - 1], kids[|kids| - 1];
      KidsCalm(net, root, c, front, t, w);
      KidsFrame(net, c, front, t);
      var n := AfterKids(net, c, front, t);
      CalmBlocked(net, n, root, w);
      DrainCalm(n, root, last, t, w);
      var m := Replay(n, last, t);
      CalmTwice(net, n, m, root, w);
      CalmBlocked(net, m, root, w);
      var r := m[c := Receive(At(m, c), last.out)];
      if Consulted(net, root, c) {
        ReceiveBlocked(m[c], w, last.out);
      }
      assert Calm(m, r, root, w);
      CalmTwice(net, m, r, root, w);
    }
  }

  /** A drained call before the wakeup time yields nothing in a consulted channel. */
  lemma {:induction false} DrainCalm(net: Network, root: Channel, d: Drain, t: Time, w: Time)
    requires Rooted(net.Keys) && DrainOk(net, d, t)
    requires AllBlocked(net, root, w) && Before(t, w)
    ensures Calm(net, Replay(net, d, t), root, w)
    ensures Consulted(net, root, d.channel) ==> d.out == []
    decreases d, 1
  {
    hide RunsOk, AfterRun, Blocked, Open, Before;
    var c := d.channel;
    KidsCalm(net, root, c, d.kids, t, w);
    KidsFrame(net, c, d.kids, t);
    var n := AfterKids(net, c, d.kids, t);
    CalmBlocked(net, n, root, w);
    if Consulted(net, root, c) {
      RunBlocked(n[c], t, w, d.out);
    }
    assert Calm(n, Replay(net, d, t), root, w);
    CalmTwice(net, n, Replay(net, d, t), root, w);
  }

  lemma ConsultedUpstream(net: Network, root: Channel, c: Channel)
    requires Consulted(net, root, c)
    ensures root in Line(c)
    decreases c.depth
  {
    LineDepth(c);
    if c != root {
      ConsultedUpstream(net, root, c.parent);
    }
  }

  /** Calls on the root, one after the other, with no notification in between. */
  ghost predicate DrainRun(ns: seq<Network>, ts: seq<Time>, ds: seq<Drain>, root: Channel) {
    && |ns| == |ds| + 1 && |ts| == |ds|
    && forall i | 0 <= i < |ds| ::
      ds[i].channel == root && DrainOk(ns[i], ds[i], ts[i]) && ns[i + 1] == Replay(ns[i], ds[i], ts[i])
  }

  lemma {:induction false} BlockedRun(ns: seq<Network>, ts: seq<Time>, ds: seq<Drain>, root: Channel, w: Time, i: nat)
    requires DrainRun(ns, ts, ds, root) && 1 <= i < |ns| && Rooted(ns[1].Keys) && AllBlocked(ns[1], root, w)
    requires forall k | 1 <= k < |ds| :: Before(ts[k], w)
    ensures Rooted(ns[i].Keys) && AllBlocked(ns[i], root, w)
  {
    if i > 1 {
      BlockedRun(ns, ts, ds, root, w, i - 1);
      hide AllBlocked, Replay, DrainOk;
      DrainCalm(ns[i - 1], root, ds[i - 1], ts[i - 1], w);
      CalmBlocked(ns[i - 1], ns[i], root, w);
    }
  }

  /** No missed and no perpetual wakeup. After a drained call at `ts[0]`, the wakeup time asked for
      is 0 or in the future; and as long as nothing is notified, no further call yields a job
      before it, or ever if it is 0. */
  lemma NoMissedWakeup(ns: seq<Network>, ts: seq<Time>, ds: seq<Drain>, root: Channel, w: Time)
    requires DrainRun(ns, ts, ds, root) && |ds| > 0
    requires Rooted(ns[0].Keys) && Clocked(ns[0]) && ts[0] > 0.0
    requires IsWakeup(w, Wakeups(ns[1], root))
    requires forall k | 1 <= k < |ds| :: Before(ts[k], w)
    ensures w == 0.0 || w > ts[0]
    ensures forall k | 1 <= k < |ds| :: ds[k].out == []
  {
    hide Replay, DrainOk, Quiet;
    QuietAfterDrain(ns[0], ds[0], ts[0]);
    forall c <- ns[1] | Consulted(ns[1], root, c) ensures Quiet(ns[1][c], ts[0]) {
      ConsultedUpstream(ns[1], root, c);
    }
    WakeupBlocks(ns[1], root, ts[0], w);
    forall k | 1 <= k < |ds| ensures ds[k].out == [] {
      BlockedRun(ns, ts, ds, root, w, k);
      DrainCalm(ns[k], root, ds[k], ts[k], w);
      RootConsulted(ns[k], root);
    }
  }

  lemma RootConsulted(net: Network, root: Channel)
    ensures Consulted(net, root, root)
  {
  }

  lemma MovedClocked(net: Network, j: ChannelJob, eta: Eta, state: Option<JobState>)
    requires Clocked(net) && j.channel in net
    ensures Clocked(Moved(net, j, eta, state))
  {
    hide Line, NotYetRunning;
  }

  lemma DroppedClocked(s: Sched, uuid: string)
    requires Clocked(s.net)
    ensures Clocked(Dropped(s, uuid).net) && Dropped(s, uuid).net.Keys == s.net.Keys
  {
  }

  /** Events other than a change of configuration keep the delays in order. */
  lemma ClockedStep(s: Sched, e: Event, s': Sched)
    requires Clocked(s.net) && Step(s, e, s') && !e.Configured? && Inv(s)
    requires e.Drained? ==> e.now > 0.0
    ensures Clocked(s'.net)
  {
    hide Moved, Dropped, DrainOk, Replay, Line, WellPlaced, JobsIn;
    match e
    case Grown(_) =>
    case Kept(uuid, eta, state) => MovedClocked(s.net, s.jobs[uuid], eta, state);
    case Rescheduled(j, eta, state) =>
      DroppedClocked(s, j.uuid);
      MovedClocked(Dropped(s, j.uuid).net, j, eta, state);
    case Removed(uuid) => DroppedClocked(s, uuid);
    case RemovedDb(_) =>
    case Forgotten(_) =>
    case Drained(now, log) => QuietAfterDrain(s.net, log, now);
  }
}
