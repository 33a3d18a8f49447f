/** What one drained call of `get_jobs_to_run` hands up, said without its loop
    (queue_job/jobrunner/channels.py, lines 335-349 and 525-583). */
module DrainOrder {
  import opened Channels
  import opened Options
  import opened Scheduler
  import opened Pipeline

  /** The job comes after the head of the eta queue. */
  ghost predicate Outranked(p: Waiting, j: ChannelJob) {
    exists h <- p.delayed :: p.EtaHead(h) && RankLess(h.rank, j.rank)
  }

  /** The jobs that may leave now: ready or past due and, in a sequential channel, not after
      the job with the earliest eta. */
  ghost function Eligible(v: ChannelView, now: Time): set<ChannelJob> {
    var p := v.waiting.Promote(now);
    set j <- p.ready | v.sequential ==> !Outranked(p, j)
  }

  function Min(a: int, b: int): int {
    if a <= b then a else b
  }

  function Unlimited(v: ChannelView): bool {
    v.capacity == None || v.capacity == Some(0)
  }

  /** How many of `n` eligible jobs leave: none when paused, blocked by a failed job or full; at
      most as many as there are free slots; at most one when throttled. */
  function Quota(v: ChannelView, n: nat): (q: int)
    ensures 0 <= q <= n
  {
    if !v.HasCapacity() then 0
    else
      var free := if Unlimited(v) then n else Min(n, v.capacity.value - |v.running|);
      if v.throttle != 0.0 then Min(free, 1) else free
  }

  /** The quota is the greatest number of jobs that neither exceeds what is eligible, nor the free slots, nor one in
      a throttled channel; and none may leave a channel exactly when it is paused, blocked or full. */
  lemma QuotaIs(v: ChannelView, n: nat, q: nat)
    ensures q <= Quota(v, n) <==>
      && q <= n
      && (v.throttle != 0.0 ==> q <= 1)
      && (q > 0 ==> !Barred(v))
      && (q > 0 && v.capacity.Some? && v.capacity.value != 0 ==> |v.running| + q <= v.capacity.value)
    ensures n > 0 ==> (Quota(v, n) == 0 <==> Barred(v))
  {
  }

  /** `out` lists, in rank order, a least part of the pool. */
  ghost predicate LeastOf(out: seq<ChannelJob>, pool: set<ChannelJob>) {
    && (forall i, j | 0 <= i < j < |out| :: out[i] != out[j] && !RankLess(out[j].rank, out[i].rank))
    && (forall j <- out :: j in pool)
    && (forall x <- pool, y <- out | x !in out :: !RankLess(x.rank, y.rank))
  }

  /** Waiting jobs do not run in the same channel. */
  ghost predicate Apart(v: ChannelView) {
    forall j <- v.running :: j !in v.waiting.ready && j !in v.waiting.delayed
  }

  // ----- the loop and its closed form ---------------------------------------------------------

  ghost function Elems(out: seq<ChannelJob>): set<ChannelJob> {
    set j <- out
  }

  lemma {:induction false} Counting(out: seq<ChannelJob>)
    requires forall i, j | 0 <= i < j < |out| :: out[i] != out[j]
    ensures |Elems(out)| == |out|
  {
    if out != [] {
      var front, last := out[..|out| - 1], out[|out| - 1];
      Counting(front);
      assert last !in front;
      assert Elems(out) == Elems(front) + {last};
    }
  }

  lemma SubsetSize<T>(a: set<T>, b: set<T>)
    requires a <= b
    ensures |a| <= |b| && (|a| == |b| ==> a == b)
  {
    assert b == a + (b - a);
  }

  lemma PromoteAgain(w: Waiting, now: Time)
    ensures w.Promote(now).Promote(now) == w.Promote(now)
    ensures forall gone: set<ChannelJob> ::
      var p := w.Promote(now); Waiting(p.ready - gone, p.delayed).Promote(now) == Waiting(p.ready - gone, p.delayed)
  {
    var p := w.Promote(now);
    forall gone: set<ChannelJob>
      ensures Waiting(p.ready - gone, p.delayed).Promote(now) == Waiting(p.ready - gone, p.delayed)
    {
      var q := Waiting(p.ready - gone, p.delayed);
      assert q.Due(now) == {};
      assert q.Promote(now).delayed == q.delayed;
    }
    assert p.ready - {} == p.ready;
  }

  lemma ElemsMore(front: seq<ChannelJob>, last: ChannelJob)
    ensures Elems(front + [last]) == Elems(front) + {last}
  {
  }

  /** What the queue looks like after some yields. */
  lemma {:induction false} YieldedViews(v: ChannelView, now: Time, out: seq<ChannelJob>)
    ensures var w := Yielded(v, now, out); var p := v.waiting.Promote(now);
      && w.waiting.Promote(now) == Waiting(p.ready - Elems(out), p.delayed)
      && w.running == v.running + Elems(out)
      && (out != [] ==> w.waiting == w.waiting.Promote(now))
    decreases |out|
  {
    var p := v.waiting.Promote(now);
    PromoteAgain(v.waiting, now);
    hide Waiting.Promote;
    if out != [] {
      var front, last := out[..|out| - 1], out[|out| - 1];
      YieldedViews(v, now, front);
      assert out == front + [last];
      ElemsMore(front, last);
      hide Elems;
      assert p.ready - Elems(front) - {last} == p.ready - Elems(out);
      assert Yielded(v, now, out).waiting == Waiting(p.ready - Elems(out), p.delayed);
    }
  }

  lemma FreeSlots(v: ChannelView, now: Time, out: seq<ChannelJob>)
    requires Apart(v) && LeastOf(out, Eligible(v, now))
    ensures |Yielded(v, now, out).running| == |v.running| + |out|
    ensures Yielded(v, now, out).HasCapacity() <==>
      v.HasCapacity() && (Unlimited(v) || |v.running| + |out| < v.capacity.value)
  {
    YieldedViews(v, now, out);
    Counting(out);
    assert v.running !! Elems(out);
  }

  lemma RankTransitive(a: Rank, b: Rank, c: Rank)
    ensures !RankLess(b, a) && !RankLess(c, b) ==> !RankLess(c, a)
    ensures RankLess(a, b) && !RankLess(c, b) ==> RankLess(a, c)
  {
  }

  lemma OneHeadRank(p: Waiting, q: Waiting, h: ChannelJob, k: ChannelJob)
    requires q.delayed == p.delayed && p.EtaHead(h) && q.EtaHead(k)
    ensures h.rank == k.rank && q.EtaHead(h) && p.EtaHead(k)
  {
  }

  lemma HeldThenOutranked(p: Waiting, q: Waiting)
    requires q.delayed == p.delayed && q.Held()
    ensures forall r <- q.ready :: Outranked(p, r)
  {
    var h :| h in q.delayed && q.EtaHead(h) && q.Outranks(h);
    hide Waiting.EtaHead;
    forall r <- q.ready ensures Outranked(p, r) {
      OneHeadSame(p, q, h);
    }
  }

  lemma OneHeadSame(p: Waiting, q: Waiting, h: ChannelJob)
    requires q.delayed == p.delayed
    ensures q.EtaHead(h) <==> p.EtaHead(h)
  {
  }

  lemma OutrankedThenHeld(p: Waiting, q: Waiting)
    requires q.delayed == p.delayed && q.ready != {} && forall r <- q.ready :: Outranked(p, r)
    ensures q.Held()
  {
    hide Waiting.EtaHead;
    var r0 :| r0 in q.ready;
    var h :| h in p.delayed && p.EtaHead(h) && RankLess(h.rank, r0.rank);
    forall r <- q.ready ensures RankLess(h.rank, r.rank) {
      var k :| k in p.delayed && p.EtaHead(k) && RankLess(k.rank, r.rank);
      OneHeadRank(p, p, h, k);
    }
    OneHeadSame(p, q, h);
    assert q.Outranks(h);
  }

  /** Being outranked is inherited by later ranks. */
  lemma OutrankedLater(p: Waiting, x: ChannelJob, y: ChannelJob)
    requires Outranked(p, x) && !RankLess(y.rank, x.rank)
    ensures Outranked(p, y)
  {
    hide Waiting.EtaHead;
    var h :| h in p.delayed && p.EtaHead(h) && RankLess(h.rank, x.rank);
    RankTransitive(h.rank, x.rank, y.rank);
  }

  /** What is left may be popped, or not, according to the eligible jobs left. */
  lemma PoppableIff(v: ChannelView, now: Time, out: seq<ChannelJob>, last: ChannelJob)
    requires LeastOf(out, Eligible(v, now))
    ensures Poppable(v.sequential, Yielded(v, now, out).waiting.Promote(now), Some(last)) <==>
      last in Eligible(v, now) && last !in out &&
      forall x <- Eligible(v, now) | x !in out :: !RankLess(x.rank, last.rank)
  {
    YieldedViews(v, now, out);
    var p, q := v.waiting.Promote(now), Yielded(v, now, out).waiting.Promote(now);
    hide Waiting.Promote, Yielded, Outranked, Waiting.Held, RankLess, LeastOf;
    if Poppable(v.sequential, q, Some(last)) {
      if v.sequential && Outranked(p, last) {
        forall r <- q.ready ensures Outranked(p, r) {
          OutrankedLater(p, last, r);
        }
        OutrankedThenHeld(p, q);
      }
    } else if last in Eligible(v, now) && last !in out {
      assert last in q.ready;
      if v.sequential && q.Held() {
        HeldThenOutranked(p, q);
      } else {
        var x :| x in q.ready && RankLess(x.rank, last.rank);
        if v.sequential && Outranked(p, x) {
          RankLessAsymmetric(x.rank, last.rank);
          OutrankedLater(p, x, last);
        }
      }
    }
  }

  lemma RankLessAsymmetric(a: Rank, b: Rank)
    requires RankLess(a, b)
    ensures !RankLess(b, a)
  {
  }

  /** Nothing can be popped just when no eligible job is left. */
  lemma ExhaustedIff(v: ChannelView, now: Time, out: seq<ChannelJob>)
    ensures Poppable(v.sequential, Yielded(v, now, out).waiting.Promote(now), None) <==> Eligible(v, now) <= Elems(out)
  {
    YieldedViews(v, now, out);
    var p, q := v.waiting.Promote(now), Yielded(v, now, out).waiting.Promote(now);
    hide Waiting.Promote, Yielded, Outranked, Waiting.Held;
    var e := Eligible(v, now);
    if e <= Elems(out) {
      forall r <- q.ready ensures v.sequential && Outranked(p, r) {
        assert r !in e;
      }
      if q.ready != {} {
        OutrankedThenHeld(p, q);
      }
    } else {
      var x :| x in e && x !in Elems(out);
      assert x in q.ready;
      if v.sequential && q.Held() {
        HeldThenOutranked(p, q);
      }
    }
  }

  /** One more job may leave just when the longer list is least-first within the quota. */
  lemma OneMore(v: ChannelView, now: Time, front: seq<ChannelJob>, last: ChannelJob)
    requires Apart(v) && LeastOf(front, Eligible(v, now))
    ensures LeastOf(front + [last], Eligible(v, now)) <==>
      last in Eligible(v, now) && last !in front &&
      forall x <- Eligible(v, now) | x !in front :: !RankLess(x.rank, last.rank)
  {
    var e, out := Eligible(v, now), front + [last];
    hide Eligible, RankLess;
    if LeastOf(out, e) {
      assert last == out[|front|] && last in out;
      forall i | 0 <= i < |front| ensures out[i] == front[i] && front[i] != last {
      }
      forall x <- e | x !in front ensures !RankLess(x.rank, last.rank) {
        if x == last {
          NotLessThanItself(x.rank);
        }
      }
    }
    if last in e && last !in front && forall x <- e | x !in front :: !RankLess(x.rank, last.rank) {
      forall i, j | 0 <= i < j < |out| ensures out[i] != out[j] && !RankLess(out[j].rank, out[i].rank) {
      }
      forall x <- e, y <- out | x !in out ensures !RankLess(x.rank, y.rank) {
      }
    }
  }

  lemma NotLessThanItself(a: Rank)
    ensures !RankLess(a, a)
  {
  }

  lemma FrontIsLeast(out: seq<ChannelJob>, e: set<ChannelJob>)
    requires LeastOf(out, e) && out != []
    ensures LeastOf(out[..|out| - 1], e)
  {
    var front, last := out[..|out| - 1], out[|out| - 1];
    assert out == front + [last];
    hide RankLess;
    forall x <- e, y <- front | x !in front ensures !RankLess(x.rank, y.rank) {
      if x == last {
        var i :| 0 <= i < |front| && front[i] == y;
        assert out[i] == y && out[|out| - 1] == x;
      }
    }
  }

  /** One more job may leave after some. */
  ghost predicate MayFollow(v: ChannelView, now: Time, front: seq<ChannelJob>, last: ChannelJob) {
    var w := Yielded(v, now, front);
    && w.HasCapacity() && (v.throttle != 0.0 ==> front == [])
    && Poppable(w.sequential, w.waiting.Promote(now), Some(last))
  }

  lemma LeastMore(v: ChannelView, now: Time, front: seq<ChannelJob>, last: ChannelJob)
    requires Apart(v)
    ensures var e, out := Eligible(v, now), front + [last];
      LeastOf(out, e) && |out| <= Quota(v, |e|) <==>
        LeastOf(front, e) && |front| <= Quota(v, |e|) && MayFollow(v, now, front, last)
  {
    hide Eligible, Poppable, Yielded, ChannelView.HasCapacity, Waiting.Promote;
    var e, out := Eligible(v, now), front + [last];
    assert out[..|out| - 1] == front;
    if LeastOf(out, e) {
      FrontIsLeast(out, e);
      WithinQuota(out, e);
    }
    if LeastOf(front, e) {
      FreeSlots(v, now, front);
      PoppableIff(v, now, front, last);
      OneMore(v, now, front, last);
    }
    hide LeastOf;
  }

  /** The loop may yield a list of jobs just when it is a least part of the eligible ones, in
      order, and no longer than the quota. */
  lemma {:induction false} MayYieldIff(v: ChannelView, now: Time, out: seq<ChannelJob>)
    requires Apart(v)
    ensures MayYield(v, now, out) <==>
      LeastOf(out, Eligible(v, now)) && |out| <= Quota(v, |Eligible(v, now)|)
    decreases |out|
  {
    if out == [] {
      hide Eligible, Poppable, Yielded;
      assert LeastOf([], Eligible(v, now));
    } else {
      var front, last := out[..|out| - 1], out[|out| - 1];
      assert out == front + [last];
      MayYieldIff(v, now, front);
      hide Eligible, Poppable, Yielded, ChannelView.HasCapacity, Waiting.Promote, LeastOf, Quota;
      LeastMore(v, now, front, last);
      assert MayYield(v, now, out) <==> MayYield(v, now, front) && MayFollow(v, now, front, last);
    }
  }

  lemma WithinQuota(out: seq<ChannelJob>, e: set<ChannelJob>)
    requires LeastOf(out, e)
    ensures |out| <= |e|
  {
    Counting(out);
    SubsetSize(Elems(out), e);
  }

  lemma AllTakenIff(out: seq<ChannelJob>, e: set<ChannelJob>)
    requires LeastOf(out, e)
    ensures |out| <= |e| && (e <= Elems(out) <==> |out| == |e|)
  {
    Counting(out);
    SubsetSize(Elems(out), e);
    if e <= Elems(out) {
      assert e == Elems(out);
    }
  }

  /** The loop stops just when the quota is used up. */
  lemma StopsIff(v: ChannelView, now: Time, out: seq<ChannelJob>)
    requires Apart(v) && LeastOf(out, Eligible(v, now)) && |out| <= Quota(v, |Eligible(v, now)|)
    ensures Stops(Yielded(v, now, out), now, out != []) <==> |out| == Quota(v, |Eligible(v, now)|)
  {
    hide Eligible, Poppable, Yielded, Waiting.Promote, LeastOf, ChannelView.HasCapacity;
    FreeSlots(v, now, out);
    ExhaustedIff(v, now, out);
    AllTakenIff(out, Eligible(v, now));
    Quotas(v, |Eligible(v, now)|);
  }

  /** Something may leave a channel with capacity, as long as something is eligible. */
  lemma Quotas(v: ChannelView, n: nat)
    ensures v.HasCapacity() && n > 0 ==> Quota(v, n) > 0
  {
  }

  /** One call of `get_jobs_to_run` on a channel, the children having had their turn: outside a
      throttle delay it yields a least-first list of the eligible jobs, exactly as long as the
      quota allows. */
  ghost predicate HandsUp(v: ChannelView, now: Time, out: seq<ChannelJob>) {
    if Throttled(v, now) then out == []
    else
      var e := Eligible(v, now);
      LeastOf(out, e) && |out| == Quota(v, |e|)
  }

  /** Ready, or past due. */
  ghost function Available(v: ChannelView, now: Time): set<ChannelJob> {
    v.waiting.ready + set j <- v.waiting.delayed | v.waiting.delayed[j] <= now
  }

  /** The list that is handed up: available jobs in the order of priority, date and sequence, none of which comes
      after an available job that stays. */
  ghost predicate InOrder(v: ChannelView, now: Time, out: seq<ChannelJob>) {
    && (forall i | 0 <= i < |out| :: out[i] in Available(v, now))
    && (forall i, j | 0 <= i < j < |out| :: out[i] != out[j] && NoLater(out[i].rank, out[j].rank))
    && (forall x <- Available(v, now), i | x !in out && 0 <= i < |out| :: NoLater(out[i].rank, x.rank))
  }

  lemma HandsUpInOrder(v: ChannelView, now: Time, out: seq<ChannelJob>)
    requires HandsUp(v, now, out)
    ensures InOrder(v, now, out)
    ensures !v.sequential && !Throttled(v, now) ==> |out| == Quota(v, |Available(v, now)|)
  {
    forall a: Rank, b: Rank ensures NoLater(a, b) <==> !RankLess(b, a) {
      NoLaterIff(a, b);
    }
    if !Throttled(v, now) {
      var p := v.waiting.Promote(now);
      assert p.ready == Available(v, now);
      assert !v.sequential ==> Eligible(v, now) == p.ready;
      hide RankLess, NoLater, Waiting.Promote, Outranked, Available, Quota;
      forall x <- p.ready, i | x !in out && 0 <= i < |out| ensures !RankLess(x.rank, out[i].rank) {
        assert out[i] in out;
        if v.sequential && Outranked(p, x) && RankLess(x.rank, out[i].rank) {
          RankLessAsymmetric(x.rank, out[i].rank);
          OutrankedLater(p, x, out[i]);
          assert false;
        }
      }
    }
  }

  lemma RunsIff(v: ChannelView, now: Time, out: seq<ChannelJob>)
    requires Apart(v)
    ensures RunsOk(v, now, out) <==> HandsUp(v, now, out)
  {
    if !Throttled(v, now) {
      var u := Unpause(v);
      assert Eligible(u, now) == Eligible(v, now) && Quota(u, |Eligible(v, now)|) == Quota(v, |Eligible(v, now)|);
      assert LeastOf([], Eligible(u, now));
      MayYieldIff(u, now, out);
      if LeastOf(out, Eligible(u, now)) && |out| <= Quota(u, |Eligible(u, now)|) {
        StopsIff(u, now, out);
      }
    }
  }

  /** What the channel is left with, said without the loop. */
  ghost function Left(v: ChannelView, now: Time, out: seq<ChannelJob>): ChannelView {
    if Throttled(v, now) then v
    else
      var p := v.waiting.Promote(now);
      Unpause(v).(
        waiting := if v.HasCapacity() then Waiting(p.ready - Elems(out), p.delayed) else v.waiting,
        running := v.running + Elems(out),
        pauseUntil := if v.throttle != 0.0 && out != [] then now + v.throttle else Unpause(v).pauseUntil)
  }

  lemma LeftIs(v: ChannelView, now: Time, out: seq<ChannelJob>)
    requires Apart(v) && HandsUp(v, now, out)
    ensures AfterRun(v, now, out) == Left(v, now, out)
  {
    if !Throttled(v, now) {
      var u := Unpause(v);
      YieldedViews(u, now, out);
      var w := Yielded(u, now, out);
      assert u.HasCapacity() == v.HasCapacity() && u.waiting == v.waiting;
      if out != [] {
        assert v.HasCapacity();
      }
    }
  }

  // ----- the whole tree -----------------------------------------------------------------------

  /** The part of the pipeline invariant that speaks of the channels. */
  ghost predicate NetInv(net: Network) {
    Rooted(net.Keys) && forall j <- JobsIn(net) :: j.channel in net && WellPlaced(net, j)
  }

  /** Every channel upstream, and this one, hands up a least-first list of quota length. */
  ghost predicate AllHandUp(net: Network, d: Drain, now: Time)
    decreases d, 1
  {
    && d.channel in net && Enumerates(net.Keys, d.channel, d.kids)
    && KidsHandUp(net, d.channel, d.kids, now)
    && HandsUp(Fed(net, d), now, d.out)
  }

  ghost predicate KidsHandUp(net: Network, c: Channel, kids: seq<Drain>, now: Time)
    decreases kids, 0
  {
    kids == [] ||
    var front := kids[..|kids| - 1];
    KidsHandUp(net, c, front, now) && AllHandUp(AfterKids(net, c, front, now), kids[|kids| - 1], now)
  }

  lemma ApartIn(net: Network, c: Channel)
    requires NetInv(net) && c in net
    ensures Apart(net[c])
  {
    forall j <- net[c].running ensures j !in net[c].waiting.ready && j !in net[c].waiting.delayed {
      assert j in JobsAt(net[c]);
      assert j in JobsIn(net);
      var pos :| Settled(j, pos) && Sits(net, j, pos);
      assert IsAt(net[c], j, PlaceOf(j, pos, c));
    }
  }

  lemma KidsNetInv(net: Network, c: Channel, kids: seq<Drain>, now: Time)
    requires NetInv(net) && c in net && KidsAt(net.Keys, c, kids) && KidsOk(net, c, kids, now)
    ensures NetInv(AfterKids(net, c, kids, now)) && AfterKids(net, c, kids, now).Keys == net.Keys
  {
    hide AfterKids, KidsOk, WellPlaced, JobsIn;
    KidsFrame(net, c, kids, now);
    var n := AfterKids(net, c, kids, now);
    forall j <- JobsIn(n) ensures j.channel in n && WellPlaced(n, j) {
      if j !in JobsIn(net) {
        KidsAbsent(net, c, kids, now, j);
      }
      KidsPlaces(net, c, kids, now, j);
    }
  }

  /** The recorded calls are what the loops may do exactly when every channel hands up a
      least-first list of quota length. */
  lemma {:induction false} DrainIff(net: Network, d: Drain, now: Time)
    requires NetInv(net)
    ensures DrainOk(net, d, now) <==> AllHandUp(net, d, now)
    decreases d, 1
  {
    hide NetInv, RunsOk, HandsUp;
    if d.channel in net && Enumerates(net.Keys, d.channel, d.kids) {
      KidsIff(net, d.channel, d.kids, now);
      if KidsOk(net, d.channel, d.kids, now) {
        KidsNetInv(net, d.channel, d.kids, now);
        RootedOf(net);
        KidsFrame(net, d.channel, d.kids, now);
        ApartIn(AfterKids(net, d.channel, d.kids, now), d.channel);
        RunsIff(Fed(net, d), now, d.out);
      }
    }
  }

  lemma RootedOf(net: Network)
    requires NetInv(net)
    ensures Rooted(net.Keys)
  {
  }

  lemma {:induction false} KidsIff(net: Network, c: Channel, kids: seq<Drain>, now: Time)
    requires NetInv(net) && c in net && KidsAt(net.Keys, c, kids)
    ensures KidsOk(net, c, kids, now) <==> KidsHandUp(net, c, kids, now)
    decreases kids, 0
  {
    hide NetInv, DrainOk, AllHandUp;
    if kids != [] {
      var front, last := kids[..|kids| - 1], kids[|kids| - 1];
      KidsIff(net, c, front, now);
      if KidsOk(net, c, front, now) {
        KidsNetInv(net, c, front, now);
        DrainIff(AfterKids(net, c, front, now), last, now);
      }
    }
  }

  /** A drained call on the root, in any reachable state: what is handed to the runner, and what
      the root is left with. */
  lemma RootHandsUp(s: Sched, now: Time, log: Drain)
    requires Inv(s) && DrainOk(s.net, log, now)
    ensures HandsUp(Fed(s.net, log), now, log.out)
    ensures InOrder(Fed(s.net, log), now, log.out)
    ensures Barred(Fed(s.net, log)) ==> log.out == []
    ensures Replay(s.net, log, now)[log.channel] == Left(Fed(s.net, log), now, log.out)
  {
    assert NetInv(s.net);
    KidsNetInv(s.net, log.channel, log.kids, now);
    KidsFrame(s.net, log.channel, log.kids, now);
    ApartIn(AfterKids(s.net, log.channel, log.kids, now), log.channel);
    RunsIff(Fed(s.net, log), now, log.out);
    HandsUpInOrder(Fed(s.net, log), now, log.out);
    QuotaIs(Fed(s.net, log), |Eligible(Fed(s.net, log), now)|, |log.out|);
    LeftIs(Fed(s.net, log), now, log.out);
  }
}
