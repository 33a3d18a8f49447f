/** Channels: queues of jobs with delayed starts, and a tree of channels with limited capacity that jobs
    go down, from the channel they were made for to the root (queue_job/jobrunner/channels.py, lines 51-603). */
module Channels {
  import opened HeapQ
  import opened Options

  /** Seconds since the epoch. */
  type Time = real

  /** An absent eta, or one that counts: an eta of 0 would be read as none (`if job.eta`) and then
      fail to compare with an absent one. */
  type Eta = e: Option<Time> | e != Some(0.0) witness None

  /** The part of a sorting key that never changes (`sorting_key_ignoring_eta`). */
  datatype Rank = Rank(priority: int, dateCreated: int, sequence: int)

  /** A whole sorting key; `eta` comes first in the comparison. */
  datatype Key = Key(eta: Eta, rank: Rank)

  predicate RankLess(a: Rank, b: Rank) {
    a.priority < b.priority ||
    (a.priority == b.priority &&
      (a.dateCreated < b.dateCreated || (a.dateCreated == b.dateCreated && a.sequence < b.sequence)))
  }

  /** The tuple that is compared. */
  function Triple(r: Rank): seq<int> {
    [r.priority, r.dateCreated, r.sequence]
  }

  /** Tuples are compared where they first differ. */
  ghost predicate Lexicographic(a: seq<int>, b: seq<int>)
    requires |a| == |b|
  {
    exists k | 0 <= k < |a| :: a[..k] == b[..k] && a[k] < b[k]
  }

  lemma RankLessIff(a: Rank, b: Rank)
    ensures RankLess(a, b) <==> Lexicographic(Triple(a), Triple(b))
  {
    var s, t := Triple(a), Triple(b);
    if RankLess(a, b) {
      var k := if s[0] < t[0] then 0 else if s[1] < t[1] then 1 else 2;
      assert s[..k] == t[..k] && s[k] < t[k];
    }
    if k :| 0 <= k < |s| && s[..k] == t[..k] && s[k] < t[k] {
      forall i | 0 <= i < k ensures s[i] == t[i] {
        assert s[i] == s[..k][i] && t[i] == t[..k][i];
      }
      assert a.priority == s[0] && b.priority == t[0] && a.dateCreated == s[1] && b.dateCreated == t[1];
      assert a.sequence == s[2] && b.sequence == t[2];
    }
  }

  /** Smaller priorities come first, then earlier jobs, then smaller sequences. */
  predicate NoLater(a: Rank, b: Rank) {
    && a.priority <= b.priority
    && (a.priority == b.priority ==> a.dateCreated <= b.dateCreated)
    && (a.priority == b.priority && a.dateCreated == b.dateCreated ==> a.sequence <= b.sequence)
  }

  lemma NoLaterIff(a: Rank, b: Rank)
    ensures NoLater(a, b) <==> !RankLess(b, a)
  {
  }

  /** Keys with an eta cannot be compared with keys without (a TypeError in the program). */
  predicate Comparable(a: Key, b: Key) {
    a.eta.Some? <==> b.eta.Some?
  }

  predicate KeyLess(a: Key, b: Key)
    requires Comparable(a, b)
  {
    if a.eta.Some? then a.eta.value < b.eta.value || (a.eta.value == b.eta.value && RankLess(a.rank, b.rank))
    else RankLess(a.rank, b.rank)
  }

  /** A job as the channels see it. Equality is identity; only `eta` is ever rewritten. */
  class ChannelJob {
    const dbName: string
    const channel: Channel
    const uuid: string
    const rank: Rank
    var eta: Eta

    constructor (dbName: string, channel: Channel, uuid: string, rank: Rank, eta: Eta)
      ensures this.dbName == dbName && this.channel == channel && this.uuid == uuid
      ensures this.rank == rank && this.eta == eta
    {
      this.dbName, this.channel, this.uuid, this.rank, this.eta := dbName, channel, uuid, rank, eta;
    }

    function SortingKey(): Key
      reads this
    {
      Key(eta, rank)
    }

    method SetNoEta()
      modifies this
      ensures eta == None
    {
      eta := None;
    }
  }

  /** The keys of some jobs at this moment. */
  function KeysOf(s: set<ChannelJob>): map<ChannelJob, Key>
    reads s
  {
    map j | j in s :: j.SortingKey()
  }

  /** `a` may come before `b`. */
  predicate KeyLe(a: Key, b: Key) {
    Comparable(a, b) && !KeyLess(b, a)
  }

  predicate NotAfterUnder(keys: map<ChannelJob, Key>, a: ChannelJob, b: ChannelJob) {
    a in keys && b in keys && KeyLe(keys[a], keys[b])
  }

  /** The order a heap is sorted by when its jobs have the given keys. */
  function Order(keys: map<ChannelJob, Key>): (ChannelJob, ChannelJob) -> bool {
    (a: ChannelJob, b: ChannelJob) => NotAfterUnder(keys, a, b)
  }

  /** All jobs have an eta, or none has: they can be sorted at all. */
  ghost predicate Uniform(s: set<ChannelJob>)
    reads s
  {
    forall a, b | a in s && b in s :: Comparable(a.SortingKey(), b.SortingKey())
  }

  /** `a` may be popped before `b`. */
  predicate NotAfter(a: ChannelJob, b: ChannelJob)
    reads a, b
  {
    KeyLe(a.SortingKey(), b.SortingKey())
  }

  lemma KeyLeTransitive(a: Key, b: Key, c: Key)
    requires KeyLe(a, b) && KeyLe(b, c)
    ensures KeyLe(a, c)
  {
  }

  lemma OrderIsTotalPreorder(s: set<ChannelJob>)
    requires Uniform(s)
    ensures Total(s, Order(KeysOf(s))) && Transitive(s, Order(KeysOf(s)))
  {
    var keys := KeysOf(s);
    var le := Order(keys);
    forall a, b | a in s && b in s ensures le(a, b) || le(b, a) {
      assert Comparable(a.SortingKey(), b.SortingKey());
      assert NotAfterUnder(keys, a, b) || NotAfterUnder(keys, b, a);
    }
    forall a, b, c | a in s && b in s && c in s && le(a, b) && le(b, c) ensures le(a, c) {
      assert NotAfterUnder(keys, a, b) && NotAfterUnder(keys, b, c);
      KeyLeTransitive(keys[a], keys[b], keys[c]);
      assert NotAfterUnder(keys, a, c);
    }
  }

  /** Sifting only looks at the jobs of the heap: keys of further jobs do not matter. */
  lemma HeapUnder(h: seq<ChannelJob>, k1: map<ChannelJob, Key>, k2: map<ChannelJob, Key>)
    requires IsHeap(h, Order(k1))
    requires forall i | 0 <= i < |h| :: h[i] in k1 && h[i] in k2 && k1[h[i]] == k2[h[i]]
    ensures IsHeap(h, Order(k2))
  {
    forall k | 0 < k < |h| ensures Order(k2)(h[Up(k)], h[k]) {
      assert Order(k1)(h[Up(k)], h[k]);
    }
  }

  lemma TakeOut(s: set<ChannelJob>, o: ChannelJob)
    requires o in s
    ensures multiset(s) == multiset(s - {o}) + multiset{o}
  {
  }

  lemma MembersOf(h: seq<ChannelJob>, s: set<ChannelJob>)
    requires multiset(h) == multiset(s)
    ensures Over(h, s) && |h| == |s|
    ensures forall o <- s :: o in h
  {
    forall i | 0 <= i < |h| ensures h[i] in s {
      assert h[i] in multiset(h);
    }
    forall o <- s ensures o in h {
      assert o in multiset(h);
    }
    assert |multiset(h)| == |h|;
  }

  lemma RootTaken(h: seq<ChannelJob>, s: set<ChannelJob>, o: ChannelJob, r: seq<ChannelJob>)
    requires multiset(h) == multiset(s) && o in s
    requires multiset(h) == multiset(r) + multiset{o} && IsHeap(r, Order(KeysOf(s)))
    ensures multiset(r) == multiset(s - {o}) && IsHeap(r, Order(KeysOf(s - {o}))) && |r| == |h| - 1
  {
    TakeOut(s, o);
    assert multiset(r) == multiset(h) - multiset{o} == multiset(s - {o});
    MembersOf(h, s);
    MembersOf(r, s - {o});
    HeapUnder(r, KeysOf(s), KeysOf(s - {o}));
  }

  /** What `Push` needs to know of a heap to which a job is added. */
  lemma OneMoreMember(h: seq<ChannelJob>, s: set<ChannelJob>, o: ChannelJob)
    requires multiset(h) == multiset(s) && IsHeap(h, Order(KeysOf(s))) && o !in s && Uniform(s + {o})
    ensures var t := s + {o};
      && Over(h, t) && multiset(t) == multiset(h) + multiset{o} && IsHeap(h, Order(KeysOf(t)))
      && Total(t, Order(KeysOf(t))) && Transitive(t, Order(KeysOf(t)))
  {
    MembersOf(h, s);
    TakeOut(s + {o}, o);
    assert s + {o} - {o} == s;
    OrderIsTotalPreorder(s + {o});
    HeapUnder(h, KeysOf(s), KeysOf(s + {o}));
  }

  /** A priority queue with lazy deletion: removed jobs stay in the heap as tombstones. */
  class PriorityQueue {
    var heap: seq<ChannelJob>
    var known: set<ChannelJob>    // everything in the heap, tombstones included
    var removed: set<ChannelJob>  // the tombstones

    /** The heap holds every known job once, in heap order under the jobs' present keys. */
    ghost predicate Sorted()
      reads this, known
    {
      && multiset(heap) == multiset(known)
      && Uniform(known)
      && IsHeap(heap, Order(KeysOf(known)))
    }

    ghost predicate Valid()
      reads this, known
    {
      Sorted() && removed <= known
    }

    /** The jobs a user of the queue sees. */
    ghost function Live(): set<ChannelJob>
      reads this
    {
      known - removed
    }

    constructor ()
      ensures Valid() && known == {} && Live() == {}
    {
      heap, known, removed := [], {}, {};
    }

    method Length() returns (n: int)
      requires Valid()
      ensures n == |Live()|
    {
      n := |known| - |removed|;
    }

    predicate Contains(o: ChannelJob)
      reads this
    {
      o in known && o !in removed
    }

    lemma RootFirst()
      requires Sorted()
      ensures heap == [] <==> known == {}
      ensures heap != [] ==> heap[0] in known && forall x <- known :: NotAfter(heap[0], x)
    {
      MembersOf(heap, known);
      if heap != [] {
        OrderIsTotalPreorder(known);
        var keys := KeysOf(known);
        forall x <- known ensures NotAfter(heap[0], x) {
          var i :| 0 <= i < |heap| && heap[i] == x;
          RootIsLeast(heap, Order(keys), known, i);
          assert NotAfterUnder(keys, heap[0], x);
        }
      }
    }

    /** `heappop` on the heap, followed by `_known.remove`. */
    method TakeRoot() returns (o: ChannelJob)
      requires Sorted() && heap != []
      modifies this`heap, this`known
      ensures Sorted() && o == old(heap[0]) && known == old(known) - {o} && |heap| == old(|heap|) - 1
    {
      MembersOf(heap, known);
      OrderIsTotalPreorder(known);
      var r;
      o, r := Pop(heap, Order(KeysOf(known)), known);
      RootTaken(heap, known, o, r);
      heap, known := r, known - {o};
    }

    /** `_removed.remove` and `_known.remove` for a popped tombstone. */
    method DropTombstone()
      requires Valid() && heap != [] && heap[0] in removed
      modifies this
      ensures Valid() && Live() == old(Live()) && known <= old(known) && |heap| < old(|heap|)
    {
      MembersOf(heap, known);
      var o := TakeRoot();
      removed := removed - {o};
    }

    /** `queue[0]`: the first job that is no tombstone, or an IndexError. Tombstones met
        on the way are dropped for good. */
    method Peek() returns (r: Option<ChannelJob>)
      requires Valid()
      modifies this
      ensures Valid() && Live() == old(Live()) && known <= old(known)
      ensures r.None? <==> Live() == {}
      ensures r.Some? ==> r.value in Live() && forall x <- Live() :: NotAfter(r.value, x)
    {
      while heap != []
        invariant Valid() && Live() == old(Live()) && known <= old(known)
        decreases |heap|
      {
        RootFirst();
        if heap[0] in removed {
          DropTombstone();
        } else {
          assert heap[0] in Live();
          return Some(heap[0]);
        }
      }
      RootFirst();
      return None;
    }

    /** Adding a job already in the queue does nothing; adding a tombstone revives it. */
    method Add(o: ChannelJob)
      requires Valid() && Uniform(known + {o})
      modifies this
      ensures Valid() && Live() == old(Live()) + {o} && known == old(known) + {o}
    {
      removed := removed - {o};
      if o in known {
        assert known + {o} == known;
        return;
      }
      Insert(o);
    }

    /** `_known.add`, then `heappush` on the heap. */
    method Insert(o: ChannelJob)
      requires Sorted() && o !in known && Uniform(known + {o})
      modifies this`heap, this`known
      ensures Sorted() && known == old(known) + {o}
    {
      ghost var before := known;
      known := known + {o};
      OneMoreMember(heap, before, o);
      heap := Push(heap, o, Order(KeysOf(known)), known);
    }

    method Remove(o: ChannelJob)
      requires Valid()
      modifies this`removed
      ensures Valid() && Live() == old(Live()) - {o}
    {
      if o !in known {
        return;
      }
      removed := removed + {o};
    }

    method TakeNext() returns (o: ChannelJob, tombstone: bool)
      requires Valid() && heap != []
      modifies this
      ensures Valid() && tombstone == (o in old(removed)) && o in old(known)
      ensures known == old(known) - {o} && Live() == old(Live()) - {o} && |heap| < old(|heap|)
      ensures forall x <- old(known) :: NotAfter(o, x)
    {
      RootFirst();
      o := TakeRoot();
      tombstone := o in removed;
      if tombstone {
        removed := removed - {o};
      }
    }

    /** `pop`: the popped job leaves the heap itself, so its key may be rewritten afterwards. */
    method PopFirst() returns (r: Option<ChannelJob>)
      requires Valid()
      modifies this
      ensures Valid() && known <= old(known)
      ensures r.None? ==> old(Live()) == {} && Live() == {}
      ensures r.Some? ==>
        && r.value in old(Live()) && r.value !in known
        && Live() == old(Live()) - {r.value}
        && forall x <- old(Live()) :: NotAfter(r.value, x)
    {
      hide PriorityQueue.Sorted;
      while heap != []
        invariant Valid() && Live() == old(Live()) && known <= old(known)
        decreases |heap|
      {
        var o, tombstone := TakeNext();
        if !tombstone {
          return Some(o);
        }
      }
      RootFirst();
      return None;
    }
  }

  // ----- channel queues ---------------------------------------------------------------------

  /** What waits in a channel queue: jobs ready to compete, and jobs set aside until their eta. */
  datatype Waiting = Waiting(ready: set<ChannelJob>, delayed: map<ChannelJob, Time>)
  {
    /** The queue once every job whose eta is past due has joined the ready ones. */
    function Promote(now: Time): Waiting {
      Waiting(ready + Due(now), map j | j in delayed && delayed[j] > now :: delayed[j])
    }

    function Due(now: Time): set<ChannelJob> {
      set j | j in delayed && delayed[j] <= now
    }

    ghost predicate Earliest(h: ChannelJob) {
      h in delayed && forall x <- delayed :: delayed[h] <= delayed[x]
    }

    /** `h` is at the head of the eta queue: earliest eta, then rank. */
    ghost predicate EtaHead(h: ChannelJob) {
      h in delayed &&
      forall x <- delayed :: delayed[h] < delayed[x] || (delayed[h] == delayed[x] && !RankLess(x.rank, h.rank))
    }

    /** A sequential queue waits for its next eta job when that one outranks every ready job.
        Only the head of the eta queue is looked at. */
    ghost predicate Held() {
      exists h <- delayed :: EtaHead(h) && Outranks(h)
    }

    ghost predicate Outranks(h: ChannelJob) {
      ready != {} && forall r <- ready :: RankLess(h.rank, r.rank)
    }

    /** A job with the earliest eta comes strictly before every ready job. */
    ghost predicate WaitsForEta() {
      exists h <- delayed ::
        && (forall x <- delayed :: delayed[h] <= delayed[x])
        && (forall r <- ready :: NoLater(h.rank, r.rank) && !NoLater(r.rank, h.rank))
    }

    predicate Contains(j: ChannelJob) {
      j in ready || j in delayed
    }

    function Without(j: ChannelJob): Waiting {
      Waiting(ready - {j}, delayed - {j})
    }
  }

  ghost predicate FirstIn(j: ChannelJob, s: set<ChannelJob>) {
    j in s && forall x <- s :: !RankLess(x.rank, j.rank)
  }

  /** What a `pop` at time `now` may answer, the jobs past due having been promoted. */
  ghost predicate Poppable(sequential: bool, p: Waiting, r: Option<ChannelJob>) {
    if p.ready == {} || (sequential && p.Held()) then r == None
    else r.Some? && FirstIn(r.value, p.ready)
  }

  function AfterPop(p: Waiting, r: Option<ChannelJob>): Waiting {
    if r.Some? then p.(ready := p.ready - {r.value}) else p
  }

  class ChannelQueue {
    const queue: PriorityQueue
    const etaQueue: PriorityQueue
    var sequential: bool

    ghost predicate Valid()
      reads this, queue, etaQueue, queue.known, etaQueue.known
    {
      && queue != etaQueue && queue.Valid() && etaQueue.Valid()
      && (forall j <- queue.known :: j.eta == None)
      && (forall j <- etaQueue.known :: j.eta.Some?)
    }

    ghost function View(): Waiting
      requires Valid()
      reads this, queue, etaQueue, queue.known, etaQueue.known
    {
      Waiting(queue.Live(), map j | j in etaQueue.Live() :: j.eta.value)
    }

    constructor (sequential: bool)
      ensures Valid() && View() == Waiting({}, map[]) && this.sequential == sequential
      ensures fresh(queue) && fresh(etaQueue) && queue.known == {} && etaQueue.known == {}
    {
      queue := new PriorityQueue();
      etaQueue := new PriorityQueue();
      this.sequential := sequential;
    }

    predicate Contains(o: ChannelJob)
      reads queue, etaQueue
    {
      etaQueue.Contains(o) || queue.Contains(o)
    }

    method Add(job: ChannelJob)
      requires Valid()
      modifies queue, etaQueue
      ensures Valid()
      ensures View() == if job.eta.Some?
        then old(View()).(delayed := old(View()).delayed[job := job.eta.value])
        else old(View()).(ready := old(View()).ready + {job})
      ensures queue.known <= old(queue.known) + {job}
      ensures etaQueue.known <= old(etaQueue.known) + (if job.eta.Some? then {job} else {})
    {
      if job.eta.Some? {
        etaQueue.Add(job);
      } else {
        queue.Add(job);
      }
    }

    method Remove(job: ChannelJob)
      requires Valid()
      modifies queue, etaQueue
      ensures Valid() && View() == old(View()).Without(job)
      ensures queue.known == old(queue.known) && etaQueue.known == old(etaQueue.known)
    {
      etaQueue.Remove(job);
      queue.Remove(job);
    }

    /** Move the head of the eta queue. Its eta is cleared only once the job is out of both
        heaps, tombstones included, so that no heap ever sees a key change. */
    method PromoteFirst() returns (h: ChannelJob)
      requires Valid() && etaQueue.Live() != {}
      modifies queue, etaQueue, etaQueue.known
      ensures Valid()
      ensures old(View()).Earliest(h)
      ensures View() == Waiting(old(View()).ready + {h}, old(View()).delayed - {h})
      ensures etaQueue.known <= old(etaQueue.known) - {h}
      ensures queue.known == old(queue.known) + {h}
      ensures forall j <- old(etaQueue.known) :: j.eta == if j == h then None else old(j.eta)
    {
      hide PriorityQueue.Sorted, PriorityQueue.Valid;
      ghost var w := View();
      var popped := etaQueue.PopFirst();
      h := popped.value;
      forall x <- w.delayed ensures w.delayed[h] <= w.delayed[x] {
        assert NotAfter(h, x);
      }
      assert w.Earliest(h);
      assert h !in queue.known && h !in etaQueue.known;
      h.SetNoEta();
      queue.Add(h);
    }
  
    /** One round of the loop of `pop` that lets past-due jobs join the ready ones. */
    method PromoteNext(now: Time) returns (moved: bool)
      requires Valid()
      modifies queue, etaQueue, etaQueue.known
      ensures Valid()
      ensures moved ==> View().Promote(now) == old(View()).Promote(now) && etaQueue.known < old(etaQueue.known)
      ensures !moved ==> View() == old(View()).Promote(now)
      ensures etaQueue.known <= old(etaQueue.known)
      ensures queue.known <= old(queue.known) + old(etaQueue.known)
      ensures forall j <- old(etaQueue.known) :: j.eta == old(j.eta) || (j.eta == None && j !in etaQueue.known)
    {
      ghost var w := View();
      var head := etaQueue.Peek();
      assert View() == w;
      moved := head.Some? && head.value.eta.value <= now;
      if moved {
        var eta := head.value.eta.value;
        assert head.value in w.delayed && w.delayed[head.value] == eta;
        var h := PromoteFirst();
        assert w.Earliest(h);
        PromotingOneByOne(w, now, h);
      } else if head.Some? {
        forall x <- w.delayed ensures now < w.delayed[x] {
          assert NotAfter(head.value, x);
        }
      }
    }

    lemma PromotingOneByOne(w: Waiting, now: Time, h: ChannelJob)
      requires h in w.delayed && w.delayed[h] <= now
      ensures Waiting(w.ready + {h}, w.delayed - {h}).Promote(now) == w.Promote(now)
    {
    }

    method PromoteDue(now: Time)
      requires Valid()
      modifies queue, etaQueue, etaQueue.known
      ensures Valid() && View() == old(View()).Promote(now)
      ensures etaQueue.known <= old(etaQueue.known)
      ensures queue.known <= old(queue.known) + old(etaQueue.known)
      ensures forall j <- old(etaQueue.known) :: j.eta == old(j.eta) || (j.eta == None && j !in etaQueue.known)
    {
      var moved := PromoteNext(now);
      while moved
        invariant Valid()
        invariant if moved then View().Promote(now) == old(View()).Promote(now) else View() == old(View()).Promote(now)
        invariant etaQueue.known <= old(etaQueue.known)
        invariant queue.known <= old(queue.known) + old(etaQueue.known)
        invariant forall j <- old(etaQueue.known) :: j.eta == old(j.eta) || (j.eta == None && j !in etaQueue.known)
        decreases etaQueue.known, moved
      {
        moved := PromoteNext(now);
      }
    }
  
    method Pop(now: Time) returns (r: Option<ChannelJob>)
      requires Valid()
      modifies queue, etaQueue, etaQueue.known
      ensures Valid() && Poppable(sequential, old(View()).Promote(now), r)
      ensures View() == AfterPop(old(View()).Promote(now), r)
      ensures View().delayed == map j | j in old(View()).delayed && old(View()).delayed[j] > now :: old(View()).delayed[j]
      ensures View().ready + (if r.Some? then {r.value} else {}) ==
        old(View()).ready + set j | j in old(View()).delayed && old(View()).delayed[j] <= now
      ensures r.Some? ==> r.value !in View().ready && forall j <- View().ready :: NoLater(r.value.rank, j.rank)
      ensures r.None? ==> View().ready == {} || (sequential && View().WaitsForEta())
      ensures r.Some? && sequential ==> !View().(ready := View().ready + {r.value}).WaitsForEta()
      ensures r.Some? ==> r.value.eta == None
      ensures r.Some? ==>
        r.value in old(queue.known) + old(etaQueue.known) && r.value !in queue.known + etaQueue.known
      ensures etaQueue.known <= old(etaQueue.known)
      ensures queue.known <= old(queue.known) + old(etaQueue.known)
      ensures forall j <- old(etaQueue.known) :: j.eta == old(j.eta) || (j.eta == None && j !in etaQueue.known)
    {
      hide PriorityQueue.Sorted, PriorityQueue.Valid, PriorityQueue.Live, ChannelQueue.Valid, ChannelQueue.View;
      hide Waiting.Held, Waiting.WaitsForEta, FirstIn;
      ghost var w := View();
      PromoteDue(now);
      ghost var p := View();
      r := None;
      var held := false;
      if sequential {
        held := MustWait();
      }
      if !held {
        r := PopReady();
      }
      PopIs(w, now, sequential, r, View());
    }

    /** A pop, said of what it takes and leaves. */
    lemma PopIs(w: Waiting, now: Time, sequential: bool, r: Option<ChannelJob>, v: Waiting)
      requires Poppable(sequential, w.Promote(now), r) && v == AfterPop(w.Promote(now), r)
      requires var p := w.Promote(now);
        sequential ==> (p.Held() <==> p.ready != {} && p.WaitsForEta())
      ensures v.delayed == map j | j in w.delayed && w.delayed[j] > now :: w.delayed[j]
      ensures v.ready + (if r.Some? then {r.value} else {}) == w.ready + set j | j in w.delayed && w.delayed[j] <= now
      ensures r.Some? ==> r.value !in v.ready && forall j <- v.ready :: NoLater(r.value.rank, j.rank)
      ensures r.None? ==> v.ready == {} || (sequential && v.WaitsForEta())
      ensures r.Some? && sequential ==> !v.(ready := v.ready + {r.value}).WaitsForEta()
    {
      hide Waiting.Held, Waiting.WaitsForEta, RankLess, NoLater;
      var p := w.Promote(now);
      if r.Some? {
        assert v.ready + {r.value} == p.ready;
        forall j <- v.ready ensures NoLater(r.value.rank, j.rank) {
          NoLaterIff(r.value.rank, j.rank);
        }
      }
    }

    /** The sequential check of `pop`: the first eta job outranks the first ready job. */
    method MustWait() returns (held: bool)
      requires Valid()
      modifies queue, etaQueue
      ensures Valid() && View() == old(View()) && held == View().Held()
      ensures held <==> View().ready != {} && View().WaitsForEta()
      ensures etaQueue.known <= old(etaQueue.known) && queue.known <= old(queue.known)
    {
      hide Waiting.Held, Waiting.WaitsForEta, RankLess;
      var etaJob := etaQueue.Peek();
      var job := queue.Peek();
      ghost var w := View();
      if etaJob.None? || job.None? {
        NothingToCompare(w);
        return false;
      }
      held := RankLess(etaJob.value.rank, job.value.rank);
      forall x <- w.delayed
        ensures w.delayed[etaJob.value] < w.delayed[x] ||
          (w.delayed[etaJob.value] == w.delayed[x] && !RankLess(x.rank, etaJob.value.rank))
      {
        assert NotAfter(etaJob.value, x);
      }
      forall x <- w.ready ensures !RankLess(x.rank, job.value.rank) {
        assert NotAfter(job.value, x);
      }
      HeldByHeads(w, etaJob.value, job.value);
      WaitsByHeads(w, etaJob.value, job.value);
    }

    lemma HeldByHeads(w: Waiting, h: ChannelJob, j: ChannelJob)
      requires w.EtaHead(h) && FirstIn(j, w.ready)
      ensures w.Held() <==> RankLess(h.rank, j.rank)
    {
      if RankLess(h.rank, j.rank) {
        assert w.Outranks(h);
      }
      if w.Held() {
        var k :| k in w.delayed && w.EtaHead(k) && w.Outranks(k);
        assert k.rank == h.rank;
      }
    }

    lemma NothingToCompare(w: Waiting)
      requires w.ready == {} || w.delayed == map[]
      ensures !w.Held() && !(w.ready != {} && w.WaitsForEta())
    {
    }

    lemma WaitsByHeads(w: Waiting, h: ChannelJob, j: ChannelJob)
      requires w.EtaHead(h) && FirstIn(j, w.ready)
      ensures w.WaitsForEta() <==> RankLess(h.rank, j.rank)
    {
      forall r <- w.ready, x <- w.delayed ensures NoLater(x.rank, r.rank) && !NoLater(r.rank, x.rank) <==> RankLess(x.rank, r.rank) {
        NoLaterIff(x.rank, r.rank);
        NoLaterIff(r.rank, x.rank);
      }
      hide NoLater;
      if RankLess(h.rank, j.rank) {
        assert forall x <- w.delayed :: w.delayed[h] <= w.delayed[x];
      }
      if w.WaitsForEta() {
        var k :| k in w.delayed && (forall x <- w.delayed :: w.delayed[k] <= w.delayed[x]) && RankLess(k.rank, j.rank);
        assert w.delayed[k] == w.delayed[h] && !RankLess(k.rank, h.rank);
      }
    }

    method PopReady() returns (r: Option<ChannelJob>)
      requires Valid()
      modifies queue
      ensures Valid() && View() == AfterPop(old(View()), r)
      ensures if old(View()).ready == {} then r == None else r.Some? && FirstIn(r.value, old(View()).ready)
      ensures r.Some? ==> r.value.eta == None
      ensures r.Some? ==> r.value in old(queue.known) && r.value !in queue.known + etaQueue.known
      ensures queue.known <= old(queue.known)
    {
      ghost var w := View();
      r := queue.PopFirst();
      if r.Some? {
        forall x <- w.ready ensures !RankLess(x.rank, r.value.rank) {
          assert NotAfter(r.value, x);
        }
      }
    }

    lemma EtasNotZero()
      requires Valid()
      ensures 0.0 !in View().delayed.Values
    {
    }

    /** The earliest eta, if it comes before the wakeup time asked for so far (0 meaning none). */
    method GetWakeupTime(wakeupTime: Time) returns (r: Time)
      requires Valid()
      modifies etaQueue
      ensures Valid() && View() == old(View()) && etaQueue.known <= old(etaQueue.known)
      ensures IsWakeup(r, WakeupSoFar(wakeupTime) + View().delayed.Values)
    {
      var head := etaQueue.Peek();
      ghost var w := View();
      if head.None? {
        r := wakeupTime;
      } else {
        forall x <- w.delayed ensures w.delayed[head.value] <= w.delayed[x] {
          assert NotAfter(head.value, x);
        }
        assert head.value in w.delayed;
        r := if wakeupTime == 0.0 || head.value.eta.value < wakeupTime then head.value.eta.value else wakeupTime;
      }
    }
  }

  /** Wakeup times are passed along with 0 standing for none. */
  ghost function WakeupSoFar(t: Time): set<Time> {
    if t == 0.0 then {} else {t}
  }

  /** `r` is the least of the times, or 0 if there are none. */
  ghost predicate IsWakeup(r: Time, times: set<Time>) {
    if times == {} then r == 0.0 else r in times && forall t <- times :: r <= t
  }

  // ----- the channel network as a value -----------------------------------------------------

  /** What a channel holds, and how it is configured. */
  datatype ChannelView = ChannelView(
    waiting: Waiting, running: set<ChannelJob>, failed: set<ChannelJob>, pauseUntil: Time,
    capacity: Option<int>, throttle: Time, sequential: bool, paused: bool)
  {
    /** No capacity, or a capacity of 0, is unlimited. */
    predicate HasCapacity() {
      if paused || (sequential && failed != {}) then false
      else if capacity == None || capacity == Some(0) then true
      else |running| < capacity.value
    }

    function Without(j: ChannelJob): ChannelView {
      this.(waiting := waiting.Without(j), running := running - {j}, failed := failed - {j})
    }

    function Queued(j: ChannelJob, eta: Eta): ChannelView {
      Without(j).(waiting := if eta.Some?
        then waiting.(delayed := waiting.delayed[j := eta.value])
        else waiting.(ready := waiting.ready + {j}))
    }

    function Running(j: ChannelJob): ChannelView {
      Without(j).(running := running + {j})
    }

    function Failed(j: ChannelJob): ChannelView {
      Without(j).(failed := failed + {j})
    }
  }

  /** The channel is paused, or blocked by a failed job, or full. */
  predicate Barred(v: ChannelView) {
    || v.paused
    || (v.sequential && v.failed != {})
    || (v.capacity.Some? && v.capacity.value != 0 && |v.running| >= v.capacity.value)
  }

  const EMPTY := ChannelView(Waiting({}, map[]), {}, {}, 0.0, None, 0.0, false, false)

  type Network = map<Channel, ChannelView>

  ghost function At(net: Network, c: Channel): ChannelView {
    if c in net then net[c] else EMPTY
  }

  /** A channel and the channels downstream of it, up to the root. */
  ghost function Line(c: Channel): set<Channel>
    decreases c.depth
  {
    if c.parent == null || c.parent.depth >= c.depth then {c} else {c} + Line(c.parent)
  }

  ghost function RemoveAlong(net: Network, line: set<Channel>, j: ChannelJob): Network {
    map c | c in net :: if c in line then net[c].Without(j) else net[c]
  }

  ghost function PendingIn(net: Network, c: Channel, j: ChannelJob, eta: Eta): Network {
    if At(net, c).waiting.Contains(j) then net
    else RemoveAlong(net, Line(c), j)[c := At(net, c).Queued(j, eta)]
  }

  ghost function FailedIn(net: Network, c: Channel, j: ChannelJob): Network {
    if j in At(net, c).failed then net
    else RemoveAlong(net, Line(c), j)[c := At(net, c).Failed(j)]
  }

  /** `set_running` goes down towards the root until it meets a channel that already runs the job. */
  ghost function NotYetRunning(net: Network, c: Channel, j: ChannelJob): set<Channel>
    decreases c.depth
  {
    if j in At(net, c).running then {}
    else if c.parent == null || c.parent.depth >= c.depth then {c}
    else {c} + NotYetRunning(net, c.parent, j)
  }

  ghost function RunAlong(net: Network, line: set<Channel>, j: ChannelJob): Network {
    map c | c in net :: if c in line then net[c].Running(j) else net[c]
  }

  ghost function RunningFrom(net: Network, c: Channel, j: ChannelJob): Network {
    RunAlong(net, NotYetRunning(net, c, j), j)
  }

  // ----- draining the network ---------------------------------------------------------------

  /** One drained call of `get_jobs_to_run`: the calls it made on the children, in order, and
      the jobs it yielded. */
  datatype Drain = Drain(channel: Channel, kids: seq<Drain>, out: seq<ChannelJob>)

  /** The jobs a child yields are queued in its parent. */
  function Receive(v: ChannelView, jobs: seq<ChannelJob>): ChannelView {
    v.(waiting := v.waiting.(ready := v.waiting.ready + (set j | j in jobs)))
  }

  /** Within the throttle delay of the previous yield. */
  predicate Throttled(v: ChannelView, now: Time) {
    v.throttle != 0.0 && v.pauseUntil != 0.0 && now < v.pauseUntil
  }

  function Unpause(v: ChannelView): ChannelView {
    if v.throttle != 0.0 && v.pauseUntil != 0.0 then v.(pauseUntil := 0.0) else v
  }

  /** The channel once it has yielded the given jobs one after the other. */
  function Yielded(v: ChannelView, now: Time, out: seq<ChannelJob>): (w: ChannelView)
    ensures w == v.(waiting := w.waiting, running := w.running)
  {
    if out == [] then v
    else
      var w := Yielded(v, now, out[..|out| - 1]);
      w.(waiting := AfterPop(w.waiting.Promote(now), Some(out[|out| - 1])), running := w.running + {out[|out| - 1]})
  }

  /** The channel may yield the given jobs one after the other. */
  ghost predicate MayYield(v: ChannelView, now: Time, out: seq<ChannelJob>) {
    out == [] ||
    var front := out[..|out| - 1];
    var w := Yielded(v, now, front);
    && MayYield(v, now, front)
    && w.HasCapacity() && (v.throttle != 0.0 ==> front == [])
    && Poppable(w.sequential, w.waiting.Promote(now), Some(out[|out| - 1]))
  }

  /** Having yielded, the channel stops: throttled, full, or out of jobs to pop. */
  ghost predicate Stops(w: ChannelView, now: Time, yielded: bool) {
    || (w.throttle != 0.0 && yielded)
    || !w.HasCapacity()
    || Poppable(w.sequential, w.waiting.Promote(now), None)
  }

  function Stopped(w: ChannelView, now: Time, yielded: bool): ChannelView {
    if w.throttle != 0.0 && yielded then w.(pauseUntil := now + w.throttle)
    else if w.HasCapacity() then w.(waiting := w.waiting.Promote(now))
    else w
  }

  ghost predicate YieldsOk(u: ChannelView, now: Time, out: seq<ChannelJob>) {
    MayYield(u, now, out) && Stops(Yielded(u, now, out), now, out != [])
  }

  function AfterYields(u: ChannelView, now: Time, out: seq<ChannelJob>): ChannelView {
    Stopped(Yielded(u, now, out), now, out != [])
  }

  /** What a channel does on its own in `get_jobs_to_run`, after its children had their turn. */
  ghost predicate RunsOk(v: ChannelView, now: Time, out: seq<ChannelJob>) {
    if Throttled(v, now) then out == [] else YieldsOk(Unpause(v), now, out)
  }

  function AfterRun(v: ChannelView, now: Time, out: seq<ChannelJob>): ChannelView {
    if Throttled(v, now) then v else AfterYields(Unpause(v), now, out)
  }

  ghost function AfterKids(net: Network, c: Channel, kids: seq<Drain>, now: Time): Network
    decreases kids, 0
  {
    if kids == [] then net
    else
      var last := kids[|kids| - 1];
      var n := Replay(AfterKids(net, c, kids[..|kids| - 1], now), last, now);
      n[c := Receive(At(n, c), last.out)]
  }

  /** The network after a drained call that went as recorded. */
  ghost function Replay(net: Network, d: Drain, now: Time): Network
    decreases d, 1
  {
    var n := AfterKids(net, d.channel, d.kids, now);
    n[d.channel := AfterRun(At(n, d.channel), now, d.out)]
  }

  ghost predicate KidsOk(net: Network, c: Channel, kids: seq<Drain>, now: Time)
    decreases kids, 0
  {
    kids == [] ||
    var front := kids[..|kids| - 1];
    KidsOk(net, c, front, now) && DrainOk(AfterKids(net, c, front, now), kids[|kids| - 1], now)
  }

  /** The children of a channel, each once. */
  ghost predicate Enumerates(all: set<Channel>, c: Channel, kids: seq<Drain>) {
    && (forall i | 0 <= i < |kids| :: kids[i].channel in all && kids[i].channel.parent == c)
    && (forall i, j | 0 <= i < j < |kids| :: kids[i].channel != kids[j].channel)
    && (forall k <- all | k.parent == c :: exists i :: 0 <= i < |kids| && kids[i].channel == k)
  }

  /** A drained call on the network at time `now` may go as recorded. */
  ghost predicate DrainOk(net: Network, d: Drain, now: Time)
    decreases d, 1
  {
    && d.channel in net && Enumerates(net.Keys, d.channel, d.kids)
    && KidsOk(net, d.channel, d.kids, now)
    && RunsOk(At(AfterKids(net, d.channel, d.kids, now), d.channel), now, d.out)
  }

  // ----- wakeup times -----------------------------------------------------------------------

  /** The channel lets jobs through: it has capacity and is not within a throttle delay. */
  predicate Open(v: ChannelView) {
    v.HasCapacity() && v.pauseUntil == 0.0
  }

  /** The times at which a channel itself may get something to do. */
  function OwnWakeups(v: ChannelView): set<Time> {
    if !v.HasCapacity() then {} else if v.pauseUntil != 0.0 then {v.pauseUntil} else v.waiting.delayed.Values
  }

  /** `get_wakeup_time` on `top` consults `c`: every channel from `top` down to `c`, `c` apart, is open. */
  ghost predicate Consulted(net: Network, top: Channel, c: Channel)
    decreases c.depth
  {
    c == top ||
    (c.parent != null && c.parent.depth < c.depth && c.parent in net && Open(net[c.parent]) &&
      Consulted(net, top, c.parent))
  }

  ghost function Wakeups(net: Network, top: Channel): set<Time> {
    set c <- net, t <- OwnWakeups(net[c]) | Consulted(net, top, c) :: t
  }

  ghost function WakeupsOf(net: Network, tops: set<Channel>): set<Time> {
    set c <- tops, t <- Wakeups(net, c) :: t
  }

  /** A parsed configuration of one channel. */
  datatype Config = Config(name: string, capacity: Option<int>, sequential: bool, throttle: int, paused: bool) {
    function Apply(v: ChannelView): ChannelView {
      v.(capacity := capacity, sequential := sequential, throttle := throttle as real, paused := paused)
    }
  }

  class Channel {
    const name: string
    const parent: Channel?
    ghost const depth: nat
    const queue: ChannelQueue
    var children: map<string, Channel>
    var running: set<ChannelJob>
    var failed: set<ChannelJob>
    var pauseUntil: Time
    var capacity: Option<int>
    var throttle: Time
    var paused: bool

    constructor (name: string, parent: Channel?, capacity: Option<int>)
      modifies (if parent == null then {} else {parent})`children
      ensures this.name == name && this.parent == parent && children == map[]
      ensures this.depth == if parent == null then 0 else parent.depth + 1
      ensures fresh(queue) && fresh(queue.queue) && fresh(queue.etaQueue)
      ensures Ok() && View() == EMPTY.(capacity := capacity)
      ensures queue.queue.known == {} && queue.etaQueue.known == {}
      ensures parent != null ==> parent.children == old(parent.children)[name := this]
    {
      this.name, this.parent := name, parent;
      this.depth := if parent == null then 0 else parent.depth + 1;
      queue := new ChannelQueue(false);
      children := map[];
      running, failed, pauseUntil := {}, {}, 0.0;
      this.capacity, throttle, paused := capacity, 0.0, false;
      new;
      if parent != null {
        parent.children := parent.children[name := this];
      }
    }

    ghost predicate Ok()
      reads this, queue, queue.queue, queue.etaQueue, queue.queue.known, queue.etaQueue.known
    {
      queue.Valid() && forall j <- queue.etaQueue.known :: j.channel == this
    }

    ghost function View(): ChannelView
      requires Ok()
      reads this, queue, queue.queue, queue.etaQueue, queue.queue.known, queue.etaQueue.known
    {
      ChannelView(queue.View(), running, failed, pauseUntil, capacity, throttle, queue.sequential, paused)
    }

    /** Only this channel changed. */
    lemma Changed(all: set<Channel>, net: Network)
      requires this in all && Tree(all) && Separate(all) && net.Keys == all
      requires forall d <- all :: d.Ok() && (d != this ==> d.View() == net[d])
      ensures Valid(all) && NetView(all) == net[this := View()]
    {
      hide PriorityQueue.Sorted, PriorityQueue.Valid, PriorityQueue.Live, ChannelQueue.Valid, ChannelQueue.View;
      hide Tree, Separate;
    }

    /** The configuration is written field by field; only then a sequential channel is refused any capacity
        but 1 (a ValueError in the program). */
    method ConfigureHere(c: Config) returns (ok: bool)
      requires Ok()
      modifies this`capacity, this`throttle, this`paused, queue`sequential
      ensures Ok() && View() == c.Apply(old(View())) && ok == !(c.sequential && c.capacity != Some(1))
    {
      hide PriorityQueue.Sorted, PriorityQueue.Valid, PriorityQueue.Live;
      capacity := c.capacity;
      queue.sequential := c.sequential;
      throttle := c.throttle as real;
      paused := c.paused;
      ok := !(queue.sequential && capacity != Some(1));
    }

    method Configure(c: Config, ghost all: set<Channel>) returns (ok: bool)
      requires Valid(all) && this in all
      modifies Objects(all)
      ensures Valid(all) && NetView(all) == old(NetView(all))[this := c.Apply(old(NetView(all))[this])]
      ensures ok == !(c.sequential && c.capacity != Some(1))
    {
      hide PriorityQueue.Sorted, PriorityQueue.Valid, PriorityQueue.Live, ChannelQueue.Valid, ChannelQueue.View;
      hide Config.Apply;
      ghost var net := NetView(all);
      ok := ConfigureHere(c);
      forall d <- all | d != this ensures d.Ok() && d.View() == net[d] {
        assert old(d.Ok());
      }
      Changed(all, net);
    }

    /** The part of `remove` that concerns this channel alone. */
    method RemoveHere(job: ChannelJob)
      requires Ok()
      modifies this`running, this`failed, queue.queue, queue.etaQueue
      ensures Ok() && View() == old(View()).Without(job)
      ensures queue.etaQueue.known == old(queue.etaQueue.known) && queue.queue.known == old(queue.queue.known)
    {
      hide PriorityQueue.Sorted, PriorityQueue.Valid, PriorityQueue.Live, ChannelQueue.Valid, ChannelQueue.View;
      queue.Remove(job);
      running := running - {job};
      failed := failed - {job};
    }

    method RemoveHereIn(job: ChannelJob, ghost all: set<Channel>)
      requires Valid(all) && this in all
      modifies Objects(all)
      ensures Valid(all) && NetView(all) == old(NetView(all))[this := old(NetView(all))[this].Without(job)]
    {
      hide PriorityQueue.Sorted, PriorityQueue.Valid, PriorityQueue.Live, ChannelQueue.Valid, ChannelQueue.View;
      hide ChannelView.Without;
      ghost var net := NetView(all);
      RemoveHere(job);
      forall d <- all | d != this ensures d.Ok() && d.View() == net[d] {
        assert old(d.Ok());
      }
      Changed(all, net);
    }

    method Remove(job: ChannelJob, ghost all: set<Channel>)
      requires Valid(all) && this in all
      modifies Objects(all)
      ensures Valid(all) && NetView(all) == RemoveAlong(old(NetView(all)), Line(this), job)
      decreases depth
    {
      hide PriorityQueue.Sorted, PriorityQueue.Valid, PriorityQueue.Live, ChannelQueue.Valid, ChannelQueue.View;
      hide Separate, RemoveAlong, Channel.Ok, Channel.View, ChannelView.Without;
      ghost var net := NetView(all);
      assert net.Keys == all;
      RemoveHereIn(job, all);
      RemovingAlong(net, this, job);
      if parent != null {
        parent.Remove(job, all);
      }
    }

    /** Whether `set_pending` finds the job elsewhere than in this channel's queue; if so it queues it. */
    method PendHere(job: ChannelJob) returns (moved: bool)
      requires Ok() && job.channel == this
      modifies this`running, this`failed, queue.queue, queue.etaQueue
      ensures Ok() && moved == !old(View()).waiting.Contains(job)
      ensures View() == if moved then old(View().Queued(job, job.eta)) else old(View())
    {
      hide PriorityQueue.Sorted, PriorityQueue.Valid;
      ghost var v := View();
      moved := !queue.Contains(job);
      assert moved == !v.waiting.Contains(job);
      if moved {
        queue.Add(job);
        running := running - {job};
        failed := failed - {job};
        assert v.waiting.Without(job) == v.waiting;
      }
    }

    method PendHereIn(job: ChannelJob, ghost all: set<Channel>) returns (moved: bool)
      requires Valid(all) && this in all && job.channel == this
      modifies Objects(all)
      ensures Valid(all) && moved == !old(NetView(all))[this].waiting.Contains(job)
      ensures NetView(all) == old(NetView(all))[this :=
        if moved then old(NetView(all)[this].Queued(job, job.eta)) else old(NetView(all))[this]]
    {
      hide PriorityQueue.Sorted, PriorityQueue.Valid, PriorityQueue.Live, ChannelQueue.Valid, ChannelQueue.View;
      hide ChannelView.Queued;
      ghost var net := NetView(all);
      moved := PendHere(job);
      forall d <- all | d != this ensures d.Ok() && d.View() == net[d] {
        assert old(d.Ok());
      }
      Changed(all, net);
    }

    method SetPending(job: ChannelJob, ghost all: set<Channel>)
      requires Valid(all) && this in all && job.channel == this
      modifies Objects(all)
      ensures Valid(all) && NetView(all) == PendingIn(old(NetView(all)), this, job, old(job.eta))
    {
      hide PriorityQueue.Sorted, PriorityQueue.Valid, PriorityQueue.Live, ChannelQueue.Valid, ChannelQueue.View;
      hide Separate, RemoveAlong, Channel.Ok, Channel.View, ChannelView.Queued, Line;
      ghost var net := NetView(all);
      assert net.Keys == all;
      ghost var v := net[this].Queued(job, job.eta);
      var moved := PendHereIn(job, all);
      if moved {
        OneThenDownstream(net, this, job, v);
        if parent != null {
          parent.Remove(job, all);
        }
      }
    }

    method FailHere(job: ChannelJob) returns (moved: bool)
      requires Ok()
      modifies this`running, this`failed, queue.queue, queue.etaQueue
      ensures Ok() && moved == (job !in old(View()).failed)
      ensures View() == if moved then old(View()).Failed(job) else old(View())
    {
      hide PriorityQueue.Sorted, PriorityQueue.Valid, PriorityQueue.Live, ChannelQueue.Valid, ChannelQueue.View;
      moved := job !in failed;
      if moved {
        queue.Remove(job);
        running := running - {job};
        failed := failed + {job};
      }
    }

    method FailHereIn(job: ChannelJob, ghost all: set<Channel>) returns (moved: bool)
      requires Valid(all) && this in all
      modifies Objects(all)
      ensures Valid(all) && moved == (job !in old(NetView(all))[this].failed)
      ensures NetView(all) == old(NetView(all))[this :=
        if moved then old(NetView(all))[this].Failed(job) else old(NetView(all))[this]]
    {
      hide PriorityQueue.Sorted, PriorityQueue.Valid, PriorityQueue.Live, ChannelQueue.Valid, ChannelQueue.View;
      hide ChannelView.Failed;
      ghost var net := NetView(all);
      moved := FailHere(job);
      forall d <- all | d != this ensures d.Ok() && d.View() == net[d] {
        assert old(d.Ok());
      }
      Changed(all, net);
    }

    method SetFailed(job: ChannelJob, ghost all: set<Channel>)
      requires Valid(all) && this in all
      modifies Objects(all)
      ensures Valid(all) && NetView(all) == FailedIn(old(NetView(all)), this, job)
    {
      hide PriorityQueue.Sorted, PriorityQueue.Valid, PriorityQueue.Live, ChannelQueue.Valid, ChannelQueue.View;
      hide Separate, RemoveAlong, Channel.Ok, Channel.View, ChannelView.Failed;
      ghost var net := NetView(all);
      assert net.Keys == all;
      var moved := FailHereIn(job, all);
      if moved {
        OneThenDownstream(net, this, job, net[this].Failed(job));
        if parent != null {
          parent.Remove(job, all);
        }
      }
    }

    method RunHere(job: ChannelJob) returns (moved: bool)
      requires Ok()
      modifies this`running, this`failed, queue.queue, queue.etaQueue
      ensures Ok() && moved == (job !in old(View()).running)
      ensures View() == if moved then old(View()).Running(job) else old(View())
    {
      hide PriorityQueue.Sorted, PriorityQueue.Valid, PriorityQueue.Live, ChannelQueue.Valid, ChannelQueue.View;
      moved := job !in running;
      if moved {
        queue.Remove(job);
        running := running + {job};
        failed := failed - {job};
      }
    }

    method RunHereIn(job: ChannelJob, ghost all: set<Channel>) returns (moved: bool)
      requires Valid(all) && this in all
      modifies Objects(all)
      ensures Valid(all) && moved == (job !in old(NetView(all))[this].running)
      ensures NetView(all) == old(NetView(all))[this :=
        if moved then old(NetView(all))[this].Running(job) else old(NetView(all))[this]]
    {
      hide PriorityQueue.Sorted, PriorityQueue.Valid, PriorityQueue.Live, ChannelQueue.Valid, ChannelQueue.View;
      hide ChannelView.Running;
      ghost var net := NetView(all);
      moved := RunHere(job);
      forall d <- all | d != this ensures d.Ok() && d.View() == net[d] {
        assert old(d.Ok());
      }
      Changed(all, net);
    }

    method SetRunning(job: ChannelJob, ghost all: set<Channel>)
      requires Valid(all) && this in all
      modifies Objects(all)
      ensures Valid(all) && NetView(all) == RunningFrom(old(NetView(all)), this, job)
      decreases depth
    {
      hide PriorityQueue.Sorted, PriorityQueue.Valid, PriorityQueue.Live, ChannelQueue.Valid, ChannelQueue.View;
      hide Separate, Channel.Ok, Channel.View, ChannelView.Running, RunAlong, NotYetRunning;
      ghost var net := NetView(all);
      assert net.Keys == all;
      var moved := RunHereIn(job, all);
      RunningStep(net, this, job);
      if moved && parent != null {
        parent.SetRunning(job, all);
      }
    }

    method HasCapacity() returns (b: bool)
      requires Ok()
      ensures b == View().HasCapacity()
      ensures b <==> !Barred(View())
    {
      hide PriorityQueue.Sorted, PriorityQueue.Valid, PriorityQueue.Live, ChannelQueue.Valid, ChannelQueue.View;
      if paused {
        return false;
      }
      if queue.sequential && failed != {} {
        return false;
      }
      if capacity == None || capacity == Some(0) {
        return true;
      }
      return |running| < capacity.value;
    }

    /** One job of the yielding loop: pop it and mark it running. */
    method YieldOne(now: Time) returns (r: Option<ChannelJob>)
      requires Ok()
      modifies this`running, queue.queue, queue.etaQueue, queue.etaQueue.known
      ensures Ok() && Poppable(old(View()).sequential, old(View()).waiting.Promote(now), r)
      ensures var v := old(View()); var w := AfterPop(v.waiting.Promote(now), r);
        View() == v.(waiting := w, running := if r.Some? then v.running + {r.value} else v.running)
      ensures queue.queue.known + queue.etaQueue.known <= old(queue.queue.known + queue.etaQueue.known)
      ensures queue.etaQueue.known <= old(queue.etaQueue.known)
      ensures r.Some? ==> r.value.eta == None
      ensures r.Some? ==>
        r.value in old(queue.queue.known + queue.etaQueue.known) && r.value !in queue.queue.known + queue.etaQueue.known
    {
      hide PriorityQueue.Sorted, PriorityQueue.Valid, PriorityQueue.Live, ChannelQueue.Valid, ChannelQueue.View;
      hide Waiting.Promote, AfterPop, Poppable;
      r := queue.Pop(now);
      if r.Some? {
        running := running + {r.value};
      }
    }

    /** The yielding loop of `get_jobs_to_run`. */
    method YieldAll(now: Time) returns (out: seq<ChannelJob>)
      requires Ok()
      modifies this`running, this`pauseUntil, queue.queue, queue.etaQueue, queue.etaQueue.known
      ensures Ok() && YieldsOk(old(View()), now, out) && View() == AfterYields(old(View()), now, out)
      ensures queue.queue.known + queue.etaQueue.known <= old(queue.queue.known + queue.etaQueue.known)
      ensures queue.etaQueue.known <= old(queue.etaQueue.known)
      ensures forall j <- out :: j.eta == None && j in old(queue.queue.known + queue.etaQueue.known)
    {
      hide PriorityQueue.Sorted, PriorityQueue.Valid, PriorityQueue.Live, ChannelQueue.Valid, ChannelQueue.View;
      hide Waiting.Promote, Poppable, ChannelView.HasCapacity, Barred;
      ghost var u := View();
      ghost var jobs, later := queue.queue.known + queue.etaQueue.known, queue.etaQueue.known;
      assert Yielded(u, now, []) == u && MayYield(u, now, []);
      hide Yielded, MayYield;
      out := [];
      var more := HasCapacity();
      while more
        invariant Ok() && View() == Yielded(u, now, out) && MayYield(u, now, out)
        invariant more == View().HasCapacity() && (throttle != 0.0 ==> out == [])
        invariant queue.queue.known + queue.etaQueue.known <= jobs
        invariant queue.etaQueue.known <= later
        invariant forall j <- out :: j.eta == None && j in jobs && j !in queue.queue.known + queue.etaQueue.known
        decreases queue.queue.known + queue.etaQueue.known, more
      {
        var job := YieldOne(now);
        if job.None? {
          return;
        }
        YieldStep(u, now, out, job.value);
        out := out + [job.value];
        if throttle != 0.0 {
          pauseUntil := now + throttle;
          return;
        }
        more := HasCapacity();
      }
    }

    /** `get_jobs_to_run` once the children had their turn. */
    method RunHereNow(now: Time) returns (out: seq<ChannelJob>)
      requires Ok()
      modifies this`running, this`pauseUntil, queue.queue, queue.etaQueue, queue.etaQueue.known
      ensures Ok() && RunsOk(old(View()), now, out) && View() == AfterRun(old(View()), now, out)
      ensures queue.queue.known + queue.etaQueue.known <= old(queue.queue.known + queue.etaQueue.known)
      ensures queue.etaQueue.known <= old(queue.etaQueue.known)
      ensures forall j <- out :: j.eta == None && j in old(queue.queue.known + queue.etaQueue.known)
    {
      hide PriorityQueue.Sorted, PriorityQueue.Valid, PriorityQueue.Live, ChannelQueue.Valid, ChannelQueue.View;
      hide YieldsOk, AfterYields;
      ghost var v := View();
      if throttle != 0.0 && pauseUntil != 0.0 {
        if now < pauseUntil {
          return [];
        }
        pauseUntil := 0.0;
      }
      assert View() == Unpause(v);
      out := YieldAll(now);
    }

    method RunHereNowIn(now: Time, ghost all: set<Channel>) returns (out: seq<ChannelJob>)
      requires Valid(all) && this in all
      modifies Objects(all), HeapJobs(all)
      ensures Valid(all) && HeapJobs(all) <= old(HeapJobs(all)) && forall c <- all :: c.children == old(c.children)
      ensures RunsOk(old(NetView(all))[this], now, out)
      ensures NetView(all) == old(NetView(all))[this := AfterRun(old(NetView(all))[this], now, out)]
      ensures forall j <- out :: j.eta == None && j in old(HeapJobs(all))
    {
      hide PriorityQueue.Sorted, PriorityQueue.Valid, PriorityQueue.Live, ChannelQueue.Valid, ChannelQueue.View;
      hide RunsOk, AfterRun, Tree, HeapJobs;
      ghost var net := NetView(all);
      OwnEtaJobs(all);
      OwnHeapJobs(all, this);
      label before:
      out := RunHereNow(now);
      forall d <- all | d != this
        ensures d.Ok() && d.View() == net[d]
        ensures unchanged@before(d.queue.queue) && unchanged@before(d.queue.etaQueue)
      {
        assert old(d.Ok());
      }
      assert forall c <- all :: c.children == old(c.children);
      assert Tree(all) by { TreeKept@before(all); }
      FewerHeapJobs@before(all);
      Changed(all, net);
    }

    /** A job with an eta in this channel's heap is in no heap of another channel. */
    lemma OwnEtaJobs(all: set<Channel>)
      requires Valid(all) && this in all
      ensures forall d <- all, j <- queue.etaQueue.known | d != this ::
        j !in d.queue.queue.known && j !in d.queue.etaQueue.known
    {
      hide PriorityQueue.Sorted, PriorityQueue.Valid, PriorityQueue.Live, ChannelQueue.View;
      forall d <- all, j <- queue.etaQueue.known | d != this
        ensures j !in d.queue.queue.known && j !in d.queue.etaQueue.known
      {
        assert Ok() && d.Ok();
      }
    }

    method ReceiveHere(jobs: seq<ChannelJob>)
      requires Ok() && forall j <- jobs :: j.eta == None
      modifies queue.queue, queue.etaQueue
      ensures Ok() && View() == Receive(old(View()), jobs)
      ensures queue.etaQueue.known <= old(queue.etaQueue.known)
      ensures queue.queue.known <= old(queue.queue.known) + (set j | j in jobs)
    {
      hide PriorityQueue.Sorted, PriorityQueue.Valid, PriorityQueue.Live, ChannelQueue.Valid, ChannelQueue.View;
      for i := 0 to |jobs|
        invariant Ok() && View() == Receive(old(View()), jobs[..i])
        invariant queue.etaQueue.known <= old(queue.etaQueue.known)
        invariant queue.queue.known <= old(queue.queue.known) + (set j | j in jobs)
      {
        queue.Add(jobs[i]);
      }
      assert jobs[..|jobs|] == jobs;
    }

    method ReceiveHereIn(jobs: seq<ChannelJob>, ghost all: set<Channel>)
      requires Valid(all) && this in all && forall j <- jobs :: j.eta == None
      modifies Objects(all)
      ensures Valid(all) && HeapJobs(all) <= old(HeapJobs(all)) + (set j | j in jobs)
      ensures forall c <- all :: c.children == old(c.children)
      ensures NetView(all) == old(NetView(all))[this := Receive(old(NetView(all))[this], jobs)]
    {
      hide PriorityQueue.Sorted, PriorityQueue.Valid, PriorityQueue.Live, ChannelQueue.Valid, ChannelQueue.View;
      hide Receive;
      ghost var net := NetView(all);
      ReceiveHere(jobs);
      forall d <- all | d != this ensures d.Ok() && d.View() == net[d] {
        assert old(d.Ok());
      }
      Changed(all, net);
    }

    /** One child's turn: what it yields is queued here. */
    method DrainChild(child: Channel, now: Time, ghost all: set<Channel>) returns (ghost d: Drain)
      requires Valid(all) && this in all && child in all && child.parent == this
      modifies Objects(all), HeapJobs(all)
      ensures Valid(all) && HeapJobs(all) <= old(HeapJobs(all)) && forall c <- all :: c.children == old(c.children)
      ensures d.channel == child && DrainOk(old(NetView(all)), d, now)
      ensures var n := Replay(old(NetView(all)), d, now); NetView(all) == n[this := Receive(At(n, this), d.out)]
      decreases Deeper(all, this), 0
    {
      hide PriorityQueue.Sorted, PriorityQueue.Valid, PriorityQueue.Live, ChannelQueue.Valid, ChannelQueue.View;
      hide Separate, DrainOk, Replay, Receive, Channel.Ok, Channel.View;
      ghost var net := NetView(all);
      assert child in Deeper(all, this) && child !in Deeper(all, child);
      assert Deeper(all, child) <= Deeper(all, this);
      var jobs;
      jobs, d := child.GetJobsToRun(now, all);
      assert this in NetView(all).Keys;
      ReceiveHereIn(jobs, all);
    }

    /** Jobs ready to run in this channel, once drained: those of the children are queued here
        first. `log` records what every channel upstream yielded. */
    method GetJobsToRun(now: Time, ghost all: set<Channel>) returns (out: seq<ChannelJob>, ghost log: Drain)
      requires Valid(all) && this in all
      modifies Objects(all), HeapJobs(all)
      ensures Valid(all) && HeapJobs(all) <= old(HeapJobs(all)) && forall c <- all :: c.children == old(c.children)
      ensures log.channel == this && log.out == out
      ensures DrainOk(old(NetView(all)), log, now) && NetView(all) == Replay(old(NetView(all)), log, now)
      ensures forall j <- out :: j.eta == None && j in old(HeapJobs(all))
      decreases Deeper(all, this), 1
    {
      hide PriorityQueue.Sorted, PriorityQueue.Valid, PriorityQueue.Live, ChannelQueue.Valid, ChannelQueue.View;
      hide Separate, RunsOk, AfterRun, Receive, Channel.Ok, Channel.View, KidsOf, HeapJobs;
      ghost var net := NetView(all);
      assert net.Keys == all;
      ghost var kids: seq<Drain> := [];
      var names := children.Keys;
      NoKidsYet(children);
      while names != {}
        invariant Valid(all) && HeapJobs(all) <= old(HeapJobs(all)) && forall c <- all :: c.children == old(c.children)
        invariant names <= children.Keys
        invariant KidsOk(net, this, kids, now) && NetView(all) == AfterKids(net, this, kids, now)
        invariant KidsOf(kids, children, names)
        decreases names
      {
        var n :| n in names;
        ghost var d := DrainChild(children[n], now, all);
        KidsStep(net, this, kids, d, now);
        OneMoreKid(kids, d, children, names, n);
        names := names - {n};
        kids := kids + [d];
      }
      AllKids(all, this, kids);
      assert this in NetView(all).Keys;
      out := RunHereNowIn(now, all);
      log := Drain(this, kids, out);
    }

    method WakeupHere(wakeupTime: Time, ghost all: set<Channel>) returns (r: Time)
      requires Valid(all) && this in all
      modifies Objects(all)
      ensures Valid(all) && NetView(all) == old(NetView(all)) && forall c <- all :: c.children == old(c.children)
      ensures IsWakeup(r, WakeupSoFar(wakeupTime) + NetView(all)[this].waiting.delayed.Values)
      ensures 0.0 !in NetView(all)[this].waiting.delayed.Values
    {
      hide PriorityQueue.Sorted, PriorityQueue.Valid, PriorityQueue.Live, ChannelQueue.Valid, ChannelQueue.View;
      hide IsWakeup, WakeupSoFar;
      ghost var net := NetView(all);
      r := queue.GetWakeupTime(wakeupTime);
      queue.EtasNotZero();
      forall d <- all | d != this ensures d.Ok() && d.View() == net[d] {
        assert old(d.Ok());
      }
      Changed(all, net);
    }

    /** The children's part of `get_wakeup_time`. */
    method WakeupUpstream(wakeupTime: Time, ghost all: set<Channel>) returns (r: Time)
      requires Valid(all) && this in all
      modifies Objects(all)
      ensures Valid(all) && NetView(all) == old(NetView(all)) && forall c <- all :: c.children == old(c.children)
      ensures IsWakeup(r, WakeupSoFar(wakeupTime) + WakeupsOf(NetView(all), Children(all, this)))
      ensures 0.0 !in WakeupsOf(NetView(all), Children(all, this))
      decreases Deeper(all, this), 0
    {
      hide PriorityQueue.Sorted, PriorityQueue.Valid, PriorityQueue.Live, ChannelQueue.Valid, ChannelQueue.View;
      hide Separate, IsWakeup, WakeupSoFar, Wakeups, WakeupsOf, Consulted, Channel.Ok, Channel.View, Named;
      ghost var net := NetView(all);
      r := wakeupTime;
      var names := children.Keys;
      ghost var done: set<Channel> := {};
      NoWakeups(net, wakeupTime);
      NoneNamed(children);
      while names != {}
        invariant Valid(all) && NetView(all) == net && forall c <- all :: c.children == old(c.children)
        invariant names <= children.Keys && done == Named(children, children.Keys - names)
        invariant IsWakeup(r, WakeupSoFar(wakeupTime) + WakeupsOf(net, done)) && 0.0 !in WakeupsOf(net, done)
        decreases names
      {
        var n :| n in names;
        var child := children[n];
        assert child in Deeper(all, this) && child !in Deeper(all, child);
        assert Deeper(all, child) <= Deeper(all, this);
        ghost var r0 := r;
        r := child.GetWakeupTime(r, all);
        WakeupChain(wakeupTime, WakeupsOf(net, done), r0, Wakeups(net, child), r);
        WakeupsAdd(net, done, child);
        NamedOneMore(children, names, n);
        names := names - {n};
        done := done + {child};
      }
      ChildrenNamed(all, this);
    }

    method CapacityLeft(ghost all: set<Channel>) returns (b: bool)
      requires Valid(all) && this in all
      ensures b == NetView(all)[this].HasCapacity() && pauseUntil == NetView(all)[this].pauseUntil
    {
      hide PriorityQueue.Sorted, PriorityQueue.Valid, PriorityQueue.Live, ChannelQueue.Valid, ChannelQueue.View;
      hide ChannelView.HasCapacity;
      b := HasCapacity();
    }

    /** When this channel or one upstream next needs attention, or an earlier time already asked
        for (0 stands for none). A full channel asks for nothing, a throttled one for the end
        of its delay only. */
    method GetWakeupTime(wakeupTime: Time, ghost all: set<Channel>) returns (r: Time)
      requires Valid(all) && this in all
      modifies Objects(all)
      ensures Valid(all) && NetView(all) == old(NetView(all)) && forall c <- all :: c.children == old(c.children)
      ensures IsWakeup(r, WakeupSoFar(wakeupTime) + Wakeups(NetView(all), this)) && 0.0 !in Wakeups(NetView(all), this)
      decreases Deeper(all, this), 2
    {
      hide PriorityQueue.Sorted, PriorityQueue.Valid, PriorityQueue.Live, ChannelQueue.Valid, ChannelQueue.View;
      hide Separate, IsWakeup, WakeupSoFar, Wakeups, WakeupsOf, Consulted, ChannelView.HasCapacity;
      hide Channel.Ok, Channel.View;
      WakeupsStep(NetView(all), all, this);
      var capacityLeft := CapacityLeft(all);
      if !capacityLeft {
        WakeupKept(wakeupTime);
        return wakeupTime;
      }
      if pauseUntil != 0.0 {
        WakeupMin(wakeupTime, pauseUntil);
        return if wakeupTime == 0.0 || pauseUntil < wakeupTime then pauseUntil else wakeupTime;
      }
      r := WakeupOpen(wakeupTime, all);
    }

    /** The same of a channel that lets jobs through. */
    method WakeupOpen(wakeupTime: Time, ghost all: set<Channel>) returns (r: Time)
      requires Valid(all) && this in all && Open(NetView(all)[this])
      modifies Objects(all)
      ensures Valid(all) && NetView(all) == old(NetView(all)) && forall c <- all :: c.children == old(c.children)
      ensures IsWakeup(r, WakeupSoFar(wakeupTime) + Wakeups(NetView(all), this)) && 0.0 !in Wakeups(NetView(all), this)
      decreases Deeper(all, this), 1
    {
      hide PriorityQueue.Sorted, PriorityQueue.Valid, PriorityQueue.Live, ChannelQueue.Valid, ChannelQueue.View;
      hide Separate, IsWakeup, WakeupSoFar, Wakeups, WakeupsOf, Consulted, Open;
      hide Channel.Ok, Channel.View;
      ghost var net := NetView(all);
      assert net.Keys == all;
      WakeupsStep(net, all, this);
      ghost var own, upstream := net[this].waiting.delayed.Values, WakeupsOf(net, Children(all, this));
      assert Wakeups(net, this) == own + upstream;
      var r0 := WakeupHere(wakeupTime, all);
      r := WakeupUpstream(r0, all);
      WakeupChain(wakeupTime, own, r0, upstream, r);
    }
  }

  ghost function Named(children: map<string, Channel>, names: set<string>): set<Channel> {
    set n <- names | n in children :: children[n]
  }

  lemma NoneNamed(children: map<string, Channel>)
    ensures Named(children, children.Keys - children.Keys) == {}
  {
  }

  lemma NamedOneMore(children: map<string, Channel>, toCome: set<string>, n: string)
    requires n in toCome && toCome <= children.Keys
    ensures Named(children, children.Keys - (toCome - {n})) == Named(children, children.Keys - toCome) + {children[n]}
  {
  }

  lemma ChildrenNamed(all: set<Channel>, c: Channel)
    requires Tree(all) && c in all
    ensures Named(c.children, c.children.Keys - {}) == Children(all, c)
  {
  }

  ghost function Children(all: set<Channel>, c: Channel): set<Channel> {
    set k <- all | k.parent == c
  }

  lemma ConsultedBelow(net: Network, top: Channel, c: Channel)
    requires top in net && (forall d <- net.Keys | d.parent != null :: d.parent in net && d.parent.depth < d.depth)
    requires c in net && Consulted(net, top, c) && c != top
    ensures Open(net[top]) && exists k <- net.Keys :: k.parent == top && Consulted(net, k, c)
    decreases c.depth
  {
    if c.parent == top {
      assert Consulted(net, c, c);
    } else {
      ConsultedBelow(net, top, c.parent);
      var k :| k in net.Keys && k.parent == top && Consulted(net, k, c.parent);
      assert Consulted(net, k, c);
    }
  }

  lemma ConsultedAbove(net: Network, top: Channel, k: Channel, c: Channel)
    requires top in net && Open(net[top]) && k.parent == top && top.depth < k.depth && Consulted(net, k, c)
    ensures Consulted(net, top, c)
    decreases c.depth
  {
    if c == k {
      assert Consulted(net, top, top);
    } else {
      ConsultedAbove(net, top, k, c.parent);
    }
  }

  lemma WakeupsStep(net: Network, all: set<Channel>, c: Channel)
    requires Tree(all) && net.Keys == all && c in all
    ensures !net[c].HasCapacity() ==> Wakeups(net, c) == {}
    ensures net[c].HasCapacity() && net[c].pauseUntil != 0.0 ==> Wakeups(net, c) == {net[c].pauseUntil}
    ensures Open(net[c]) ==>
      Wakeups(net, c) == net[c].waiting.delayed.Values + WakeupsOf(net, Children(all, c))
  {
    assert Consulted(net, c, c);
    forall d <- net.Keys | Consulted(net, c, d) && d != c
      ensures Open(net[c]) && exists k <- net.Keys :: k.parent == c && Consulted(net, k, d)
    {
      ConsultedBelow(net, c, d);
    }
    if Open(net[c]) {
      WakeupsOpen(net, all, c);
    } else {
      assert Wakeups(net, c) == OwnWakeups(net[c]);
    }
  }

  lemma WakeupsOpen(net: Network, all: set<Channel>, c: Channel)
    requires Tree(all) && net.Keys == all && c in all && Open(net[c])
    ensures Wakeups(net, c) == net[c].waiting.delayed.Values + WakeupsOf(net, Children(all, c))
  {
    var mine, theirs := net[c].waiting.delayed.Values, WakeupsOf(net, Children(all, c));
    assert Consulted(net, c, c) && mine == OwnWakeups(net[c]);
    forall t <- mine ensures t in Wakeups(net, c) {
      assert t in OwnWakeups(net[c]);
    }
    forall t <- Wakeups(net, c) ensures t in mine + theirs {
      var d :| d in net && Consulted(net, c, d) && t in OwnWakeups(net[d]);
      if d != c {
        ConsultedBelow(net, c, d);
        var k :| k in net.Keys && k.parent == c && Consulted(net, k, d);
        assert t in Wakeups(net, k);
      }
    }
    forall t <- theirs ensures t in Wakeups(net, c) {
      var k :| k in Children(all, c) && t in Wakeups(net, k);
      var d :| d in net && Consulted(net, k, d) && t in OwnWakeups(net[d]);
      ConsultedAbove(net, c, k, d);
    }
  }

  lemma NoWakeups(net: Network, w: Time)
    ensures WakeupsOf(net, {}) == {} && IsWakeup(w, WakeupSoFar(w) + WakeupsOf(net, {}))
  {
  }

  lemma WakeupsAdd(net: Network, done: set<Channel>, child: Channel)
    ensures WakeupsOf(net, done + {child}) == WakeupsOf(net, done) + Wakeups(net, child)
  {
  }

  lemma WakeupKept(w: Time)
    ensures IsWakeup(w, WakeupSoFar(w) + {})
  {
  }

  lemma WakeupMin(w: Time, p: Time)
    requires p != 0.0
    ensures IsWakeup(if w == 0.0 || p < w then p else w, WakeupSoFar(w) + {p})
  {
  }

  lemma WakeupChain(w: Time, s: set<Time>, r0: Time, t: set<Time>, r: Time)
    requires IsWakeup(r0, WakeupSoFar(w) + s) && 0.0 !in s && IsWakeup(r, WakeupSoFar(r0) + t)
    ensures IsWakeup(r, WakeupSoFar(w) + (s + t))
  {
    assert 0.0 !in WakeupSoFar(w) + s;
    if WakeupSoFar(w) + s == {} {
      assert WakeupSoFar(w) + (s + t) == WakeupSoFar(r0) + t;
    } else {
      assert r0 in WakeupSoFar(w) + s;
    }
  }

  ghost function Deeper(all: set<Channel>, c: Channel): set<Channel> {
    set d <- all | d.depth > c.depth
  }

  lemma KidsStep(net: Network, c: Channel, kids: seq<Drain>, d: Drain, now: Time)
    requires KidsOk(net, c, kids, now) && DrainOk(AfterKids(net, c, kids, now), d, now)
    ensures KidsOk(net, c, kids + [d], now)
    ensures var n := Replay(AfterKids(net, c, kids, now), d, now);
      AfterKids(net, c, kids + [d], now) == n[c := Receive(At(n, c), d.out)]
  {
    assert (kids + [d])[..|kids|] == kids;
  }

  lemma NoKidsYet(children: map<string, Channel>)
    ensures KidsOf([], children, children.Keys)
  {
  }

  lemma OneMoreKid(kids: seq<Drain>, d: Drain, children: map<string, Channel>, toCome: set<string>, n: string)
    requires KidsOf(kids, children, toCome) && n in toCome && n in children
    requires d.channel == children[n] && children[n].name == n
    ensures KidsOf(kids + [d], children, toCome - {n})
  {
    var more := kids + [d];
    forall m <- children.Keys - (toCome - {n}) ensures exists i :: 0 <= i < |more| && more[i].channel == children[m] {
      if m == n {
        assert more[|kids|].channel == children[m];
      } else {
        var i :| 0 <= i < |kids| && kids[i].channel == children[m];
        assert more[i].channel == children[m];
      }
    }
  }

  lemma AllKids(all: set<Channel>, c: Channel, kids: seq<Drain>)
    requires Tree(all) && c in all && KidsOf(kids, c.children, {})
    ensures Enumerates(all, c, kids)
  {
    forall k <- all | k.parent == c ensures exists i :: 0 <= i < |kids| && kids[i].channel == k {
      assert k.name in c.children.Keys - {};
    }
  }

  /** The recorded calls are those on the named children except the ones still to come. */
  ghost predicate KidsOf(kids: seq<Drain>, children: map<string, Channel>, toCome: set<string>) {
    && (forall i | 0 <= i < |kids| ::
          var k := kids[i].channel; k.name in children && children[k.name] == k && k.name !in toCome)
    && (forall i, j | 0 <= i < j < |kids| :: kids[i].channel != kids[j].channel)
    && (forall n <- children.Keys - toCome :: exists i :: 0 <= i < |kids| && kids[i].channel == children[n])
  }

  lemma YieldStep(u: ChannelView, now: Time, front: seq<ChannelJob>, r: ChannelJob)
    requires MayYield(u, now, front) && (u.throttle != 0.0 ==> front == [])
    requires Yielded(u, now, front).HasCapacity()
    requires Poppable(u.sequential, Yielded(u, now, front).waiting.Promote(now), Some(r))
    ensures MayYield(u, now, front + [r])
    ensures var w := Yielded(u, now, front);
      Yielded(u, now, front + [r]) ==
        w.(waiting := AfterPop(w.waiting.Promote(now), Some(r)), running := w.running + {r})
  {
    assert (front + [r])[..|front|] == front;
  }

  lemma RemovingAlong(net: Network, c: Channel, j: ChannelJob)
    requires c in net && (c.parent != null ==> c.depth == c.parent.depth + 1)
    ensures var n := net[c := net[c].Without(j)];
      RemoveAlong(net, Line(c), j) == if c.parent == null then n else RemoveAlong(n, Line(c.parent), j)
  {
    OneThenDownstream(net, c, j, net[c].Without(j));
    var l := RemoveAlong(net, Line(c), j);
    assert l[c := net[c].Without(j)] == l;
  }

  twostate lemma TreeKept(all: set<Channel>)
    requires old(Tree(all)) && forall c <- all :: c.children == old(c.children)
    ensures Tree(all)
  {
  }

  lemma OwnHeapJobs(all: set<Channel>, c: Channel)
    requires c in all
    ensures c.queue.queue.known + c.queue.etaQueue.known <= HeapJobs(all)
  {
  }

  twostate lemma FewerHeapJobs(all: set<Channel>)
    requires forall d <- all ::
      d.queue.queue.known + d.queue.etaQueue.known <= old(d.queue.queue.known + d.queue.etaQueue.known)
    ensures HeapJobs(all) <= old(HeapJobs(all))
  {
    forall j <- HeapJobs(all) ensures j in old(HeapJobs(all)) {
      var d :| d in all && j in d.queue.queue.known + d.queue.etaQueue.known;
      assert j in old(d.queue.queue.known + d.queue.etaQueue.known);
    }
  }

  lemma LineDepth(c: Channel)
    ensures c in Line(c) && forall d <- Line(c) :: d == c || d.depth < c.depth
    decreases c.depth
  {
    if c.parent != null && c.parent.depth < c.depth {
      LineDepth(c.parent);
    }
  }

  lemma OneThenDownstream(net: Network, c: Channel, j: ChannelJob, v: ChannelView)
    requires c in net && (c.parent != null ==> c.depth == c.parent.depth + 1)
    ensures RemoveAlong(net, Line(c), j)[c := v] ==
      if c.parent == null then net[c := v] else RemoveAlong(net[c := v], Line(c.parent), j)
  {
    var l := RemoveAlong(net, Line(c), j)[c := v];
    if c.parent == null {
      assert l == net[c := v];
    } else {
      LineDepth(c.parent);
      var r := RemoveAlong(net[c := v], Line(c.parent), j);
      assert c !in Line(c.parent);
      assert l.Keys == r.Keys;
      forall d <- l ensures l[d] == r[d] {
      }
      assert l == r;
    }
  }

  lemma UpstreamDoesNotMatter(net: Network, c: Channel, j: ChannelJob, u: Channel, v: ChannelView)
    requires c.depth < u.depth
    ensures NotYetRunning(net[u := v], c, j) == NotYetRunning(net, c, j)
    ensures forall d <- NotYetRunning(net, c, j) :: d.depth <= c.depth
    decreases c.depth
  {
    if c.parent != null && c.parent.depth < c.depth {
      UpstreamDoesNotMatter(net, c.parent, j, u, v);
    }
  }

  lemma RunningStep(net: Network, c: Channel, j: ChannelJob)
    requires c in net && (c.parent != null ==> c.depth == c.parent.depth + 1)
    ensures j in net[c].running ==> RunningFrom(net, c, j) == net
    ensures j !in net[c].running ==> var n := net[c := net[c].Running(j)];
      RunningFrom(net, c, j) == if c.parent == null then n else RunningFrom(n, c.parent, j)
  {
    if j !in net[c].running && c.parent != null {
      UpstreamDoesNotMatter(net, c.parent, j, c, net[c].Running(j));
    }
  }

  /** The channels form a tree: a channel knows its parent, a parent its children by name. */
  ghost predicate Tree(all: set<Channel>)
    reads all
  {
    && (forall c <- all | c.parent != null :: c.parent in all && c.depth == c.parent.depth + 1
          && c.name in c.parent.children && c.parent.children[c.name] == c)
    && (forall c <- all, n <- c.children :: c.children[n] in all && c.children[n].parent == c && c.children[n].name == n)
  }

  /** No two channels share a queue. */
  ghost predicate Separate(all: set<Channel>) {
    forall c <- all, d <- all | c != d ::
      && c.queue != d.queue
      && c.queue.queue != d.queue.queue && c.queue.queue != d.queue.etaQueue
      && c.queue.etaQueue != d.queue.queue && c.queue.etaQueue != d.queue.etaQueue
  }

  ghost function Objects(all: set<Channel>): set<object> {
    all + (set c <- all :: c.queue) + (set c <- all :: c.queue.queue) + (set c <- all :: c.queue.etaQueue)
  }

  /** Every job in a heap, tombstones included. */
  ghost function HeapJobs(all: set<Channel>): set<ChannelJob>
    reads Objects(all)
  {
    (set c <- all, j <- c.queue.queue.known :: j) + (set c <- all, j <- c.queue.etaQueue.known :: j)
  }

  ghost predicate Valid(all: set<Channel>)
    reads Objects(all), HeapJobs(all)
  {
    Tree(all) && Separate(all) && forall c <- all :: c.Ok()
  }

  ghost function NetView(all: set<Channel>): Network
    requires Valid(all)
    reads Objects(all), HeapJobs(all)
  {
    map c <- all :: c.View()
  }

  /** What is set aside is what has an eta. */
  lemma WaitsByEta(all: set<Channel>, c: Channel, j: ChannelJob)
    requires Valid(all) && c in all
    ensures c in NetView(all)
    ensures j in NetView(all)[c].waiting.ready ==> j.eta == None
    ensures j in NetView(all)[c].waiting.delayed ==> j.eta == Some(NetView(all)[c].waiting.delayed[j])
  {
    assert c.Ok();
  }
}
