/** The binary heap the queues are kept in (the `heapq` module of the Python library, which is not part of
    the repository). */
module HeapQ {
  predicate Total<T>(s: set<T>, le: (T, T) -> bool) {
    forall a, b | a in s && b in s :: le(a, b) || le(b, a)
  }
  predicate Transitive<T>(s: set<T>, le: (T, T) -> bool) {
    forall a, b, c | a in s && b in s && c in s && le(a, b) && le(b, c) :: le(a, c)
  }

  function Up(i: nat): nat
    requires i > 0
  {
    (i - 1) / 2
  }

  ghost predicate HeapBut<T>(h: seq<T>, le: (T, T) -> bool, hole: int) {
    forall k | 0 < k < |h| && k != hole :: le(h[Up(k)], h[k])
  }

  ghost predicate IsHeap<T>(h: seq<T>, le: (T, T) -> bool) {
    HeapBut(h, le, -1)
  }

  function Swap<T>(h: seq<T>, i: nat, j: nat): (r: seq<T>)
    requires i < |h| && j < |h|
    ensures multiset(r) == multiset(h)
  {
    h[i := h[j]][j := h[i]]
  }

  ghost predicate Over<T>(h: seq<T>, s: set<T>) {
    forall i | 0 <= i < |h| :: h[i] in s
  }

  lemma {:induction false} RootIsLeast<T>(h: seq<T>, le: (T, T) -> bool, s: set<T>, i: nat)
    requires IsHeap(h, le) && i < |h| && Over(h, s) && Total(s, le) && Transitive(s, le)
    ensures le(h[0], h[i])
  {
    if i > 0 {
      RootIsLeast(h, le, s, Up(i));
      assert le(h[Up(i)], h[i]);
    } else { assert le(h[0], h[0]); }
  }

  method Push<T>(h: seq<T>, o: T, le: (T, T) -> bool, ghost s: set<T>) returns (r: seq<T>)
    requires IsHeap(h, le) && Over(h, s) && o in s && Total(s, le) && Transitive(s, le)
    ensures IsHeap(r, le) && multiset(r) == multiset(h) + multiset{o}
  {
    r := h + [o];
    var i := |h|;
    while i > 0 && !le(r[Up(i)], r[i])
      invariant i < |r| && Over(r, s)
      invariant multiset(r) == multiset(h) + multiset{o}
      invariant HeapBut(r, le, i)
      invariant forall k | 0 < k < |r| && Up(k) == i && i > 0 :: le(r[Up(i)], r[k])
    {
      r, i := StepUp(r, i, le, s);
    }
  }

  method StepUp<T>(h: seq<T>, i: nat, le: (T, T) -> bool, ghost s: set<T>) returns (r: seq<T>, p: nat)
    requires 0 < i < |h| && Over(h, s) && Total(s, le) && Transitive(s, le)
    requires HeapBut(h, le, i) && !le(h[Up(i)], h[i])
    requires forall k | 0 < k < |h| && Up(k) == i :: le(h[Up(i)], h[k])
    ensures multiset(r) == multiset(h) && p == Up(i) && p < |r| && Over(r, s) && HeapBut(r, le, p)
    ensures forall k | 0 < k < |r| && Up(k) == p && p > 0 :: le(r[Up(p)], r[k])
  {
    p := Up(i);
    r := Swap(h, i, p);
    assert le(h[i], h[p]);
    forall k | 0 < k < |r| && k != p ensures le(r[Up(k)], r[k]) {
      if k != i && Up(k) == p {
        assert le(h[p], h[k]);
      }
    }
    forall k | 0 < k < |r| && Up(k) == p && p > 0 ensures le(r[Up(p)], r[k]) {
      assert le(h[Up(p)], h[p]);
      if k != i { assert le(h[p], h[k]); }
    }
  }

  ghost predicate HeapBelow<T>(h: seq<T>, le: (T, T) -> bool, hole: int) {
    forall k | 0 < k < |h| && Up(k) != hole :: le(h[Up(k)], h[k])
  }

  method Pop<T>(h: seq<T>, le: (T, T) -> bool, ghost s: set<T>) returns (o: T, r: seq<T>)
    requires IsHeap(h, le) && |h| > 0 && Over(h, s) && Total(s, le) && Transitive(s, le)
    ensures o == h[0] && IsHeap(r, le)
    ensures multiset(h) == multiset(r) + multiset{o}
  {
    o := h[0];
    var last := h[|h| - 1];
    r := h[..|h| - 1];
    assert h == r + [last];
    if |r| == 0 {
      return;
    }
    r := r[0 := last];
    assert multiset(r) == multiset(h) - multiset{o};
    var i := 0;
    var done := false;
    while 2 * i + 1 < |r| && !done
      invariant i < |r| && Over(r, s)
      invariant multiset(r) == multiset(h) - multiset{o}
      invariant HeapBelow(r, le, i)
      invariant done ==> IsHeap(r, le)
      invariant forall k | 0 < k < |r| && Up(k) == i && i > 0 :: le(r[Up(i)], r[k])
      decreases |r| - i, !done
    {
      r, i, done := StepDown(r, i, le, s);
    }
  }

  /** The hole is filled for good when its element is not after the smaller child. */
  lemma Settles<T>(h: seq<T>, i: nat, c: nat, le: (T, T) -> bool, s: set<T>)
    requires i < |h| && c < |h| && Over(h, s) && Transitive(s, le) && HeapBelow(h, le, i) && le(h[i], h[c])
    requires forall k | 0 < k < |h| && Up(k) == i :: le(h[c], h[k])
    ensures IsHeap(h, le)
  {
    forall k | 0 < k < |h| ensures le(h[Up(k)], h[k]) {
      if Up(k) == i {
        assert le(h[c], h[k]);
      }
    }
  }

  /** Otherwise the smaller child moves up, and the hole is where it was. */
  lemma Sinks<T>(h: seq<T>, i: nat, c: nat, le: (T, T) -> bool)
    requires 0 < c < |h| && Up(c) == i && HeapBelow(h, le, i) && le(h[c], h[i])
    requires forall k | 0 < k < |h| && Up(k) == i :: le(h[c], h[k])
    requires forall k | 0 < k < |h| && Up(k) == i && i > 0 :: le(h[Up(i)], h[k])
    ensures var r := Swap(h, i, c);
      HeapBelow(r, le, c) && forall k | 0 < k < |r| && Up(k) == c :: le(r[Up(c)], r[k])
  {
    var r := Swap(h, i, c);
    forall k | 0 < k < |r| && Up(k) != c ensures le(r[Up(k)], r[k]) {
      if Up(k) == i {
        assert le(h[c], h[k]);
      } else if k == i {
        assert le(h[Up(i)], h[c]);
      }
    }
  }

  method StepDown<T>(h: seq<T>, i: nat, le: (T, T) -> bool, ghost s: set<T>)
    returns (r: seq<T>, c: nat, done: bool)
    requires 2 * i + 1 < |h| && Over(h, s) && Total(s, le) && Transitive(s, le)
    requires HeapBelow(h, le, i)
    requires forall k | 0 < k < |h| && Up(k) == i && i > 0 :: le(h[Up(i)], h[k])
    ensures multiset(r) == multiset(h) && Over(r, s) && c < |r| && |r| == |h|
    ensures done ==> IsHeap(r, le) && c == i
    ensures !done ==> c > i
    ensures HeapBelow(r, le, c)
    ensures forall k | 0 < k < |r| && Up(k) == c && c > 0 :: le(r[Up(c)], r[k])
  {
    c := 2 * i + 1;
    if c + 1 < |h| && !le(h[c], h[c + 1]) {
      c := c + 1;
    }
    forall k | 0 < k < |h| && Up(k) == i ensures le(h[c], h[k]) {
      assert k == 2 * i + 1 || k == 2 * i + 2;
      assert le(h[c], h[c]);
    }
    if le(h[i], h[c]) {
      Settles(h, i, c, le, s);
      return h, i, true;
    }
    assert le(h[c], h[i]);
    Sinks(h, i, c, le);
    return Swap(h, i, c), c, false;
  }
}
