/** Chains and groups of delayables: the precedence a nesting denotes, and the edges it is flattened
    into (queue_job/delay.py, lines 172-212, 319-334 and 376-386). */
module Nesting {

  /** The number tells objects apart that hold the same elements. */
  datatype Delayable =
    | Single(id: nat)
    | Chain(id: nat, elems: seq<Delayable>)
    | Group(id: nat, elems: seq<Delayable>)

  ghost function Leaves(n: Delayable): set<Delayable> {
    if n.Single? then {n} else set i, l | 0 <= i < |n.elems| && l in Leaves(n.elems[i]) :: l
  }

  /** `_head`: a chain gives the tail of its first element. */
  function Heads(n: Delayable): set<Delayable> {
    match n
    case Single(_) => {n}
    case Chain(_, es) => if es == [] then {} else Tails(es[0])
    case Group(_, es) => set i, h | 0 <= i < |es| && h in Heads(es[i]) :: h
  }

  /** `_tail`: a chain gives the head of its last element. */
  function Tails(n: Delayable): set<Delayable> {
    match n
    case Single(_) => {n}
    case Chain(_, es) => if es == [] then {} else Heads(es[|es| - 1])
    case Group(_, es) => set i, t | 0 <= i < |es| && t in Tails(es[i]) :: t
  }

  /** No chain or group is empty, and no delayable appears twice. */
  ghost predicate Tidy(n: Delayable) {
    n.Single? || (
      && n.elems != [] && (forall i | 0 <= i < |n.elems| :: Tidy(n.elems[i]))
      && forall i, j | 0 <= i < j < |n.elems| :: Leaves(n.elems[i]) !! Leaves(n.elems[j]))
  }

  // ----- what is meant ------------------------------------------------------------------------

  /** `a` has to be done before `b`: within one element, or in an earlier element of a chain. */
  ghost predicate Before(n: Delayable, a: Delayable, b: Delayable) {
    !n.Single? && (
      || (exists i | 0 <= i < |n.elems| :: Before(n.elems[i], a, b))
      || (n.Chain? && exists i, j | 0 <= i < j < |n.elems| :: a in Leaves(n.elems[i]) && b in Leaves(n.elems[j])))
  }

  // ----- what is built ------------------------------------------------------------------------

  /** An edge of the flat graph: within one element, or from the tails of an element of a chain to
      the heads of the next. */
  ghost predicate Edge(n: Delayable, a: Delayable, b: Delayable) {
    !n.Single? && (
      || (exists i | 0 <= i < |n.elems| :: Edge(n.elems[i], a, b))
      || (n.Chain? && exists i | 0 <= i < |n.elems| - 1 :: a in Tails(n.elems[i]) && b in Heads(n.elems[i + 1])))
  }

  ghost predicate EdgePath(n: Delayable, p: seq<Delayable>) {
    |p| >= 2 && forall i | 0 <= i < |p| - 1 :: Edge(n, p[i], p[i + 1])
  }

  ghost predicate Connected(n: Delayable, a: Delayable, b: Delayable) {
    exists p :: EdgePath(n, p) && p[0] == a && p[|p| - 1] == b
  }

  /** The edges carry the whole precedence. */
  ghost predicate Faithful(n: Delayable) {
    forall a, b | Before(n, a, b) :: Connected(n, a, b)
  }

  // ----- leaves -------------------------------------------------------------------------------

  lemma LeafOf(n: Delayable, i: int, l: Delayable)
    requires !n.Single? && 0 <= i < |n.elems| && l in Leaves(n.elems[i])
    ensures l in Leaves(n)
  {
  }

  lemma ElemOf(n: Delayable, l: Delayable) returns (i: int)
    requires !n.Single? && l in Leaves(n)
    ensures 0 <= i < |n.elems| && l in Leaves(n.elems[i])
  {
    i :| 0 <= i < |n.elems| && l in Leaves(n.elems[i]);
  }

  lemma TidyElems(n: Delayable)
    requires Tidy(n) && !n.Single?
    ensures n.elems != [] && forall i | 0 <= i < |n.elems| :: Tidy(n.elems[i])
  {
  }

  lemma OneElem(n: Delayable, l: Delayable, i: int, j: int)
    requires Tidy(n) && !n.Single? && 0 <= i < |n.elems| && 0 <= j < |n.elems|
    requires l in Leaves(n.elems[i]) && l in Leaves(n.elems[j])
    ensures i == j
  {
  }

  lemma {:induction false} EndsAreLeaves(n: Delayable)
    requires Tidy(n)
    ensures Heads(n) <= Leaves(n) && Tails(n) <= Leaves(n) && Heads(n) != {} && Tails(n) != {}
  {
    match n
    case Single(_) =>
    case Chain(_, es) =>
      EndsAreLeaves(es[0]);
      EndsAreLeaves(es[|es| - 1]);
      ElemLeaves(n, 0);
      ElemLeaves(n, |es| - 1);
    case Group(_, es) =>
      forall i | 0 <= i < |es| ensures Heads(es[i]) <= Leaves(n) && Tails(es[i]) <= Leaves(n) {
        EndsAreLeaves(es[i]);
        ElemLeaves(n, i);
      }
      EndsAreLeaves(es[0]);
      hide Leaves;
      GroupEnds(n, 0);
  }

  lemma ElemLeaves(n: Delayable, i: int)
    requires !n.Single? && 0 <= i < |n.elems|
    ensures Leaves(n.elems[i]) <= Leaves(n)
  {
    forall l <- Leaves(n.elems[i]) ensures l in Leaves(n) {
      LeafOf(n, i, l);
    }
  }

  lemma GroupEnds(n: Delayable, i: int)
    requires n.Group? && 0 <= i < |n.elems|
    ensures Heads(n.elems[i]) <= Heads(n) && Tails(n.elems[i]) <= Tails(n)
  {
  }

  lemma {:induction false} BeforeLeaves(n: Delayable, a: Delayable, b: Delayable)
    requires Before(n, a, b)
    ensures a in Leaves(n) && b in Leaves(n)
  {
    if i :| 0 <= i < |n.elems| && Before(n.elems[i], a, b) {
      BeforeLeaves(n.elems[i], a, b);
    }
  }

  /** How two leaves of given elements may be ordered. */
  lemma BeforeBy(n: Delayable, a: Delayable, b: Delayable, i: int, j: int)
    requires Tidy(n) && !n.Single? && 0 <= i < |n.elems| && 0 <= j < |n.elems|
    requires a in Leaves(n.elems[i]) && b in Leaves(n.elems[j])
    ensures Before(n, a, b) <==> if i == j then Before(n.elems[i], a, b) else n.Chain? && i < j
  {
    if Before(n, a, b) {
      if k :| 0 <= k < |n.elems| && Before(n.elems[k], a, b) {
        BeforeLeaves(n.elems[k], a, b);
        OneElem(n, a, i, k);
        OneElem(n, b, j, k);
      } else {
        var k, m :| 0 <= k < m < |n.elems| && a in Leaves(n.elems[k]) && b in Leaves(n.elems[m]);
        OneElem(n, a, i, k);
        OneElem(n, b, j, m);
      }
    }
  }

  lemma {:induction false} BeforeTransitive(n: Delayable, a: Delayable, b: Delayable, c: Delayable)
    requires Tidy(n) && Before(n, a, b) && Before(n, b, c)
    ensures Before(n, a, c)
  {
    BeforeLeaves(n, a, b);
    BeforeLeaves(n, b, c);
    var i := ElemOf(n, a);
    var j := ElemOf(n, b);
    var k := ElemOf(n, c);
    BeforeBy(n, a, b, i, j);
    BeforeBy(n, b, c, j, k);
    BeforeBy(n, a, c, i, k);
    if i == j == k {
      BeforeTransitive(n.elems[i], a, b, c);
    }
  }

  lemma {:induction false} EdgeBefore(n: Delayable, a: Delayable, b: Delayable)
    requires Tidy(n) && Edge(n, a, b)
    ensures Before(n, a, b)
  {
    if i :| 0 <= i < |n.elems| && Edge(n.elems[i], a, b) {
      EdgeBefore(n.elems[i], a, b);
    } else {
      var i :| 0 <= i < |n.elems| - 1 && a in Tails(n.elems[i]) && b in Heads(n.elems[i + 1]);
      EndsAreLeaves(n.elems[i]);
      EndsAreLeaves(n.elems[i + 1]);
    }
  }

  /** Nothing is ordered that should not be. */
  lemma {:induction false} PathBefore(n: Delayable, p: seq<Delayable>)
    requires Tidy(n) && EdgePath(n, p)
    ensures Before(n, p[0], p[|p| - 1])
    decreases |p|
  {
    EdgeBefore(n, p[0], p[1]);
    if |p| > 2 {
      PathBefore(n, p[1..]);
      BeforeTransitive(n, p[0], p[1], p[|p| - 1]);
    }
  }

  // ----- paths through one nesting --------------------------------------------------------------

  lemma InnerEdgeBy(n: Delayable, a: Delayable, b: Delayable, i: int, j: int, k: int)
    requires Tidy(n) && !n.Single? && 0 <= i < |n.elems| && 0 <= j < |n.elems| && 0 <= k < |n.elems|
    requires a in Leaves(n.elems[i]) && b in Leaves(n.elems[j]) && Edge(n.elems[k], a, b)
    ensures i == j == k
  {
    hide Tidy, Leaves, Edge, Before;
    TidyElems(n);
    EdgeBefore(n.elems[k], a, b);
    BeforeLeaves(n.elems[k], a, b);
    OneElem(n, a, i, k);
    OneElem(n, b, j, k);
  }

  lemma CrossEdgeBy(n: Delayable, a: Delayable, b: Delayable, i: int, j: int, k: int)
    requires Tidy(n) && !n.Single? && 0 <= i < |n.elems| && 0 <= j < |n.elems| && 0 <= k < |n.elems| - 1
    requires a in Leaves(n.elems[i]) && b in Leaves(n.elems[j]) && a in Tails(n.elems[k]) && b in Heads(n.elems[k + 1])
    ensures i == k && j == k + 1
  {
    hide Tidy, Leaves, Tails, Heads;
    TidyElems(n);
    EndsAreLeaves(n.elems[k]);
    EndsAreLeaves(n.elems[k + 1]);
    OneElem(n, a, i, k);
    OneElem(n, b, j, k + 1);
  }

  /** An edge between leaves of given elements. */
  lemma EdgeBy(n: Delayable, a: Delayable, b: Delayable, i: int, j: int)
    requires Tidy(n) && !n.Single? && 0 <= i < |n.elems| && 0 <= j < |n.elems|
    requires a in Leaves(n.elems[i]) && b in Leaves(n.elems[j]) && Edge(n, a, b)
    ensures if i == j then Edge(n.elems[i], a, b)
      else n.Chain? && j == i + 1 && a in Tails(n.elems[i]) && b in Heads(n.elems[j])
  {
    if k :| 0 <= k < |n.elems| && Edge(n.elems[k], a, b) {
      InnerEdgeBy(n, a, b, i, j, k);
    } else {
      var k :| 0 <= k < |n.elems| - 1 && a in Tails(n.elems[k]) && b in Heads(n.elems[k + 1]);
      CrossEdgeBy(n, a, b, i, j, k);
    }
    hide Tidy, Leaves, Tails, Heads, Edge;
  }

  /** The element of the second vertex of a path from element `i` to element `j`. */
  lemma SecondElem(n: Delayable, p: seq<Delayable>, i: int, j: int) returns (k: int)
    requires Tidy(n) && !n.Single? && EdgePath(n, p) && 0 <= i < |n.elems| && 0 <= j < |n.elems|
    requires p[0] in Leaves(n.elems[i]) && p[|p| - 1] in Leaves(n.elems[j])
    ensures i <= k <= j && k <= i + 1 && p[1] in Leaves(n.elems[k])
    ensures |p| == 2 ==> k == j
    ensures if k == i then Edge(n.elems[i], p[0], p[1]) else p[0] in Tails(n.elems[i]) && p[1] in Heads(n.elems[k])
  {
    EdgeBefore(n, p[0], p[1]);
    BeforeLeaves(n, p[0], p[1]);
    k := ElemOf(n, p[1]);
    EdgeBy(n, p[0], p[1], i, k);
    if |p| > 2 {
      PathBefore(n, p[1..]);
      BeforeBy(n, p[1], p[|p| - 1], k, j);
    } else {
      OneElem(n, p[1], k, j);
    }
  }

  /** A path that begins and ends in the same element stays there. */
  lemma {:induction false} StaysInside(n: Delayable, p: seq<Delayable>, i: int)
    requires Tidy(n) && !n.Single? && EdgePath(n, p) && 0 <= i < |n.elems|
    requires p[0] in Leaves(n.elems[i]) && p[|p| - 1] in Leaves(n.elems[i])
    ensures EdgePath(n.elems[i], p)
    decreases |p|
  {
    var k := SecondElem(n, p, i, i);
    if |p| > 2 {
      var q := p[1..];
      StaysInside(n, q, i);
      forall m | 0 <= m < |p| - 1 ensures Edge(n.elems[i], p[m], p[m + 1]) {
        if m > 0 {
          assert q[m - 1] == p[m] && q[m] == p[m + 1];
        }
      }
    }
  }

  ghost predicate AtOrBefore(n: Delayable, a: Delayable, b: Delayable) {
    a == b || Before(n, a, b)
  }

  /** A path from an element of a chain to the next crosses from a tail of the one to a head of the
      other. */
  lemma {:induction false} Crossing(n: Delayable, p: seq<Delayable>, i: int) returns (t: Delayable, h: Delayable)
    requires Tidy(n) && !n.Single? && EdgePath(n, p) && 0 <= i < |n.elems| - 1
    requires p[0] in Leaves(n.elems[i]) && p[|p| - 1] in Leaves(n.elems[i + 1])
    ensures t in Tails(n.elems[i]) && AtOrBefore(n.elems[i], p[0], t)
    ensures h in Heads(n.elems[i + 1]) && AtOrBefore(n.elems[i + 1], h, p[|p| - 1])
    decreases |p|
  {
    var k := SecondElem(n, p, i, i + 1);
    if k == i {
      EdgeBefore(n.elems[i], p[0], p[1]);
      t, h := Crossing(n, p[1..], i);
      if p[1] != t {
        BeforeTransitive(n.elems[i], p[0], p[1], t);
      }
    } else {
      t, h := p[0], p[1];
      if |p| > 2 {
        StaysInside(n, p[1..], i + 1);
        PathBefore(n.elems[i + 1], p[1..]);
      }
    }
  }

  lemma ConnectedTransitive(n: Delayable, a: Delayable, b: Delayable, c: Delayable)
    requires Connected(n, a, b) && Connected(n, b, c)
    ensures Connected(n, a, c)
  {
    var p :| EdgePath(n, p) && p[0] == a && p[|p| - 1] == b;
    var q :| EdgePath(n, q) && q[0] == b && q[|q| - 1] == c;
    var r := p + q[1..];
    forall i | 0 <= i < |r| - 1 ensures Edge(n, r[i], r[i + 1]) {
      if i < |p| - 1 {
        assert r[i] == p[i] && r[i + 1] == p[i + 1];
      } else {
        assert r[i] == q[i - |p| + 1] && r[i + 1] == q[i - |p| + 2];
      }
    }
    assert EdgePath(n, r) && r[0] == a && r[|r| - 1] == c;
  }

  lemma ConnectedWithin(n: Delayable, i: int, a: Delayable, b: Delayable)
    requires !n.Single? && 0 <= i < |n.elems| && Connected(n.elems[i], a, b)
    ensures Connected(n, a, b)
  {
    var p :| EdgePath(n.elems[i], p) && p[0] == a && p[|p| - 1] == b;
    forall m | 0 <= m < |p| - 1 ensures Edge(n, p[m], p[m + 1]) {
      assert Edge(n.elems[i], p[m], p[m + 1]);
    }
    assert EdgePath(n, p);
  }

  lemma ConnectedInside(n: Delayable, i: int, a: Delayable, b: Delayable)
    requires Tidy(n) && !n.Single? && 0 <= i < |n.elems| && Connected(n, a, b)
    requires a in Leaves(n.elems[i]) && b in Leaves(n.elems[i])
    ensures Connected(n.elems[i], a, b)
  {
    var p :| EdgePath(n, p) && p[0] == a && p[|p| - 1] == b;
    StaysInside(n, p, i);
  }

  // ----- when heads are first and tails are last ------------------------------------------------

  ghost predicate From(n: Delayable, s: set<Delayable>, a: Delayable) {
    exists h <- s :: AtOrBefore(n, h, a)
  }

  ghost predicate To(n: Delayable, s: set<Delayable>, a: Delayable) {
    exists t <- s :: AtOrBefore(n, a, t)
  }

  /** Every leaf is one of the given ones or comes after one. */
  ghost predicate AllFrom(n: Delayable, s: set<Delayable>) {
    forall a <- Leaves(n) :: From(n, s, a)
  }

  /** Every leaf is one of the given ones or comes before one. */
  ghost predicate AllTo(n: Delayable, s: set<Delayable>) {
    forall a <- Leaves(n) :: To(n, s, a)
  }

  /** The heads come first. Since the head of a chain is the tail of its first element, that element's
      tails have to. */
  predicate HeadsFirst(n: Delayable) {
    match n
    case Single(_) => true
    case Chain(_, es) => es != [] && TailsFirst(es[0])
    case Group(_, es) => forall i | 0 <= i < |es| :: HeadsFirst(es[i])
  }

  predicate TailsFirst(n: Delayable) {
    match n
    case Single(_) => true
    case Chain(_, es) => |es| == 1 && HeadsFirst(es[0])
    case Group(_, es) => forall i | 0 <= i < |es| :: TailsFirst(es[i])
  }

  predicate TailsLast(n: Delayable) {
    match n
    case Single(_) => true
    case Chain(_, es) => es != [] && HeadsLast(es[|es| - 1])
    case Group(_, es) => forall i | 0 <= i < |es| :: TailsLast(es[i])
  }

  predicate HeadsLast(n: Delayable) {
    match n
    case Single(_) => true
    case Chain(_, es) => |es| == 1 && TailsLast(es[0])
    case Group(_, es) => forall i | 0 <= i < |es| :: HeadsLast(es[i])
  }

  /** The part of some leaves of a compound that is in one element. */
  lemma FromWithin(n: Delayable, i: int, s: set<Delayable>, part: set<Delayable>, a: Delayable)
    requires Tidy(n) && !n.Single? && 0 <= i < |n.elems| && a in Leaves(n.elems[i])
    requires s <= Leaves(n) && forall h <- s :: h in Leaves(n.elems[i]) ==> h in part
    requires n.Chain? ==> i == 0
    ensures From(n, s, a) ==> From(n.elems[i], part, a)
  {
    if h :| h in s && AtOrBefore(n, h, a) {
      var k := ElemOf(n, h);
      BeforeBy(n, h, a, k, i);
      if h == a {
        OneElem(n, a, k, i);
      }
      assert h in part && AtOrBefore(n.elems[i], h, a);
    }
  }

  lemma ToWithin(n: Delayable, i: int, s: set<Delayable>, part: set<Delayable>, a: Delayable)
    requires Tidy(n) && !n.Single? && 0 <= i < |n.elems| && a in Leaves(n.elems[i])
    requires s <= Leaves(n) && forall t <- s :: t in Leaves(n.elems[i]) ==> t in part
    requires n.Chain? ==> i == |n.elems| - 1
    ensures To(n, s, a) ==> To(n.elems[i], part, a)
  {
    if t :| t in s && AtOrBefore(n, a, t) {
      var k := ElemOf(n, t);
      BeforeBy(n, a, t, i, k);
      if t == a {
        OneElem(n, a, k, i);
      }
      assert t in part && AtOrBefore(n.elems[i], a, t);
    }
  }

  lemma OutOfElem(n: Delayable, i: int, part: set<Delayable>, s: set<Delayable>, a: Delayable)
    requires !n.Single? && 0 <= i < |n.elems| && part <= s
    ensures From(n.elems[i], part, a) ==> From(n, s, a)
    ensures To(n.elems[i], part, a) ==> To(n, s, a)
  {
    if h :| h in part && AtOrBefore(n.elems[i], h, a) {
      assert AtOrBefore(n, h, a);
    }
    if t :| t in part && AtOrBefore(n.elems[i], a, t) {
      assert AtOrBefore(n, a, t);
    }
  }

  function Ends(n: Delayable, heads: bool): set<Delayable> {
    if heads then Heads(n) else Tails(n)
  }

  lemma EndsIn(n: Delayable, heads: bool)
    requires Tidy(n)
    ensures Ends(n, heads) <= Leaves(n) && Ends(n, heads) != {}
  {
    EndsAreLeaves(n);
  }

  lemma GroupEnd(n: Delayable, heads: bool, l: Delayable) returns (k: int)
    requires n.Group? && l in Ends(n, heads)
    ensures 0 <= k < |n.elems| && l in Ends(n.elems[k], heads)
  {
    k :| 0 <= k < |n.elems| && l in Ends(n.elems[k], heads);
  }

  lemma GroupEndsOf(n: Delayable, i: int, heads: bool)
    requires Tidy(n) && n.Group? && 0 <= i < |n.elems|
    ensures Ends(n, heads) <= Leaves(n) && Ends(n.elems[i], heads) <= Ends(n, heads)
    ensures forall l <- Ends(n, heads) :: l in Leaves(n.elems[i]) ==> l in Ends(n.elems[i], heads)
  {
    EndsIn(n, heads);
    GroupEnds(n, i);
    TidyElems(n);
    hide Tidy, Leaves, Heads, Tails;
    forall l <- Ends(n, heads) | l in Leaves(n.elems[i]) ensures l in Ends(n.elems[i], heads) {
      hide Ends;
      var k := GroupEnd(n, heads, l);
      EndsIn(n.elems[k], heads);
      OneElem(n, l, i, k);
    }
  }

  /** In a group, every element is on its own. */
  lemma GroupFromTo(n: Delayable, heads: bool, i: int, a: Delayable)
    requires Tidy(n) && n.Group? && 0 <= i < |n.elems| && a in Leaves(n.elems[i])
    ensures a in Leaves(n)
    ensures From(n, Ends(n, heads), a) <==> From(n.elems[i], Ends(n.elems[i], heads), a)
    ensures To(n, Ends(n, heads), a) <==> To(n.elems[i], Ends(n.elems[i], heads), a)
  {
    LeafOf(n, i, a);
    GroupEndsOf(n, i, heads);
    hide Leaves, Tidy, From, To, Ends;
    FromWithin(n, i, Ends(n, heads), Ends(n.elems[i], heads), a);
    ToWithin(n, i, Ends(n, heads), Ends(n.elems[i], heads), a);
    OutOfElem(n, i, Ends(n.elems[i], heads), Ends(n, heads), a);
  }

  lemma GroupFromIff(n: Delayable, heads: bool)
    requires Tidy(n) && n.Group?
    ensures AllFrom(n, Ends(n, heads)) <==> forall i | 0 <= i < |n.elems| :: AllFrom(n.elems[i], Ends(n.elems[i], heads))
  {
    hide Leaves, Tidy, From, Ends;
    if AllFrom(n, Ends(n, heads)) {
      forall i, a | 0 <= i < |n.elems| && a in Leaves(n.elems[i]) ensures From(n.elems[i], Ends(n.elems[i], heads), a) {
        GroupFromTo(n, heads, i, a);
      }
    }
    if forall i | 0 <= i < |n.elems| :: AllFrom(n.elems[i], Ends(n.elems[i], heads)) {
      forall a <- Leaves(n) ensures From(n, Ends(n, heads), a) {
        var i := ElemOf(n, a);
        GroupFromTo(n, heads, i, a);
        assert AllFrom(n.elems[i], Ends(n.elems[i], heads));
      }
    }
  }

  lemma GroupToIff(n: Delayable, heads: bool)
    requires Tidy(n) && n.Group?
    ensures AllTo(n, Ends(n, heads)) <==> forall i | 0 <= i < |n.elems| :: AllTo(n.elems[i], Ends(n.elems[i], heads))
  {
    hide Leaves, Tidy, To, Ends;
    if AllTo(n, Ends(n, heads)) {
      forall i, a | 0 <= i < |n.elems| && a in Leaves(n.elems[i]) ensures To(n.elems[i], Ends(n.elems[i], heads), a) {
        GroupFromTo(n, heads, i, a);
      }
    }
    if forall i | 0 <= i < |n.elems| :: AllTo(n.elems[i], Ends(n.elems[i], heads)) {
      forall a <- Leaves(n) ensures To(n, Ends(n, heads), a) {
        var i := ElemOf(n, a);
        GroupFromTo(n, heads, i, a);
        assert AllTo(n.elems[i], Ends(n.elems[i], heads));
      }
    }
  }

  /** Leaves of the first element come first in a chain just when they do in that element ... */
  lemma ChainFrom(n: Delayable, s: set<Delayable>)
    requires Tidy(n) && n.Chain? && n.elems != [] && s <= Leaves(n.elems[0]) && s != {}
    ensures AllFrom(n, s) <==> AllFrom(n.elems[0], s)
  {
    ElemLeaves(n, 0);
    forall a <- Leaves(n.elems[0]) ensures From(n, s, a) <==> From(n.elems[0], s, a) {
      FromWithin(n, 0, s, s, a);
      OutOfElem(n, 0, s, s, a);
    }
    forall a <- Leaves(n) | a !in Leaves(n.elems[0]) ensures From(n, s, a) {
      var i := ElemOf(n, a);
      var h :| h in s;
      assert AtOrBefore(n, h, a);
    }
    hide From, Leaves, Tidy;
  }

  /** ... those of the last element last. */
  lemma ChainTo(n: Delayable, s: set<Delayable>)
    requires Tidy(n) && n.Chain? && n.elems != [] && s <= Leaves(n.elems[|n.elems| - 1]) && s != {}
    ensures AllTo(n, s) <==> AllTo(n.elems[|n.elems| - 1], s)
  {
    var k := |n.elems| - 1;
    ElemLeaves(n, k);
    forall a <- Leaves(n.elems[k]) ensures To(n, s, a) <==> To(n.elems[k], s, a) {
      ToWithin(n, k, s, s, a);
      OutOfElem(n, k, s, s, a);
    }
    forall a <- Leaves(n) | a !in Leaves(n.elems[k]) ensures To(n, s, a) {
      var i := ElemOf(n, a);
      var t :| t in s;
      assert AtOrBefore(n, a, t);
    }
    hide To, Leaves, Tidy;
  }

  /** Leaves of the last element of a longer chain do not come first, nor those of the first last. */
  lemma WrongEnd(n: Delayable, s: set<Delayable>)
    requires Tidy(n) && n.Chain? && |n.elems| > 1
    ensures s <= Leaves(n.elems[|n.elems| - 1]) ==> !AllFrom(n, s)
    ensures s <= Leaves(n.elems[0]) ==> !AllTo(n, s)
  {
    var k := |n.elems| - 1;
    EndsAreLeaves(n.elems[0]);
    EndsAreLeaves(n.elems[k]);
    var a :| a in Leaves(n.elems[0]);
    var b :| b in Leaves(n.elems[k]);
    LeafOf(n, 0, a);
    LeafOf(n, k, b);
    forall h <- Leaves(n.elems[k]) ensures !AtOrBefore(n, h, a) {
      BeforeBy(n, h, a, k, 0);
      if h == a {
        OneElem(n, a, 0, k);
      }
    }
    forall t <- Leaves(n.elems[0]) ensures !AtOrBefore(n, b, t) {
      BeforeBy(n, b, t, k, 0);
      if t == b {
        OneElem(n, b, 0, k);
      }
    }
  }

  ghost predicate EndsAgree(n: Delayable) {
    && (HeadsFirst(n) <==> AllFrom(n, Heads(n)))
    && (TailsFirst(n) <==> AllFrom(n, Tails(n)))
    && (TailsLast(n) <==> AllTo(n, Tails(n)))
    && (HeadsLast(n) <==> AllTo(n, Heads(n)))
  }

  lemma SingleEndsAgree(n: Delayable)
    requires n.Single?
    ensures EndsAgree(n)
  {
    assert AtOrBefore(n, n, n);
    hide Before;
  }

  /** The four conditions on the shape say exactly what they are meant to. */
  lemma {:induction false} EndsIff(n: Delayable)
    requires Tidy(n)
    ensures EndsAgree(n)
  {
    hide EndsAgree;
    if n.Single? {
      SingleEndsAgree(n);
    } else {
      TidyElems(n);
      hide Tidy;
      forall i | 0 <= i < |n.elems| ensures EndsAgree(n.elems[i]) {
        EndsIff(n.elems[i]);
      }
      if n.Group? {
        GroupEndsAgree(n);
      } else {
        ChainEndsAgree(n, n.elems[0], n.elems[|n.elems| - 1]);
      }
    }
  }

  lemma GroupEndsAgree(n: Delayable)
    requires Tidy(n) && n.Group? && forall i | 0 <= i < |n.elems| :: EndsAgree(n.elems[i])
    ensures EndsAgree(n)
  {
    hide AllFrom, AllTo, Tidy, Heads, Tails;
    GroupFromIff(n, true);
    GroupFromIff(n, false);
    GroupToIff(n, true);
    GroupToIff(n, false);
  }

  lemma ChainEnds(n: Delayable, first: Delayable, last: Delayable)
    requires Tidy(n) && n.Chain? && n.elems != [] && first == n.elems[0] && last == n.elems[|n.elems| - 1]
    ensures Heads(n) == Tails(first) && Tails(n) == Heads(last)
    ensures Tails(first) <= Leaves(first) && Tails(first) != {} && Heads(last) <= Leaves(last) && Heads(last) != {}
  {
    TidyElems(n);
    hide Tidy, Leaves;
    EndsAreLeaves(first);
    EndsAreLeaves(last);
  }

  lemma ChainEndsIff(n: Delayable, first: Delayable, last: Delayable)
    requires Tidy(n) && n.Chain? && n.elems != [] && first == n.elems[0] && last == n.elems[|n.elems| - 1]
    ensures AllFrom(n, Heads(n)) <==> AllFrom(first, Tails(first))
    ensures AllTo(n, Tails(n)) <==> AllTo(last, Heads(last))
    ensures AllFrom(n, Tails(n)) <==> |n.elems| == 1 && AllFrom(first, Heads(first))
    ensures AllTo(n, Heads(n)) <==> |n.elems| == 1 && AllTo(last, Tails(last))
  {
    hide *;
    ChainEnds(n, first, last);
    ChainFrom(n, Tails(first));
    ChainTo(n, Heads(last));
    if |n.elems| == 1 {
      ChainFrom(n, Heads(last));
      ChainTo(n, Tails(first));
    } else {
      WrongEnd(n, Heads(last));
      WrongEnd(n, Tails(first));
    }
  }

  lemma ChainEndsAgree(n: Delayable, first: Delayable, last: Delayable)
    requires Tidy(n) && n.Chain? && n.elems != [] && first == n.elems[0] && last == n.elems[|n.elems| - 1]
    requires EndsAgree(first) && EndsAgree(last)
    ensures EndsAgree(n)
  {
    hide AllFrom, AllTo, Tidy, Heads, Tails;
    ChainEndsIff(n, first, last);
  }

  // ----- flattening preserves the meaning --------------------------------------------------------

  /** In every chain, the tails of an element come last and the heads of the next come first. */
  predicate Proper(n: Delayable) {
    n.Single? || (
      && (forall i | 0 <= i < |n.elems| :: Proper(n.elems[i]))
      && (n.Chain? ==> forall i, j | 0 <= i && j == i + 1 < |n.elems| :: Links(n.elems[i], n.elems[j])))
  }

  predicate Links(e: Delayable, f: Delayable) {
    TailsLast(e) && HeadsFirst(f)
  }

  lemma FaithfulElem(n: Delayable, i: int)
    requires Tidy(n) && !n.Single? && 0 <= i < |n.elems| && Faithful(n)
    ensures Faithful(n.elems[i])
  {
    forall a, b | Before(n.elems[i], a, b) ensures Connected(n.elems[i], a, b) {
      BeforeLeaves(n.elems[i], a, b);
      assert Before(n, a, b);
      ConnectedInside(n, i, a, b);
    }
  }

  lemma SomeLeaf(n: Delayable) returns (l: Delayable)
    requires Tidy(n)
    ensures l in Leaves(n)
  {
    EndsAreLeaves(n);
    l :| l in Heads(n);
  }

  /** When the edges carry the precedence, they do so between an element of a chain and the next. */
  lemma FaithfulCrossing(n: Delayable, i: int)
    requires Tidy(n) && n.Chain? && 0 <= i < |n.elems| - 1 && Faithful(n)
    ensures AllTo(n.elems[i], Tails(n.elems[i])) && AllFrom(n.elems[i + 1], Heads(n.elems[i + 1]))
  {
    TidyElems(n);
    var e, f := n.elems[i], n.elems[i + 1];
    var x := SomeLeaf(e);
    var y := SomeLeaf(f);
    hide Tidy, Leaves, Heads, Tails, Connected;
    forall a <- Leaves(e) ensures To(e, Tails(e), a) {
      var t, h := CrossingBetween(n, i, a, y);
    }
    forall b <- Leaves(f) ensures From(f, Heads(f), b) {
      var t, h := CrossingBetween(n, i, x, b);
    }
  }

  lemma CrossingBetween(n: Delayable, i: int, a: Delayable, b: Delayable) returns (t: Delayable, h: Delayable)
    requires Tidy(n) && n.Chain? && 0 <= i < |n.elems| - 1 && Faithful(n)
    requires a in Leaves(n.elems[i]) && b in Leaves(n.elems[i + 1])
    ensures t in Tails(n.elems[i]) && AtOrBefore(n.elems[i], a, t)
    ensures h in Heads(n.elems[i + 1]) && AtOrBefore(n.elems[i + 1], h, b)
  {
    assert Before(n, a, b);
    var p :| EdgePath(n, p) && p[0] == a && p[|p| - 1] == b;
    t, h := Crossing(n, p, i);
  }

  /** The elements are faithful, and so are the crossings from each to the next. */
  ghost predicate ElemsFaithful(n: Delayable) {
    !n.Single? ==>
      && (forall i | 0 <= i < |n.elems| :: Faithful(n.elems[i]))
      && (n.Chain? ==> forall i, j | 0 <= i && j == i + 1 < |n.elems| :: Crosses(n.elems[i], n.elems[j]))
  }

  ghost predicate Crosses(e: Delayable, f: Delayable) {
    AllTo(e, Tails(e)) && AllFrom(f, Heads(f))
  }

  lemma CrossesIff(e: Delayable, f: Delayable)
    requires Tidy(e) && Tidy(f)
    ensures Crosses(e, f) <==> Links(e, f)
  {
    EndsIff(e);
    EndsIff(f);
    hide AllTo, AllFrom, TailsLast, HeadsFirst, Tails, Heads;
  }

  lemma ConnectedByEdge(n: Delayable, a: Delayable, b: Delayable)
    requires Edge(n, a, b)
    ensures Connected(n, a, b)
  {
    var p := [a, b];
    assert EdgePath(n, p) && p[0] == a && p[|p| - 1] == b;
  }

  lemma ConnectedAtOr(n: Delayable, i: int, a: Delayable, b: Delayable, c: Delayable)
    requires !n.Single? && 0 <= i < |n.elems| && Faithful(n.elems[i])
    ensures AtOrBefore(n.elems[i], a, b) && Connected(n, b, c) ==> Connected(n, a, c)
    ensures Connected(n, c, a) && AtOrBefore(n.elems[i], a, b) ==> Connected(n, c, b)
  {
    hide Connected;
    if a != b && AtOrBefore(n.elems[i], a, b) {
      ConnectedWithin(n, i, a, b);
      if Connected(n, b, c) {
        ConnectedTransitive(n, a, b, c);
      }
      if Connected(n, c, a) {
        ConnectedTransitive(n, c, a, b);
      }
    }
  }

  lemma {:induction false} ChainConnects(n: Delayable, i: int, j: int, a: Delayable, b: Delayable)
    requires Tidy(n) && n.Chain? && ElemsFaithful(n) && 0 <= i < j < |n.elems|
    requires a in Leaves(n.elems[i]) && b in Leaves(n.elems[j])
    ensures Connected(n, a, b)
    decreases j - i
  {
    hide Faithful, Connected;
    if j == i + 1 {
      assert Crosses(n.elems[i], n.elems[j]);
      assert To(n.elems[i], Tails(n.elems[i]), a) && From(n.elems[j], Heads(n.elems[j]), b);
      var t :| t in Tails(n.elems[i]) && AtOrBefore(n.elems[i], a, t);
      var h :| h in Heads(n.elems[j]) && AtOrBefore(n.elems[j], h, b);
      ConnectedByEdge(n, t, h);
      ConnectedAtOr(n, i, a, t, h);
      ConnectedAtOr(n, j, h, b, a);
    } else {
      TidyElems(n);
      var c := SomeLeaf(n.elems[j - 1]);
      ChainConnects(n, i, j - 1, a, c);
      ChainConnects(n, j - 1, j, c, b);
      ConnectedTransitive(n, a, c, b);
    }
  }

  lemma FaithfulElems(n: Delayable)
    requires Tidy(n) && !n.Single? && Faithful(n)
    ensures ElemsFaithful(n)
  {
    forall i | 0 <= i < |n.elems| ensures Faithful(n.elems[i]) {
      FaithfulElem(n, i);
    }
    forall i, j | n.Chain? && 0 <= i && j == i + 1 < |n.elems| ensures Crosses(n.elems[i], n.elems[j]) {
      FaithfulCrossing(n, i);
    }
    hide Faithful, Crosses, Tidy;
  }

  lemma ElemsMakeFaithful(n: Delayable)
    requires Tidy(n) && !n.Single? && ElemsFaithful(n)
    ensures Faithful(n)
  {
    forall a, b | Before(n, a, b) ensures Connected(n, a, b) {
      hide Connected, ElemsFaithful, Tidy;
      BeforeConnects(n, a, b);
    }
  }

  lemma BeforeConnects(n: Delayable, a: Delayable, b: Delayable)
    requires Tidy(n) && !n.Single? && ElemsFaithful(n) && Before(n, a, b)
    ensures Connected(n, a, b)
  {
    hide Connected, Tidy;
    if i :| 0 <= i < |n.elems| && Before(n.elems[i], a, b) {
      assert Faithful(n.elems[i]);
      ConnectedWithin(n, i, a, b);
    } else {
      var i, j :| 0 <= i < j < |n.elems| && a in Leaves(n.elems[i]) && b in Leaves(n.elems[j]);
      hide ElemsFaithful;
      ChainConnects(n, i, j, a, b);
    }
  }

  lemma {:induction false} FaithfulIffProper(n: Delayable)
    requires Tidy(n)
    ensures Faithful(n) <==> Proper(n)
  {
    if n.Single? {
      hide Connected;
    } else {
      TidyElems(n);
      hide Faithful, Crosses, Links, Tidy;
      forall i | 0 <= i < |n.elems| ensures Faithful(n.elems[i]) <==> Proper(n.elems[i]) {
        FaithfulIffProper(n.elems[i]);
      }
      forall i, j | 0 <= i && j == i + 1 < |n.elems|
        ensures Crosses(n.elems[i], n.elems[j]) <==> Links(n.elems[i], n.elems[j])
      {
        CrossesIff(n.elems[i], n.elems[j]);
      }
      if Faithful(n) {
        FaithfulElems(n);
      }
      if ElemsFaithful(n) {
        ElemsMakeFaithful(n);
      }
    }
  }

  /** Flattening preserves the precedence of a nesting exactly when the nesting is proper. */
  lemma FlattenIff(n: Delayable)
    requires Tidy(n)
    ensures (forall a, b :: Connected(n, a, b) <==> Before(n, a, b)) <==> Proper(n)
  {
    forall a, b | Connected(n, a, b) ensures Before(n, a, b) {
      var p :| EdgePath(n, p) && p[0] == a && p[|p| - 1] == b;
      PathBefore(n, p);
    }
    FaithfulIffProper(n);
    hide Connected, Before, Proper, Tidy;
  }

  /** A single delayable, or a group of such. */
  predicate Flat(n: Delayable) {
    n.Single? || (n.Group? && forall i | 0 <= i < |n.elems| :: Flat(n.elems[i]))
  }

  /** Every chain begins and ends with a flat element. */
  predicate FlatEnds(n: Delayable) {
    n.Single? || (
      && n.elems != [] && (forall i | 0 <= i < |n.elems| :: FlatEnds(n.elems[i]))
      && (n.Chain? ==> Flat(n.elems[0]) && Flat(n.elems[|n.elems| - 1])))
  }

  lemma {:induction false} FlatIsAll(n: Delayable)
    requires Flat(n)
    ensures HeadsFirst(n) && TailsFirst(n) && HeadsLast(n) && TailsLast(n)
  {
    if n.Group? {
      forall i | 0 <= i < |n.elems|
        ensures HeadsFirst(n.elems[i]) && TailsFirst(n.elems[i]) && HeadsLast(n.elems[i]) && TailsLast(n.elems[i])
      {
        FlatIsAll(n.elems[i]);
      }
    }
  }

  /** Such nestings are proper. */
  lemma {:induction false} FlatEndsAreProper(n: Delayable)
    requires FlatEnds(n)
    ensures Proper(n) && HeadsFirst(n) && TailsLast(n)
  {
    if !n.Single? {
      forall i | 0 <= i < |n.elems| ensures Proper(n.elems[i]) && HeadsFirst(n.elems[i]) && TailsLast(n.elems[i]) {
        FlatEndsAreProper(n.elems[i]);
      }
      if n.Chain? {
        FlatIsAll(n.elems[0]);
        FlatIsAll(n.elems[|n.elems| - 1]);
      }
    }
  }

  lemma TwoInChain(id: nat, a: Delayable, b: Delayable)
    requires Tidy(a) && Tidy(b) && Leaves(a) !! Leaves(b)
    ensures var c := Chain(id, [a, b]);
      Tidy(c) && Leaves(c) == Leaves(a) + Leaves(b) && Heads(c) == Tails(a) && Tails(c) == Heads(b)
  {
    var c := Chain(id, [a, b]);
    assert c.elems[0] == a && c.elems[1] == b;
    ElemLeaves(c, 0);
    ElemLeaves(c, 1);
    forall l <- Leaves(c) ensures l in Leaves(a) + Leaves(b) {
      var i := ElemOf(c, l);
    }
  }

  /** A chain that begins with a chain, following a job in a chain, breaks the order: the job `a` may
      start before `x` is done. */
  lemma NestedChainBreaks(x: Delayable, a: Delayable, b: Delayable, c: Delayable)
    requires x.Single? && a.Single? && b.Single? && c.Single?
    requires x != a && x != b && x != c && a != b && a != c && b != c
    ensures var n := Chain(2, [x, Chain(1, [Chain(0, [a, b]), c])]);
      Tidy(n) && Before(n, x, a) && !Connected(n, x, a) && Edge(n, x, b)
  {
    var ab := Chain(0, [a, b]);
    TwoInChain(0, a, b);
    var abc := Chain(1, [ab, c]);
    TwoInChain(1, ab, c);
    TwoInChain(2, x, abc);
    NestedAt(Chain(2, [x, abc]), x, abc, a, b);
    assert abc.elems[0] == ab && ab.elems[0] == a && ab.elems[1] == b;
    BeforeBy(abc, b, a, 0, 0);
    BeforeBy(ab, b, a, 1, 0);
  }

  lemma NestedAt(n: Delayable, x: Delayable, f: Delayable, a: Delayable, b: Delayable)
    requires n.Chain? && n.elems == [x, f] && Tidy(n) && x.Single? && a in Leaves(f) && Heads(f) == {b} && a != b
    ensures Before(n, x, a) && Edge(n, x, b) && (Connected(n, x, a) ==> Before(f, b, a))
  {
    assert n.elems[0] == x && n.elems[1] == f;
    assert x in Leaves(n.elems[0]) && a in Leaves(n.elems[1]);
    assert x in Tails(n.elems[0]) && b in Heads(n.elems[1]);
    if Connected(n, x, a) {
      var p :| EdgePath(n, p) && p[0] == x && p[|p| - 1] == a;
      var t, h := Crossing(n, p, 0);
    }
  }
}
