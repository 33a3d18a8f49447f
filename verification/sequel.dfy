/** What `on_done` means for the flat graph: the delayables given to it come after the whole of the one it is
    called on (queue_job/delay.py, lines 172-212, 340-348, 395-407 and 507-512). */
module Sequels {
  import opened Graphs
  import opened Nesting
  import opened Flattening
  import opened FlatGraph

  /** What `n.on_done(ds)` denotes: one element more at the end of the chain `n`, or a chain of `n` and what comes
      after; the delayables after `n` are not ordered among themselves. */
  function Sequel(id: nat, n: Delayable, ds: seq<Delayable>): Delayable {
    Chain(id, (if n.Chain? then n.elems else [n]) + [Group(id, ds)])
  }

  /** Nothing but that `on_done` has been called on the nestings since they were built. */
  ghost predicate LinkedOnce(own: Own, n: Delayable, ds: seq<Delayable>) {
    && n in own && own[n] == WithEdges(OwnLinks(n), Sources(n), Members(ds))
    && (forall x <- Parts(n) | x != n :: x in own && own[x] == OwnLinks(x))
    && (forall i | 0 <= i < |ds| :: AsBuilt(own, ds[i]))
  }

  ghost function AllParts(n: Delayable, ds: seq<Delayable>): set<Delayable> {
    Parts(n) + set i, x | 0 <= i < |ds| && x in Parts(ds[i]) :: x
  }

  // ----- what the sequel is ---------------------------------------------------------------------

  /** A tail of what `on_done` links from. */
  predicate FromSource(n: Delayable, t: Delayable) {
    exists s <- Sources(n) :: t in Tails(s)
  }

  /** A head of what it links to. */
  predicate ToMember(ds: seq<Delayable>, h: Delayable) {
    exists i | 0 <= i < |ds| :: h in Heads(ds[i])
  }

  /** The elements of the sequel that come from `n`. */
  function Front(n: Delayable): seq<Delayable> {
    if n.Chain? then n.elems else [n]
  }

  lemma SequelElems(id: nat, n: Delayable, ds: seq<Delayable>)
    ensures var w := Sequel(id, n, ds);
      && |w.elems| == |Front(n)| + 1 && w.elems[|Front(n)|] == Group(id, ds)
      && forall i | 0 <= i < |Front(n)| :: w.elems[i] == Front(n)[i]
    ensures Sequel(id, n, ds).Chain?
  {
  }

  lemma FrontLeaves(n: Delayable, l: Delayable)
    ensures l in Leaves(n) <==> exists i | 0 <= i < |Front(n)| :: l in Leaves(Front(n)[i])
  {
    if n.Chain? {
      LeavesByElems(n, l);
      assert Front(n) == n.elems;
    } else {
      assert Front(n)[0] == n;
    }
  }

  lemma SequelLeaves(id: nat, n: Delayable, ds: seq<Delayable>, l: Delayable)
    ensures l in Leaves(Sequel(id, n, ds)) <==> l in Leaves(n) || exists i | 0 <= i < |ds| :: l in Leaves(ds[i])
  {
    var w, g := Sequel(id, n, ds), Group(id, ds);
    SequelElems(id, n, ds);
    FrontLeaves(n, l);
    assert l in Leaves(g) <==> exists i | 0 <= i < |ds| :: l in Leaves(ds[i]);
    hide Sequel, Leaves, Front;
    LeavesByElems(w, l);
  }

  lemma LeavesByElems(w: Delayable, l: Delayable)
    requires !w.Single?
    ensures l in Leaves(w) <==> exists i | 0 <= i < |w.elems| :: l in Leaves(w.elems[i])
  {
  }

  lemma SourceTails(n: Delayable, t: Delayable)
    requires Front(n) != []
    ensures FromSource(n, t) <==> t in Tails(Front(n)[|Front(n)| - 1])
  {
    match n
    case Single(_) =>
    case Chain(_, es) =>
    case Group(_, es) =>
      if t in Tails(n) {
        var i :| 0 <= i < |es| && t in Tails(es[i]);
        assert es[i] in Sources(n);
      }
      if FromSource(n, t) {
        var s :| s in Sources(n) && t in Tails(s);
        var i :| 0 <= i < |es| && es[i] == s;
      }
  }

  /** The edges of a chain: within its elements, or from one to the next. */
  lemma EdgeByElems(w: Delayable, t: Delayable, h: Delayable)
    requires w.Chain?
    ensures Edge(w, t, h) <==>
      || (exists i | 0 <= i < |w.elems| :: Edge(w.elems[i], t, h))
      || (exists i | 0 <= i < |w.elems| - 1 :: t in Tails(w.elems[i]) && h in Heads(w.elems[i + 1]))
  {
  }

  lemma FrontEdge(n: Delayable, t: Delayable, h: Delayable)
    ensures Edge(n, t, h) <==>
      || (exists i | 0 <= i < |Front(n)| :: Edge(Front(n)[i], t, h))
      || (exists i | 0 <= i < |Front(n)| - 1 :: t in Tails(Front(n)[i]) && h in Heads(Front(n)[i + 1]))
  {
    if n.Chain? {
      EdgeByElems(n, t, h);
      assert Front(n) == n.elems;
    } else {
      assert Front(n)[0] == n;
    }
  }

  lemma GroupEdge(id: nat, ds: seq<Delayable>, t: Delayable, h: Delayable)
    ensures Edge(Group(id, ds), t, h) <==> exists i | 0 <= i < |ds| :: Edge(ds[i], t, h)
    ensures h in Heads(Group(id, ds)) <==> ToMember(ds, h)
  {
  }

  /** The edges of the sequel are those of its parts, and those from the tails of the sources to the heads of
      what comes after. */
  lemma SequelEdge(id: nat, n: Delayable, ds: seq<Delayable>, t: Delayable, h: Delayable)
    requires Front(n) != []
    ensures Edge(Sequel(id, n, ds), t, h) <==>
      || Edge(n, t, h) || (exists i | 0 <= i < |ds| :: Edge(ds[i], t, h))
      || (FromSource(n, t) && ToMember(ds, h))
  {
    hide Sequel, Edge, Front, FromSource, ToMember, Tails, Heads;
    var w, k := Sequel(id, n, ds), |Front(n)|;
    SequelElems(id, n, ds);
    SourceTails(n, t);
    FrontEdge(n, t, h);
    GroupEdge(id, ds, t, h);
    EdgeByElems(w, t, h);
    if i :| 0 <= i < k && Edge(Front(n)[i], t, h) {
      assert Edge(w.elems[i], t, h);
    }
    if i :| 0 <= i < k - 1 && t in Tails(Front(n)[i]) && h in Heads(Front(n)[i + 1]) {
      assert t in Tails(w.elems[i]) && h in Heads(w.elems[i + 1]);
    }
    assert w.elems[k] == Group(id, ds);
    if FromSource(n, t) && ToMember(ds, h) {
      assert t in Tails(w.elems[k - 1]) && h in Heads(w.elems[k - 1 + 1]);
    }
  }

  // ----- the merged graph -----------------------------------------------------------------------

  lemma {:induction false} PartIsSmaller(n: Delayable, x: Delayable)
    requires x in Parts(n)
    ensures x == n || x < n
  {
    if x != n {
      var i :| 0 <= i < |n.elems| && x in Parts(n.elems[i]);
      PartIsSmaller(n.elems[i], x);
      assert n.elems[i] < n;
    }
  }

  lemma ElemAsBuilt(own: Own, n: Delayable, ds: seq<Delayable>, i: int)
    requires LinkedOnce(own, n, ds) && !n.Single? && 0 <= i < |n.elems|
    ensures AsBuilt(own, n.elems[i])
  {
    forall x <- Parts(n.elems[i]) ensures x in own && own[x] == OwnLinks(x) {
      PartIsSmaller(n.elems[i], x);
      PartOf(n, i, x);
      assert n.elems[i] < n;
    }
  }

  lemma Follows(g: Links<Delayable>, t: Delayable, h: Delayable, v: Delayable, m: Delayable)
    requires v in g && t in Tails(v) && m in g[v] && h in Heads(m)
    ensures h in Following(g, t)
  {
    assert h in AllHeads(g[v]);
    assert h in FollowingBy(g, v, t);
  }

  /** More links let more follow. */
  lemma FollowingGrows(g: Links<Delayable>, now: Links<Delayable>, t: Delayable, h: Delayable)
    requires h in Following(g, t) && forall v <- g :: v in now && g[v] <= now[v]
    ensures h in Following(now, t)
  {
    var v, m := FollowedBy(g, t, h);
    Follows(now, t, h, v, m);
  }

  /** The links that `on_done` adds. */
  lemma LinkedFollowing(n: Delayable, ds: seq<Delayable>, t: Delayable, h: Delayable)
    ensures h in Following(WithEdges(OwnLinks(n), Sources(n), Members(ds)), t) <==>
      OwnEdge(n, t, h) || (FromSource(n, t) && ToMember(ds, h))
  {
    FollowingIs(n, t, h);
    hide OwnLinks, Sources, Tails, Heads, OwnEdge, Following;
    var g, now := OwnLinks(n), WithEdges(OwnLinks(n), Sources(n), Members(ds));
    if h in Following(now, t) {
      var v, m := FollowedBy(now, t, h);
      if v in g && m in g[v] {
        Follows(g, t, h, v, m);
      } else {
        assert v in Sources(n) && m in Members(ds);
        var i :| 0 <= i < |ds| && ds[i] == m;
        assert FromSource(n, t) && ToMember(ds, h);
      }
    }
    if h in Following(g, t) {
      FollowingGrows(g, now, t, h);
    }
    if FromSource(n, t) && ToMember(ds, h) {
      var s :| s in Sources(n) && t in Tails(s);
      var i :| 0 <= i < |ds| && h in Heads(ds[i]);
      assert ds[i] in Members(ds);
      Follows(now, t, h, s, ds[i]);
    }
  }

  lemma SourcesAreParts(n: Delayable)
    requires Tidy(n)
    ensures Sources(n) <= Parts(n) && Sources(n) <= OwnLinks(n).Keys && Sources(n) != {} && Front(n) != []
  {
    OwnVertices(n);
    match n
    case Single(_) =>
    case Chain(_, es) => assert es[|es| - 1] in Elems(n);
    case Group(_, es) => assert es[0] in Elems(n);
  }

  lemma MemberParts(n: Delayable, ds: seq<Delayable>, i: int)
    requires 0 <= i < |ds|
    ensures Parts(ds[i]) <= AllParts(n, ds) && ds[i] in Parts(ds[i]) && ds[i] in Members(ds)
  {
  }

  lemma PartsClosed(own: Own, n: Delayable, ds: seq<Delayable>)
    requires LinkedOnce(own, n, ds) && Tidy(n)
    ensures ClosedUnder(own, AllParts(n, ds))
  {
    SourcesAreParts(n);
    forall x <- AllParts(n, ds) | x in own ensures own[x].Keys <= AllParts(n, ds) {
      OwnVertices(x);
      hide Parts, OwnLinks, Sources, Tidy;
      if x == n {
        forall y <- Members(ds) ensures y in AllParts(n, ds) {
          var i :| 0 <= i < |ds| && ds[i] == y;
          MemberParts(n, ds, i);
        }
      } else if x in Parts(n) {
        PartsOfParts(n, x);
      } else {
        var i :| 0 <= i < |ds| && x in Parts(ds[i]);
        PartsOfParts(ds[i], x);
        MemberParts(n, ds, i);
      }
    }
  }

  lemma MembersReached(own: Own, n: Delayable, ds: seq<Delayable>, reach: set<Delayable>, i: int)
    requires LinkedOnce(own, n, ds) && Sources(n) != {} && n in reach && ClosedUnder(own, reach) && 0 <= i < |ds|
    ensures Parts(ds[i]) <= reach
  {
    hide Parts, OwnLinks, Sources, AsBuilt;
    assert ds[i] in Members(ds);
    assert ds[i] in own[n].Keys;
    PartsReached(own, reach, ds[i]);
  }

  lemma ElemsReached(own: Own, n: Delayable, ds: seq<Delayable>, reach: set<Delayable>, i: int)
    requires LinkedOnce(own, n, ds) && n in reach && ClosedUnder(own, reach) && !n.Single? && 0 <= i < |n.elems|
    ensures Parts(n.elems[i]) <= reach
  {
    ElemAsBuilt(own, n, ds, i);
    assert n.elems[i] in OwnLinks(n);
    hide Parts, OwnLinks, Sources, AsBuilt;
    assert n.elems[i] in own[n].Keys;
    PartsReached(own, reach, n.elems[i]);
  }

  lemma AllReached(n: Delayable, ds: seq<Delayable>, reach: set<Delayable>)
    requires n in reach && forall i | 0 <= i < |ds| :: Parts(ds[i]) <= reach
    requires !n.Single? ==> forall i | 0 <= i < |n.elems| :: Parts(n.elems[i]) <= reach
    ensures AllParts(n, ds) <= reach
  {
  }

  /** Exactly the parts of the nestings are visited. */
  lemma SequelReach(own: Own, n: Delayable, ds: seq<Delayable>, reach: set<Delayable>)
    requires LinkedOnce(own, n, ds) && Tidy(n) && IsReach(own, n, reach)
    ensures reach == AllParts(n, ds)
  {
    PartsClosed(own, n, ds);
    SourcesAreParts(n);
    hide Parts, OwnLinks, Sources, Tidy, LinkedOnce, ClosedUnder;
    forall i | 0 <= i < |ds| ensures Parts(ds[i]) <= reach {
      MembersReached(own, n, ds, reach, i);
    }
    if !n.Single? {
      forall i | 0 <= i < |n.elems| ensures Parts(n.elems[i]) <= reach {
        ElemsReached(own, n, ds, reach, i);
      }
    }
    AllReached(n, ds, reach);
    NIsPart(n, ds);
  }

  lemma NIsPart(n: Delayable, ds: seq<Delayable>)
    ensures n in AllParts(n, ds)
  {
  }

  // ----- vertices and edges ---------------------------------------------------------------------

  lemma LinkedTails(n: Delayable, ds: seq<Delayable>, t: Delayable)
    requires Tidy(n) && ds != []
    ensures t in AllTails(WithEdges(OwnLinks(n), Sources(n), Members(ds))) <==>
      t in AllTails(OwnLinks(n)) || exists i | 0 <= i < |ds| :: t in Tails(ds[i])
  {
    SourcesAreParts(n);
    hide OwnLinks, Sources, Tails, Tidy, Parts;
    var g, now := OwnLinks(n), WithEdges(OwnLinks(n), Sources(n), Members(ds));
    assert ds[0] in Members(ds);
    if v :| v in now && t in Tails(v) && v !in g {
      assert v in Members(ds);
      var i :| 0 <= i < |ds| && ds[i] == v;
    }
    if v :| v in g && t in Tails(v) {
      assert v in now;
    }
    if i :| 0 <= i < |ds| && t in Tails(ds[i]) {
      assert ds[i] in Members(ds);
      assert ds[i] in now;
    }
  }

  /** A part brings in leaves as vertices only. */
  lemma VertexIsLeaf(own: Own, n: Delayable, ds: seq<Delayable>, x: Delayable, t: Delayable)
    requires LinkedOnce(own, n, ds) && Tidy(n) && ds != [] && forall i | 0 <= i < |ds| :: Tidy(ds[i])
    requires x in AllParts(n, ds) && x in own && t in AllTails(own[x])
    ensures t in Leaves(n) || exists i | 0 <= i < |ds| :: t in Leaves(ds[i])
  {
    hide AllTails, OwnLinks, Sources, Tails, Tidy, Parts, Leaves, AsBuilt;
    if x == n {
      LinkedTails(n, ds, t);
      if t in AllTails(OwnLinks(n)) {
        ItIsAPart(n);
        VerticesIff(n, t);
      } else {
        var i :| 0 <= i < |ds| && t in Tails(ds[i]);
        EndsAreLeaves(ds[i]);
      }
    } else if x in Parts(n) {
      VerticesIff(n, t);
    } else {
      var i :| 0 <= i < |ds| && x in Parts(ds[i]);
      BuiltSo(own, ds[i], x);
      VerticesIff(ds[i], t);
    }
  }

  lemma ItIsAPart(n: Delayable)
    ensures n in Parts(n)
  {
  }

  lemma BuiltSo(own: Own, d: Delayable, x: Delayable)
    requires AsBuilt(own, d) && x in Parts(d)
    ensures x in own && own[x] == OwnLinks(x)
  {
  }

  lemma LeafIsVertex(own: Own, n: Delayable, ds: seq<Delayable>, t: Delayable) returns (x: Delayable)
    requires LinkedOnce(own, n, ds) && Tidy(n) && ds != [] && forall i | 0 <= i < |ds| :: Tidy(ds[i])
    requires t in Leaves(n) || exists i | 0 <= i < |ds| :: t in Leaves(ds[i])
    ensures x in AllParts(n, ds) && x in own && t in AllTails(own[x])
  {
    hide AllTails, OwnLinks, Sources, Tails, Tidy, Parts, Leaves, AsBuilt;
    if t in Leaves(n) {
      VerticesIff(n, t);
      x :| x in Parts(n) && t in AllTails(OwnLinks(x));
      if x == n {
        LinkedTails(n, ds, t);
      }
    } else {
      var i :| 0 <= i < |ds| && t in Leaves(ds[i]);
      VerticesIff(ds[i], t);
      x :| x in Parts(ds[i]) && t in AllTails(OwnLinks(x));
      BuiltSo(own, ds[i], x);
      MemberParts(n, ds, i);
      if x == n {
        LinkedTails(n, ds, t);
      }
    }
  }

  /** A part brings in the edges of the nestings, and `n` those to what comes after. */
  lemma FollowingIsEdge(own: Own, n: Delayable, ds: seq<Delayable>, x: Delayable, t: Delayable, h: Delayable)
    requires LinkedOnce(own, n, ds) && x in AllParts(n, ds) && x in own && h in Following(own[x], t)
    ensures Edge(n, t, h) || (exists i | 0 <= i < |ds| :: Edge(ds[i], t, h)) || (FromSource(n, t) && ToMember(ds, h))
  {
    hide Following, OwnLinks, Sources, Tails, Parts, Edge, OwnEdge, FromSource, ToMember, AsBuilt;
    if x == n {
      ItIsAPart(n);
      LinkedFollowing(n, ds, t, h);
      EdgeIff(n, t, h);
    } else if x in Parts(n) {
      FollowingIs(x, t, h);
      EdgeIff(n, t, h);
    } else {
      var i :| 0 <= i < |ds| && x in Parts(ds[i]);
      BuiltSo(own, ds[i], x);
      FollowingIs(x, t, h);
      EdgeIff(ds[i], t, h);
    }
  }

  lemma EdgeIsFollowing(own: Own, n: Delayable, ds: seq<Delayable>, t: Delayable, h: Delayable) returns (x: Delayable)
    requires LinkedOnce(own, n, ds)
    requires Edge(n, t, h) || (exists i | 0 <= i < |ds| :: Edge(ds[i], t, h)) || (FromSource(n, t) && ToMember(ds, h))
    ensures x in AllParts(n, ds) && x in own && h in Following(own[x], t)
  {
    hide Following, OwnLinks, Sources, Tails, Parts, Edge, OwnEdge, FromSource, ToMember, AsBuilt;
    LinkedFollowing(n, ds, t, h);
    if Edge(n, t, h) {
      EdgeIff(n, t, h);
      x :| x in Parts(n) && OwnEdge(x, t, h);
      FollowingIs(x, t, h);
    } else if i :| 0 <= i < |ds| && Edge(ds[i], t, h) {
      EdgeIff(ds[i], t, h);
      x :| x in Parts(ds[i]) && OwnEdge(x, t, h);
      FollowingIs(x, t, h);
      BuiltSo(own, ds[i], x);
      MemberParts(n, ds, i);
    } else {
      x := n;
      ItIsAPart(n);
    }
  }

  // ----- the theorem ------------------------------------------------------------------------------

  lemma TidyMembers(id: nat, n: Delayable, ds: seq<Delayable>)
    requires Tidy(Sequel(id, n, ds))
    ensures ds != [] && forall i | 0 <= i < |ds| :: Tidy(ds[i])
  {
    var w := Sequel(id, n, ds);
    assert w.elems[|w.elems| - 1] == Group(id, ds);
  }

  lemma SequelVertices(own: Own, id: nat, n: Delayable, ds: seq<Delayable>, links: Links<Delayable>)
    requires Tidy(n) && Tidy(Sequel(id, n, ds)) && LinkedOnce(own, n, ds) && IsMergeOf(own, AllParts(n, ds), links)
    ensures links.Keys == Leaves(Sequel(id, n, ds))
  {
    TidyMembers(id, n, ds);
    hide AllParts, Following, AllTails, Tidy, Leaves, LinkedOnce, Sequel;
    forall t ensures t in links <==> t in Leaves(Sequel(id, n, ds)) {
      SequelLeaves(id, n, ds, t);
      if t in links {
        var x :| x in AllParts(n, ds) && t in AllTails(own[x]);
        VertexIsLeaf(own, n, ds, x, t);
      }
      if t in Leaves(Sequel(id, n, ds)) {
        var x := LeafIsVertex(own, n, ds, t);
      }
    }
  }

  lemma SequelLinks(own: Own, id: nat, n: Delayable, ds: seq<Delayable>, links: Links<Delayable>)
    requires Tidy(n) && LinkedOnce(own, n, ds) && IsMergeOf(own, AllParts(n, ds), links)
    ensures forall t, h :: (t in links && h in links[t]) <==> Edge(Sequel(id, n, ds), t, h)
  {
    SourcesAreParts(n);
    hide AllParts, Following, AllTails, Edge, Tidy, LinkedOnce, Front, Sequel;
    forall t, h ensures (t in links && h in links[t]) <==> Edge(Sequel(id, n, ds), t, h) {
      SequelEdge(id, n, ds, t, h);
      if t in links && h in links[t] {
        var x :| x in AllParts(n, ds) && h in Following(own[x], t);
        FollowingIsEdge(own, n, ds, x, t, h);
      }
      if Edge(Sequel(id, n, ds), t, h) {
        var x := EdgeIsFollowing(own, n, ds, t, h);
        if t !in AllTails(own[x]) {
          NotFollowed(own[x], t);
        }
      }
    }
  }

  lemma NoLeafTwice(id: nat, n: Delayable, ds: seq<Delayable>, i: int, l: Delayable)
    requires Tidy(Sequel(id, n, ds)) && 0 <= i < |ds| && l in Leaves(n)
    ensures l !in Leaves(ds[i])
  {
    var w, k := Sequel(id, n, ds), |Front(n)|;
    SequelElems(id, n, ds);
    FrontLeaves(n, l);
    LeavesByElems(Group(id, ds), l);
    hide Tidy, Leaves, Front, Sequel;
    var j :| 0 <= j < k && l in Leaves(Front(n)[j]);
    if l in Leaves(ds[i]) {
      OneElem(w, l, j, k);
      assert false;
    }
  }

  /** What comes after a nesting does not hold it. */
  lemma NotWithin(id: nat, n: Delayable, ds: seq<Delayable>, i: int)
    requires Tidy(n) && Tidy(Sequel(id, n, ds)) && 0 <= i < |ds|
    ensures n !in Parts(ds[i])
  {
    TidyMembers(id, n, ds);
    EndsAreLeaves(n);
    hide Tidy, Leaves, Parts, Sequel, Heads, Tails;
    var l :| l in Heads(n);
    NoLeafTwice(id, n, ds, i, l);
    if n in Parts(ds[i]) {
      TidyParts(ds[i], n);
      assert false;
    }
  }

  /** That is how `on_done` leaves nestings as they were built. */
  lemma OnDoneLinks(own: Own, id: nat, n: Delayable, ds: seq<Delayable>)
    requires Tidy(n) && Tidy(Sequel(id, n, ds)) && AsBuilt(own, n) && forall i | 0 <= i < |ds| :: AsBuilt(own, ds[i])
    ensures LinkedOnce(own[n := WithEdges(own[n], Sources(n), Members(ds))], n, ds)
  {
    ItIsAPart(n);
    hide Tidy, Parts, Sequel, OwnLinks, WithEdges, Sources;
    var now := own[n := WithEdges(own[n], Sources(n), Members(ds))];
    forall i | 0 <= i < |ds| ensures AsBuilt(now, ds[i]) {
      NotWithin(id, n, ds, i);
    }
  }

  /** Calling `on_done` on a nesting and delaying it gives a graph with all their single delayables, whose order
      is the one meant, everything of the nesting before everything given to `on_done`, exactly when the sequel is
      proper. */
  lemma OnDonePreservesIff(
      own: Own, id: nat, n: Delayable, ds: seq<Delayable>, reach: set<Delayable>, links: Links<Delayable>)
    requires Tidy(n) && Tidy(Sequel(id, n, ds)) && LinkedOnce(own, n, ds)
    requires IsReach(own, n, reach) && IsMergeOf(own, reach, links)
    ensures links.Keys == Leaves(Sequel(id, n, ds))
    ensures (forall a, b :: Leads(links, a, b) <==> Before(Sequel(id, n, ds), a, b)) <==> Proper(Sequel(id, n, ds))
    ensures forall v :: !Stuck(links, v)
  {
    hide *;
    SequelReach(own, n, ds, reach);
    SequelVertices(own, id, n, ds, links);
    SequelLinks(own, id, n, ds, links);
    var w := Sequel(id, n, ds);
    forall a, b ensures Leads(links, a, b) <==> Connected(w, a, b) {
      LeadsIff(w, links, a, b);
    }
    FlattenIff(w);
    forall v ensures !Stuck(links, v) {
      forall u ensures !OnCycle(links, u) {
        NoCycle(w, links, u);
      }
      NotStuck(links, v);
    }
  }
}
