/** The graph that chains and groups are flattened into, against the precedence they denote
    (queue_job/delay.py, lines 172-214, 278-280, 319-334 and 376-386). */
module FlatGraph {
  import opened Graphs
  import opened Nesting
  import opened Flattening

  // ----- any links, even in circles ---------------------------------------------------------------

  /** The ends of a delayable that is reached are single delayables that are reached. */
  lemma {:induction false} EndsReached(own: Own, reach: set<Delayable>, d: Delayable)
    requires Built(own) && reach <= own.Keys && ClosedUnder(own, reach) && d in reach
    ensures forall e <- Heads(d) + Tails(d) :: e.Single? && e in reach
  {
    match d
    case Single(_) =>
    case Chain(_, es) =>
      if es != [] {
        ElemReached(own, reach, d, 0);
        ElemReached(own, reach, d, |es| - 1);
        EndsReached(own, reach, es[0]);
        EndsReached(own, reach, es[|es| - 1]);
      }
    case Group(_, es) =>
      forall i | 0 <= i < |es| ensures forall e <- Heads(es[i]) + Tails(es[i]) :: e.Single? && e in reach {
        ElemReached(own, reach, d, i);
        EndsReached(own, reach, es[i]);
      }
  }

  lemma ElemReached(own: Own, reach: set<Delayable>, d: Delayable, i: int)
    requires Built(own) && reach <= own.Keys && ClosedUnder(own, reach) && d in reach
    requires !d.Single? && 0 <= i < |d.elems|
    ensures d.elems[i] in reach
  {
    assert d.elems[i] in OwnLinks(d);
  }

  lemma FollowedBy(g: Links<Delayable>, t: Delayable, h: Delayable) returns (v: Delayable, n: Delayable)
    requires h in Following(g, t)
    ensures v in g && t in Tails(v) && n in g[v] && h in Heads(n)
  {
    v :| v in g && h in FollowingBy(g, v, t);
    n :| n in g[v] && h in Heads(n);
  }

  /** The vertices of the merged graph are single delayables, and every edge ends in a vertex. */
  lemma MergeClosed(own: Own, start: Delayable, reach: set<Delayable>, links: Links<Delayable>)
    requires Built(own) && IsReach(own, start, reach) && IsMergeOf(own, reach, links)
    ensures Graphs.Closed(links) && forall v <- links :: v.Single?
  {
    forall t <- links ensures t.Single? && links[t] <= links.Keys {
      var d :| d in reach && t in AllTails(own[d]);
      var v :| v in own[d] && t in Tails(v);
      EndsReached(own, reach, v);
      forall h <- links[t] ensures h in links {
        var e :| e in reach && h in Following(own[e], t);
        FollowedIsVertex(own, reach, links, e, t, h);
      }
    }
  }

  lemma FollowedIsVertex(own: Own, reach: set<Delayable>, links: Links<Delayable>, e: Delayable, t: Delayable, h: Delayable)
    requires Built(own) && ClosedUnder(own, reach) && IsMergeOf(own, reach, links)
    requires e in reach && h in Following(own[e], t)
    ensures h in links
  {
    var v, n := FollowedBy(own[e], t, h);
    EndsReached(own, reach, n);
    assert h in OwnLinks(h);
    assert h in Tails(h);
    assert h in AllTails(own[h]);
  }

  // ----- one nesting, as it was built -------------------------------------------------------------

  ghost function Parts(n: Delayable): set<Delayable> {
    {n} + if n.Single? then {} else set i, x | 0 <= i < |n.elems| && x in Parts(n.elems[i]) :: x
  }

  /** No links were added to the graphs of the nesting's parts. */
  ghost predicate AsBuilt(own: Own, n: Delayable) {
    forall x <- Parts(n) :: x in own && own[x] == OwnLinks(x)
  }

  lemma PartOf(n: Delayable, i: int, x: Delayable)
    requires !n.Single? && 0 <= i < |n.elems| && x in Parts(n.elems[i])
    ensures x in Parts(n)
  {
  }

  lemma {:induction false} PartsOfParts(n: Delayable, x: Delayable)
    requires x in Parts(n)
    ensures Parts(x) <= Parts(n)
  {
    if x != n {
      var i :| 0 <= i < |n.elems| && x in Parts(n.elems[i]);
      PartsOfParts(n.elems[i], x);
      forall y <- Parts(x) ensures y in Parts(n) {
        PartOf(n, i, y);
      }
    }
  }

  lemma OwnVertices(x: Delayable)
    ensures OwnLinks(x).Keys <= Parts(x)
  {
    if !x.Single? {
      forall e <- Elems(x) ensures e in Parts(x) {
        var i :| 0 <= i < |x.elems| && x.elems[i] == e;
        assert e in Parts(x.elems[i]);
        PartOf(x, i, e);
      }
    }
  }

  lemma {:induction false} PartsReached(own: Own, reach: set<Delayable>, n: Delayable)
    requires AsBuilt(own, n) && ClosedUnder(own, reach) && n in reach
    ensures Parts(n) <= reach
  {
    if !n.Single? {
      forall i, x | 0 <= i < |n.elems| && x in Parts(n.elems[i]) ensures x in reach {
        assert n.elems[i] in OwnLinks(n);
        assert n.elems[i] in reach;
        forall y <- Parts(n.elems[i]) ensures y in Parts(n) {
          PartOf(n, i, y);
        }
        PartsReached(own, reach, n.elems[i]);
      }
    }
  }

  /** Exactly the parts of the nesting are visited. */
  lemma ReachIsParts(own: Own, n: Delayable, reach: set<Delayable>)
    requires AsBuilt(own, n) && IsReach(own, n, reach)
    ensures reach == Parts(n)
  {
    forall x <- Parts(n) | x in own ensures own[x].Keys <= Parts(n) {
      OwnVertices(x);
      PartsOfParts(n, x);
    }
    assert ClosedUnder(own, Parts(n));
    PartsReached(own, reach, n);
  }

  /** The edges a part brings in on its own. */
  ghost predicate OwnEdge(x: Delayable, t: Delayable, h: Delayable) {
    x.Chain? && exists i | 0 <= i < |x.elems| - 1 :: t in Tails(x.elems[i]) && h in Heads(x.elems[i + 1])
  }

  lemma FollowingIs(x: Delayable, t: Delayable, h: Delayable)
    ensures h in Following(OwnLinks(x), t) <==> OwnEdge(x, t, h)
  {
    var g := OwnLinks(x);
    if h in Following(g, t) {
      var v, n := FollowedBy(g, t, h);
      assert x.Chain?;
      var i, j :| 0 <= i < |x.elems| && 0 <= j < |x.elems| && j == i + 1 && x.elems[i] == v && x.elems[j] == n;
    }
    if OwnEdge(x, t, h) {
      var i :| 0 <= i < |x.elems| - 1 && t in Tails(x.elems[i]) && h in Heads(x.elems[i + 1]);
      var j := i + 1;
      assert x.elems[j] in g[x.elems[i]];
      assert h in AllHeads(g[x.elems[i]]);
      assert h in FollowingBy(g, x.elems[i], t);
    }
  }

  /** The edges of a nesting are those its parts bring in. */
  lemma {:induction false} EdgeIff(n: Delayable, t: Delayable, h: Delayable)
    ensures Edge(n, t, h) <==> exists x <- Parts(n) :: OwnEdge(x, t, h)
  {
    if !n.Single? {
      forall i | 0 <= i < |n.elems| ensures Edge(n.elems[i], t, h) <==> exists x <- Parts(n.elems[i]) :: OwnEdge(x, t, h) {
        EdgeIff(n.elems[i], t, h);
      }
      hide OwnEdge;
      if x :| x in Parts(n) && OwnEdge(x, t, h) {
        EdgeOfPart(n, x, t, h);
      }
      if Edge(n, t, h) {
        PartOfEdge(n, t, h);
      }
    }
  }

  lemma EdgeOfPart(n: Delayable, x: Delayable, t: Delayable, h: Delayable)
    requires !n.Single? && x in Parts(n) && OwnEdge(x, t, h)
    requires forall i | 0 <= i < |n.elems| :: Edge(n.elems[i], t, h) <==> exists x <- Parts(n.elems[i]) :: OwnEdge(x, t, h)
    ensures Edge(n, t, h)
  {
    if x != n {
      var i :| 0 <= i < |n.elems| && x in Parts(n.elems[i]);
      assert Edge(n.elems[i], t, h);
    }
  }

  lemma PartOfEdge(n: Delayable, t: Delayable, h: Delayable)
    requires !n.Single? && Edge(n, t, h)
    requires forall i | 0 <= i < |n.elems| :: Edge(n.elems[i], t, h) <==> exists x <- Parts(n.elems[i]) :: OwnEdge(x, t, h)
    ensures exists x <- Parts(n) :: OwnEdge(x, t, h)
  {
    if i :| 0 <= i < |n.elems| && Edge(n.elems[i], t, h) {
      var x :| x in Parts(n.elems[i]) && OwnEdge(x, t, h);
      PartOf(n, i, x);
    } else {
      assert OwnEdge(n, t, h);
    }
  }

  lemma {:induction false} TidyParts(n: Delayable, x: Delayable)
    requires Tidy(n) && x in Parts(n)
    ensures Tidy(x) && Leaves(x) <= Leaves(n)
  {
    if x != n {
      var i :| 0 <= i < |n.elems| && x in Parts(n.elems[i]);
      TidyParts(n.elems[i], x);
      ElemLeaves(n, i);
    }
  }

  lemma {:induction false} LeavesAreParts(n: Delayable, l: Delayable)
    requires l in Leaves(n)
    ensures l in Parts(n) && l.Single?
  {
    if !n.Single? {
      var i := ElemOf(n, l);
      LeavesAreParts(n.elems[i], l);
      PartOf(n, i, l);
    }
  }

  lemma VerticesIff(n: Delayable, t: Delayable)
    requires Tidy(n)
    ensures t in Leaves(n) <==> exists x <- Parts(n) :: t in AllTails(OwnLinks(x))
  {
    if x :| x in Parts(n) && t in AllTails(OwnLinks(x)) {
      var v :| v in OwnLinks(x) && t in Tails(v);
      OwnVertices(x);
      PartsOfParts(n, x);
      TidyParts(n, v);
      EndsAreLeaves(v);
    }
    if t in Leaves(n) {
      LeavesAreParts(n, t);
      assert t in OwnLinks(t) && t in Tails(t);
      assert t in AllTails(OwnLinks(t));
    }
  }

  /** The flat graph of a nesting: its vertices are the single delayables, its edges lead from tails to
      heads. */
  lemma FlatLinks(own: Own, n: Delayable, reach: set<Delayable>, links: Links<Delayable>)
    requires Tidy(n) && AsBuilt(own, n) && IsReach(own, n, reach) && IsMergeOf(own, reach, links)
    ensures links.Keys == Leaves(n)
    ensures forall t, h :: (t in links && h in links[t]) <==> Edge(n, t, h)
  {
    ReachIsParts(own, n, reach);
    hide IsReach, Parts, Following, AllTails, Edge, Tidy;
    forall t ensures t in links <==> t in Leaves(n) {
      VerticesIff(n, t);
    }
    forall t, h ensures (t in links && h in links[t]) <==> Edge(n, t, h) {
      EdgeIff(n, t, h);
      hide OwnEdge;
      forall x <- Parts(n) ensures h in Following(own[x], t) <==> OwnEdge(x, t, h) {
        FollowingIs(x, t, h);
      }
      if Edge(n, t, h) {
        EdgeBefore(n, t, h);
        BeforeLeaves(n, t, h);
      }
    }
  }

  lemma WalkIff(n: Delayable, links: Links<Delayable>, p: seq<Delayable>)
    requires forall t, h :: (t in links && h in links[t]) <==> Edge(n, t, h)
    ensures Walk(links, p) <==> EdgePath(n, p)
  {
    hide Edge;
    if Walk(links, p) {
      forall i | 0 <= i < |p| - 1 ensures Edge(n, p[i], p[i + 1]) {
        assert p[i] in links && p[i + 1] in links[p[i]];
      }
    }
    if EdgePath(n, p) {
      forall i | 0 <= i < |p| - 1 ensures p[i] in links && p[i + 1] in links[p[i]] {
        assert Edge(n, p[i], p[i + 1]);
      }
    }
  }

  /** Whoever is linked by the flat graph, directly or not. */
  lemma LeadsIff(n: Delayable, links: Links<Delayable>, a: Delayable, b: Delayable)
    requires forall t, h :: (t in links && h in links[t]) <==> Edge(n, t, h)
    ensures Leads(links, a, b) <==> Connected(n, a, b)
  {
    hide Edge;
    forall p ensures Walk(links, p) <==> EdgePath(n, p) {
      WalkIff(n, links, p);
    }
    hide Walk, EdgePath;
    if Leads(links, a, b) {
      var p :| Walk(links, p) && p[0] == a && p[|p| - 1] == b;
    }
  }

  /** Flattening a nesting gives a graph whose vertices are its single delayables and whose order is the
      one the nesting denotes, exactly when the nesting is proper. */
  lemma FlattenPreservesIff(own: Own, n: Delayable, reach: set<Delayable>, links: Links<Delayable>)
    requires Tidy(n) && AsBuilt(own, n) && IsReach(own, n, reach) && IsMergeOf(own, reach, links)
    ensures links.Keys == Leaves(n)
    ensures (forall a, b :: Leads(links, a, b) <==> Before(n, a, b)) <==> Proper(n)
  {
    FlatLinks(own, n, reach, links);
    hide *;
    forall a, b ensures Leads(links, a, b) <==> Connected(n, a, b) {
      LeadsIff(n, links, a, b);
    }
    FlattenIff(n);
  }

  lemma {:induction false} NotBeforeItself(n: Delayable, a: Delayable)
    requires Tidy(n)
    ensures !Before(n, a, a)
  {
    if Before(n, a, a) {
      BeforeLeaves(n, a, a);
      var i := ElemOf(n, a);
      BeforeBy(n, a, a, i, i);
      NotBeforeItself(n.elems[i], a);
    }
  }

  /** The flat graph of any nesting has no cycle, so the sort gives all its delayables. */
  lemma FlatHasNoCycle(own: Own, n: Delayable, reach: set<Delayable>, links: Links<Delayable>, v: Delayable)
    requires Tidy(n) && AsBuilt(own, n) && IsReach(own, n, reach) && IsMergeOf(own, reach, links)
    ensures !Stuck(links, v)
  {
    FlatLinks(own, n, reach, links);
    hide *;
    forall u ensures !OnCycle(links, u) {
      NoCycle(n, links, u);
    }
    NotStuck(links, v);
  }

  lemma NoCycle(n: Delayable, links: Links<Delayable>, u: Delayable)
    requires Tidy(n) && forall t, h :: (t in links && h in links[t]) <==> Edge(n, t, h)
    ensures !OnCycle(links, u)
  {
    LeadsIff(n, links, u, u);
    NotBeforeItself(n, u);
    forall p | EdgePath(n, p) ensures Before(n, p[0], p[|p| - 1]) {
      PathBefore(n, p);
    }
    hide Edge, Before, Leads, EdgePath;
  }

  lemma NotStuck(links: Links<Delayable>, v: Delayable)
    requires forall u :: !OnCycle(links, u)
    ensures !Stuck(links, v)
  {
  }
}
