/** The graphs of chains, groups and single delayables, and how they are merged into one
    (queue_job/delay.py, lines 63-79, 166-214, 316-347, 368-396 and 464-512). */
module Flattening {
  import opened Graphs
  import opened Maps
  import opened Nesting

  /** The content of the graph of every delayable. */
  type Own = map<Delayable, Links<Delayable>>

  /** The graph a delayable is born with. */
  function OwnLinks(d: Delayable): Links<Delayable> {
    match d
    case Single(_) => map[d := {}]
    case Chain(_, es) => map e <- Elems(d) :: set i, j | 0 <= i < |es| && 0 <= j < |es| && j == i + 1 && es[i] == e :: es[j]
    case Group(_, _) => map e <- Elems(d) :: {}
  }

  function Elems(d: Delayable): set<Delayable>
    requires !d.Single?
  {
    set e <- d.elems
  }

  /** Whose edges `on_done` adds: the delayable itself, the last of a chain, each of a group. */
  function Sources(d: Delayable): set<Delayable> {
    match d
    case Single(_) => {d}
    case Chain(_, es) => if es == [] then {} else {es[|es| - 1]}
    case Group(_, _) => Elems(d)
  }

  function EdgeEnds(parents: set<Delayable>, children: set<Delayable>): set<Delayable> {
    if parents == {} || children == {} then {} else parents + children
  }

  /** An edge from each of the parents to each of the children. */
  function WithEdges(g: Links<Delayable>, parents: set<Delayable>, children: set<Delayable>): Links<Delayable> {
    map v <- g.Keys + EdgeEnds(parents, children) :: LinksOf(g, v) + (if v in parents then children else {})
  }

  // ----- merging ------------------------------------------------------------------------------

  function AllTails(g: Links<Delayable>): set<Delayable> {
    set v <- g, t <- Tails(v) :: t
  }

  function AllHeads(neighbours: set<Delayable>): set<Delayable> {
    set n <- neighbours, h <- Heads(n) :: h
  }

  function FollowingBy(g: Links<Delayable>, v: Delayable, t: Delayable): set<Delayable>
    requires v in g
  {
    if t in Tails(v) then AllHeads(g[v]) else {}
  }

  /** The heads of what comes next, for a vertex that is a tail. */
  function Following(g: Links<Delayable>, t: Delayable): set<Delayable> {
    set v <- g, h <- FollowingBy(g, v, t) :: h
  }

  function Merged(links: Links<Delayable>, g: Links<Delayable>): Links<Delayable> {
    map t <- links.Keys + AllTails(g) :: LinksOf(links, t) + Following(g, t)
  }

  /** The vertices of a set of tails get these children. */
  function Extended(links: Links<Delayable>, tails: set<Delayable>, heads: set<Delayable>): Links<Delayable> {
    map t <- links.Keys + tails :: LinksOf(links, t) + (if t in tails then heads else {})
  }

  function Part(g: Links<Delayable>, vs: set<Delayable>): Links<Delayable> {
    map v <- g | v in vs :: g[v]
  }

  lemma FollowingMore(g: Links<Delayable>, done: set<Delayable>, v: Delayable, t: Delayable)
    requires v in g && done <= g.Keys
    ensures Following(Part(g, done + {v}), t) == Following(Part(g, done), t) + FollowingBy(g, v, t)
  {
    var p, q := Part(g, done), Part(g, done + {v});
    forall x <- p ensures FollowingBy(p, x, t) == FollowingBy(q, x, t) {
    }
    assert FollowingBy(q, v, t) == FollowingBy(g, v, t);
    hide FollowingBy;
    forall h ensures h in Following(q, t) <==> h in Following(p, t) + FollowingBy(g, v, t) {
      if h in FollowingBy(g, v, t) {
        assert v in q;
      }
    }
  }

  lemma NotFollowed(g: Links<Delayable>, t: Delayable)
    requires t !in AllTails(g)
    ensures Following(g, t) == {}
  {
    forall v <- g ensures FollowingBy(g, v, t) == {} {
    }
    hide FollowingBy;
  }

  lemma MergedAt(links: Links<Delayable>, g: Links<Delayable>, t: Delayable)
    ensures LinksOf(Merged(links, g), t) == LinksOf(links, t) + Following(g, t)
  {
    if t !in AllTails(g) {
      NotFollowed(g, t);
    }
  }

  lemma TailsMore(g: Links<Delayable>, done: set<Delayable>, v: Delayable)
    requires v in g && done <= g.Keys
    ensures AllTails(Part(g, done + {v})) == AllTails(Part(g, done)) + Tails(v)
  {
    hide Tails;
    var p, q := Part(g, done), Part(g, done + {v});
    forall t ensures t in AllTails(q) <==> t in AllTails(p) + Tails(v) {
      if t in Tails(v) {
        assert v in q;
      }
      if x :| x in p && t in Tails(x) {
        assert x in q;
      }
    }
  }

  lemma MergedMore(links: Links<Delayable>, g: Links<Delayable>, done: set<Delayable>, v: Delayable)
    requires v in g && done <= g.Keys
    ensures Extended(Merged(links, Part(g, done)), Tails(v), AllHeads(g[v])) == Merged(links, Part(g, done + {v}))
  {
    var p, q := Part(g, done), Part(g, done + {v});
    var m := Merged(links, p);
    TailsMore(g, done, v);
    hide Tails, AllTails, Part, Following, AllHeads;
    forall t | t in m.Keys + Tails(v)
      ensures LinksOf(m, t) + (if t in Tails(v) then AllHeads(g[v]) else {}) == LinksOf(links, t) + Following(q, t)
    {
      hide Merged, LinksOf;
      FollowingMore(g, done, v, t);
      MergedAt(links, p, t);
    }
    SameMaps(Extended(m, Tails(v), AllHeads(g[v])), Merged(links, q));
  }

  lemma MergedNothing(links: Links<Delayable>, g: Links<Delayable>)
    ensures Merged(links, Part(g, {})) == links && Part(g, g.Keys) == g
  {
    var p := Part(g, {});
    var n := Merged(links, p);
    assert AllTails(p) == {};
    forall t <- links ensures n[t] == links[t] {
      NotFollowed(p, t);
    }
    assert n.Keys == links.Keys;
    assert n == links;
    assert Part(g, g.Keys) == g;
  }

  lemma ExtendedNothing(links: Links<Delayable>, heads: set<Delayable>)
    ensures Extended(links, {}, heads) == links
  {
    var n := Extended(links, {}, heads);
    assert n.Keys == links.Keys && forall t <- links :: n[t] == links[t];
    assert n == links;
  }

  lemma ExtendedMore(links: Links<Delayable>, done: set<Delayable>, heads: set<Delayable>, t: Delayable)
    requires t !in done
    ensures var n := Extended(links, done, heads);
      n[t := LinksOf(n, t) + heads] == Extended(links, done + {t}, heads)
  {
    var n := Extended(links, done, heads);
    var a, b := n[t := LinksOf(n, t) + heads], Extended(links, done + {t}, heads);
    assert a.Keys == b.Keys;
    forall x <- a ensures a[x] == b[x] {
    }
    assert a == b;
  }

  /** Merge a graph into another: the tails of every vertex are connected with the heads of its
      neighbours. */
  method MergeGraph(result: Graph<Delayable>, g: Graph<Delayable>)
    requires result != g
    modifies result
    ensures result.graph == Merged(old(result.graph), g.graph)
  {
    ghost var links := result.graph;
    var toCome := g.graph.Keys;
    MergedNothing(links, g.graph);
    assert g.graph.Keys - toCome == {};
    while toCome != {}
      invariant toCome <= g.graph.Keys
      invariant result.graph == Merged(links, Part(g.graph, g.graph.Keys - toCome))
      decreases toCome
    {
      hide Merged, Tails, Heads, AllHeads;
      var vertex :| vertex in toCome;
      ghost var done := g.graph.Keys - toCome;
      ConnectTails(result, Tails(vertex), AllHeads(g.graph[vertex]));
      MergedMore(links, g.graph, done, vertex);
      toCome := toCome - {vertex};
      assert g.graph.Keys - toCome == done + {vertex};
    }
    assert g.graph.Keys - {} == g.graph.Keys;
  }

  method ConnectTails(result: Graph<Delayable>, tails: set<Delayable>, heads: set<Delayable>)
    modifies result
    ensures result.graph == Extended(old(result.graph), tails, heads)
  {
    ghost var links := result.graph;
    var toCome := tails;
    ExtendedNothing(links, heads);
    assert tails - toCome == {};
    while toCome != {}
      invariant toCome <= tails && result.graph == Extended(links, tails - toCome, heads)
      decreases toCome
    {
      hide Extended;
      var tail :| tail in toCome;
      ExtendedMore(links, tails - toCome, heads, tail);
      result.graph := result.graph[tail := LinksOf(result.graph, tail) + heads];
      assert tails - (toCome - {tail}) == (tails - toCome) + {tail};
      toCome := toCome - {tail};
    }
    assert tails - {} == tails;
  }

  // ----- what is reached ------------------------------------------------------------------------

  ghost predicate ClosedUnder(own: Own, s: set<Delayable>) {
    forall d <- s | d in own :: own[d].Keys <= s
  }

  /** The delayables found by going from a graph to its vertices, and on. */
  ghost predicate IsReach(own: Own, start: Delayable, reach: set<Delayable>) {
    && start in reach && reach <= own.Keys && ClosedUnder(own, reach)
    && forall s: set<Delayable> | start in s && ClosedUnder(own, s) :: reach <= s
  }

  /** The links of all these graphs together, and nothing else. */
  ghost predicate IsMergeOf(own: Own, merged: set<Delayable>, links: Links<Delayable>) {
    && merged <= own.Keys
    && (forall t :: t in links <==> exists d <- merged :: t in AllTails(own[d]))
    && (forall t, h | t in links :: h in links[t] <==> exists d <- merged :: h in Following(own[d], t))
  }

  lemma MergedOne(own: Own, merged: set<Delayable>, links: Links<Delayable>, d: Delayable)
    requires IsMergeOf(own, merged, links) && d in own
    ensures IsMergeOf(own, merged + {d}, Merged(links, own[d]))
  {
    var n := Merged(links, own[d]);
    hide Following, AllTails, Tails, Heads;
    forall t, h | t in n ensures h in n[t] <==> exists x <- merged + {d} :: h in Following(own[x], t) {
      if t !in links {
        forall x <- merged ensures Following(own[x], t) == {} {
          NotFollowed(own[x], t);
        }
      }
    }
  }

  lemma MergedNone(own: Own)
    ensures IsMergeOf(own, {}, map[])
  {
  }

  // ----- the delayables and their graphs ----------------------------------------------------------

  /** Every graph holds its delayable's parts, and vertices are delayables with graphs of their own. */
  ghost predicate Built(own: Own) {
    forall d <- own :: OwnLinks(d).Keys <= own[d].Keys && own[d].Keys <= own.Keys && Graphs.Closed(own[d])
  }

  class Workflow {
    /** The graph object of every delayable made so far. */
    var graphOf: map<Delayable, Graph<Delayable>>

    ghost predicate Valid()
      reads this, graphOf.Values
    {
      && (forall d <- graphOf, e <- graphOf | d != e :: graphOf[d] != graphOf[e])
      && Built(Contents())
    }

    ghost function Contents(): Own
      reads this, graphOf.Values
    {
      map d <- graphOf :: graphOf[d].graph
    }

    constructor ()
      ensures Valid() && graphOf == map[]
    {
      graphOf := map[];
    }

    /** Keep a new delayable with the graph that was made for it. */
    method Keep(d: Delayable, g: Graph<Delayable>)
      requires Valid() && d !in graphOf && g !in graphOf.Values && g.graph == OwnLinks(d)
      requires OwnLinks(d).Keys <= graphOf.Keys + {d} && Graphs.Closed(OwnLinks(d))
      modifies this
      ensures Valid() && graphOf == old(graphOf)[d := g] && Contents() == old(Contents())[d := OwnLinks(d)]
    {
      hide OwnLinks;
      ghost var own := Contents();
      graphOf := graphOf[d := g];
      forall e <- graphOf | e != d ensures graphOf[e] in old(graphOf).Values {
        assert e in old(graphOf);
      }
      assert Contents() == own[d := OwnLinks(d)];
    }

    method NewSingle(id: nat) returns (d: Delayable)
      requires Valid() && Single(id) !in graphOf
      modifies this
      ensures Valid() && d == Single(id) && Contents() == old(Contents())[d := OwnLinks(d)]
    {
      d := Single(id);
      var g := new Graph<Delayable>();
      g.AddVertex(d);
      Keep(d, g);
    }

    method NewChain(id: nat, elems: seq<Delayable>) returns (d: Delayable)
      requires Valid() && elems != [] && Chain(id, elems) !in graphOf && forall e <- elems :: e in graphOf
      modifies this
      ensures Valid() && d == Chain(id, elems) && Contents() == old(Contents())[d := OwnLinks(d)]
    {
      d := Chain(id, elems);
      var g := ChainGraph(id, elems);
      ChainClosed(id, elems);
      hide OwnLinks;
      Keep(d, g);
    }

    method NewGroup(id: nat, members: seq<Delayable>) returns (d: Delayable)
      requires Valid() && Group(id, members) !in graphOf && forall e <- members :: e in graphOf
      modifies this
      ensures Valid() && d == Group(id, members) && Contents() == old(Contents())[d := OwnLinks(d)]
    {
      d := Group(id, members);
      var g := GroupGraph(id, members);
      GroupClosed(id, members);
      hide OwnLinks;
      Keep(d, g);
    }

    /** The given delayables come after this one: its sources get edges to them. */
    method OnDone(d: Delayable, children: seq<Delayable>)
      requires Valid() && d in graphOf && forall c <- children :: c in graphOf
      modifies graphOf[d]
      ensures Valid() && graphOf == old(graphOf)
      ensures Contents() == old(Contents())[d := WithEdges(old(Contents())[d], Sources(d), Members(children))]
    {
      hide OwnLinks;
      ghost var own := Contents();
      assert own[d] == graphOf[d].graph;
      AddEdges(graphOf[d], Sources(d), children);
      forall e <- graphOf | e != d ensures graphOf[e].graph == own[e] {
      }
      ghost var now := WithEdges(own[d], Sources(d), Members(children));
      SameMaps(Contents(), own[d := now]);
      SourcesIn(d);
      StillBuilt(own, d, Sources(d), Members(children));
    }

    /** Visit the graphs of the vertices of the graph, and of their vertices, and so on, and merge them
        all in a new one. A graph is visited once, so this ends on links that run in circles too. */
    method ConnectGraphs(start: Delayable) returns (result: Graph<Delayable>, ghost reach: set<Delayable>)
      requires Valid() && start in graphOf
      ensures fresh(result) && Valid() && Contents() == old(Contents())
      ensures IsReach(Contents(), start, reach) && IsMergeOf(Contents(), reach, result.graph)
    {
      hide IsMergeOf, Merged, OwnLinks, Reaching, IsReach;
      ghost var own := Contents();
      result := new Graph<Delayable>();
      MergedNone(own);
      assert own[start] == graphOf[start].graph;
      MergedOne(own, {}, result.graph, start);
      MergeGraph(result, graphOf[start]);
      reach := {} + {start};
      var seen: set<Delayable> := {};
      var visitStack := [start];
      StartReaching(own, start);
      while visitStack != []
        invariant fresh(result) && Valid() && Contents() == own && IsMergeOf(own, reach, result.graph)
        invariant Reaching(own, start, reach, seen, visitStack) && seen <= own.Keys
        decreases own.Keys - seen, |visitStack|
      {
        var current := visitStack[0];
        StackIn(own, start, reach, seen, visitStack);
        if current in seen {
          AlreadySeen(own, start, reach, seen, visitStack);
          visitStack := visitStack[1..];
        } else {
          ghost var before, reached := visitStack, reach;
          visitStack, reach := VisitVertices(current, result, visitStack[1..], reach);
          VisitedOne(own, start, reached, seen, before, reach, visitStack);
          seen := seen + {current};
        }
      }
      Reached(own, start, reach, seen);
    }

    /** The graphs of the vertices are merged, and the vertices pushed to be visited. */
    method VisitVertices(current: Delayable, result: Graph<Delayable>, stack: seq<Delayable>, ghost reach: set<Delayable>)
      returns (more: seq<Delayable>, ghost reached: set<Delayable>)
      requires Valid() && current in graphOf && result !in graphOf.Values
      requires IsMergeOf(Contents(), reach, result.graph)
      modifies result
      ensures Valid() && Contents() == old(Contents())
      ensures var vertices := Contents()[current].Keys;
        && vertices <= Contents().Keys && reached == reach + vertices && Members(more) == Members(stack) + vertices
      ensures IsMergeOf(Contents(), reached, result.graph)
    {
      hide IsMergeOf, Merged, OwnLinks;
      ghost var own := Contents();
      more, reached := stack, reach;
      var vertices := graphOf[current].graph.Keys;
      assert own[current].Keys == vertices;
      var toCome := vertices;
      while toCome != {}
        invariant toCome <= vertices <= own.Keys
        invariant Valid() && Contents() == own && IsMergeOf(own, reached, result.graph)
        invariant reached == reach + (vertices - toCome) && Members(more) == Members(stack) + (vertices - toCome)
        decreases toCome
      {
        var vertex :| vertex in toCome;
        assert own[vertex] == graphOf[vertex].graph;
        MergedOne(own, reached, result.graph, vertex);
        MergeGraph(result, graphOf[vertex]);
        reached := reached + {vertex};
        OneMoreMember(more, vertex);
        more := more + [vertex];
        toCome := toCome - {vertex};
      }
    }
  }

  /** Each element is followed by the next one. */
  method ChainGraph(id: nat, elems: seq<Delayable>) returns (g: Graph<Delayable>)
    requires elems != []
    ensures fresh(g) && g.graph == OwnLinks(Chain(id, elems))
  {
    g := new Graph<Delayable>();
    var head := elems[0];
    g.AddVertex(head);
    OneInChain(id, elems);
    for i := 1 to |elems|
      invariant fresh(g) && head == elems[i - 1] && g.graph == OwnLinks(Chain(id, elems[..i]))
    {
      hide OwnLinks;
      OneMoreInChain(id, elems, i);
      g.AddEdge(head, elems[i]);
      SameMaps(g.graph, OwnLinks(Chain(id, elems[..i + 1])));
      head := elems[i];
    }
    assert elems[..|elems|] == elems;
  }

  method GroupGraph(id: nat, members: seq<Delayable>) returns (g: Graph<Delayable>)
    ensures fresh(g) && g.graph == OwnLinks(Group(id, members))
  {
    g := new Graph<Delayable>();
    for i := 0 to |members|
      invariant fresh(g) && g.graph == OwnLinks(Group(id, members[..i]))
    {
      assert members[..i + 1] == members[..i] + [members[i]];
      g.AddVertex(members[i]);
      SameMaps(g.graph, OwnLinks(Group(id, members[..i + 1])));
    }
    assert members[..|members|] == members;
  }

  lemma GroupClosed(id: nat, members: seq<Delayable>)
    ensures Graphs.Closed(OwnLinks(Group(id, members))) && OwnLinks(Group(id, members)).Keys == set e <- members
  {
  }

  lemma OneInChain(id: nat, elems: seq<Delayable>)
    requires elems != []
    ensures OwnLinks(Chain(id, elems[..1])) == map[elems[0] := {}]
  {
    var n := OwnLinks(Chain(id, elems[..1]));
    assert elems[..1] == [elems[0]];
    assert n.Keys == {elems[0]} && n[elems[0]] == {};
    SameMaps(n, map[elems[0] := {}]);
  }

  ghost predicate Consecutive(s: seq<Delayable>, v: Delayable, w: Delayable) {
    exists k :: 0 < k < |s| && s[k - 1] == v && s[k] == w
  }

  lemma StillConsecutive(s: seq<Delayable>, x: Delayable, v: Delayable, w: Delayable)
    requires Consecutive(s, v, w) || (s != [] && v == s[|s| - 1] && w == x)
    ensures Consecutive(s + [x], v, w)
  {
    var t := s + [x];
    if k :| 0 < k < |s| && s[k - 1] == v && s[k] == w {
      assert t[k - 1] == v && t[k] == w;
    } else {
      assert t[|s| - 1] == v && t[|s|] == w;
    }
  }

  lemma WasConsecutive(s: seq<Delayable>, x: Delayable, v: Delayable, w: Delayable)
    requires s != [] && Consecutive(s + [x], v, w)
    ensures Consecutive(s, v, w) || (v == s[|s| - 1] && w == x)
  {
    var t := s + [x];
    var k :| 0 < k < |t| && t[k - 1] == v && t[k] == w;
    if k < |s| {
      assert s[k - 1] == v && s[k] == w;
    }
  }

  lemma ConsecutiveMore(s: seq<Delayable>, x: Delayable, v: Delayable, w: Delayable)
    requires s != []
    ensures Consecutive(s + [x], v, w) <==> Consecutive(s, v, w) || (v == s[|s| - 1] && w == x)
  {
    hide Consecutive;
    if Consecutive(s, v, w) || (v == s[|s| - 1] && w == x) {
      StillConsecutive(s, x, v, w);
    }
    if Consecutive(s + [x], v, w) {
      WasConsecutive(s, x, v, w);
    }
  }

  lemma ChainLinks(id: nat, s: seq<Delayable>, v: Delayable, w: Delayable)
    ensures w in LinksOf(OwnLinks(Chain(id, s)), v) <==> Consecutive(s, v, w)
  {
    var g := OwnLinks(Chain(id, s));
    if k :| 0 < k < |s| && s[k - 1] == v && s[k] == w {
      assert v in g;
    }
  }

  lemma ChainKeys(id: nat, s: seq<Delayable>)
    ensures OwnLinks(Chain(id, s)).Keys == set e <- s
  {
  }

  /** One more element, linked from the one before. */
  lemma OneMoreInChain(id: nat, elems: seq<Delayable>, i: int)
    requires 0 < i < |elems|
    ensures var a, b := OwnLinks(Chain(id, elems[..i])), OwnLinks(Chain(id, elems[..i + 1]));
      && b.Keys == a.Keys + {elems[i - 1], elems[i]}
      && forall v <- b :: b[v] == LinksOf(a, v) + (if v == elems[i - 1] then {elems[i]} else {})
  {
    var s, t := elems[..i], elems[..i + 1];
    assert t == s + [elems[i]];
    ChainKeys(id, s);
    ChainKeys(id, t);
    hide OwnLinks, Consecutive;
    var a, b := OwnLinks(Chain(id, s)), OwnLinks(Chain(id, t));
    forall v <- b ensures b[v] == LinksOf(a, v) + (if v == elems[i - 1] then {elems[i]} else {}) {
      forall w ensures w in b[v] <==> w in LinksOf(a, v) + (if v == elems[i - 1] then {elems[i]} else {}) {
        ChainLinks(id, t, v, w);
        ChainLinks(id, s, v, w);
        ConsecutiveMore(s, elems[i], v, w);
      }
    }
  }

  lemma ChainClosed(id: nat, elems: seq<Delayable>)
    ensures Graphs.Closed(OwnLinks(Chain(id, elems))) && OwnLinks(Chain(id, elems)).Keys == set e <- elems
  {
  }

  lemma OneMoreMember(s: seq<Delayable>, x: Delayable)
    ensures Members(s + [x]) == Members(s) + {x}
  {
    assert forall y :: y in s + [x] <==> y in s || y == x;
  }

  /** What has been merged is reached; what is reached but not yet visited is on the stack. */
  ghost predicate Reaching(own: Own, start: Delayable, reach: set<Delayable>, seen: set<Delayable>, stack: seq<Delayable>) {
    && start in reach && reach <= own.Keys && seen <= reach && reach == seen + Members(stack)
    && (forall d <- seen :: own[d].Keys <= reach)
    && forall s: set<Delayable> | start in s && ClosedUnder(own, s) :: reach <= s
  }

  lemma StartReaching(own: Own, start: Delayable)
    requires start in own
    ensures Reaching(own, start, {} + {start}, {}, [start])
  {
  }

  lemma StackIn(own: Own, start: Delayable, reach: set<Delayable>, seen: set<Delayable>, stack: seq<Delayable>)
    requires Reaching(own, start, reach, seen, stack) && stack != []
    ensures stack[0] in reach && stack[0] in own
  {
    assert stack[0] in Members(stack);
  }

  lemma Tail(stack: seq<Delayable>)
    requires stack != []
    ensures Members(stack) == {stack[0]} + Members(stack[1..])
  {
    assert stack == [stack[0]] + stack[1..];
  }

  lemma AlreadySeen(own: Own, start: Delayable, reach: set<Delayable>, seen: set<Delayable>, stack: seq<Delayable>)
    requires Reaching(own, start, reach, seen, stack) && stack != [] && stack[0] in seen
    ensures Reaching(own, start, reach, seen, stack[1..])
  {
    Tail(stack);
  }

  lemma VisitedOne(own: Own, start: Delayable, reach: set<Delayable>, seen: set<Delayable>, stack: seq<Delayable>,
      now: set<Delayable>, rest: seq<Delayable>)
    requires Reaching(own, start, reach, seen, stack) && stack != [] && stack[0] in own && own[stack[0]].Keys <= own.Keys
    requires now == reach + own[stack[0]].Keys && Members(rest) == Members(stack[1..]) + own[stack[0]].Keys
    ensures Reaching(own, start, now, seen + {stack[0]}, rest)
  {
    Tail(stack);
    forall s: set<Delayable> | start in s && ClosedUnder(own, s) ensures now <= s {
      assert stack[0] in reach;
      assert reach <= s;
    }
  }

  lemma Reached(own: Own, start: Delayable, reach: set<Delayable>, seen: set<Delayable>)
    requires Reaching(own, start, reach, seen, [])
    ensures IsReach(own, start, reach)
  {
    assert Members<Delayable>([]) == {};
  }

  lemma SourcesIn(d: Delayable)
    ensures Sources(d) <= OwnLinks(d).Keys
  {
  }

  lemma StillBuilt(own: Own, d: Delayable, parents: set<Delayable>, children: set<Delayable>)
    requires Built(own) && d in own && children <= own.Keys && parents <= own[d].Keys
    ensures Built(own[d := WithEdges(own[d], parents, children)])
  {
  }

  method AddEdges(g: Graph<Delayable>, parents: set<Delayable>, children: seq<Delayable>)
    modifies g
    ensures g.graph == WithEdges(old(g.graph), parents, Members(children))
  {
    hide WithEdges, Members;
    ghost var g0 := g.graph;
    var toCome := parents;
    assert parents - toCome == {};
    NoEdges(g0, {}, Members(children));
    while toCome != {}
      invariant toCome <= parents && g.graph == WithEdges(g0, parents - toCome, Members(children))
      decreases toCome
    {
      var parent :| parent in toCome;
      AddChildren(g, parent, children);
      ParentMore(g0, parents - toCome, parent, Members(children));
      assert parents - (toCome - {parent}) == (parents - toCome) + {parent};
      toCome := toCome - {parent};
    }
    assert parents - {} == parents;
  }

  method AddChildren(g: Graph<Delayable>, parent: Delayable, children: seq<Delayable>)
    modifies g
    ensures g.graph == WithEdges(old(g.graph), {parent}, Members(children))
  {
    ghost var g0 := g.graph;
    NoEdges(g0, {parent}, {});
    assert Members(children[..0]) == {};
    hide WithEdges;
    for i := 0 to |children|
      invariant g.graph == WithEdges(g0, {parent}, Members(children[..i]))
    {
      g.AddEdge(parent, children[i]);
      assert children[..i + 1] == children[..i] + [children[i]];
      OneMoreMember(children[..i], children[i]);
      EdgeMore(g0, parent, Members(children[..i]), children[i], g.graph);
    }
    assert children[..|children|] == children;
  }

  lemma EdgesAt(g: Links<Delayable>, ps: set<Delayable>, cs: set<Delayable>, v: Delayable)
    ensures LinksOf(WithEdges(g, ps, cs), v) == LinksOf(g, v) + (if v in ps then cs else {})
  {
  }

  lemma EdgeMore(g: Links<Delayable>, p: Delayable, cs: set<Delayable>, c: Delayable, n: Links<Delayable>)
    requires var h := WithEdges(g, {p}, cs);
      n.Keys == h.Keys + {p, c} && forall v <- n :: n[v] == LinksOf(h, v) + (if v == p then {c} else {})
    ensures n == WithEdges(g, {p}, cs + {c})
  {
    var m := WithEdges(g, {p}, cs + {c});
    assert cs + {c} != {};
    assert n.Keys == m.Keys;
    hide WithEdges, EdgeEnds;
    forall v <- n ensures n[v] == m[v] {
      EdgesAt(g, {p}, cs, v);
      EdgesAt(g, {p}, cs + {c}, v);
    }
    SameMaps(n, m);
  }

  lemma ParentMore(g: Links<Delayable>, ps: set<Delayable>, p: Delayable, cs: set<Delayable>)
    ensures WithEdges(WithEdges(g, ps, cs), {p}, cs) == WithEdges(g, ps + {p}, cs)
  {
    var n, m := WithEdges(WithEdges(g, ps, cs), {p}, cs), WithEdges(g, ps + {p}, cs);
    ParentKeys(g, ps, p, cs);
    hide WithEdges, EdgeEnds;
    forall v <- n ensures n[v] == m[v] {
      EdgesAt(g, ps, cs, v);
      EdgesAt(WithEdges(g, ps, cs), {p}, cs, v);
      EdgesAt(g, ps + {p}, cs, v);
    }
    SameMaps(n, m);
  }

  lemma ParentKeys(g: Links<Delayable>, ps: set<Delayable>, p: Delayable, cs: set<Delayable>)
    ensures WithEdges(WithEdges(g, ps, cs), {p}, cs).Keys == WithEdges(g, ps + {p}, cs).Keys
  {
    hide LinksOf;
    var h := WithEdges(g, ps, cs);
    assert ps + {p} != {};
    assert WithEdges(h, {p}, cs).Keys == g.Keys + EdgeEnds(ps, cs) + EdgeEnds({p}, cs);
    assert EdgeEnds(ps, cs) + EdgeEnds({p}, cs) == EdgeEnds(ps + {p}, cs);
  }

  lemma NoEdges(g: Links<Delayable>, parents: set<Delayable>, children: set<Delayable>)
    requires parents == {} || children == {}
    ensures WithEdges(g, parents, children) == g
  {
    var n := WithEdges(g, parents, children);
    assert n.Keys == g.Keys;
    forall v <- g ensures n[v] == g[v] {
    }
    hide WithEdges;
    SameMaps(n, g);
  }
}
