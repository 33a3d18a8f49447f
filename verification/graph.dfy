/** Directed graphs of jobs: the order they can be run in, and the paths through them
    (queue_job/delay.py, lines 49-164). */
module Graphs {

  /** The children of every vertex. */
  type Links<V> = map<V, set<V>>

  /** Every edge ends in a vertex. */
  ghost predicate Closed<V>(g: Links<V>) {
    forall v <- g :: g[v] <= g.Keys
  }

  function LinksOf<V>(g: Links<V>, v: V): set<V> {
    if v in g then g[v] else {}
  }

  function Parents<V>(g: Links<V>, v: V): set<V> {
    set u <- g | v in g[u]
  }

  /** The vertices that depend on nothing. */
  ghost function Roots<V>(g: Links<V>): set<V> {
    set v <- g | Parents(g, v) == {}
  }

  ghost function Members<V>(out: seq<V>): set<V> {
    set v <- out
  }

  ghost predicate Distinct<V>(s: seq<V>) {
    forall i, j | 0 <= i < j < |s| :: s[i] != s[j]
  }

  // ----- walks --------------------------------------------------------------------------------

  /** Two vertices at least, each linked to the next. */
  ghost predicate Walk<V>(g: Links<V>, p: seq<V>) {
    |p| >= 2 && forall i | 0 <= i < |p| - 1 :: p[i] in g && p[i + 1] in g[p[i]]
  }

  ghost predicate Leads<V(!new)>(g: Links<V>, u: V, v: V) {
    exists p :: Walk(g, p) && p[0] == u && p[|p| - 1] == v
  }

  ghost predicate OnCycle<V(!new)>(g: Links<V>, v: V) {
    Leads(g, v, v)
  }

  /** A cycle goes through the vertex or through one of its ancestors. */
  ghost predicate Stuck<V(!new)>(g: Links<V>, v: V) {
    OnCycle(g, v) || exists u <- g :: OnCycle(g, u) && Leads(g, u, v)
  }

  /** In that order no vertex comes before one of its parents, or twice. */
  ghost predicate Ordered<V>(g: Links<V>, out: seq<V>) {
    && (forall i, j | 0 <= i < j < |out| :: out[i] != out[j])
    && (forall i, u | 0 <= i < |out| && u in Parents(g, out[i]) :: u in out[..i])
  }

  // ----- what is left out of an order are the vertices behind a cycle ---------------------------

  lemma {:induction false} WalkBackInOrder<V(!new)>(g: Links<V>, out: seq<V>, p: seq<V>, i: nat)
    requires Ordered(g, out) && Walk(g, p) && i < |out| && out[i] == p[|p| - 1]
    ensures p[0] in out[..i]
    decreases |p|
  {
    var u := p[|p| - 2];
    assert u in Parents(g, out[i]);
    var k :| 0 <= k < i && out[..i][k] == u;
    if |p| > 2 {
      var q := p[..|p| - 1];
      WalkBackInOrder(g, out, q, k);
      assert out[..k] <= out[..i];
    }
  }

  lemma NotBefore<V>(out: seq<V>, k: nat)
    requires k < |out| && forall i, j | 0 <= i < j < |out| :: out[i] != out[j]
    ensures out[k] !in out[..k]
  {
  }

  lemma NotOnCycle<V(!new)>(g: Links<V>, out: seq<V>, k: nat)
    requires Ordered(g, out) && k < |out|
    ensures !OnCycle(g, out[k])
  {
    NotBefore(out, k);
    forall p | Walk(g, p) && p[|p| - 1] == out[k] ensures p[0] != out[k] {
      WalkBackInOrder(g, out, p, k);
    }
  }

  lemma NoneStuckInOrder<V(!new)>(g: Links<V>, out: seq<V>, i: nat)
    requires Ordered(g, out) && i < |out|
    ensures !Stuck(g, out[i])
  {
    NotOnCycle(g, out, i);
    forall u | Leads(g, u, out[i]) ensures !OnCycle(g, u) {
      var p :| Walk(g, p) && p[0] == u && p[|p| - 1] == out[i];
      WalkBackInOrder(g, out, p, i);
      var k :| 0 <= k < i && out[..i][k] == u;
      NotOnCycle(g, out, k);
    }
  }

  lemma DistinctWithin<V>(p: seq<V>, s: set<V>)
    requires Distinct(p) && Members(p) <= s
    ensures |p| <= |s|
  {
    if p != [] {
      var last := p[|p| - 1];
      assert last in Members(p);
      assert Members(p[..|p| - 1]) <= s - {last};
      DistinctWithin(p[..|p| - 1], s - {last});
    }
  }

  /** Every vertex left out has a parent that is left out. */
  ghost predicate NoRootOutside<V>(g: Links<V>, done: set<V>) {
    forall v <- g | v !in done :: Parents(g, v) - done != {}
  }

  lemma ParentOutside<V>(g: Links<V>, done: set<V>, v: V) returns (u: V)
    requires NoRootOutside(g, done) && v in g && v !in done
    ensures u in g && v in g[u] && u !in done
  {
    u :| u in Parents(g, v) - done;
  }

  lemma ClosingCycle<V(!new)>(g: Links<V>, p: seq<V>, u: V, i: nat)
    requires p != [] && Walk(g, [u] + p) && i < |p| && p[i] == u && u in g
    ensures Stuck(g, p[|p| - 1])
  {
    var c, q := [u] + p[..i + 1], [u] + p;
    assert forall k | 0 <= k < |c| :: c[k] == q[k];
    assert Walk(g, c) && c[0] == u && c[|c| - 1] == u;
    assert q[0] == u && q[|q| - 1] == p[|p| - 1];
    assert Leads(g, u, p[|p| - 1]);
  }

  /** Going from parent to parent among the vertices left out ends up on a cycle. */
  lemma {:induction false} StuckOutside<V(!new)>(g: Links<V>, done: set<V>, p: seq<V>)
    requires NoRootOutside(g, done)
    requires p != [] && p[0] in g && p[0] !in done && (|p| > 1 ==> Walk(g, p))
    requires (forall i, j | 0 <= i < j < |p| :: p[i] != p[j]) && forall v <- p :: v in g
    ensures Stuck(g, p[|p| - 1])
    decreases |g| - |p|
  {
    hide NoRootOutside, Stuck;
    var u := ParentOutside(g, done, p[0]);
    var q := [u] + p;
    assert Walk(g, q);
    if u in p {
      var i :| 0 <= i < |p| && p[i] == u;
      ClosingCycle(g, p, u, i);
    } else {
      assert Distinct(q) && Members(q) <= g.Keys;
      DistinctWithin(q, g.Keys);
      StuckOutside(g, done, q);
      assert q[|q| - 1] == p[|p| - 1];
    }
  }

  /** An order that holds every vertex whose parents it holds holds exactly those that no cycle
      blocks. */
  lemma OrderedExactly<V(!new)>(g: Links<V>, out: seq<V>)
    requires Ordered(g, out) && (forall v <- out :: v in g) && NoRootOutside(g, set v <- out)
    ensures forall v <- g :: v in out <==> !Stuck(g, v)
  {
    hide NoRootOutside, Stuck, Ordered;
    forall v <- g ensures v in out <==> !Stuck(g, v) {
      if v in out {
        var i :| 0 <= i < |out| && out[i] == v;
        NoneStuckInOrder(g, out, i);
      } else {
        StuckOutside(g, set x <- out, [v]);
      }
    }
  }

  /** Every vertex is counted its parents, those in `apart` apart. */
  ghost predicate Counts<V>(g: Links<V>, count: map<V, int>, apart: set<V>) {
    count.Keys == g.Keys && forall v <- g :: IsCount(g, count, apart, v)
  }

  ghost predicate IsCount<V>(g: Links<V>, count: map<V, int>, apart: set<V>, v: V) {
    v in count && count[v] == |Parents(g, v) - apart|
  }

  function Bumped<V>(count: map<V, int>, ends: set<V>, amount: int): map<V, int> {
    map v <- count :: if v in ends then count[v] + amount else count[v]
  }

  lemma CountStep<V>(g: Links<V>, count: map<V, int>, toCome: set<V>, u: V)
    requires Counts(g, count, toCome) && u in toCome && u in g
    ensures Counts(g, Bumped(count, g[u], 1), toCome - {u})
  {
    hide IsCount;
    forall v <- g ensures IsCount(g, Bumped(count, g[u], 1), toCome - {u}, v) {
      BumpedCount(g, count, toCome, u, v);
    }
  }

  lemma BumpedCount<V>(g: Links<V>, count: map<V, int>, toCome: set<V>, u: V, v: V)
    requires IsCount(g, count, toCome, v) && u in toCome && u in g
    ensures IsCount(g, Bumped(count, g[u], 1), toCome - {u}, v)
  {
    OneMoreCounted(g, toCome, u, v);
    hide Parents;
  }

  lemma OneMoreCounted<V>(g: Links<V>, toCome: set<V>, u: V, v: V)
    requires u in toCome && u in g
    ensures |Parents(g, v) - (toCome - {u})| == |Parents(g, v) - toCome| + if v in g[u] then 1 else 0
  {
    var p := Parents(g, v);
    assert p - (toCome - {u}) == (p - toCome) + (if v in g[u] then {u} else {});
  }

  // ----- the sort -------------------------------------------------------------------------------

  /** The parents a vertex still waits for when those in `done` are out, and `u` counts as out for
      the vertices already looked at. */
  function Unmet<V>(g: Links<V>, done: set<V>, u: V, looked: set<V>, v: V): set<V> {
    Parents(g, v) - done - (if v in looked then {u} else {})
  }

  /** A vertex that waits for nobody is out or queued, and its count says for how many it waits. */
  ghost predicate Placed<V>(g: Links<V>, listed: seq<V>, count: map<V, int>, unmet: set<V>, v: V) {
    && v in count && count[v] == |unmet|
    && (v in listed <==> unmet == {})
  }

  ghost predicate Sorting<V>(g: Links<V>, listed: seq<V>, count: map<V, int>, done: set<V>, u: V, looked: set<V>) {
    && count.Keys == g.Keys && Distinct(listed) && Members(listed) <= g.Keys
    && forall v {:trigger Unmet(g, done, u, looked, v)} | v in g :: Placed(g, listed, count, Unmet(g, done, u, looked, v), v)
  }

  lemma LookedAtAll<V>(g: Links<V>, listed: seq<V>, count: map<V, int>, done: set<V>, u: V)
    requires u in g && Sorting(g, listed, count, done, u, g[u])
    ensures Sorting(g, listed, count, done + {u}, u, {})
  {
    hide Placed;
    forall v <- g ensures Placed(g, listed, count, Unmet(g, done + {u}, u, {}, v), v) {
      assert Unmet(g, done, u, g[u], v) == Unmet(g, done + {u}, u, {}, v);
    }
  }

  lemma NoneLookedAt<V>(g: Links<V>, listed: seq<V>, count: map<V, int>, done: set<V>, u: V, w: V)
    requires Sorting(g, listed, count, done, u, {})
    ensures Sorting(g, listed, count, done, w, {})
  {
    hide Placed;
    forall v <- g ensures Placed(g, listed, count, Unmet(g, done, w, {}, v), v) {
      assert Unmet(g, done, u, {}, v) == Unmet(g, done, w, {}, v);
    }
  }

  lemma OneMet<V>(g: Links<V>, listed: seq<V>, count: map<V, int>, before: set<V>, now: set<V>, u: V, n: V)
    requires Placed(g, listed, count, before, n) && before == now + {u} && u !in now
    ensures n !in listed
    ensures var less := count[n := count[n] - 1]; Placed(g, if less[n] == 0 then listed + [n] else listed, less, now, n)
  {
  }

  lemma LookAt<V>(g: Links<V>, listed: seq<V>, count: map<V, int>, done: set<V>, u: V, looked: set<V>, n: V)
    requires Sorting(g, listed, count, done, u, looked) && u in g && u !in done
    requires n in g && n in g[u] && n !in looked
    ensures n in count
    ensures var less := count[n := count[n] - 1];
      Sorting(g, if less[n] == 0 then listed + [n] else listed, less, done, u, looked + {n})
  {
    hide Placed, Unmet;
    LookAtEach(g, listed, count, done, u, looked, n, n);
    var less := count[n := count[n] - 1];
    var more := if less[n] == 0 then listed + [n] else listed;
    forall v <- g ensures Placed(g, more, less, Unmet(g, done, u, looked + {n}, v), v) {
      LookAtEach(g, listed, count, done, u, looked, n, v);
    }
    assert Members(more) <= Members(listed) + {n};
  }

  lemma LookAtEach<V>(g: Links<V>, listed: seq<V>, count: map<V, int>, done: set<V>, u: V, looked: set<V>, n: V, v: V)
    requires Sorting(g, listed, count, done, u, looked) && u in g && u !in done
    requires n in g && n in g[u] && n !in looked && v in g
    ensures n in count && n !in listed
    ensures var less := count[n := count[n] - 1];
      Placed(g, if less[n] == 0 then listed + [n] else listed, less, Unmet(g, done, u, looked + {n}, v), v)
  {
    var before, now := Unmet(g, done, u, looked, n), Unmet(g, done, u, looked + {n}, n);
    PlacedBy(g, listed, count, done, u, looked, n);
    PlacedBy(g, listed, count, done, u, looked, v);
    assert before == now + {u} && u !in now;
    assert v != n ==> Unmet(g, done, u, looked + {n}, v) == Unmet(g, done, u, looked, v);
    hide Sorting, Unmet;
    OneMet(g, listed, count, before, now, u, n);
  }

  lemma PlacedBy<V>(g: Links<V>, listed: seq<V>, count: map<V, int>, done: set<V>, u: V, looked: set<V>, v: V)
    requires Sorting(g, listed, count, done, u, looked) && v in g
    ensures Placed(g, listed, count, Unmet(g, done, u, looked, v), v)
  {
    hide Placed, Unmet;
  }

  lemma Frees<V>(g: Links<V>, listed: seq<V>, count: map<V, int>, done: set<V>, w: V, u: V)
    requires Sorting(g, listed, count, done, w, {}) && u in listed
    ensures u in g && Parents(g, u) <= done
  {
    assert u in Members(listed);
    assert Placed(g, listed, count, Unmet(g, done, w, {}, u), u);
    assert Unmet(g, done, w, {}, u) == Parents(g, u) - done;
    hide Sorting;
    forall x <- Parents(g, u) ensures x in done {
      assert x !in Parents(g, u) - done;
    }
  }

  lemma OrderedMore<V>(g: Links<V>, out: seq<V>, rest: seq<V>, count: map<V, int>, u: V, w: V)
    requires Ordered(g, out) && Sorting(g, out + ([u] + rest), count, Members(out), w, {})
    ensures Ordered(g, out + [u]) && u in g && u !in Members(out) && Members(out + [u]) == Members(out) + {u}
    ensures Distinct(out + [u]) && Members(out + [u]) <= g.Keys
  {
    var listed, more := out + ([u] + rest), out + [u];
    assert listed[|out|] == u;
    Frees(g, listed, count, Members(out), w, u);
    assert forall i | 0 <= i < |more| :: more[i] == listed[i];
    assert Members(more) <= Members(listed);
    hide Sorting;
    OrderedBy(g, out, u);
  }

  lemma OrderedBy<V>(g: Links<V>, out: seq<V>, u: V)
    requires Ordered(g, out) && Parents(g, u) <= Members(out) && Distinct(out + [u])
    ensures Ordered(g, out + [u]) && u !in Members(out)
  {
    var more := out + [u];
    assert more[|out|] == u;
    forall i, x | 0 <= i < |more| && x in Parents(g, more[i]) ensures x in more[..i] {
      if i < |out| {
        assert more[..i] == out[..i];
      } else {
        assert more[..i] == out;
        assert x in Members(out);
      }
    }
    forall i | 0 <= i < |out| ensures out[i] != u {
      assert more[i] == out[i];
    }
  }

  /** With an empty queue, whoever is left out waits for someone left out. */
  lemma SortedOut<V(!new)>(g: Links<V>, out: seq<V>, count: map<V, int>, w: V)
    requires Ordered(g, out) && Sorting(g, out, count, Members(out), w, {})
    ensures forall v :: v in out <==> v in g && !Stuck(g, v)
  {
    hide Stuck, Ordered, Sorting;
    assert Members(out) <= g.Keys && NoRootOutside(g, Members(out)) by {
      NooneFree(g, out, count, w);
    }
    hide NoRootOutside;
    OrderedExactly(g, out);
    forall v | v in out ensures v in g {
      assert v in Members(out);
    }
  }

  lemma NooneFree<V>(g: Links<V>, out: seq<V>, count: map<V, int>, w: V)
    requires Sorting(g, out, count, Members(out), w, {})
    ensures Members(out) <= g.Keys && NoRootOutside(g, Members(out))
  {
    forall v <- g | v !in Members(out) ensures Parents(g, v) - Members(out) != {} {
      assert Placed(g, out, count, Unmet(g, Members(out), w, {}, v), v);
      assert Unmet(g, Members(out), w, {}, v) == Parents(g, v) - Members(out);
    }
  }

  // ----- maximal simple paths -------------------------------------------------------------------

  ghost predicate Simple<V>(g: Links<V>, q: seq<V>) {
    && q != [] && (forall i, j | 0 <= i < j < |q| :: q[i] != q[j])
    && (forall i | 0 <= i < |q| - 1 :: q[i] in g && q[i + 1] in g[q[i]])
  }

  /** A simple path that no neighbour of its last vertex prolongs. */
  ghost predicate Maximal<V>(g: Links<V>, q: seq<V>) {
    Simple(g, q) && q[|q| - 1] in g && forall n <- g[q[|q| - 1]] :: n in q
  }

  class Graph<V(==,!new)> {
    var graph: Links<V>

    constructor ()
      ensures graph == map[]
    {
      graph := map[];
    }

    method AddVertex(vertex: V)
      modifies this
      ensures graph == if vertex in old(graph) then old(graph) else old(graph)[vertex := {}]
    {
      if vertex !in graph {
        graph := graph[vertex := {}];
      }
    }

    method AddEdge(parent: V, child: V)
      modifies this
      ensures graph.Keys == old(graph).Keys + {parent, child}
      ensures forall v <- graph :: graph[v] == LinksOf(old(graph), v) + (if v == parent then {child} else {})
      ensures old(Closed(graph)) ==> Closed(graph)
    {
      AddVertex(child);
      AddVertex(parent);
      graph := graph[parent := graph[parent] + {child}];
    }

    /** The vertices that depend on nothing. */
    method RootVertices() returns (roots: set<V>)
      ensures roots == Roots(graph)
    {
      var dependencies: set<V> := set u <- graph, v <- graph[u] :: v;
      roots := graph.Keys - dependencies;
      forall v <- graph ensures v in dependencies <==> Parents(graph, v) != {} {
        assert forall u :: u in Parents(graph, v) <==> u in graph && v in graph[u];
        hide Parents;
      }
    }

    /** How many vertices each vertex depends on: the edges are counted by their ends. */
    method CountDependencies() returns (count: map<V, int>)
      requires Closed(graph)
      ensures Counts(graph, count, {})
    {
      count := map v <- graph :: 0;
      var toCome := graph.Keys;
      assert forall v <- graph :: Parents(graph, v) - toCome == {};
      while toCome != {}
        invariant toCome <= graph.Keys && Counts(graph, count, toCome)
        decreases toCome
      {
        var u :| u in toCome;
        CountStep(graph, count, toCome, u);
        count := Bumped(count, graph[u], 1);
        toCome := toCome - {u};
      }
    }
  
    /** Vertices in an order in which none comes before one of its parents: the queue holds vertices
        whose parents are all out. Exactly the vertices behind no cycle come out. */
    method TopologicalSort() returns (out: seq<V>)
      requires Closed(graph)
      ensures Ordered(graph, out)
      ensures forall v :: v in out <==> v in graph && !Stuck(graph, v)
    {
      hide *;
      out := [];
      var count := CountDependencies();
      var roots := RootVertices();
      OrderedNothing(graph);
      if graph == map[] {
        return;
      }
      ghost var w :| w in graph;
      var queue := Listing(roots);
      StartSorting(graph, count, queue, w);
      while queue != []
        invariant Ordered(graph, out) && Sorting(graph, out + queue, count, Members(out), w, {})
        decreases |graph| - |out|
      {
        var vertex, rest := queue[0], queue[1..];
        assert queue == [vertex] + rest;
        OrderedMore(graph, out, rest, count, vertex, w);
        NoneLookedAt(graph, out + queue, count, Members(out), w, vertex);
        assert out + queue == (out + [vertex]) + rest;
        DistinctWithin(out + [vertex], graph.Keys);
        queue, count := Satisfy(vertex, out + [vertex], rest, count, Members(out));
        out := out + [vertex];
        NoneLookedAt(graph, out + queue, count, Members(out), vertex, w);
      }
      assert out + [] == out;
      SortedOut(graph, out, count, w);
    }

    /** The maximal simple paths from a vertex, each once, whatever cycles there are. */
    method Paths(vertex: V) returns (found: seq<seq<V>>)
      requires Closed(graph) && vertex in graph
      ensures Distinct(found) && forall q :: q in found <==> Maximal(graph, q) && q[0] == vertex
    {
      var search := new PathSearch<V>(graph, vertex);
      ghost var added := search.Search();
      found := search.found;
      hide Maximal, Distinct;
      forall q | Maximal(graph, q) ensures [vertex] <= q <==> q[0] == vertex {
        NotEmpty(graph, q);
      }
    }

    /** The children of a vertex wait for one parent less; those that wait for none are queued. */
    method Satisfy(vertex: V, ghost out: seq<V>, queue: seq<V>, count: map<V, int>, ghost done: set<V>)
      returns (more: seq<V>, less: map<V, int>)
      requires Closed(graph) && vertex in graph && vertex !in done
      requires Sorting(graph, out + queue, count, done, vertex, {})
      ensures Sorting(graph, out + more, less, done + {vertex}, vertex, {})
    {
      hide Sorting;
      more, less := queue, count;
      var toCome := graph[vertex];
      assert graph[vertex] - toCome == {};
      while toCome != {}
        invariant toCome <= graph[vertex]
        invariant Sorting(graph, out + more, less, done, vertex, graph[vertex] - toCome)
        decreases toCome
      {
        var node :| node in toCome;
        ghost var looked := graph[vertex] - toCome;
        LookAt(graph, out + more, less, done, vertex, looked, node);
        assert (out + more) + [node] == out + (more + [node]);
        less := less[node := less[node] - 1];
        if less[node] == 0 {
          more := more + [node];
        }
        toCome := toCome - {node};
        assert graph[vertex] - toCome == looked + {node};
      }
      assert graph[vertex] - {} == graph[vertex];
      LookedAtAll(graph, out + more, less, done, vertex);
    }
  }

  method Listing<V(==)>(s: set<V>) returns (out: seq<V>)
    ensures Distinct(out) && Members(out) == s
  {
    out := [];
    var toCome := s;
    while toCome != {}
      invariant toCome <= s && Distinct(out) && Members(out) == s - toCome
      decreases toCome
    {
      var v :| v in toCome;
      assert v !in Members(out);
      assert Members(out + [v]) == Members(out) + {v} by {
        assert forall x :: x in out + [v] <==> x in out || x == v;
      }
      out := out + [v];
      toCome := toCome - {v};
    }
  }

  lemma StartSorting<V>(g: Links<V>, count: map<V, int>, queue: seq<V>, w: V)
    requires Counts(g, count, {}) && Distinct(queue) && Members(queue) == Roots(g)
    ensures Sorting(g, [] + queue, count, Members([]), w, {})
  {
    assert [] + queue == queue && Members<V>([]) == {};
    assert Roots(g) <= g.Keys;
    hide Placed, Unmet, Roots, IsCount;
    forall v <- g ensures Placed(g, queue, count, Unmet(g, {}, w, {}, v), v) {
      RootPlaced(g, count, queue, w, v);
    }
  }

  lemma OrderedNothing<V>(g: Links<V>)
    ensures Ordered(g, [])
  {
  }

  lemma RootPlaced<V>(g: Links<V>, count: map<V, int>, queue: seq<V>, w: V, v: V)
    requires v in g && IsCount(g, count, {}, v) && Members(queue) == Roots(g)
    ensures Placed(g, queue, count, Unmet(g, {}, w, {}, v), v)
  {
    assert Unmet(g, {}, w, {}, v) == Parents(g, v) - {} == Parents(g, v);
    assert v in queue <==> v in Members(queue);
    assert v in Roots(g) <==> Parents(g, v) == {};
    hide Parents, Unmet, Roots;
  }

  // ----- all paths --------------------------------------------------------------------------------

  /** The list holds every maximal simple path that goes on from `path` through one of the vertices in
      `ways`, each once, and nothing else. */
  ghost predicate Enumerated<V(!new)>(g: Links<V>, path: seq<V>, ways: set<V>, found: seq<seq<V>>) {
    && Distinct(found)
    && forall q :: q in found <==> Maximal(g, q) && path < q && q[|path|] in ways
  }

  lemma GoesOn<V(!new)>(g: Links<V>, path: seq<V>, q: seq<V>)
    requires path != [] && path < q && Simple(g, q)
    ensures Simple(g, path) && path[|path| - 1] in g && q[|path|] in g[path[|path| - 1]] && q[|path|] !in path
  {
    assert forall i | 0 <= i < |path| :: path[i] == q[i];
    assert q[|path| - 1 + 1] == q[|path|];
  }

  lemma OneStep<V>(g: Links<V>, path: seq<V>, n: V)
    requires Simple(g, path) && path[|path| - 1] in g && n in g[path[|path| - 1]] && n !in path
    ensures Simple(g, path + [n])
  {
  }

  lemma Through<V>(path: seq<V>, n: V, q: seq<V>)
    ensures path + [n] <= q <==> path < q && q[|path|] == n
  {
    if path < q && q[|path|] == n {
      assert path + [n] == q[..|path| + 1];
    }
  }

  lemma NotEmpty<V(!new)>(g: Links<V>, q: seq<V>)
    requires Maximal(g, q)
    ensures q != []
  {
  }

  /** One more way explored. */
  lemma OneMoreWay<V(!new)>(g: Links<V>, path: seq<V>, ways: set<V>, found: seq<seq<V>>, n: V, more: seq<seq<V>>)
    requires Enumerated(g, path, ways, found) && n !in ways && Distinct(more)
    requires forall q :: q in more <==> Maximal(g, q) && path + [n] <= q
    ensures Enumerated(g, path, ways + {n}, found + more)
  {
    hide Maximal;
    forall q ensures q in found + more <==> Maximal(g, q) && path < q && q[|path|] in ways + {n} {
      Through(path, n, q);
    }
    forall q | q in more ensures q !in found {
      Through(path, n, q);
    }
    var all := found + more;
    forall i, j | 0 <= i < j < |all| ensures all[i] != all[j] {
      if i < |found| <= j {
        assert found[i] in found && more[j - |found|] in more;
      }
    }
  }

  /** A way that is on the path already is no way. */
  lemma NoWay<V(!new)>(g: Links<V>, path: seq<V>, ways: set<V>, found: seq<seq<V>>, n: V)
    requires Enumerated(g, path, ways, found) && path != [] && n in path
    ensures Enumerated(g, path, ways + {n}, found)
  {
    forall q | Maximal(g, q) && path < q ensures q[|path|] != n {
      GoesOn(g, path, q);
    }
    hide Maximal;
  }

  /** All ways explored: what goes on from `path`, or `path` itself if there was no way. */
  lemma AllWays<V(!new)>(g: Links<V>, path: seq<V>, found: seq<seq<V>>)
    requires Simple(g, path) && path[|path| - 1] in g && Enumerated(g, path, g[path[|path| - 1]], found)
    ensures
      var all := if g[path[|path| - 1]] <= Members(path) then found + [path] else found;
      Distinct(all) && forall q :: q in all <==> Maximal(g, q) && path <= q
  {
    var ways := g[path[|path| - 1]];
    var all := if ways <= Members(path) then found + [path] else found;
    assert Maximal(g, path) <==> ways <= Members(path);
    forall q | Maximal(g, q) && path < q ensures q[|path|] in ways {
      GoesOn(g, path, q);
    }
    hide Maximal;
    forall q ensures q in all <==> Maximal(g, q) && path <= q {
      if path <= q && q != path {
        assert path < q;
      }
    }
  }

  /** The search behind `paths`: a path and its vertices, changed in place and put back. */
  class PathSearch<V(==,!new)> {
    const graph: Links<V>
    var path: seq<V>
    var seen: set<V>
    var found: seq<seq<V>>

    constructor (graph: Links<V>, vertex: V)
      ensures this.graph == graph && path == [vertex] && seen == {vertex} && found == []
    {
      this.graph, path, seen, found := graph, [vertex], {vertex}, [];
    }

    ghost predicate Valid()
      reads this
    {
      Closed(graph) && Simple(graph, path) && seen == Members(path) && seen <= graph.Keys
    }

    /** Every maximal simple path that starts with the path so far is found, each once and nothing
        else; path and vertices are as they were. The vertices not on the path get fewer. */
    method Search() returns (ghost added: seq<seq<V>>)
      requires Valid()
      modifies this
      ensures Valid() && path == old(path) && seen == old(seen) && found == old(found) + added
      ensures Distinct(added) && forall q :: q in added <==> Maximal(graph, q) && path <= q
      decreases graph.Keys - seen
    {
      var deadEnd := true;
      var last := path[|path| - 1];
      assert last in Members(path);
      var toCome := graph[last];
      added := [];
      while toCome != {}
        invariant toCome <= graph[last] && Valid() && path == old(path) && seen == old(seen)
        invariant found == old(found) + added && Enumerated(graph, path, graph[last] - toCome, added)
        invariant deadEnd <==> graph[last] - toCome <= seen
        decreases toCome
      {
        var neighbour :| neighbour in toCome;
        if neighbour !in seen {
          deadEnd := false;
          ghost var more := Deeper(neighbour);
          OneMoreWay(graph, path, graph[last] - toCome, added, neighbour, more);
          added := added + more;
        } else {
          NoWay(graph, path, graph[last] - toCome, added, neighbour);
        }
        assert graph[last] - (toCome - {neighbour}) == (graph[last] - toCome) + {neighbour};
        toCome := toCome - {neighbour};
      }
      assert graph[last] - {} == graph[last];
      AllWays(graph, path, added);
      if deadEnd {
        found := found + [path];
        added := added + [path];
      }
    }

    /** Go one vertex further, and back. */
    method Deeper(neighbour: V) returns (ghost added: seq<seq<V>>)
      requires Valid() && neighbour in graph[path[|path| - 1]] && neighbour !in seen
      modifies this
      ensures Valid() && path == old(path) && seen == old(seen) && found == old(found) + added
      ensures Distinct(added) && forall q :: q in added <==> Maximal(graph, q) && path + [neighbour] <= q
      decreases graph.Keys - seen, 0
    {
      OneStep(graph, path, neighbour);
      seen := seen + {neighbour};
      path := path + [neighbour];
      added := Search();
      path := path[..|path| - 1];
      seen := seen - {neighbour};
    }
  }
}
