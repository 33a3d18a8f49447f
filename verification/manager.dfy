/** The channel manager: notifications from the databases become moves in the channels
    (queue_job/jobrunner/channels.py, lines 837-840 and 980-1115). */
module Manager {
  import opened Channels
  import opened Options
  import opened JobStates
  import opened Scheduler
  import opened Pipeline
  import opened ChannelNames

  const ROOT := "root"

  /** The names on the way from the root, the root's own left out. */
  ghost function PathOf(c: Channel): seq<string>
    decreases c.depth
  {
    if c.parent == null || c.parent.depth >= c.depth then [] else PathOf(c.parent) + [c.name]
  }

  ghost function Paths(all: set<Channel>): set<seq<string>> {
    set c <- all :: PathOf(c)
  }

  ghost function FullName(c: Channel): string {
    Join([ROOT] + PathOf(c))
  }

  /** There is one root; the names of the other channels are segments. */
  ghost predicate OneRoot(all: set<Channel>, root: Channel) {
    && root in all && root.parent == null && root.depth == 0 && root.name == ROOT
    && forall c <- all | c != root :: c.parent != null && NoDot(c.name)
  }

  /** The index maps exactly the full names of the channels in the tree to those channels. */
  ghost predicate Indexed(all: set<Channel>, byName: map<string, Channel>) {
    && (forall c <- all :: FullName(c) in byName && byName[FullName(c)] == c)
    && (forall n <- byName :: byName[n] in all && FullName(byName[n]) == n)
  }

  /** The channels created by a lookup, one after the other. */
  ghost function GrownBy(s: Sched, cs: seq<Channel>): Sched {
    if cs == [] then s
    else
      var m := GrownBy(s, cs[..|cs| - 1]);
      m.(net := m.net[cs[|cs| - 1] := EMPTY])
  }

  ghost predicate MayGrow(s: Sched, cs: seq<Channel>) {
    cs == [] ||
    (MayGrow(s, cs[..|cs| - 1]) && Step(GrownBy(s, cs[..|cs| - 1]), Grown(cs[|cs| - 1]), GrownBy(s, cs)))
  }

  /** No limit of any kind, and no job. */
  predicate Unconfigured(v: ChannelView) {
    && v.capacity == None && v.throttle == 0.0 && v.pauseUntil == 0.0 && !v.sequential && !v.paused
    && v.running == {} && v.failed == {} && v.waiting.ready == {} && v.waiting.delayed == map[]
  }

  ghost predicate GrewUnconfigured(net: Network, n: Network) {
    net.Keys <= n.Keys && forall c <- n :: if c in net then n[c] == net[c] else Unconfigured(n[c])
  }

  /** The channels that a lookup creates have no limits; those that were there stay as they were. */
  lemma {:induction false} GrownUnconfigured(s: Sched, cs: seq<Channel>)
    requires MayGrow(s, cs)
    ensures GrewUnconfigured(s.net, GrownBy(s, cs).net)
    decreases |cs|
  {
    if cs != [] {
      GrownUnconfigured(s, cs[..|cs| - 1]);
    }
  }

  /** The other live jobs are still there, and held as they were. */
  ghost predicate OthersStay(s: Sched, s': Sched, uuid: string) {
    forall u <- s.jobs | u != uuid :: u in s'.jobs && s'.jobs[u] == s.jobs[u] && Undisturbed(s.net, s'.net, s.jobs[u])
  }

  lemma {:induction false} GrowthUndisturbs(s: Sched, cs: seq<Channel>, k: ChannelJob)
    requires MayGrow(s, cs)
    ensures Undisturbed(s.net, GrownBy(s, cs).net, k) && GrownBy(s, cs).jobs == s.jobs
    decreases |cs|
  {
    if cs != [] {
      var front := cs[..|cs| - 1];
      GrowthUndisturbs(s, front, k);
      OneMoreChannel(GrownBy(s, front).net, cs[|cs| - 1], k);
      UndisturbedTwice(s.net, GrownBy(s, front).net, GrownBy(s, cs).net, k);
    }
  }

  lemma OneMoreChannel(net: Network, c: Channel, k: ChannelJob)
    requires c !in net
    ensures Undisturbed(net, net[c := EMPTY], k)
  {
  }

  lemma {:induction false} GrownInvToo(s: Sched, cs: seq<Channel>)
    requires Inv(s) && MayGrow(s, cs)
    ensures Inv(GrownBy(s, cs))
    decreases |cs|
  {
    hide Inv, Step;
    if cs != [] {
      GrownInvToo(s, cs[..|cs| - 1]);
      InvStep(GrownBy(s, cs[..|cs| - 1]), Grown(cs[|cs| - 1]), GrownBy(s, cs));
    }
  }

  /** A notification of a job new to the channels leaves the others where they are, in spite of the channels that its
      lookup creates. */
  lemma NewJobDisturbsNone(s: Sched, cs: seq<Channel>, e: Event, s': Sched, uuid: string)
    requires Inv(s) && MayGrow(s, cs) && Step(GrownBy(s, cs), e, s') && e.Rescheduled?
    requires e.job.uuid == uuid && uuid !in s.jobs
    ensures OthersStay(s, s', uuid)
  {
    GrownInvToo(s, cs);
    var m := GrownBy(s, cs);
    forall u <- s.jobs | u != uuid
      ensures u in s'.jobs && s'.jobs[u] == s.jobs[u] && Undisturbed(s.net, s'.net, s.jobs[u])
    {
      hide Inv, Undisturbed, Moved, JobsIn, MayGrow, GrownBy;
      GrowthUndisturbs(s, cs, s.jobs[u]);
      MovedUndisturbs(m.net, e.job, e.eta, e.state, s.jobs[u]);
      UndisturbedTwice(s.net, m.net, s'.net, s.jobs[u]);
    }
  }

  // ----- paths --------------------------------------------------------------------------------

  lemma PathSegments(all: set<Channel>, root: Channel, c: Channel)
    requires Tree(all) && OneRoot(all, root) && c in all
    ensures Segments(PathOf(c)) && Segments([ROOT] + PathOf(c))
    decreases c.depth
  {
    if c != root {
      PathSegments(all, root, c.parent);
    }
  }

  /** No two channels have the same path. */
  lemma PathInjective(all: set<Channel>, root: Channel, a: Channel, b: Channel)
    requires Tree(all) && OneRoot(all, root) && a in all && b in all && PathOf(a) == PathOf(b)
    ensures a == b
    decreases a.depth
  {
    if a != root && b != root {
      var p := PathOf(a);
      assert PathOf(a.parent) == p[..|p| - 1] && PathOf(b.parent) == p[..|p| - 1];
      assert a.name == p[|p| - 1] && b.name == p[|p| - 1];
      PathInjective(all, root, a.parent, b.parent);
    }
  }

  lemma PrefixIsThere(all: set<Channel>, root: Channel, c: Channel, i: nat)
    requires Tree(all) && OneRoot(all, root) && c in all && i <= |PathOf(c)|
    ensures PathOf(c)[..i] in Paths(all)
    decreases c.depth
  {
    var p := PathOf(c);
    if i == |p| {
      assert p[..i] == p;
    } else {
      PrefixIsThere(all, root, c.parent, i);
      assert p[..i] == PathOf(c.parent)[..i];
    }
  }

  lemma PathsClosed(all: set<Channel>, root: Channel)
    requires Tree(all) && OneRoot(all, root)
    ensures Closed(Paths(all))
  {
    assert PathOf(root) == [] && PathOf(root) in Paths(all);
    forall p <- Paths(all), i | 0 <= i <= |p| ensures p[..i] in Paths(all) {
      var c :| c in all && PathOf(c) == p;
      PrefixIsThere(all, root, c, i);
    }
  }

  lemma FullNameInjective(all: set<Channel>, root: Channel, a: Channel, b: Channel)
    requires Tree(all) && OneRoot(all, root) && a in all && b in all && FullName(a) == FullName(b)
    ensures a == b
  {
    PathSegments(all, root, a);
    PathSegments(all, root, b);
    JoinInjective([ROOT] + PathOf(a), [ROOT] + PathOf(b));
    assert PathOf(a) == ([ROOT] + PathOf(a))[1..] == PathOf(b);
    PathInjective(all, root, a, b);
  }

  lemma IndexedAt(all: set<Channel>, byName: map<string, Channel>, name: string)
    requires Indexed(all, byName) && name in byName
    ensures byName[name] in all && FullName(byName[name]) == name
  {
  }

  lemma FromRoot(p: seq<string>)
    requires Segments(p)
    ensures Segments([ROOT] + p) && ([ROOT] + p)[1..] == p
  {
  }

  lemma IndexedPath(all: set<Channel>, root: Channel, byName: map<string, Channel>, p: seq<string>)
    requires Tree(all) && OneRoot(all, root) && Indexed(all, byName) && Segments(p) && Join([ROOT] + p) in byName
    ensures var c := byName[Join([ROOT] + p)]; c in all && PathOf(c) == p
  {
    hide Segments, Join, Indexed, Tree, OneRoot, PathOf;
    var c := byName[Join([ROOT] + p)];
    IndexedAt(all, byName, Join([ROOT] + p));
    PathSegments(all, root, c);
    FromRoot(p);
    JoinInjective([ROOT] + PathOf(c), [ROOT] + p);
    assert ([ROOT] + PathOf(c))[1..] == PathOf(c);
  }

  /** A dotted name is in the index exactly when its path leads to a channel. */
  lemma IndexedIff(all: set<Channel>, root: Channel, byName: map<string, Channel>, p: seq<string>)
    requires Tree(all) && OneRoot(all, root) && Indexed(all, byName) && Segments(p)
    ensures Join([ROOT] + p) in byName <==> p in Paths(all)
    ensures Join([ROOT] + p) in byName ==> PathOf(byName[Join([ROOT] + p)]) == p
  {
    hide Join, Tree, OneRoot, Segments, PathOf;
    if Join([ROOT] + p) in byName {
      IndexedPath(all, root, byName, p);
    }
    if p in Paths(all) {
      var c :| c in all && PathOf(c) == p;
      assert FullName(c) == Join([ROOT] + p);
    }
  }

  // ----- the manager --------------------------------------------------------------------------

  lemma MoreObjects(all: set<Channel>, c: Channel)
    ensures Objects(all + {c}) == Objects(all) + {c, c.queue, c.queue.queue, c.queue.etaQueue}
  {
  }

  lemma OneMoreView(all: set<Channel>, c: Channel, net: Network)
    requires c !in all && net.Keys == all && forall d <- all + {c} :: d.Ok()
    requires forall d <- all :: d.View() == net[d]
    requires Tree(all + {c}) && Separate(all + {c})
    ensures Valid(all + {c}) && NetView(all + {c}) == net[c := c.View()]
  {
    hide PriorityQueue.Sorted, PriorityQueue.Valid, PriorityQueue.Live, ChannelQueue.Valid, ChannelQueue.View, Tree, Separate;
  }

  /** `not channel_name or channel_name == root` */
  predicate IsRootName(name: string) {
    name == "" || name == ROOT
  }

  /** The path a name stands for; the root may be left out. */
  function Relative(name: string): seq<string> {
    if ROOT + "." <= name then Split(name[|ROOT| + 1..]) else Split(name)
  }

  lemma {:induction false} JoinCons(a: string, p: seq<string>)
    requires p != []
    ensures Join([a] + p) == a + "." + Join(p)
    decreases |p|
  {
    var q := [a] + p;
    assert q[..|q| - 1] == [a] + p[..|p| - 1];
    if |p| > 1 {
      JoinCons(a, p[..|p| - 1]);
    }
  }

  lemma RootNames(name: string)
    ensures IsRootName(name) <==> name == "" || name == "root"
  {
  }

  /** The channel at the path a name stands for has that name, the root's in front. */
  lemma NamedSo(name: string, c: Channel)
    requires PathOf(c) == Relative(name)
    ensures FullName(c) == if "root." <= name then name else "root." + name
  {
    hide Join, Split, Relative, PathOf, NoDot;
    NamedRelative(name);
  }

  lemma NamedRelative(name: string)
    ensures var p := Relative(name); var full := if ROOT + "." <= name then name else ROOT + "." + name;
      && p != [] && Segments(p) && full == Join([ROOT] + p) && Split(full)[1..] == p
  {
    var p := Relative(name);
    JoinCons(ROOT, p);
    if ROOT + "." <= name {
      assert name == ROOT + "." + name[|ROOT| + 1..];
    }
    assert NoDot(ROOT);
    assert Segments([ROOT] + p);
    SplitJoin([ROOT] + p);
    assert ([ROOT] + p)[1..] == p;
  }

  lemma RootIn(all: set<Channel>, root: Channel)
    requires OneRoot(all, root)
    ensures root in all
  {
  }

  lemma RootPath(all: set<Channel>, root: Channel)
    requires OneRoot(all, root)
    ensures root in all && PathOf(root) == [] && [] in Paths(all)
  {
  }

  lemma IndexedMember(all: set<Channel>, byName: map<string, Channel>, n: string)
    requires Indexed(all, byName) && n in byName
    ensures byName[n] in all
  {
  }

  lemma PrefixSegments(p: seq<string>, k: nat)
    requires Segments(p) && k <= |p|
    ensures Segments(p[..k]) && Segments([ROOT] + p[..k])
  {
  }

  lemma ParentOfPrefix(p: seq<string>, k: nat)
    requires Segments(p) && 0 < k <= |p|
    ensures var s := Join([ROOT] + p[..k]); '.' in s && ParentName(s) == Join([ROOT] + p[..k - 1])
  {
    var q := [ROOT] + p[..k];
    ParentOfJoin(q);
    assert q[..|q| - 1] == [ROOT] + p[..k - 1];
  }

  lemma RootOnly(p: seq<string>, k: nat)
    requires Segments(p) && k <= |p|
    ensures Join([ROOT] + p[..k]) == ROOT <==> k == 0
  {
    if Join([ROOT] + p[..k]) == ROOT {
      JoinInjective([ROOT] + p[..k], [ROOT]);
    }
  }

  lemma NearestPrefix(paths: set<seq<string>>, p: seq<string>, k: nat)
    requires [] in paths && p != [] && k < |p| && forall m | k < m < |p| :: p[..m] !in paths
    requires k == 0 || p[..k] in paths
    ensures Shortened(paths, p) == k && (k == 0 ==> p[..k] == [])
  {
    LongestPrefix(paths, p, |p| - 1, k);
  }

  lemma NotThere(paths: set<seq<string>>, p: seq<string>)
    requires p !in paths && [] in paths
    ensures p != [] && Target(paths, p) == p[..Shortened(paths, p)] + p && [] + p == p
  {
  }

  /** What a new channel does to the tree. */
  method NewChild(parent: Channel, name: string, ghost all: set<Channel>) returns (c: Channel)
    requires Valid(all) && parent in all && name !in parent.children
    modifies parent`children
    ensures fresh(c) && fresh(c.queue) && fresh(c.queue.queue) && fresh(c.queue.etaQueue)
    ensures c.parent == parent && c.name == name && c.depth == parent.depth + 1
    ensures parent.children == old(parent.children)[name := c]
    ensures Valid(all + {c}) && NetView(all + {c}) == old(NetView(all))[c := EMPTY]
  {
    hide PriorityQueue.Sorted, PriorityQueue.Valid, PriorityQueue.Live, ChannelQueue.Valid, ChannelQueue.View;
    ghost var net := NetView(all);
    c := new Channel(name, parent, None);
    forall d <- all ensures d.Ok() && d.View() == net[d] {
      assert old(d.Ok());
    }
    assert c !in all;
    OneMoreView(all, c, net);
  }

  lemma FullNameStep(c: Channel)
    requires c.parent != null && c.depth == c.parent.depth + 1
    ensures PathOf(c) == PathOf(c.parent) + [c.name] && FullName(c) == FullName(c.parent) + "." + c.name
  {
    var p := [ROOT] + PathOf(c);
    assert p == ([ROOT] + PathOf(c.parent)) + [c.name];
    assert p[..|p| - 1] == [ROOT] + PathOf(c.parent);
  }

  /** The `fullname` of a channel. */
  function FullNameOf(c: Channel, ghost all: set<Channel>, ghost root: Channel): (name: string)
    requires Tree(all) && OneRoot(all, root) && c in all
    reads all
    ensures name == FullName(c)
    decreases c.depth
  {
    if c.parent == null then c.name
    else
      FullNameStep(c);
      FullNameOf(c.parent, all, root) + "." + c.name
  }

  lemma IndexedMore(all: set<Channel>, root: Channel, byName: map<string, Channel>, c: Channel)
    requires Tree(all + {c}) && OneRoot(all + {c}, root) && c !in all && Indexed(all, byName)
    ensures Indexed(all + {c}, byName[FullName(c) := c])
  {
    forall d <- all ensures FullName(d) != FullName(c) {
      if FullName(d) == FullName(c) {
        FullNameInjective(all + {c}, root, d, c);
      }
    }
    var more := byName[FullName(c) := c];
    hide FullName, PathOf, Tree, OneRoot;
    forall d <- all + {c} ensures FullName(d) in more && more[FullName(d)] == d {
      if d != c {
        assert d in all;
      }
    }
    forall n <- more ensures more[n] in all + {c} && FullName(more[n]) == n {
      if n != FullName(c) {
        assert n in byName;
      }
    }
  }

  class ChannelManager {
    const root: Channel
    var channelsByName: map<string, Channel>
    var jobsByUuid: map<string, ChannelJob>
    ghost var all: set<Channel>

    /** The network and the live jobs, as the state machine sees them. */
    ghost function State(): Sched
      requires Valid(all)
      reads this, Objects(all), HeapJobs(all)
    {
      Sched(NetView(all), jobsByUuid)
    }

    ghost predicate Ok()
      reads this, Objects(all), HeapJobs(all)
    {
      && Valid(all) && OneRoot(all, root) && Indexed(all, channelsByName) && Inv(State())
    }

    /** The manager itself is no part of the network it manages. */
    lemma Outside(s: set<Channel>)
      ensures forall j <- HeapJobs(s) :: j as object != this
      ensures forall c <- s :: c as object != this
      ensures this as object !in Objects(s)
    {
    }

    constructor ()
      ensures Ok() && all == {root} && jobsByUuid == map[]
      ensures State() == Sched(map[root := EMPTY.(capacity := Some(1))], map[])
    {
      hide *;
      root := new Channel(ROOT, null, Some(1));
      channelsByName := map[];
      jobsByUuid := map[];
      new;
      Outside({root});
      all := {root};
      channelsByName := map[ROOT := root];
      FreshTree(root);
      FreshState(root);
      StateOk(Sched(map[root := EMPTY.(capacity := Some(1))], map[]));
    }

    /** The subchannel of that name, created with no limit if there is none. */
    method EnsureChild(parent: Channel, name: string)
      returns (c: Channel, ghost created: seq<Channel>, ghost made: set<object>)
      requires Ok() && parent in all && NoDot(name)
      modifies this`channelsByName, this`all, parent`children
      ensures Ok() && c in all && PathOf(c) == PathOf(parent) + [name]
      ensures old(all) <= all && Paths(all) == old(Paths(all)) + {PathOf(c)}
      ensures Objects(all) == Objects(old(all)) + made && fresh(made)
      ensures MayGrow(old(State()), created) && State() == GrownBy(old(State()), created)
    {
      hide *;
      OkParts();
      ghost var s := State();
      if name in parent.children {
        c := parent.children[name];
        created, made := [], {};
        ChildPath(all, root, parent, name);
        NoGrowth(s);
        PathKnown(all, c);
      } else {
        c, created, made := MakeChild(parent, name);
      }
    }

    method MakeChild(parent: Channel, name: string)
      returns (c: Channel, ghost created: seq<Channel>, ghost made: set<object>)
      requires Ok() && parent in all && NoDot(name) && name !in parent.children
      modifies this`channelsByName, this`all, parent`children
      ensures Ok() && c in all && PathOf(c) == PathOf(parent) + [name]
      ensures old(all) <= all && Paths(all) == old(Paths(all)) + {PathOf(c)}
      ensures Objects(all) == Objects(old(all)) + made && fresh(made)
      ensures MayGrow(old(State()), created) && State() == GrownBy(old(State()), created)
    {
      hide *;
      OkParts();
      ghost var s, before := State(), all;
      c := NewChild(parent, name, all);
      created, made := [c], {c, c.queue, c.queue.queue, c.queue.etaQueue};
      MoreObjects(before, c);
      Adopt(c, s);
    }

    lemma PathKnown(cs: set<Channel>, c: Channel)
      requires c in cs
      ensures Paths(cs) == Paths(cs) + {PathOf(c)} && Objects(cs) == Objects(cs) + {}
    {
    }

    /** Go down from a channel by the given names, creating the channels that are missing. */
    method Descend(parent: Channel, names: seq<string>)
      returns (c: Channel, ghost created: seq<Channel>, ghost made: set<object>)
      requires Ok() && parent in all && Segments(names)
      modifies this`channelsByName, this`all, Objects(all)
      ensures Ok() && c in all && PathOf(c) == PathOf(parent) + names
      ensures old(all) <= all && Paths(all) == Created(old(Paths(all)), PathOf(c))
      ensures Objects(all) == Objects(old(all)) + made && fresh(made)
      ensures MayGrow(old(State()), created) && State() == GrownBy(old(State()), created)
    {
      hide *;
      OkParts();
      ghost var s := State();
      ghost var paths, objects := Paths(all), Objects(all);
      PathsClosed(all, root);
      PathIn(all, parent);
      CreatedNothing(paths, PathOf(parent));
      NoGrowth(s);
      c, created, made := parent, [], {};
      assert PathOf(c) == PathOf(parent) + names[..0];
      for i := 0 to |names|
        invariant Ok() && Valid(all) && c in all && PathOf(c) == PathOf(parent) + names[..i]
        invariant old(all) <= all && Paths(all) == Created(paths, PathOf(c))
        invariant Objects(all) == objects + made && fresh(made)
        invariant MayGrow(s, created) && State() == GrownBy(s, created)
      {
        ghost var path := PathOf(c);
        SegmentAt(names, i);
        ObjectsIncludes(all, c);
        ghost var more, news;
        c, more, news := EnsureChild(c, names[i]);
        made := made + news;
        CreatedOneMore(paths, path, names[i]);
        assert PathOf(parent) + names[..i] + [names[i]] == PathOf(parent) + names[..i + 1];
        GrowMore(s, created, more);
        created := created + more;
        OkParts();
      }
      assert names[..|names|] == names;
    }

    /** The nearest channel that is there, on the way from a missing channel to the root. */
    method FallbackParent(channelName: string, ghost p: seq<string>) returns (parent: Channel)
      requires Ok() && p != [] && Segments(p) && channelName == Join([ROOT] + p) && channelName !in channelsByName
      ensures parent in all && [] in Paths(all) && PathOf(parent) == p[..Shortened(Paths(all), p)]
      ensures Ok() && State() == old(State())
    {
      hide *;
      OkParts();
      RootPath(all, root);
      ghost var paths := Paths(all);
      ghost var k := |p|;
      var parentName := channelName;
      assert p[..k] == p;
      while true
        invariant Ok() && Valid(all) && State() == old(State())
        invariant 0 < k <= |p| && parentName == Join([ROOT] + p[..k])
        invariant forall m | k <= m < |p| :: p[..m] !in paths
        decreases k
      {
        PrefixSegments(p, k);
        ParentOfPrefix(p, k);
        parentName := ParentName(parentName);
        k := k - 1;
        RootOnly(p, k);
        if parentName == ROOT {
          NearestPrefix(paths, p, k);
          return root;
        }
        PrefixSegments(p, k);
        IndexedIff(all, root, channelsByName, p[..k]);
        if parentName in channelsByName {
          IndexedMember(all, channelsByName, parentName);
          NearestPrefix(paths, p, k);
          return channelsByName[parentName];
        }
      }
    }

    /** The channel of that name. When it is missing, it is created if asked for; with fallback, all
        the segments of its name are created below the nearest channel that is there; otherwise
        there is none. An empty name stands for the root. */
    method GetChannelByName(channelName: string, autocreate: bool, parentFallback: bool)
      returns (r: Option<Channel>, ghost created: seq<Channel>, ghost made: set<object>)
      requires Ok()
      modifies this`channelsByName, this`all, Objects(all)
      ensures Ok() && old(all) <= all && Objects(all) == Objects(old(all)) + made && fresh(made)
      ensures MayGrow(old(State()), created) && State() == GrownBy(old(State()), created)
      ensures r.Some? ==> r.value in all
      ensures if IsRootName(channelName) then r == Some(root) && all == old(all)
        else
          var p, paths := Relative(channelName), old(Paths(all));
          if p in paths then r.Some? && PathOf(r.value) == p && all == old(all)
          else if !autocreate && !parentFallback then r == None && all == old(all)
          else
            && r.Some? && [] in paths
            && PathOf(r.value) == (if parentFallback then Target(paths, p) else p)
            && Paths(all) == Created(paths, PathOf(r.value))
      ensures GrewUnconfigured(old(State()).net, State().net)
      ensures channelName == "" || channelName == "root" ==> r == Some(root)
      ensures channelName != "" && channelName != "root" && r.Some? && !parentFallback ==>
        FullName(r.value) == if "root." <= channelName then channelName else "root." + channelName
    {
      hide *;
      OkParts();
      ghost var s := State();
      NoGrowth(s);
      GrownUnconfigured(s, []);
      created, made := [], {};
      RootNames(channelName);
      if IsRootName(channelName) {
        RootIn(all, root);
        return Some(root), created, made;
      }
      var name := if ROOT + "." <= channelName then channelName else ROOT + "." + channelName;
      ghost var p := Relative(channelName);
      NamedRelative(channelName);
      IndexedIff(all, root, channelsByName, p);
      if name in channelsByName {
        IndexedMember(all, channelsByName, name);
        NamedSo(channelName, channelsByName[name]);
        return Some(channelsByName[name]), created, made;
      }
      if !autocreate && !parentFallback {
        return None, created, made;
      }
      RootIn(all, root);
      RootPath(all, root);
      ghost var paths := Paths(all);
      var parent := root;
      if parentFallback {
        parent := FallbackParent(name, p);
      }
      var c;
      c, created, made := Descend(parent, Split(name)[1..]);
      NotThere(paths, p);
      r := Some(c);
      GrownUnconfigured(s, created);
      if !parentFallback {
        NamedSo(channelName, c);
      }
    }

    /** The channel is looked up by its name, created if there is none, and configured. */
    method GetChannelFromConfig(config: Config)
      returns (ok: bool, channel: Channel, ghost created: seq<Channel>)
      requires Ok()
      modifies this`channelsByName, this`all, Objects(all)
      ensures Ok() && MayGrow(old(State()), created) && channel in all && old(all) <= all
      ensures PathOf(channel) == if IsRootName(config.name) then [] else Relative(config.name)
      ensures Step(
        GrownBy(old(State()), created),
        Configured(channel, config.capacity, config.throttle as real, config.sequential, config.paused), State())
      ensures ok == !(config.sequential && config.capacity != Some(1))
    {
      hide *;
      OkParts();
      Outside(all);
      RootPath(all, root);
      var found;
      ghost var made;
      found, created, made := GetChannelByName(config.name, true, false);
      channel := found.value;
      OkParts();
      Outside(all);
      ghost var s := State();
      ok := channel.Configure(config, all);
      ConfiguredStep(s, channel, config);
      ConfiguredInv(s, channel, config.Apply(s.net[channel]));
      StateOk(s.(net := s.net[channel := config.Apply(s.net[channel])]));
    }

    /** Writing the registry of live jobs leaves the channels alone. */
    method SetJobs(jobs: map<string, ChannelJob>)
      requires Valid(all)
      modifies this`jobsByUuid
      ensures Valid(all) && NetView(all) == old(NetView(all)) && jobsByUuid == jobs
    {
      hide *;
      Outside(all);
      jobsByUuid := jobs;
    }

    method RemoveJob(uuid: string)
      requires Ok()
      modifies this`jobsByUuid, Objects(all)
      ensures Ok() && State() == Dropped(old(State()), uuid) && Step(old(State()), Removed(uuid), State())
      ensures jobsByUuid == old(jobsByUuid) - {uuid}
    {
      hide *;
      OkParts();
      ghost var s := State();
      DroppedInv(s, uuid);
      DroppedStep(s, uuid);
      if uuid in jobsByUuid {
        var job := jobsByUuid[uuid];
        JobChannel(s, uuid);
        Outside(all);
        job.channel.Remove(job, all);
        SetJobs(jobsByUuid - {uuid});
        StateOk(Dropped(s, uuid));
      }
    }

    /** The move a state asks for. */
    method Apply(job: ChannelJob, state: Option<JobState>)
      requires Valid(all) && job.channel in all
      modifies Objects(all)
      ensures Valid(all) && NetView(all) == Moved(old(NetView(all)), job, old(job.eta), state)
    {
      hide *;
      MovedCases(NetView(all), job, job.eta, state);
      Outside(all);
      if state.None? || state == Some(Done) || state == Some(Cancelled) {
        job.channel.Remove(job, all);
      } else if state == Some(JobState.Pending) {
        job.channel.SetPending(job, all);
      } else if state == Some(Enqueued) || state == Some(JobState.Started) {
        job.channel.SetRunning(job, all);
      } else if state == Some(JobState.Failed) {
        job.channel.SetFailed(job, all);
      }
    }

    /** A job object that no one has seen yet. */
    method NewJob(dbName: string, channel: Channel, uuid: string, rank: Rank, eta: Eta, ghost seen: set<ChannelJob>)
      returns (job: ChannelJob)
      requires Valid(all) && HeapJobs(all) <= seen
      ensures Valid(all) && NetView(all) == old(NetView(all))
      ensures fresh(job) && job !in seen && job.dbName == dbName && job.channel == channel && job.uuid == uuid
      ensures job.rank == rank && job.eta == eta
    {
      hide Valid, NetView;
      job := new ChannelJob(dbName, channel, uuid, rank, eta);
      JobOutside(job, all);
      assert job !in seen;
    }

    /** The job object at hand is dropped, if one of the properties that influence the scheduling order
        has changed. */
    method Keep(channel: Channel, uuid: string, rank: Rank, eta: Eta, ghost s: Sched) returns (kept: bool)
      requires Ok() && Valid(all) && s == State()
      requires uuid in jobsByUuid ==> jobsByUuid[uuid].rank.dateCreated == rank.dateCreated
      modifies this`jobsByUuid, Objects(all)
      ensures Ok() && Valid(all) && all == old(all) && channelsByName == old(channelsByName)
      ensures kept == (uuid in s.jobs && s.jobs[uuid].rank == rank
          && old(s.jobs[uuid].eta) == eta && s.jobs[uuid].channel == channel)
      ensures State() == if kept then s else Dropped(s, uuid)
    {
      hide *;
      OkParts();
      Outside(all);
      DroppedStep(s, uuid);
      kept := uuid in jobsByUuid;
      if kept {
        var job := jobsByUuid[uuid];
        if rank.sequence != job.rank.sequence || rank.priority != job.rank.priority || eta != job.eta
          || channel != job.channel
        {
          RemoveJob(uuid);
          kept := false;
          OkParts();
        }
      }
    }

    /** The job object a notification is about: the one at hand, or a new one. */
    method JobFor(dbName: string, channel: Channel, uuid: string, rank: Rank, eta: Eta, ghost s: Sched)
      returns (job: ChannelJob, kept: bool)
      requires Ok() && Valid(all) && channel in all && s == State()
      requires uuid in s.jobs ==> s.jobs[uuid].dbName == dbName && s.jobs[uuid].rank.dateCreated == rank.dateCreated
      modifies this`jobsByUuid, Objects(all)
      ensures Valid(all) && all == old(all) && channelsByName == old(channelsByName)
      ensures job.dbName == dbName && job.channel == channel && job.uuid == uuid && job.rank == rank && job.eta == eta
      ensures kept == (uuid in s.jobs && s.jobs[uuid].rank == rank
          && old(s.jobs[uuid].eta) == eta && s.jobs[uuid].channel == channel)
      ensures jobsByUuid == s.jobs[uuid := job]
      ensures if kept then job == s.jobs[uuid] && NetView(all) == s.net
        else job !in JobsIn(s.net) + s.jobs.Values && NetView(all) == Dropped(s, uuid).net
    {
      hide *;
      OkParts();
      DroppedStep(s, uuid);
      if uuid in jobsByUuid {
        JobChannel(s, uuid);
        JobOutside(jobsByUuid[uuid], all);
        job := jobsByUuid[uuid];
      }
      kept := Keep(channel, uuid, rank, eta, s);
      OkParts();
      if !kept {
        job := Register(dbName, channel, uuid, rank, eta, JobsIn(s.net) + s.jobs.Values + HeapJobs(all));
      }
      PutBack(s.jobs, uuid, job);
    }

    /** A notification once its channel is known. */
    method NotifyIn(dbName: string, channel: Channel, uuid: string, rank: Rank, eta: Eta, state: Option<JobState>)
      returns (job: ChannelJob, ghost e: Event)
      requires Ok() && Valid(all) && channel in all
      requires uuid in jobsByUuid ==>
        jobsByUuid[uuid].dbName == dbName && jobsByUuid[uuid].rank.dateCreated == rank.dateCreated
      modifies this`jobsByUuid, Objects(all)
      ensures Ok() && Valid(all) && all == old(all) && Step(old(State()), e, State())
      ensures jobsByUuid == old(jobsByUuid)[uuid := job]
      ensures job.dbName == dbName && job.channel == channel && job.uuid == uuid && job.rank == rank && job.eta == eta
      ensures if uuid in old(jobsByUuid) && old(jobsByUuid[uuid].rank) == rank
          && old(jobsByUuid[uuid].eta) == eta && old(jobsByUuid[uuid].channel) == channel
        then e == Kept(uuid, eta, state) && job == old(jobsByUuid[uuid])
        else e == Rescheduled(job, eta, state)
      ensures PlacedAs(NetView(all), job, eta, state, e.Rescheduled?)
    {
      hide *;
      OkParts();
      Outside(all);
      ghost var s := State();
      var kept;
      job, kept := JobFor(dbName, channel, uuid, rank, eta, s);
      Outside(all);
      JobOutside(job, all);
      Apply(job, state);
      e := if kept then Kept(uuid, eta, state) else Rescheduled(job, eta, state);
      NotifyStep(s, uuid, job, eta, state, kept, e, Sched(NetView(all), jobsByUuid));
      WaitsByEta(all, channel, job);
      NotifiedPlace(s, uuid, job, eta, state, kept, NetView(all));
      InvStep(s, e, Sched(NetView(all), jobsByUuid));
      StateOk(Sched(NetView(all), jobsByUuid));
    }

    /** A notification from a database. The job object at hand is kept, unless one of the properties
        that influence the scheduling order has changed: then it is replaced by a new one. */
    method Notify(dbName: string, channelName: string, uuid: string, rank: Rank, eta: Eta, state: Option<JobState>)
      returns (ghost created: seq<Channel>, ghost e: Event, ghost made: set<object>)
      requires Ok()
      requires uuid in jobsByUuid ==>
        jobsByUuid[uuid].dbName == dbName && jobsByUuid[uuid].rank.dateCreated == rank.dateCreated
      modifies this`channelsByName, this`all, this`jobsByUuid, Objects(all)
      ensures Ok() && MayGrow(old(State()), created) && Step(GrownBy(old(State()), created), e, State())
      ensures Objects(all) == Objects(old(all)) + made && fresh(made)
      ensures uuid in jobsByUuid && jobsByUuid == old(jobsByUuid)[uuid := jobsByUuid[uuid]]
      ensures var job := jobsByUuid[uuid];
        job.dbName == dbName && job.uuid == uuid && job.rank == rank && job.eta == eta
      ensures if IsRootName(channelName) then jobsByUuid[uuid].channel == root
        else
          var paths := old(Paths(all));
          [] in paths && PathOf(jobsByUuid[uuid].channel) == Target(paths, Relative(channelName))
      ensures if uuid in old(jobsByUuid) && old(jobsByUuid[uuid].rank) == rank
          && old(jobsByUuid[uuid].eta) == eta && old(jobsByUuid[uuid].channel) == jobsByUuid[uuid].channel
        then e == Kept(uuid, eta, state) && jobsByUuid[uuid] == old(jobsByUuid[uuid])
        else e == Rescheduled(jobsByUuid[uuid], eta, state)
      ensures PlacedAs(State().net, jobsByUuid[uuid], eta, state, e.Rescheduled?)
    {
      hide *;
      OkParts();
      RootPath(all, root);
      TargetThere(Paths(all), Relative(channelName));
      Outside(all);
      if uuid in jobsByUuid {
        JobOutside(jobsByUuid[uuid], all);
      }
      var found;
      found, created, made := GetChannelByName(channelName, false, true);
      OkParts();
      var job;
      job, e := NotifyIn(dbName, found.value, uuid, rank, eta, state);
      OkParts();
    }

    method Register(dbName: string, channel: Channel, uuid: string, rank: Rank, eta: Eta, ghost seen: set<ChannelJob>)
      returns (job: ChannelJob)
      requires Valid(all) && HeapJobs(all) <= seen
      modifies this`jobsByUuid
      ensures Valid(all) && NetView(all) == old(NetView(all)) && jobsByUuid == old(jobsByUuid)[uuid := job]
      ensures job !in seen && job.dbName == dbName && job.channel == channel && job.uuid == uuid
      ensures job.rank == rank && job.eta == eta
    {
      hide *;
      job := NewJob(dbName, channel, uuid, rank, eta, seen);
      SetJobs(jobsByUuid[uuid := job]);
    }

    lemma JobOutside(job: ChannelJob, s: set<Channel>)
      ensures job as object !in Objects(s) && job as object != this
    {
    }

    /** Every live job of a database is dropped. */
    method RemoveDb(dbName: string)
      requires Ok()
      modifies this`jobsByUuid, Objects(all)
      ensures Ok() && Step(old(State()), RemovedDb(dbName), State())
      ensures jobsByUuid == map u <- old(jobsByUuid) | old(jobsByUuid)[u].dbName != dbName :: old(jobsByUuid)[u]
    {
      hide *;
      OkParts();
      Outside(all);
      ghost var s := State();
      var toCome := jobsByUuid.Keys;
      ghost var gone: set<string> := {};
      PurgedNone(s);
      while toCome != {}
        invariant Ok() && Valid(all) && all == old(all) && State() == Purged(s, gone)
        invariant toCome <= s.jobs.Keys && gone <= s.jobs.Keys && gone !! toCome && jobsByUuid == s.jobs - gone
        invariant forall u <- s.jobs | u !in toCome :: u in gone <==> s.jobs[u].dbName == dbName
        decreases toCome
      {
        var uuid :| uuid in toCome;
        toCome := toCome - {uuid};
        if jobsByUuid[uuid].dbName == dbName {
          PurgedOneMore(s, gone, uuid);
          Outside(all);
          RemoveJob(uuid);
          gone := gone + {uuid};
          OkParts();
        }
      }
      assert gone == set u <- s.jobs | s.jobs[u].dbName == dbName;
      PurgedStep(s, dbName);
    }

    /** The registry holds its jobs weakly: entries of jobs in no channel may vanish. */
    method Forget(uuids: set<string>)
      requires Ok() && Valid(all) && uuids <= jobsByUuid.Keys
      requires forall u <- uuids :: jobsByUuid[u] !in JobsIn(NetView(all))
      modifies this`jobsByUuid
      ensures Ok() && Step(old(State()), Forgotten(uuids), State()) && jobsByUuid == old(jobsByUuid) - uuids
    {
      hide *;
      OkParts();
      ghost var s := State();
      ForgottenStep(s, uuids);
      ForgottenInv(s, uuids);
      SetJobs(jobsByUuid - uuids);
      StateOk(Sched(s.net, s.jobs - uuids));
    }

    /** The jobs to run now, once drained; `log` records what every channel yielded on the way. */
    method GetJobsToRun(now: Time) returns (out: seq<ChannelJob>, ghost log: Drain)
      requires Ok()
      modifies Objects(all), HeapJobs(all)
      ensures Ok() && Step(old(State()), Drained(now, log), State()) && log.channel == root && log.out == out
      ensures all == old(all) && jobsByUuid == old(jobsByUuid)
    {
      hide *;
      OkParts();
      RootIn(all, root);
      Outside(all);
      ghost var s := State();
      out, log := root.GetJobsToRun(now, all);
      DrainedStep(s, now, log);
      InvStep(s, Drained(now, log), Sched(NetView(all), jobsByUuid));
      StateOk(Sched(NetView(all), jobsByUuid));
    }

    /** When to look again, 0 standing for no set time. */
    method GetWakeupTime() returns (r: Time)
      requires Ok()
      modifies Objects(all)
      ensures Ok() && State() == old(State()) && IsWakeup(r, Wakeups(State().net, root))
    {
      hide *;
      OkParts();
      RootIn(all, root);
      Outside(all);
      ghost var s := State();
      r := root.GetWakeupTime(0.0, all);
      NoWakeupSoFar(Wakeups(s.net, root));
      StateOk(s);
    }

    lemma OkParts()
      requires Ok()
      ensures Valid(all) && Tree(all) && OneRoot(all, root) && Indexed(all, channelsByName) && Inv(State())
      ensures NetView(all).Keys == all && State() == Sched(NetView(all), jobsByUuid)
    {
    }

    /** Put a new channel in the index. */
    method Adopt(c: Channel, ghost s: Sched)
      requires c !in all && Valid(all + {c}) && OneRoot(all, root) && Indexed(all, channelsByName) && Inv(s)
      requires c.parent != null && c.parent in all && NoDot(c.name) && c.depth == c.parent.depth + 1
      requires s.jobs == jobsByUuid && s.net.Keys == all && NetView(all + {c}) == s.net[c := EMPTY]
      modifies this`channelsByName, this`all
      ensures Ok() && all == old(all) + {c} && PathOf(c) == PathOf(c.parent) + [c.name]
      ensures State() == s.(net := s.net[c := EMPTY])
      ensures Paths(all) == old(Paths(all)) + {PathOf(c)}
      ensures MayGrow(s, [c]) && GrownBy(s, [c]) == State()
    {
      hide *;
      FullNameStep(c);
      TreeIs(all + {c});
      StillOneRoot(all, root, c);
      var fullName := FullNameOf(c, all + {c}, root);
      IndexedMore(all, root, channelsByName, c);
      GrownInv(s, c);
      GrowthByOne(s, c);
      MorePaths(all, c);
      Outside(all + {c});
      all := all + {c};
      channelsByName := channelsByName[fullName := c];
      assert Valid(all);
      assert NetView(all) == s.net[c := EMPTY];
      assert OneRoot(all, root);
      assert Indexed(all, channelsByName);
      StateOk(s.(net := s.net[c := EMPTY]));
    }

    lemma StateOk(s: Sched)
      requires Valid(all) && OneRoot(all, root) && Indexed(all, channelsByName) && Inv(s)
      requires s == Sched(NetView(all), jobsByUuid)
      ensures Ok() && State() == s
    {
    }
  }

  lemma ConfiguredStep(s: Sched, c: Channel, config: Config)
    requires c in s.net
    ensures var v := config.Apply(s.net[c]);
      && v.waiting == s.net[c].waiting && v.running == s.net[c].running && v.failed == s.net[c].failed
      && Step(s, Configured(c, config.capacity, config.throttle as real, config.sequential, config.paused),
          s.(net := s.net[c := v]))
  {
  }

  lemma PutBack(jobs: map<string, ChannelJob>, uuid: string, job: ChannelJob)
    ensures (jobs - {uuid})[uuid := job] == jobs[uuid := job]
    ensures uuid in jobs && jobs[uuid] == job ==> jobs[uuid := job] == jobs
  {
  }

  lemma StillOneRoot(all: set<Channel>, root: Channel, c: Channel)
    requires OneRoot(all, root) && c.parent != null && NoDot(c.name)
    ensures OneRoot(all + {c}, root)
  {
  }

  lemma MorePaths(all: set<Channel>, c: Channel)
    ensures Paths(all + {c}) == Paths(all) + {PathOf(c)}
  {
  }

  lemma TreeIs(all: set<Channel>)
    requires Valid(all)
    ensures Tree(all)
  {
  }

  lemma GrowthByOne(s: Sched, c: Channel)
    requires c !in s.net && c.parent != null && c.parent in s.net && c.depth == c.parent.depth + 1
    ensures MayGrow(s, [c]) && GrownBy(s, [c]) == s.(net := s.net[c := EMPTY])
  {
    assert [c][..0] == [];
    var t := s.(net := s.net[c := EMPTY]);
    assert GrownBy(s, []) == s && GrownBy(s, [c]) == t;
    assert Step(s, Grown(c), t);
    assert MayGrow(s, []);
    hide Step;
  }

  lemma SegmentAt(p: seq<string>, i: nat)
    requires Segments(p) && i < |p|
    ensures NoDot(p[i])
  {
  }

  lemma PathIn(all: set<Channel>, c: Channel)
    requires c in all
    ensures PathOf(c) in Paths(all)
  {
  }

  lemma ObjectsIncludes(all: set<Channel>, c: Channel)
    requires c in all
    ensures c in Objects(all)
  {
  }

  lemma CreatedNothing(paths: set<seq<string>>, t: seq<string>)
    requires Closed(paths) && t in paths
    ensures Created(paths, t) == paths
  {
  }

  lemma CreatedOneMore(paths: set<seq<string>>, t: seq<string>, n: string)
    ensures Created(paths, t + [n]) == Created(paths, t) + {t + [n]}
  {
    var u := t + [n];
    forall i | 0 <= i <= |t| ensures u[..i] == t[..i] {
    }
    assert u[..|u|] == u;
    assert forall i | 0 <= i <= |u| :: u[..i] == if i <= |t| then t[..i] else u;
  }

  lemma {:induction false} GrowMore(s: Sched, a: seq<Channel>, b: seq<Channel>)
    requires MayGrow(s, a) && MayGrow(GrownBy(s, a), b)
    ensures MayGrow(s, a + b) && GrownBy(s, a + b) == GrownBy(GrownBy(s, a), b)
    decreases |b|
  {
    if b == [] {
      assert a + b == a;
    } else {
      var front, last := b[..|b| - 1], b[|b| - 1];
      GrowMore(s, a, front);
      assert (a + b)[..|a + b| - 1] == a + front;
      hide Step;
    }
  }

  lemma DroppedStep(s: Sched, uuid: string)
    ensures Step(s, Removed(uuid), Dropped(s, uuid)) && Dropped(s, uuid).jobs == s.jobs - {uuid}
    ensures uuid !in s.jobs ==> Dropped(s, uuid) == s
    ensures uuid in s.jobs ==>
      Dropped(s, uuid).net == RemoveAlong(s.net, Line(s.jobs[uuid].channel), s.jobs[uuid])
  {
  }

  lemma JobChannel(s: Sched, uuid: string)
    requires Inv(s) && uuid in s.jobs
    ensures s.jobs[uuid].channel in s.net && s.jobs[uuid].uuid == uuid
  {
  }

  lemma MovedCases(net: Network, j: ChannelJob, eta: Eta, state: Option<JobState>)
    ensures state.None? || state == Some(Done) || state == Some(Cancelled) ==>
      Moved(net, j, eta, state) == RemoveAlong(net, Line(j.channel), j)
    ensures state == Some(JobState.Pending) ==> Moved(net, j, eta, state) == PendingIn(net, j.channel, j, eta)
    ensures state == Some(Enqueued) || state == Some(JobState.Started) ==>
      Moved(net, j, eta, state) == RunningFrom(net, j.channel, j)
    ensures state == Some(JobState.Failed) ==> Moved(net, j, eta, state) == FailedIn(net, j.channel, j)
    ensures
      state.None? || state == Some(Done) || state == Some(Cancelled) || state == Some(JobState.Pending) ||
      state == Some(Enqueued) || state == Some(JobState.Started) || state == Some(JobState.Failed) ||
      Moved(net, j, eta, state) == net
  {
  }

  lemma NotifyStep(s: Sched, uuid: string, j: ChannelJob, eta: Eta, state: Option<JobState>, kept: bool, e: Event, s': Sched)
    requires s'.jobs == s.jobs[uuid := j]
    requires if kept
      then uuid in s.jobs && j == s.jobs[uuid] && s'.net == Moved(s.net, j, eta, state) && e == Kept(uuid, eta, state)
      else
        && j.uuid == uuid && j.channel in s.net && j !in JobsIn(s.net) + s.jobs.Values
        && s'.net == Moved(Dropped(s, uuid).net, j, eta, state) && e == Rescheduled(j, eta, state)
    ensures Step(s, e, s')
  {
    if kept {
      assert s'.jobs == s.jobs;
    } else {
      assert s'.jobs == (s.jobs - {uuid})[uuid := j];
    }
  }

  lemma NotifiedPlace(s: Sched, uuid: string, j: ChannelJob, eta: Eta, state: Option<JobState>, kept: bool, net: Network)
    requires Inv(s) && j.uuid == uuid && j.channel in s.net
    requires if kept then uuid in s.jobs && j == s.jobs[uuid] && net == Moved(s.net, j, eta, state)
      else j !in JobsIn(s.net) + s.jobs.Values && net == Moved(Dropped(s, uuid).net, j, eta, state)
    requires j.channel in net
    requires j in net[j.channel].waiting.ready ==> eta == None
    requires j in net[j.channel].waiting.delayed ==> eta == Some(net[j.channel].waiting.delayed[j])
    ensures PlacedAs(net, j, eta, state, !kept)
  {
    DroppedInv(s, uuid);
    Known(s, j);
    Known(Dropped(s, uuid), j);
    hide Moved, WellPlaced, JobsIn, Dropped, PlacedAs;
    if kept {
      MovedIsPlaced(s.net, j, eta, state, false);
    } else {
      AbsentNowhere(Dropped(s, uuid).net, j);
      MovedIsPlaced(Dropped(s, uuid).net, j, eta, state, true);
    }
  }

  lemma TargetThere(paths: set<seq<string>>, p: seq<string>)
    requires [] in paths
    ensures p in paths ==> Target(paths, p) == p
  {
  }

  lemma NoWakeupSoFar(times: set<Time>)
    ensures WakeupSoFar(0.0) + times == times
  {
  }

  lemma PurgedNone(s: Sched)
    ensures Purged(s, {}) == s
  {
    var n := Purged(s, {}).net;
    forall c <- s.net ensures n[c] == s.net[c] {
      WithoutNone(s.net[c]);
    }
    assert n == s.net && s.jobs - {} == s.jobs;
  }

  lemma WithoutNone(v: ChannelView)
    ensures forall js: set<ChannelJob> :: js == {} ==> WithoutAll(v, js) == v
  {
  }

  lemma PurgedOneMore(s: Sched, gone: set<string>, uuid: string)
    requires uuid in s.jobs && uuid !in gone
    ensures Dropped(Purged(s, gone), uuid) == Purged(s, gone + {uuid})
  {
    var a, b := Dropped(Purged(s, gone), uuid), Purged(s, gone + {uuid});
    forall c <- s.net ensures a.net[c] == b.net[c] {
      var one := set u <- gone | u in s.jobs && c in Line(s.jobs[u].channel) :: s.jobs[u];
      var two := set u <- gone + {uuid} | u in s.jobs && c in Line(s.jobs[u].channel) :: s.jobs[u];
      if c in Line(s.jobs[uuid].channel) {
        assert two == one + {s.jobs[uuid]};
        WithoutOneMore(s.net[c], one, s.jobs[uuid]);
      } else {
        assert two == one;
      }
    }
    assert a.net == b.net && a.jobs == b.jobs;
  }

  lemma WithoutOneMore(v: ChannelView, js: set<ChannelJob>, j: ChannelJob)
    ensures WithoutAll(v, js).Without(j) == WithoutAll(v, js + {j})
  {
  }

  lemma PurgedStep(s: Sched, dbName: string)
    ensures Step(s, RemovedDb(dbName), Purged(s, set u <- s.jobs | s.jobs[u].dbName == dbName))
  {
  }

  lemma ForgottenStep(s: Sched, uuids: set<string>)
    requires uuids <= s.jobs.Keys && forall u <- uuids :: s.jobs[u] !in JobsIn(s.net)
    ensures Step(s, Forgotten(uuids), Sched(s.net, s.jobs - uuids))
  {
  }

  lemma DrainedStep(s: Sched, now: Time, log: Drain)
    requires log.channel.parent == null && DrainOk(s.net, log, now)
    ensures Step(s, Drained(now, log), Sched(Replay(s.net, log, now), s.jobs))
  {
  }

  lemma NoGrowth(s: Sched)
    ensures MayGrow(s, []) && GrownBy(s, []) == s
  {
  }

  lemma FreshTree(root: Channel)
    requires root.Ok() && root.parent == null && root.children == map[]
    ensures Valid({root}) && NetView({root}) == map[root := root.View()]
  {
  }

  lemma FreshState(root: Channel)
    requires root.parent == null && root.depth == 0 && root.name == ROOT
    ensures Inv(Sched(map[root := EMPTY.(capacity := Some(1))], map[])) && OneRoot({root}, root)
    ensures Indexed({root}, map[ROOT := root])
  {
    assert FullName(root) == ROOT;
    var net := map[root := EMPTY.(capacity := Some(1))];
    assert JobsAt(net[root]) == {};
    assert JobsIn(net) == {};
  }

  lemma ChildPath(all: set<Channel>, root: Channel, parent: Channel, name: string)
    requires Tree(all) && OneRoot(all, root) && parent in all && name in parent.children
    ensures parent.children[name] in all && PathOf(parent.children[name]) == PathOf(parent) + [name]
    ensures PathOf(parent.children[name]) in Paths(all)
  {
    FullNameStep(parent.children[name]);
  }
}
