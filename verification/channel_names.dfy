/** Names of channels, and which channel a lookup with fallback finds
    (queue_job/jobrunner/channels.py, lines 980-1057). */
module ChannelNames {
  // ----- dotted names -----------------------------------------------------------------------

  predicate NoDot(s: string) {
    '.' !in s
  }

  predicate Segments(p: seq<string>) {
    forall i | 0 <= i < |p| :: NoDot(p[i])
  }

  /** `".".join(p)` */
  function Join(p: seq<string>): string
    requires p != []
  {
    if |p| == 1 then p[0] else Join(p[..|p| - 1]) + "." + p[|p| - 1]
  }

  /** The position of the last dot. */
  function LastDot(s: string): (i: nat)
    requires '.' in s
    ensures i < |s| && s[i] == '.' && NoDot(s[i + 1..])
  {
    if s[|s| - 1] == '.' then |s| - 1
    else
      assert s == s[..|s| - 1] + [s[|s| - 1]];
      var i := LastDot(s[..|s| - 1]);
      assert s[i + 1..] == s[..|s| - 1][i + 1..] + [s[|s| - 1]];
      i
  }

  /** `s.split(".")` */
  function Split(s: string): (p: seq<string>)
    ensures p != [] && Segments(p) && Join(p) == s
    decreases |s|
  {
    if NoDot(s) then [s]
    else
      var i := LastDot(s);
      var front, last := Split(s[..i]), s[i + 1..];
      assert (front + [last])[..|front|] == front;
      assert s == s[..i] + "." + last;
      front + [last]
  }

  /** `s.rsplit(".", 1)[:-1][0]` */
  function ParentName(s: string): string
    requires '.' in s
  {
    s[..LastDot(s)]
  }

  lemma LastDotUnique(s: string, a: string, b: string)
    requires s == a + "." + b && NoDot(b)
    ensures '.' in s && LastDot(s) == |a|
  {
    assert s[|a|] == '.';
    var i := LastDot(s);
    var after := s[i + 1..];
    assert forall k | i < k < |s| :: s[k] == after[k - i - 1];
    assert forall k | |a| < k < |s| :: s[k] == b[k - |a| - 1];
  }

  /** A name made of segments can be taken apart again. */
  lemma {:induction false} SplitJoin(p: seq<string>)
    requires p != [] && Segments(p)
    ensures Split(Join(p)) == p
    decreases |p|
  {
    var s := Join(p);
    if |p| > 1 {
      var front, last := p[..|p| - 1], p[|p| - 1];
      LastDotUnique(s, Join(front), last);
      assert s[..|Join(front)|] == Join(front) && s[|Join(front)| + 1..] == last;
      SplitJoin(front);
      assert p == front + [last];
    }
  }

  lemma ParentOfJoin(p: seq<string>)
    requires |p| > 1 && Segments(p)
    ensures '.' in Join(p) && ParentName(Join(p)) == Join(p[..|p| - 1])
  {
    LastDotUnique(Join(p), Join(p[..|p| - 1]), p[|p| - 1]);
  }

  lemma JoinInjective(p: seq<string>, q: seq<string>)
    requires p != [] && q != [] && Segments(p) && Segments(q) && Join(p) == Join(q)
    ensures p == q
  {
    SplitJoin(p);
    SplitJoin(q);
  }

  // ----- which channel a lookup finds ---------------------------------------------------------

  /** The paths of the channels there are, below the root: every prefix of one is there too. */
  ghost predicate Closed(paths: set<seq<string>>) {
    [] in paths && forall p <- paths, i | 0 <= i <= |p| :: p[..i] in paths
  }

  /** The longest proper prefix of a path that is there. */
  ghost function Fallback(paths: set<seq<string>>, p: seq<string>, k: nat): (r: nat)
    requires [] in paths && k < |p|
    ensures r <= k && p[..r] in paths && forall m | r < m <= k :: p[..m] !in paths
  {
    if k == 0 || p[..k] in paths then assert p[..0] == []; k else Fallback(paths, p, k - 1)
  }

  ghost function Shortened(paths: set<seq<string>>, p: seq<string>): nat
    requires [] in paths && p != []
  {
    Fallback(paths, p, |p| - 1)
  }

  /** The path of the channel a lookup with fallback answers with: when the channel is not there,
      all segments of its name are appended to the nearest channel that is. */
  ghost function Target(paths: set<seq<string>>, p: seq<string>): seq<string>
    requires [] in paths
  {
    if p in paths then p else p[..Shortened(paths, p)] + p
  }

  /** The channels there are once a path has been created. */
  ghost function Created(paths: set<seq<string>>, t: seq<string>): set<seq<string>> {
    paths + set i | 0 <= i <= |t| :: t[..i]
  }

  lemma CreatedClosed(paths: set<seq<string>>, t: seq<string>)
    requires Closed(paths)
    ensures Closed(Created(paths, t)) && t in Created(paths, t)
  {
    var after := Created(paths, t);
    forall p <- after, i | 0 <= i <= |p| ensures p[..i] in after {
      if p !in paths {
        var k :| 0 <= k <= |t| && p == t[..k];
        assert p[..i] == t[..i];
      }
    }
    assert t == t[..|t|];
  }

  lemma LongestPrefix(paths: set<seq<string>>, p: seq<string>, k: nat, r: nat)
    requires [] in paths && k < |p| && r <= k && p[..r] in paths && forall m | r < m <= k :: p[..m] !in paths
    ensures Fallback(paths, p, k) == r
  {
    assert p[..r] in paths;
    var f := Fallback(paths, p, k);
  }

  /** Asking again with fallback for the same name finds the same channel exactly when the channel
      was there, or the lookup fell back to the root, or the first segment left out differs from
      the first segment of the name. */
  lemma FallbackStableIff(paths: set<seq<string>>, p: seq<string>)
    requires Closed(paths) && p != []
    ensures Target(Created(paths, Target(paths, p)), p) == Target(paths, p) <==>
      p in paths || Shortened(paths, p) == 0 || p[Shortened(paths, p)] != p[0]
  {
    var t := Target(paths, p);
    var after := Created(paths, t);
    CreatedClosed(paths, t);
    if p !in paths {
      var k := Shortened(paths, p);
      if k == 0 {
        assert t == p;
      } else if p[k] != p[0] {
        assert t[k] == p[0];
        forall m | k < m <= |p| ensures p[..m] !in after {
          assert p[..m][k] == p[k];
          assert p == p[..|p|];
          forall i | 0 <= i <= |t| ensures t[..i] != p[..m] {
            if i == m {
              assert t[..i][k] == p[0];
            }
          }
        }
        assert p == p[..|p|];
        LongestPrefix(after, p, |p| - 1, k);
      } else {
        assert p[..k + 1] == t[..k + 1];
        assert p[..k + 1] in after;
        if p !in after {
          var f := Shortened(after, p);
          assert p == p[..|p|];
          assert f > k;
          assert |Target(after, p)| == f + |p|;
        }
      }
    }
  }

  /** A name that a second lookup resolves to another channel: with only the channel `a`, looking
      up `a.a` creates `a.a.a` on the way to its answer, and finds `a.a` the next time. */
  lemma FallbackMoves()
    ensures var paths := {[], ["a"]}; var p := ["a", "a"];
      Target(paths, p) == ["a", "a", "a"] && Target(Created(paths, Target(paths, p)), p) == ["a", "a"]
  {
    var paths: set<seq<string>> := {[], ["a"]};
    var p := ["a", "a"];
    assert p[..1] == ["a"];
    LongestPrefix(paths, p, 1, 1);
    var t := Target(paths, p);
    assert t == ["a", "a", "a"] && t[..2] == p;
  }
}
