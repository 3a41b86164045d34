/** Connected components of a symmetric relation on the positions of a list. */
module Components {

  /** Consecutive positions of the walk `p` hold related elements. */
  ghost predicate Link<T>(s: seq<T>, near: (T, T) -> bool, p: seq<nat>, k: nat) {
    k + 1 < |p| && p[k] < |s| && p[k + 1] < |s| && near(s[p[k]], s[p[k + 1]])
  }

  /** A walk over positions of `s` whose neighbours are related. */
  ghost predicate Walk<T>(s: seq<T>, near: (T, T) -> bool, p: seq<nat>) {
    && |p| > 0
    && (forall k :: 0 <= k < |p| ==> p[k] < |s|)
    && (forall k :: 0 <= k < |p| - 1 ==> Link(s, near, p, k))
  }

  /** Positions `i` and `j` are linked by a chain of related elements. */
  ghost predicate Connected<T>(s: seq<T>, near: (T, T) -> bool, i: nat, j: nat) {
    exists p :: Walk(s, near, p) && p[0] == i && p[|p| - 1] == j
  }

  ghost predicate Symmetric<T>(s: seq<T>, near: (T, T) -> bool) {
    forall i, j :: 0 <= i < |s| && 0 <= j < |s| && near(s[i], s[j]) ==> near(s[j], s[i])
  }

  lemma ConnectedSelf<T>(s: seq<T>, near: (T, T) -> bool, i: nat)
    requires i < |s|
    ensures Connected(s, near, i, i)
  {
    assert Walk(s, near, [i]);
  }

  lemma ConnectedEdge<T>(s: seq<T>, near: (T, T) -> bool, i: nat, j: nat)
    requires i < |s| && j < |s| && near(s[i], s[j])
    ensures Connected(s, near, i, j)
  {
    assert Link(s, near, [i, j], 0);
    assert Walk(s, near, [i, j]);
  }

  lemma ConnectedTrans<T>(s: seq<T>, near: (T, T) -> bool, i: nat, j: nat, k: nat)
    requires Connected(s, near, i, j) && Connected(s, near, j, k)
    ensures Connected(s, near, i, k)
  {
    var p :| Walk(s, near, p) && p[0] == i && p[|p| - 1] == j;
    var q :| Walk(s, near, q) && q[0] == j && q[|q| - 1] == k;
    var r := p + q[1..];
    forall m | 0 <= m < |r| - 1 ensures Link(s, near, r, m) {
      if m < |p| - 1 {
        assert Link(s, near, p, m);
      } else {
        assert r[m] == q[m + 1 - |p|] && r[m + 1] == q[m + 2 - |p|];
        assert Link(s, near, q, m + 1 - |p|);
      }
    }
    assert Walk(s, near, r);
    assert r[0] == i && r[|r| - 1] == k;
  }

  lemma {:induction false} ConnectedSym<T>(s: seq<T>, near: (T, T) -> bool, i: nat, j: nat)
    requires Symmetric(s, near) && Connected(s, near, i, j)
    ensures Connected(s, near, j, i)
  {
    var p :| Walk(s, near, p) && p[0] == i && p[|p| - 1] == j;
    ReverseWalk(s, near, p);
  }

  lemma {:induction false} ReverseWalk<T>(s: seq<T>, near: (T, T) -> bool, p: seq<nat>)
    requires Symmetric(s, near) && Walk(s, near, p)
    ensures Connected(s, near, p[|p| - 1], p[0])
    decreases |p|
  {
    if |p| == 1 {
      ConnectedSelf(s, near, p[0]);
    } else {
      assert Link(s, near, p, 0);
      ConnectedEdge(s, near, p[1], p[0]);
      assert Walk(s, near, p[1..]) by {
        forall k | 0 <= k < |p[1..]| - 1 ensures Link(s, near, p[1..], k) {
          assert Link(s, near, p, k + 1);
        }
      }
      ReverseWalk(s, near, p[1..]);
      ConnectedTrans(s, near, p[|p| - 1], p[1], p[0]);
    }
  }

  /** A labelling that agrees on related positions agrees on connected positions. */
  lemma {:induction false} LabelsFollowWalks<T>(s: seq<T>, near: (T, T) -> bool, tag: seq<nat>, p: seq<nat>)
    requires |tag| == |s| && Walk(s, near, p)
    requires forall i, j :: 0 <= i < |s| && 0 <= j < |s| && near(s[i], s[j]) ==> tag[i] == tag[j]
    ensures tag[p[0]] == tag[p[|p| - 1]]
    decreases |p|
  {
    if |p| > 1 {
      assert Link(s, near, p, 0);
      assert Walk(s, near, p[1..]) by {
        forall k | 0 <= k < |p[1..]| - 1 ensures Link(s, near, p[1..], k) {
          assert Link(s, near, p, k + 1);
        }
      }
      LabelsFollowWalks(s, near, tag, p[1..]);
    }
  }

  /** The labels are exactly the connected components. */
  ghost predicate Labels<T>(s: seq<T>, near: (T, T) -> bool, tag: seq<nat>) {
    && |tag| == |s|
    && forall i, j :: 0 <= i < |s| && 0 <= j < |s| ==> (tag[i] == tag[j] <==> Connected(s, near, i, j))
  }

  lemma LabelsAreComponents<T>(s: seq<T>, near: (T, T) -> bool, tag: seq<nat>)
    requires |tag| == |s|
    requires forall i, j :: 0 <= i < |s| && 0 <= j < |s| && near(s[i], s[j]) ==> tag[i] == tag[j]
    requires forall i, j :: 0 <= i < |s| && 0 <= j < |s| && tag[i] == tag[j] ==> Connected(s, near, i, j)
    ensures Labels(s, near, tag)
  {
    forall i, j | 0 <= i < |s| && 0 <= j < |s| && Connected(s, near, i, j) ensures tag[i] == tag[j] {
      var p :| Walk(s, near, p) && p[0] == i && p[|p| - 1] == j;
      LabelsFollowWalks(s, near, tag, p);
    }
  }
}
