/** The disjoint-set forest of `deduplicate_sweeps`: path halving, no ranks. */
module UnionFind {

  /** The partition after merging the classes of `a` and `b`; `a`'s root stays. */
  function Merged(root: seq<nat>, a: nat, b: nat): (r: seq<nat>)
    requires a < |root| && b < |root|
    ensures |r| == |root|
    ensures forall x :: 0 <= x < |r| ==> r[x] == if root[x] == root[b] then root[a] else root[x]
  {
    seq(|root|, x requires 0 <= x < |root| => if root[x] == root[b] then root[a] else root[x])
  }

  /** `root` names the representative of `x`; `depth` descends along parents. */
  ghost predicate NodeOk(parent: seq<nat>, root: seq<nat>, depth: seq<nat>, x: nat)
    requires |root| == |parent| && |depth| == |parent|
  {
    && x < |parent| && parent[x] < |parent| && root[x] < |parent|
    && root[parent[x]] == root[x] && parent[root[x]] == root[x]
    && (parent[x] == x ==> root[x] == x)
    && (parent[x] != x ==> depth[parent[x]] < depth[x])
  }

  ghost predicate IsForest(parent: seq<nat>, root: seq<nat>, depth: seq<nat>) {
    && |root| == |parent| && |depth| == |parent|
    && forall x :: 0 <= x < |parent| ==> NodeOk(parent, root, depth, x)
  }

  /** Pointing `x` at its grandparent keeps every representative, and moves strictly up. */
  lemma HalvingKeeps(parent: seq<nat>, root: seq<nat>, depth: seq<nat>, x: nat)
    requires IsForest(parent, root, depth) && x < |parent| && parent[x] != x
    ensures NodeOk(parent, root, depth, x) && NodeOk(parent, root, depth, parent[x])
    ensures IsForest(parent[x := parent[parent[x]]], root, depth)
    ensures depth[parent[parent[x]]] < depth[x] && root[parent[parent[x]]] == root[x]
  {
    assert NodeOk(parent, root, depth, x) && NodeOk(parent, root, depth, parent[x])
        && NodeOk(parent, root, depth, root[x]);
    var parent' := parent[x := parent[parent[x]]];
    forall y | 0 <= y < |parent| ensures NodeOk(parent', root, depth, y) {
      assert NodeOk(parent, root, depth, y) && NodeOk(parent, root, depth, root[y]);
    }
  }

  /** Depths after hanging the tree of `rb` below `ra`. */
  ghost function Lifted(root: seq<nat>, depth: seq<nat>, rb: nat, lift: nat): (r: seq<nat>)
    requires |root| == |depth|
    ensures |r| == |depth|
    ensures forall x :: 0 <= x < |r| ==> r[x] == if root[x] == rb then depth[x] + lift else depth[x]
  {
    seq(|depth|, x requires 0 <= x < |depth| => if root[x] == rb then depth[x] + lift else depth[x])
  }

  /** Hanging one root below another merges their classes; the lifted depths still descend. */
  lemma LinkingMerges(parent: seq<nat>, root: seq<nat>, depth: seq<nat>, a: nat, b: nat)
    requires IsForest(parent, root, depth) && a < |parent| && b < |parent|
    requires NodeOk(parent, root, depth, a) && NodeOk(parent, root, depth, b) && root[a] != root[b]
    ensures IsForest(parent[root[b] := root[a]], Merged(root, a, b), Lifted(root, depth, root[b], depth[root[a]] + 1))
  {
    var ra, rb := root[a], root[b];
    var parent', root', depth' := parent[rb := ra], Merged(root, a, b), Lifted(root, depth, rb, depth[ra] + 1);
    assert NodeOk(parent, root, depth, ra) && NodeOk(parent, root, depth, rb);
    forall x | 0 <= x < |parent| ensures NodeOk(parent', root', depth', x) {
      assert NodeOk(parent, root, depth, x) && NodeOk(parent, root, depth, parent[x])
          && NodeOk(parent, root, depth, root[x]);
    }
  }

  /** The link as the parent array shows it. */
  lemma LinkedForest(before: seq<nat>, after: seq<nat>, root: seq<nat>, depth: seq<nat>, a: nat, b: nat)
    requires IsForest(before, root, depth) && a < |before| && b < |before| && root[a] != root[b]
    requires |after| == |before| && root[b] < |before| && after[root[b]] == root[a]
    requires forall x :: 0 <= x < |before| && x != root[b] ==> after[x] == before[x]
    ensures root[a] < |depth| && IsForest(after, Merged(root, a, b), Lifted(root, depth, root[b], depth[root[a]] + 1))
  {
    assert NodeOk(before, root, depth, a) && NodeOk(before, root, depth, b);
    assert after == before[root[b] := root[a]];
    LinkingMerges(before, root, depth, a, b);
  }

  class Forest {
    var parent: array<nat>
    ghost var root: seq<nat>
    ghost var depth: seq<nat>

    ghost predicate Valid()
      reads this, parent
    {
      IsForest(parent[..], root, depth)
    }

    constructor (n: nat)
      ensures Valid() && fresh(parent) && parent.Length == n
      ensures forall x :: 0 <= x < n ==> root[x] == x
    {
      parent := new nat[n](i => i);
      root := seq(n, i => i);
      depth := seq(n, _ => 0);
      new;
      assert forall x :: 0 <= x < n ==> NodeOk(parent[..], root, depth, x);
    }

    /** Halves the path it walks; the partition does not change. */
    method Find(x: nat) returns (r: nat)
      requires Valid() && x < parent.Length
      modifies parent
      ensures Valid() && r == root[x]
    {
      r := x;
      assert NodeOk(parent[..], root, depth, x);
      while parent[r] != r
        invariant Valid() && NodeOk(parent[..], root, depth, r) && root[r] == root[x]
        decreases depth[r]
      {
        HalvingKeeps(parent[..], root, depth, r);
        ghost var before := parent[..];
        parent[r] := parent[parent[r]];
        assert parent[..] == before[r := before[before[r]]];
        r := parent[r];
        assert NodeOk(parent[..], root, depth, r);
      }
    }

    /** Merges the classes of `a` and `b`. */
    method Union(a: nat, b: nat)
      requires Valid() && a < parent.Length && b < parent.Length
      modifies this, parent
      ensures Valid() && parent == old(parent) && root == Merged(old(root), a, b)
    {
      assert NodeOk(parent[..], root, depth, a) && NodeOk(parent[..], root, depth, b);
      var ra := Find(a);
      var rb := Find(b);
      if ra != rb {
        Hang(ra, rb, a, b);
      }
      assert root == Merged(old(root), a, b);
    }

    /** `parent[rb] = ra`. */
    method Hang(ra: nat, rb: nat, ghost a: nat, ghost b: nat)
      requires Valid() && a < parent.Length && b < parent.Length && ra == root[a] && rb == root[b] && ra != rb
      modifies this, parent
      ensures Valid() && parent == old(parent) && root == Merged(old(root), a, b)
    {
      ghost var before := parent[..];
      assert NodeOk(before, root, depth, a) && NodeOk(before, root, depth, b);
      parent[rb] := ra;
      LinkedForest(before, parent[..], root, depth, a, b);
      root, depth := Merged(root, a, b), Lifted(root, depth, rb, depth[ra] + 1);
    }
  }
}
