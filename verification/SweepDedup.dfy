/** Collapsing sweeps of the same structural event: one representative per cluster. */
module SweepDedup {
  import opened Foundations
  import opened SweepTypes
  import opened Components
  import opened UnionFind
  import opened Sorting

  datatype Tolerance = Tolerance(minutes: int, fraction: real) {
    /** Two sweeps are duplicates: same direction, close in time, close in price. */
    predicate Near(a: Sweep, b: Sweep) {
      && a.direction == b.direction
      && AbsInt(a.time - b.time) <= minutes * MINUTE
      && Abs(a.levelPrice - b.levelPrice) <= fraction * ((Abs(a.levelPrice) + Abs(b.levelPrice)) / 2.0)
    }

    function Duplicate(): (Sweep, Sweep) -> bool {
      (a: Sweep, b: Sweep) => Near(a, b)
    }
  }

  // ---- specification --------------------------------------------------------------------------

  /** Deeper, else earlier. */
  predicate Better(a: Sweep, b: Sweep) {
    a.excursion > b.excursion || (a.excursion == b.excursion && a.time < b.time)
  }

  /** `max` keeps the first of several maximal positions. */
  predicate Beats(s: seq<Sweep>, k: nat, j: nat)
    requires k < |s| && j < |s|
  {
    Better(s[k], s[j]) || (!Better(s[j], s[k]) && k < j)
  }

  /** Position `k` represents its cluster. */
  ghost predicate Chosen(tol: Tolerance, s: seq<Sweep>, k: nat) {
    k < |s| && forall j :: 0 <= j < |s| && j != k && Connected(s, tol.Duplicate(), k, j) ==> Beats(s, k, j)
  }

  /** The least position of the cluster of `k`: where the cluster was first met. */
  ghost function FirstMet(tol: Tolerance, s: seq<Sweep>, k: nat): (f: nat)
    requires k < |s|
    ensures f <= k && Connected(s, tol.Duplicate(), k, f)
    ensures forall j :: 0 <= j < f ==> !Connected(s, tol.Duplicate(), k, j)
  {
    ConnectedSelf(s, tol.Duplicate(), k);
    FirstFrom(tol, s, k, 0)
  }

  ghost function FirstFrom(tol: Tolerance, s: seq<Sweep>, k: nat, j: nat): (f: nat)
    requires j <= k < |s| && Connected(s, tol.Duplicate(), k, k)
    ensures j <= f <= k && Connected(s, tol.Duplicate(), k, f)
    ensures forall m :: j <= m < f ==> !Connected(s, tol.Duplicate(), k, m)
    decreases k - j
  {
    if Connected(s, tol.Duplicate(), k, j) then j else FirstFrom(tol, s, k, j + 1)
  }

  function TimeAt(s: seq<Sweep>): (nat -> real) {
    (k: nat) => if k < |s| then s[k].time as real else 0.0
  }

  ghost function FirstAt(tol: Tolerance, s: seq<Sweep>): (nat -> int) {
    (k: nat) => if k < |s| then FirstMet(tol, s, k) else 0
  }

  /** The kept positions: one per cluster, by time, clusters met earlier first on equal times. */
  ghost predicate Kept(tol: Tolerance, s: seq<Sweep>, ks: seq<nat>) {
    (forall k :: k in ks <==> Chosen(tol, s, k)) && StrictBy(ks, TimeAt(s), FirstAt(tol, s))
  }

  function Pick(s: seq<Sweep>, ks: seq<nat>): (r: seq<Sweep>)
    requires forall k :: k in ks ==> k < |s|
    ensures |r| == |ks|
    ensures forall i :: 0 <= i < |r| ==> ks[i] in ks && r[i] == s[ks[i]]
  {
    if ks == [] then [] else
      var k := ks[0];
      assert k in ks && forall j :: j in ks[1..] ==> j in ks;
      [s[k]] + Pick(s, ks[1..])
  }

  /** The kept position of the cluster of `j`. */
  ghost function Representative(tol: Tolerance, s: seq<Sweep>, j: nat): (k: nat)
    requires j < |s|
    ensures Chosen(tol, s, k) && Connected(s, tol.Duplicate(), j, k)
  {
    EveryClusterHasAChosen(tol, s, j);
    var k: nat :| Chosen(tol, s, k) && Connected(s, tol.Duplicate(), j, k);
    k
  }

  /** The representatives of the clusters first met before `n`, in that order. */
  ghost function Representatives(tol: Tolerance, s: seq<Sweep>, n: nat): seq<nat>
    requires n <= |s|
  {
    if n == 0 then []
    else
      Representatives(tol, s, n - 1)
          + (if FirstMet(tol, s, n - 1) == n - 1 then [Representative(tol, s, n - 1)] else [])
  }

  /** The representatives by time. */
  ghost function KeptOf(tol: Tolerance, s: seq<Sweep>): (ks: seq<nat>)
    ensures Kept(tol, s, ks) && forall k :: k in ks ==> k < |s|
  {
    RepresentativesAreKept(tol, s);
    var ks := StableSort(Representatives(tol, s, |s|), TimeAt(s));
    assert forall k :: k in ks ==> Chosen(tol, s, k);
    ks
  }

  /** One sweep for every cluster, by time. */
  ghost function Dedup(tol: Tolerance, s: seq<Sweep>): (out: seq<Sweep>)
    ensures |out| == |KeptOf(tol, s)|
  {
    Pick(s, KeptOf(tol, s))
  }

  lemma SameFirstMet(tol: Tolerance, s: seq<Sweep>, j: nat, k: nat)
    requires j < |s| && k < |s| && Connected(s, tol.Duplicate(), j, k)
    ensures FirstMet(tol, s, j) == FirstMet(tol, s, k)
  {
    var near := tol.Duplicate();
    NearSymmetric(tol, s);
    ConnectedSym(s, near, j, k);
    ConnectedTrans(s, near, j, k, FirstMet(tol, s, k));
    ConnectedTrans(s, near, k, j, FirstMet(tol, s, j));
  }

  /** Chosen positions of clusters first met before `n`, in the order of meeting. */
  ghost predicate Listed(tol: Tolerance, s: seq<Sweep>, ks: seq<nat>, n: nat) {
    && (forall a :: 0 <= a < |ks| ==> Chosen(tol, s, ks[a]) && FirstAt(tol, s)(ks[a]) < n)
    && (forall a, b :: 0 <= a < b < |ks| ==> FirstAt(tol, s)(ks[a]) < FirstAt(tol, s)(ks[b]))
  }

  lemma ListedStep(tol: Tolerance, s: seq<Sweep>, ks: seq<nat>, n: nat, k: nat)
    requires Listed(tol, s, ks, n) && Chosen(tol, s, k) && FirstMet(tol, s, k) == n
    ensures Listed(tol, s, ks + [k], n + 1)
  {
  }

  lemma {:induction false} RepresentativesAre(tol: Tolerance, s: seq<Sweep>, n: nat)
    requires n <= |s|
    ensures Listed(tol, s, Representatives(tol, s, n), n)
  {
    if n > 0 {
      RepresentativesAre(tol, s, n - 1);
      OneMoreRepresentative(tol, s, n - 1, Representatives(tol, s, n - 1));
    }
  }

  lemma OneMoreRepresentative(tol: Tolerance, s: seq<Sweep>, n: nat, ks: seq<nat>)
    requires n < |s| && ks == Representatives(tol, s, n) && Listed(tol, s, ks, n)
    ensures Listed(tol, s, Representatives(tol, s, n + 1), n + 1)
  {
    if FirstMet(tol, s, n) == n {
      SameFirstMet(tol, s, n, Representative(tol, s, n));
      ListedStep(tol, s, ks, n, Representative(tol, s, n));
    }
  }

  lemma {:induction false} ChosenIsRepresentative(tol: Tolerance, s: seq<Sweep>, n: nat, k: nat)
    requires n <= |s| && Chosen(tol, s, k) && FirstMet(tol, s, k) < n
    ensures k in Representatives(tol, s, n)
  {
    if FirstMet(tol, s, k) == n - 1 {
      var f, near := n - 1, tol.Duplicate();
      SameFirstMet(tol, s, k, f);
      ConnectedTrans(s, near, k, f, Representative(tol, s, f));
      ChosenUnique(tol, s, k, Representative(tol, s, f));
    } else {
      ChosenIsRepresentative(tol, s, n - 1, k);
    }
  }

  lemma RepresentativesAreKept(tol: Tolerance, s: seq<Sweep>)
    ensures Kept(tol, s, StableSort(Representatives(tol, s, |s|), TimeAt(s)))
  {
    var reps := Representatives(tol, s, |s|);
    RepresentativesAre(tol, s, |s|);
    forall k: nat ensures k in reps <==> Chosen(tol, s, k) {
      if Chosen(tol, s, k) {
        ChosenIsRepresentative(tol, s, |s|, k);
      }
    }
    StableSortMembers(reps, TimeAt(s));
    StableSortStrict(reps, TimeAt(s), FirstAt(tol, s));
  }

  /** There is only one list of kept positions. */
  lemma KeptIsDedup(tol: Tolerance, s: seq<Sweep>, ks: seq<nat>)
    requires Kept(tol, s, ks) && forall k :: k in ks ==> k < |s|
    ensures Pick(s, ks) == Dedup(tol, s)
  {
    var unique := KeptOf(tol, s);
    assert forall k :: k in ks <==> k in unique;
    StrictUnique(ks, unique, TimeAt(s), FirstAt(tol, s));
  }

  // ---- the algorithm --------------------------------------------------------------------------

  lemma NearSymmetric(tol: Tolerance, s: seq<Sweep>)
    ensures Symmetric(s, tol.Duplicate())
  {
  }

  /** Pairs before `(i, j)` in loop order share a root when they are duplicates; a shared root means a chain. */
  ghost predicate UnitedUpTo(tol: Tolerance, s: seq<Sweep>, root: seq<nat>, i: nat, j: nat) {
    && |root| == |s|
    && (forall x, y :: 0 <= x < y < |s| && (x < i || (x == i && y < j)) && tol.Near(s[x], s[y]) ==> root[x] == root[y])
    && (forall x, y :: 0 <= x < |s| && 0 <= y < |s| && root[x] == root[y] ==> Connected(s, tol.Duplicate(), x, y))
  }

  lemma UnitedAtFirst(tol: Tolerance, s: seq<Sweep>, root: seq<nat>)
    requires |root| == |s| && forall x :: 0 <= x < |s| ==> root[x] == x
    ensures UnitedUpTo(tol, s, root, 0, 1)
  {
    forall x | 0 <= x < |s| ensures Connected(s, tol.Duplicate(), x, x) {
      ConnectedSelf(s, tol.Duplicate(), x);
    }
  }

  lemma UnitedByPair(tol: Tolerance, s: seq<Sweep>, root: seq<nat>, i: nat, j: nat)
    requires UnitedUpTo(tol, s, root, i, j) && i < j < |s| && tol.Near(s[i], s[j])
    ensures UnitedUpTo(tol, s, Merged(root, i, j), i, j + 1)
  {
    var near, root' := tol.Duplicate(), Merged(root, i, j);
    NearSymmetric(tol, s);
    ConnectedEdge(s, near, i, j);
    ConnectedSym(s, near, i, j);
    forall x, y | 0 <= x < |s| && 0 <= y < |s| && root'[x] == root'[y] ensures Connected(s, near, x, y) {
      if root[x] != root[y] {
        if root[x] == root[j] {
          ConnectedTrans(s, near, x, j, i);
          ConnectedTrans(s, near, x, i, y);
        } else {
          ConnectedTrans(s, near, x, i, j);
          ConnectedTrans(s, near, x, j, y);
        }
      }
    }
  }

  lemma UnitedLabels(tol: Tolerance, s: seq<Sweep>, root: seq<nat>, i: nat)
    requires UnitedUpTo(tol, s, root, i, i + 1) && i >= |s|
    ensures Labels(s, tol.Duplicate(), root)
  {
    forall x, y | 0 <= x < |s| && 0 <= y < |s| && tol.Near(s[x], s[y]) ensures root[x] == root[y] {
      if y < x {
        assert tol.Near(s[y], s[x]);
      }
    }
    LabelsAreComponents(s, tol.Duplicate(), root);
  }

  /** Union of every duplicate pair. */
  method Cluster(tol: Tolerance, s: seq<Sweep>) returns (forest: Forest)
    ensures forest.Valid() && forest.parent.Length == |s| && fresh(forest) && fresh(forest.parent)
    ensures Labels(s, tol.Duplicate(), forest.root)
  {
    forest := new Forest(|s|);
    UnitedAtFirst(tol, s, forest.root);
    for i := 0 to |s|
      invariant forest.Valid() && forest.parent.Length == |s| && fresh(forest) && fresh(forest.parent)
      invariant UnitedUpTo(tol, s, forest.root, i, i + 1)
    {
      for j := i + 1 to |s|
        invariant forest.Valid() && forest.parent.Length == |s| && fresh(forest) && fresh(forest.parent)
        invariant UnitedUpTo(tol, s, forest.root, i, j)
      {
        if tol.Near(s[i], s[j]) {
          UnitedByPair(tol, s, forest.root, i, j);
          forest.Union(i, j);
        }
      }
    }
    UnitedLabels(tol, s, forest.root, |s|);
  }

  /** The members below `n` of the class `r`, ascending. */
  function ClassBelow(root: seq<nat>, r: nat, n: nat): seq<nat>
    requires n <= |root|
  {
    if n == 0 then []
    else if root[n - 1] == r then ClassBelow(root, r, n - 1) + [n - 1]
    else ClassBelow(root, r, n - 1)
  }

  lemma {:induction false} ClassBelowIs(root: seq<nat>, r: nat, n: nat)
    requires n <= |root|
    ensures forall k: nat :: k in ClassBelow(root, r, n) <==> k < n && root[k] == r
    ensures forall a, b ::
              0 <= a < b < |ClassBelow(root, r, n)| ==> ClassBelow(root, r, n)[a] < ClassBelow(root, r, n)[b]
  {
    if n > 0 {
      ClassBelowIs(root, r, n - 1);
      var before := ClassBelow(root, r, n - 1);
      assert forall a :: 0 <= a < |before| ==> before[a] in before;
    }
  }

  /** The clusters of the first `n` positions: members ascending, clusters in order of first member. */
  ghost predicate Grouped(root: seq<nat>, n: nat, keys: seq<nat>, members: map<nat, seq<nat>>) {
    && n <= |root|
    && (forall r :: r in keys <==> r in members)
    && (forall r :: r in members ==> members[r] == ClassBelow(root, r, n) && members[r] != [])
    && (forall k :: 0 <= k < n ==> root[k] in members)
    && (forall a, b ::
        0 <= a < b < |keys| ==> keys[a] in members && keys[b] in members && members[keys[a]][0] < members[keys[b]][0])
  }

  lemma GroupedOld(root: seq<nat>, n: nat, keys: seq<nat>, members: map<nat, seq<nat>>)
    requires Grouped(root, n, keys, members) && n < |root| && root[n] in members
    ensures Grouped(root, n + 1, keys, members[root[n] := members[root[n]] + [n]])
  {
    forall a, b | 0 <= a < b < |keys| ensures keys[a] in keys && keys[b] in keys {
    }
  }

  lemma GroupedNew(root: seq<nat>, n: nat, keys: seq<nat>, members: map<nat, seq<nat>>)
    requires Grouped(root, n, keys, members) && n < |root| && root[n] !in members
    ensures Grouped(root, n + 1, keys + [root[n]], members[root[n] := [n]])
  {
    var r := root[n];
    ClassBelowIs(root, r, n);
    assert ClassBelow(root, r, n) != [] ==> ClassBelow(root, r, n)[0] in ClassBelow(root, r, n);
    forall a | 0 <= a < |keys| ensures keys[a] in members && members[keys[a]][0] < n {
      assert keys[a] in keys;
      ClassBelowIs(root, keys[a], n);
      assert members[keys[a]][0] in members[keys[a]];
    }
  }

  /** `clusters.setdefault(find(i), []).append(i)`, the keys in insertion order. */
  method Group(forest: Forest) returns (keys: seq<nat>, members: map<nat, seq<nat>>)
    requires forest.Valid()
    modifies forest.parent
    ensures forest.Valid() && Grouped(forest.root, |forest.root|, keys, members)
  {
    keys, members := [], map[];
    ghost var root := forest.root;
    for i := 0 to forest.parent.Length
      invariant forest.Valid() && forest.root == root && Grouped(root, i, keys, members)
    {
      var r := forest.Find(i);
      keys, members := AddMember(root, i, r, keys, members);
    }
  }

  method AddMember(ghost root: seq<nat>, i: nat, r: nat, keys: seq<nat>, members: map<nat, seq<nat>>)
    returns (keys': seq<nat>, members': map<nat, seq<nat>>)
    requires Grouped(root, i, keys, members) && i < |root| && r == root[i]
    ensures Grouped(root, i + 1, keys', members')
  {
    if r in members {
      GroupedOld(root, i, keys, members);
      return keys, members[r := members[r] + [i]];
    } else {
      GroupedNew(root, i, keys, members);
      return keys + [r], members[r := [i]];
    }
  }

  /** `max(members, key=...)`: the first maximal member. */
  method Best(s: seq<Sweep>, ms: seq<nat>) returns (best: nat)
    requires ms != [] && (forall k :: k in ms ==> k < |s|) && forall a, b :: 0 <= a < b < |ms| ==> ms[a] < ms[b]
    ensures best in ms && forall j :: j in ms && j != best ==> Beats(s, best, j)
  {
    best := ms[0];
    for m := 1 to |ms|
      invariant best in ms[..m]
      invariant forall j :: j in ms[..m] && j != best ==> j < |s| && best < |s| && Beats(s, best, j)
    {
      assert ms[m] in ms && best in ms;
      assert ms[..m + 1] == ms[..m] + [ms[m]];
      if Better(s[ms[m]], s[best]) {
        best := ms[m];
      }
    }
    assert ms[..|ms|] == ms;
  }

  /** `best[a]` is the first maximal member of the `a`-th cluster. */
  ghost predicate BestOf(s: seq<Sweep>, keys: seq<nat>, members: map<nat, seq<nat>>, best: seq<nat>) {
    && |best| <= |keys|
    && forall a :: 0 <= a < |best| ==>
         && best[a] < |s| && keys[a] in members && best[a] in members[keys[a]]
         && forall j :: j in members[keys[a]] && j != best[a] ==> j < |s| && Beats(s, best[a], j)
  }

  lemma FirstMemberIsFirstMet(tol: Tolerance, s: seq<Sweep>, root: seq<nat>, k: nat)
    requires Labels(s, tol.Duplicate(), root) && k < |s|
    ensures var ms := ClassBelow(root, root[k], |s|); ms != [] && ms[0] == FirstMet(tol, s, k)
  {
    var ms, f := ClassBelow(root, root[k], |s|), FirstMet(tol, s, k);
    ClassBelowIs(root, root[k], |s|);
    assert k in ms && f in ms && ms[0] in ms;
    assert Connected(s, tol.Duplicate(), k, ms[0]);
    assert f <= ms[0];
    var i :| 0 <= i < |ms| && ms[i] == f;
    assert ms[0] <= ms[i];
  }

  /** The best of a cluster represents it. */
  lemma BestIsChosen(tol: Tolerance, s: seq<Sweep>, root: seq<nat>, keys: seq<nat>, members: map<nat, seq<nat>>,
                     best: seq<nat>, a: nat)
    requires Labels(s, tol.Duplicate(), root) && Grouped(root, |s|, keys, members)
    requires BestOf(s, keys, members, best) && a < |best|
    ensures Chosen(tol, s, best[a]) && root[best[a]] == keys[a]
  {
    ClassBelowIs(root, keys[a], |s|);
  }

  lemma ChosenIsBest(tol: Tolerance, s: seq<Sweep>, root: seq<nat>, keys: seq<nat>, members: map<nat, seq<nat>>,
                     best: seq<nat>, k: nat)
    requires Labels(s, tol.Duplicate(), root) && Grouped(root, |s|, keys, members)
    requires BestOf(s, keys, members, best) && |best| == |keys| && Chosen(tol, s, k)
    ensures k in best
  {
    assert root[k] in members && root[k] in keys;
    var a :| 0 <= a < |keys| && keys[a] == root[k];
    BestIsChosen(tol, s, root, keys, members, best, a);
    assert Connected(s, tol.Duplicate(), k, best[a]);
    ChosenUnique(tol, s, k, best[a]);
  }

  lemma BestAreChosen(tol: Tolerance, s: seq<Sweep>, root: seq<nat>, keys: seq<nat>, members: map<nat, seq<nat>>,
                      best: seq<nat>)
    requires Labels(s, tol.Duplicate(), root) && Grouped(root, |s|, keys, members)
    requires BestOf(s, keys, members, best) && |best| == |keys|
    ensures forall k: nat :: k in best <==> Chosen(tol, s, k)
  {
    forall a | 0 <= a < |best| ensures Chosen(tol, s, best[a]) {
      BestIsChosen(tol, s, root, keys, members, best, a);
    }
    forall k: nat | Chosen(tol, s, k) ensures k in best {
      ChosenIsBest(tol, s, root, keys, members, best, k);
    }
  }

  lemma BestInOrder(tol: Tolerance, s: seq<Sweep>, root: seq<nat>, keys: seq<nat>, members: map<nat, seq<nat>>,
                    best: seq<nat>)
    requires Labels(s, tol.Duplicate(), root) && Grouped(root, |s|, keys, members)
    requires BestOf(s, keys, members, best) && |best| == |keys|
    ensures StrictBy(StableSort(best, TimeAt(s)), TimeAt(s), FirstAt(tol, s))
  {
    forall a | 0 <= a < |best| ensures FirstAt(tol, s)(best[a]) == members[keys[a]][0] {
      BestIsChosen(tol, s, root, keys, members, best, a);
      FirstMemberIsFirstMet(tol, s, root, best[a]);
    }
    StableSortStrict(best, TimeAt(s), FirstAt(tol, s));
  }

  lemma BestAreKept(tol: Tolerance, s: seq<Sweep>, root: seq<nat>, keys: seq<nat>, members: map<nat, seq<nat>>,
                    best: seq<nat>)
    requires Labels(s, tol.Duplicate(), root) && Grouped(root, |s|, keys, members)
    requires BestOf(s, keys, members, best) && |best| == |keys|
    ensures Kept(tol, s, StableSort(best, TimeAt(s)))
  {
    BestAreChosen(tol, s, root, keys, members, best);
    BestInOrder(tol, s, root, keys, members, best);
    StableSortMembers(best, TimeAt(s));
  }

  lemma ShortListsKeepAll(tol: Tolerance, s: seq<Sweep>)
    requires |s| <= 1
    ensures Dedup(tol, s) == s
  {
    var ks := if s == [] then [] else [0];
    assert Kept(tol, s, ks) && s == Pick(s, ks);
    KeptIsDedup(tol, s, ks);
  }

  lemma BestOfStep(s: seq<Sweep>, keys: seq<nat>, members: map<nat, seq<nat>>, best: seq<nat>, k: nat)
    requires BestOf(s, keys, members, best) && |best| < |keys| && keys[|best|] in members && k < |s|
             && k in members[keys[|best|]]
    requires forall j :: j in members[keys[|best|]] && j != k ==> j < |s| && Beats(s, k, j)
    ensures BestOf(s, keys, members, best + [k])
  {
  }

  /** The best member of every cluster, clusters in the order they were met. */
  method BestOfEach(s: seq<Sweep>, keys: seq<nat>, members: map<nat, seq<nat>>, ghost root: seq<nat>)
    returns (best: seq<nat>)
    requires Grouped(root, |s|, keys, members)
    ensures |best| == |keys| && BestOf(s, keys, members, best)
  {
    best := [];
    for a := 0 to |keys|
      invariant |best| == a && BestOf(s, keys, members, best)
    {
      assert keys[a] in keys;
      ClassBelowIs(root, keys[a], |s|);
      var k := Best(s, members[keys[a]]);
      BestOfStep(s, keys, members, best, k);
      best := best + [k];
    }
  }

  /** `deduplicate_sweeps`. */
  method DeduplicateSweeps(s: seq<Sweep>, tol: Tolerance) returns (r: Result<seq<Sweep>>)
    ensures r.Err? <==> tol.minutes < 0 || tol.fraction < 0.0
    ensures r.Ok? ==> r.value == Dedup(tol, s)
  {
    if tol.minutes < 0 {
      return Err("time_window_minutes");
    }
    if tol.fraction < 0.0 {
      return Err("price_tolerance_fraction");
    }
    if |s| <= 1 {
      ShortListsKeepAll(tol, s);
      return Ok(s);
    }
    var forest := Cluster(tol, s);
    ghost var root := forest.root;
    var keys, members := Group(forest);
    var best := BestOfEach(s, keys, members, root);
    BestAreKept(tol, s, root, keys, members, best);
    KeptIsDedup(tol, s, StableSort(best, TimeAt(s)));
    r := Ok(Pick(s, StableSort(best, TimeAt(s))));
  }

  // ---- what deduplication is for --------------------------------------------------------------

  lemma ChosenUnique(tol: Tolerance, s: seq<Sweep>, j: nat, k: nat)
    requires Chosen(tol, s, j) && Chosen(tol, s, k) && Connected(s, tol.Duplicate(), j, k)
    ensures j == k
  {
    NearSymmetric(tol, s);
    ConnectedSym(s, tol.Duplicate(), j, k);
  }

  lemma KeptNotNear(tol: Tolerance, s: seq<Sweep>, j: nat, k: nat)
    requires Chosen(tol, s, j) && Chosen(tol, s, k) && j != k
    ensures !tol.Near(s[j], s[k])
  {
    if tol.Near(s[j], s[k]) {
      ConnectedEdge(s, tol.Duplicate(), j, k);
      ChosenUnique(tol, s, j, k);
    }
  }

  lemma KeptDistinct(tol: Tolerance, s: seq<Sweep>, ks: seq<nat>, a: nat, b: nat)
    requires Kept(tol, s, ks) && a < |ks| && b < |ks| && a != b
    ensures ks[a] in ks && ks[b] in ks && ks[a] != ks[b]
  {
  }

  /** No two kept sweeps are duplicates of each other. */
  lemma KeptArePairwiseDistinct(tol: Tolerance, s: seq<Sweep>)
    ensures forall a, b ::
              0 <= a < |Dedup(tol, s)| && 0 <= b < |Dedup(tol, s)| && a != b ==>
              !tol.Near(Dedup(tol, s)[a], Dedup(tol, s)[b])
  {
    var ks, out := KeptOf(tol, s), Dedup(tol, s);
    forall a, b | 0 <= a < |out| && 0 <= b < |out| && a != b ensures !tol.Near(out[a], out[b]) {
      KeptDistinct(tol, s, ks, a, b);
      KeptNotNear(tol, s, ks[a], ks[b]);
    }
  }

  lemma EveryClusterHasAChosen(tol: Tolerance, s: seq<Sweep>, j: nat)
    requires j < |s|
    ensures exists k: nat :: Chosen(tol, s, k) && Connected(s, tol.Duplicate(), j, k) && !Better(s[j], s[k])
  {
    var near := tol.Duplicate();
    NearSymmetric(tol, s);
    ConnectedSelf(s, near, j);
    var k := BestConnected(tol, s, j, |s|);
    forall m | 0 <= m < |s| && m != k && Connected(s, near, k, m) ensures Beats(s, k, m) {
      ConnectedTrans(s, near, j, k, m);
    }
    assert Chosen(tol, s, k);
  }

  /** The kept sweeps of the cluster of `j`. */
  ghost predicate Represents(tol: Tolerance, s: seq<Sweep>, j: nat, k: nat) {
    Chosen(tol, s, k) && Connected(s, tol.Duplicate(), j, k)
  }

  /** Every input sweep is represented by exactly one kept sweep of its cluster, at least as good as itself. */
  lemma EveryClusterIsKeptOnce(tol: Tolerance, s: seq<Sweep>, j: nat)
    requires j < |s|
    ensures exists k: nat :: Represents(tol, s, j, k) && s[k] in Dedup(tol, s) && !Better(s[j], s[k])
                             && forall m: nat :: Represents(tol, s, j, m) ==> m == k
  {
    var near := tol.Duplicate();
    EveryClusterHasAChosen(tol, s, j);
    var k: nat :| Chosen(tol, s, k) && Connected(s, near, j, k) && !Better(s[j], s[k]);
    DedupMembers(tol, s, s[k]);
    forall m: nat | Represents(tol, s, j, m) ensures m == k {
      NearSymmetric(tol, s);
      ConnectedSym(s, near, j, k);
      ConnectedTrans(s, near, k, j, m);
      ChosenUnique(tol, s, k, m);
    }
    assert Represents(tol, s, j, k);
  }

  /** The position connected to `j` that beats every other one below `n`. */
  lemma {:induction false} BestConnected(tol: Tolerance, s: seq<Sweep>, j: nat, n: nat) returns (k: nat)
    requires j < |s| && n <= |s| && Connected(s, tol.Duplicate(), j, j)
    ensures k < |s| && Connected(s, tol.Duplicate(), j, k)
    ensures forall m :: 0 <= m < n && m != k && Connected(s, tol.Duplicate(), j, m) ==> Beats(s, k, m)
    ensures k == j || Beats(s, k, j)
  {
    if n == 0 {
      k := j;
    } else {
      k := BestConnected(tol, s, j, n - 1);
      if n - 1 != k && Connected(s, tol.Duplicate(), j, n - 1) && !Beats(s, k, n - 1) {
        k := n - 1;
      }
    }
  }

  // ---- running it again -------------------------------------------------------------------------

  /** In a list without duplicates every position is its own cluster. */
  lemma {:induction false} DistinctStayApart(tol: Tolerance, s: seq<Sweep>, p: seq<nat>)
    requires forall a, b :: 0 <= a < |s| && 0 <= b < |s| && a != b ==> !tol.Near(s[a], s[b])
    requires Walk(s, tol.Duplicate(), p)
    ensures p[0] == p[|p| - 1]
    decreases |p|
  {
    if |p| > 1 {
      assert Link(s, tol.Duplicate(), p, 0);
      assert Walk(s, tol.Duplicate(), p[1..]) by {
        forall k | 0 <= k < |p[1..]| - 1 ensures Link(s, tol.Duplicate(), p[1..], k) {
          assert Link(s, tol.Duplicate(), p, k + 1);
        }
      }
      DistinctStayApart(tol, s, p[1..]);
    }
  }

  lemma DistinctAllChosen(tol: Tolerance, s: seq<Sweep>)
    requires forall a, b :: 0 <= a < |s| && 0 <= b < |s| && a != b ==> !tol.Near(s[a], s[b])
    ensures forall k: nat :: Chosen(tol, s, k) <==> k < |s|
    ensures forall k: nat :: k < |s| ==> FirstMet(tol, s, k) == k
  {
    forall j: nat, k: nat | j < |s| && k < |s| && Connected(s, tol.Duplicate(), k, j) ensures j == k {
      var p :| Walk(s, tol.Duplicate(), p) && p[0] == k && p[|p| - 1] == j;
      DistinctStayApart(tol, s, p);
    }
  }

  function Upto(n: nat): (r: seq<nat>)
    ensures |r| == n && forall i :: 0 <= i < n ==> r[i] == i
  {
    seq(n, i => i)
  }

  lemma {:induction false} PickAll(s: seq<Sweep>, ks: seq<nat>)
    requires forall k :: k in ks ==> k < |s|
    requires |ks| == |s| && forall i :: 0 <= i < |s| ==> ks[i] == i
    ensures Pick(s, ks) == s
  {
    assert forall i :: 0 <= i < |s| ==> ks[i] in ks && Pick(s, ks)[i] == s[ks[i]];
  }

  lemma AllInOrder(tol: Tolerance, s: seq<Sweep>)
    requires forall a, b :: 0 <= a < |s| && 0 <= b < |s| && a != b ==> !tol.Near(s[a], s[b])
    requires forall a, b :: 0 <= a < b < |s| ==> s[a].time <= s[b].time
    ensures StrictBy(Upto(|s|), TimeAt(s), FirstAt(tol, s))
  {
    var all := Upto(|s|);
    DistinctAllChosen(tol, s);
    forall a, b | 0 <= a < b < |all|
      ensures TimeAt(s)(all[a]) <= TimeAt(s)(all[b]) && FirstAt(tol, s)(all[a]) < FirstAt(tol, s)(all[b]) {
    }
  }

  /** A list without duplicates that is sorted by time is its own deduplication. */
  lemma DistinctSortedIsFixed(tol: Tolerance, s: seq<Sweep>)
    requires forall a, b :: 0 <= a < |s| && 0 <= b < |s| && a != b ==> !tol.Near(s[a], s[b])
    requires forall a, b :: 0 <= a < b < |s| ==> s[a].time <= s[b].time
    ensures Dedup(tol, s) == s
  {
    DistinctAllChosen(tol, s);
    var all := Upto(|s|);
    forall k: nat ensures k in all <==> Chosen(tol, s, k) {
      if k < |s| {
        assert all[k] == k;
      }
    }
    AllInOrder(tol, s);
    KeptIsDedup(tol, s, all);
    PickAll(s, all);
  }

  lemma KeptInTimeOrder(tol: Tolerance, s: seq<Sweep>, ks: seq<nat>, a: nat, b: nat)
    requires Kept(tol, s, ks) && a < b < |ks|
    ensures ks[a] in ks && ks[b] in ks && ks[a] < |s| && ks[b] < |s| && s[ks[a]].time <= s[ks[b]].time
  {
    assert ks[a] in ks && ks[b] in ks;
    assert TimeAt(s)(ks[a]) <= TimeAt(s)(ks[b]);
  }

  lemma KeptSortedByTime(tol: Tolerance, s: seq<Sweep>)
    ensures forall a, b :: 0 <= a < b < |Dedup(tol, s)| ==> Dedup(tol, s)[a].time <= Dedup(tol, s)[b].time
  {
    var ks, out := KeptOf(tol, s), Dedup(tol, s);
    forall a, b | 0 <= a < b < |out| ensures out[a].time <= out[b].time {
      KeptInTimeOrder(tol, s, ks, a, b);
    }
  }

  /** Deduplicating a deduplicated list returns the same list. */
  lemma DedupIsIdempotent(tol: Tolerance, s: seq<Sweep>)
    ensures Dedup(tol, Dedup(tol, s)) == Dedup(tol, s)
  {
    KeptArePairwiseDistinct(tol, s);
    KeptSortedByTime(tol, s);
    DistinctSortedIsFixed(tol, Dedup(tol, s));
  }

  // ---- reordering the input -----------------------------------------------------------------------

  /** `t` lists the elements of `s` in the order `p`; `q` is the inverse order. */
  ghost predicate Reordering(s: seq<Sweep>, t: seq<Sweep>, p: seq<nat>, q: seq<nat>) {
    && |p| == |t| == |s| == |q|
    && (forall i :: 0 <= i < |s| ==> p[i] < |s| && q[i] < |s|)
    && (forall i :: 0 <= i < |s| ==> q[p[i]] == i && p[q[i]] == i && t[i] == s[p[i]])
  }

  lemma ReorderingBack(s: seq<Sweep>, t: seq<Sweep>, p: seq<nat>, q: seq<nat>)
    requires Reordering(s, t, p, q)
    ensures Reordering(t, s, q, p)
  {
  }

  function Through(p: seq<nat>, walk: seq<nat>): (r: seq<nat>)
    requires forall k :: 0 <= k < |walk| ==> walk[k] < |p|
    ensures |r| == |walk| && forall k :: 0 <= k < |r| ==> r[k] == p[walk[k]]
  {
    seq(|walk|, k requires 0 <= k < |walk| => p[walk[k]])
  }

  lemma ReorderingKeepsChains(tol: Tolerance, s: seq<Sweep>, t: seq<Sweep>, p: seq<nat>, q: seq<nat>, i: nat, j: nat)
    requires Reordering(s, t, p, q) && i < |t| && j < |t| && Connected(t, tol.Duplicate(), i, j)
    ensures Connected(s, tol.Duplicate(), p[i], p[j])
  {
    var near := tol.Duplicate();
    var walk :| Walk(t, near, walk) && walk[0] == i && walk[|walk| - 1] == j;
    var image := Through(p, walk);
    forall k | 0 <= k < |image| - 1 ensures Link(s, near, image, k) {
      assert Link(t, near, walk, k);
    }
    assert Walk(s, near, image);
  }

  /** No two sweeps of one cluster have equal excursion and equal time. */
  ghost predicate NoTies(tol: Tolerance, s: seq<Sweep>) {
    forall i, j :: 0 <= i < |s| && 0 <= j < |s| && i != j && Connected(s, tol.Duplicate(), i, j) ==>
      Better(s[i], s[j]) || Better(s[j], s[i])
  }

  lemma ReorderingKeepsChosen(tol: Tolerance, s: seq<Sweep>, t: seq<Sweep>, p: seq<nat>, q: seq<nat>, k: nat)
    requires Reordering(s, t, p, q) && NoTies(tol, s) && Chosen(tol, s, k)
    ensures Chosen(tol, t, q[k]) && t[q[k]] == s[k]
  {
    forall j | 0 <= j < |t| && j != q[k] && Connected(t, tol.Duplicate(), q[k], j) ensures Beats(t, q[k], j) {
      ReorderingKeepsChains(tol, s, t, p, q, q[k], j);
      assert p[j] != k;
    }
  }

  lemma ReorderingKeepsNoTies(tol: Tolerance, s: seq<Sweep>, t: seq<Sweep>, p: seq<nat>, q: seq<nat>)
    requires Reordering(s, t, p, q) && NoTies(tol, s)
    ensures NoTies(tol, t)
  {
    forall i, j | 0 <= i < |t| && 0 <= j < |t| && i != j && Connected(t, tol.Duplicate(), i, j)
      ensures Better(t[i], t[j]) || Better(t[j], t[i])
    {
      ReorderingKeepsChains(tol, s, t, p, q, i, j);
      assert p[i] != p[j];
    }
  }

  /** The output holds exactly the chosen sweeps. */
  lemma DedupMembers(tol: Tolerance, s: seq<Sweep>, x: Sweep)
    ensures x in Dedup(tol, s) <==> exists k: nat :: Chosen(tol, s, k) && s[k] == x
  {
    var ks, out := KeptOf(tol, s), Dedup(tol, s);
    forall k: nat | Chosen(tol, s, k) ensures s[k] in out {
      var i :| 0 <= i < |ks| && ks[i] == k;
      assert out[i] == s[k];
    }
    if x in out {
      var i :| 0 <= i < |out| && out[i] == x;
      assert ks[i] in ks && Chosen(tol, s, ks[i]);
    }
  }

  /** Deduplication invents nothing. */
  lemma DedupKeepsInputs(tol: Tolerance, s: seq<Sweep>, x: Sweep)
    requires x in Dedup(tol, s)
    ensures x in s
  {
    DedupMembers(tol, s, x);
  }

  lemma ReorderingKeepsOutput(tol: Tolerance, s: seq<Sweep>, t: seq<Sweep>, p: seq<nat>, q: seq<nat>, x: Sweep)
    requires Reordering(s, t, p, q) && NoTies(tol, s) && x in Dedup(tol, s)
    ensures x in Dedup(tol, t)
  {
    DedupMembers(tol, s, x);
    DedupMembers(tol, t, x);
    var k: nat :| Chosen(tol, s, k) && s[k] == x;
    ReorderingKeepsChosen(tol, s, t, p, q, k);
  }

  ghost predicate DistinctTimes(s: seq<Sweep>) {
    forall a, b :: 0 <= a < b < |s| ==> s[a].time != s[b].time
  }

  /** Lists with the same elements, ascending at distinct times, are equal. */
  lemma SameInTimeOrder(a: seq<Sweep>, b: seq<Sweep>)
    requires DistinctTimes(a) && DistinctTimes(b) && forall x :: x in a <==> x in b
    requires forall i, j :: 0 <= i < j < |a| ==> a[i].time <= a[j].time
    requires forall i, j :: 0 <= i < j < |b| ==> b[i].time <= b[j].time
    ensures a == b
  {
    StrictUnique(a, b, (x: Sweep) => x.time as real, (x: Sweep) => 0);
  }

  /**
    The order of the input matters only for exact ties: without ties inside a cluster the same
    sweeps are kept, and when the kept sweeps happen at different times the lists are equal.
  */
  lemma InputOrderIsIrrelevant(tol: Tolerance, s: seq<Sweep>, t: seq<Sweep>, p: seq<nat>, q: seq<nat>)
    requires Reordering(s, t, p, q) && NoTies(tol, s)
    ensures forall x :: x in Dedup(tol, s) <==> x in Dedup(tol, t)
    ensures DistinctTimes(Dedup(tol, s)) && DistinctTimes(Dedup(tol, t)) ==> Dedup(tol, s) == Dedup(tol, t)
  {
    ReorderingBack(s, t, p, q);
    ReorderingKeepsNoTies(tol, s, t, p, q);
    forall x ensures x in Dedup(tol, s) <==> x in Dedup(tol, t) {
      if x in Dedup(tol, s) {
        ReorderingKeepsOutput(tol, s, t, p, q, x);
      }
      if x in Dedup(tol, t) {
        ReorderingKeepsOutput(tol, t, s, q, p, x);
      }
    }
    if DistinctTimes(Dedup(tol, s)) && DistinctTimes(Dedup(tol, t)) {
      KeptSortedByTime(tol, s);
      KeptSortedByTime(tol, t);
      SameInTimeOrder(Dedup(tol, s), Dedup(tol, t));
    }
  }
}
