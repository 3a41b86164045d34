/** Equal highs and lows: single-link clustering of swing prices. */
module EqualLevels {
  import opened Foundations
  import opened Components
  import opened Sorting
  import opened Matching

  datatype EqualLevel = EqualLevel(side: Side, average: real, members: seq<SwingLevel>, min: real, max: real)

  function Price(): (SwingLevel -> real) { (l: SwingLevel) => l.price }

  function Within(tol: real): ((SwingLevel, SwingLevel) -> bool) {
    (a: SwingLevel, b: SwingLevel) => Abs(a.price - b.price) <= tol
  }

  function OfSide(levels: seq<SwingLevel>, side: Side): seq<SwingLevel> {
    if levels == [] then []
    else if levels[0].side == side then [levels[0]] + OfSide(levels[1..], side)
    else OfSide(levels[1..], side)
  }

  /** The levels of one side, by price. */
  function Sorted(levels: seq<SwingLevel>, side: Side): seq<SwingLevel> {
    StableSort(OfSide(levels, side), Price())
  }

  // ---- one cluster --------------------------------------------------------------------------------

  function SumPrice(ms: seq<SwingLevel>): real {
    if ms == [] then 0.0 else SumPrice(ms[..|ms| - 1]) + ms[|ms| - 1].price
  }

  function MinPrice(ms: seq<SwingLevel>): real
    requires ms != []
  {
    if |ms| == 1 then ms[0].price else Min(MinPrice(ms[..|ms| - 1]), ms[|ms| - 1].price)
  }

  function MaxPrice(ms: seq<SwingLevel>): real
    requires ms != []
  {
    if |ms| == 1 then ms[0].price else Max(MaxPrice(ms[..|ms| - 1]), ms[|ms| - 1].price)
  }

  /** `_build_equal_level`. */
  function Build(side: Side, ms: seq<SwingLevel>): EqualLevel
    requires ms != []
  {
    EqualLevel(side, SumPrice(ms) / |ms| as real, ms, MinPrice(ms), MaxPrice(ms))
  }

  lemma MulSucc(x: real, n: nat)
    requires n > 0
    ensures Mul(x, n as real) == Mul(x, (n - 1) as real) + x
  {
    assert n as real == (n - 1) as real + 1.0;
    assert x * n as real == x * (n - 1) as real + x * 1.0;
  }

  lemma Scale(x: real, y: real, n: nat)
    requires x <= y
    ensures Mul(x, n as real) <= Mul(y, n as real)
  {
    assert (y - x) * n as real >= 0.0;
  }

  lemma {:induction false} SumBetween(ms: seq<SwingLevel>)
    requires ms != []
    ensures Mul(MinPrice(ms), |ms| as real) <= SumPrice(ms) <= Mul(MaxPrice(ms), |ms| as real)
    decreases |ms|
  {
    var init, n := ms[..|ms| - 1], |ms|;
    MulSucc(MinPrice(ms), n);
    MulSucc(MaxPrice(ms), n);
    if n == 1 {
      assert SumPrice(init) == 0.0;
      assert Mul(MinPrice(ms), 0.0) == 0.0 && Mul(MaxPrice(ms), 0.0) == 0.0;
    } else {
      SumBetween(init);
      Scale(MinPrice(ms), MinPrice(init), n - 1);
      Scale(MaxPrice(init), MaxPrice(ms), n - 1);
    }
  }

  lemma QuotientBetween(lo: real, hi: real, sum: real, n: nat)
    requires n > 0 && Mul(lo, n as real) <= sum <= Mul(hi, n as real)
    ensures lo <= sum / n as real <= hi
  {
  }

  /** A cluster's average lies between its extreme prices. */
  lemma AverageBetweenExtremes(side: Side, ms: seq<SwingLevel>)
    requires ms != []
    ensures var e := Build(side, ms); e.min <= e.average <= e.max
  {
    SumBetween(ms);
    QuotientBetween(MinPrice(ms), MaxPrice(ms), SumPrice(ms), |ms|);
  }

  // ---- clusters as runs of the sorted list -----------------------------------------------------------

  /** The number of gaps wider than the tolerance before position `i`. */
  function RunOf(s: seq<SwingLevel>, tol: real, i: nat): (r: nat)
    requires i < |s|
  {
    if i == 0 then 0 else RunOf(s, tol, i - 1) + (if s[i].price - s[i - 1].price <= tol then 0 else 1)
  }

  lemma {:induction false} RunsAscend(s: seq<SwingLevel>, tol: real, i: nat, j: nat)
    requires i <= j < |s| && SortedBy(s, Price())
    ensures RunOf(s, tol, i) <= RunOf(s, tol, j)
    ensures RunOf(s, tol, i) != RunOf(s, tol, j) ==> s[j].price - s[i].price > tol
  {
    if i < j {
      RunsAscend(s, tol, i, j - 1);
      assert Price()(s[j - 1]) <= Price()(s[j]) && Price()(s[i]) <= Price()(s[j - 1]);
    }
  }

  lemma {:induction false} RunIsConnected(s: seq<SwingLevel>, tol: real, i: nat, j: nat)
    requires i <= j < |s| && SortedBy(s, Price()) && RunOf(s, tol, i) == RunOf(s, tol, j)
    ensures Connected(s, Within(tol), i, j) && Connected(s, Within(tol), j, i)
  {
    if i == j {
      ConnectedSelf(s, Within(tol), i);
    } else {
      RunsAscend(s, tol, i, j - 1);
      RunIsConnected(s, tol, i, j - 1);
      assert Price()(s[j - 1]) <= Price()(s[j]);
      ConnectedEdge(s, Within(tol), j - 1, j);
      ConnectedEdge(s, Within(tol), j, j - 1);
      ConnectedTrans(s, Within(tol), i, j - 1, j);
      ConnectedTrans(s, Within(tol), j, j - 1, i);
    }
  }

  function Tags(s: seq<SwingLevel>, tol: real): (r: seq<nat>)
    ensures |r| == |s| && forall i :: 0 <= i < |s| ==> r[i] == RunOf(s, tol, i)
  {
    seq(|s|, i requires 0 <= i < |s| => RunOf(s, tol, i))
  }

  /** In a list sorted by price the runs are exactly the connected components of "within tolerance". */
  lemma RunsAreComponents(s: seq<SwingLevel>, tol: real)
    requires SortedBy(s, Price())
    ensures Labels(s, Within(tol), Tags(s, tol))
  {
    var tags := Tags(s, tol);
    forall i, j | 0 <= i < |s| && 0 <= j < |s| && Within(tol)(s[i], s[j]) ensures tags[i] == tags[j] {
      if i <= j {
        RunsAscend(s, tol, i, j);
      } else {
        RunsAscend(s, tol, j, i);
      }
    }
    forall i, j | 0 <= i < |s| && 0 <= j < |s| && tags[i] == tags[j] ensures Connected(s, Within(tol), i, j) {
      if i <= j {
        RunIsConnected(s, tol, i, j);
      } else {
        RunIsConnected(s, tol, j, i);
      }
    }
    LabelsAreComponents(s, Within(tol), tags);
  }

  // ---- the loop ---------------------------------------------------------------------------------------

  /** Run `k` is the stretch from `cuts[k]` up to `cuts[k + 1]` of the first `n` levels. */
  ghost predicate Cut(s: seq<SwingLevel>, tol: real, cuts: seq<nat>, n: nat) {
    && n <= |s| && |cuts| >= 1 && cuts[0] == 0 && cuts[|cuts| - 1] == n
    && (forall j, k :: 0 <= j < k < |cuts| ==> cuts[j] < cuts[k])
    && (forall k :: 0 <= k < |cuts| - 1 ==> IsRun(s, tol, k, cuts[k], cuts[k + 1]))
  }

  ghost predicate IsRun(s: seq<SwingLevel>, tol: real, k: nat, a: nat, b: nat) {
    b <= |s| && forall i :: a <= i < b ==> RunOf(s, tol, i) == k
  }

  /** The clusters with at least two members, in order of price. */
  function Emit(side: Side, s: seq<SwingLevel>, cuts: seq<nat>): seq<EqualLevel>
    requires forall j, k :: 0 <= j < k < |cuts| ==> cuts[j] < cuts[k]
    requires forall k :: 0 <= k < |cuts| ==> cuts[k] <= |s|
  {
    if |cuts| <= 1 then []
    else
      var a, b := cuts[|cuts| - 2], cuts[|cuts| - 1];
      Emit(side, s, cuts[..|cuts| - 1]) + (if b - a >= 2 then [Build(side, s[a..b])] else [])
  }

  lemma CutGrows(s: seq<SwingLevel>, tol: real, cuts: seq<nat>, a: nat, i: nat)
    requires Cut(s, tol, cuts, a) && a < i <= |s|
    requires IsRun(s, tol, |cuts| - 1, a, i)
    ensures Cut(s, tol, cuts + [i], i)
  {
    var cuts' := cuts + [i];
    forall k | 0 <= k < |cuts'| - 1 ensures IsRun(s, tol, k, cuts'[k], cuts'[k + 1]) {
      if k < |cuts| - 1 {
        assert IsRun(s, tol, k, cuts[k], cuts[k + 1]);
      }
    }
  }

  lemma EmitGrows(side: Side, s: seq<SwingLevel>, cuts: seq<nat>, i: nat)
    requires |cuts| >= 1 && cuts[|cuts| - 1] < i <= |s|
    requires forall j, k :: 0 <= j < k < |cuts| ==> cuts[j] < cuts[k]
    ensures var a := cuts[|cuts| - 1];
            (forall j, k :: 0 <= j < k < |cuts + [i]| ==> (cuts + [i])[j] < (cuts + [i])[k])
            && (forall k :: 0 <= k < |cuts + [i]| ==> (cuts + [i])[k] <= |s|)
            && Emit(side, s, cuts + [i]) == Emit(side, s, cuts) + (if i - a >= 2 then [Build(side, s[a..i])] else [])
  {
    assert (cuts + [i])[..|cuts + [i]| - 1] == cuts;
  }

  /** `cuts` splits `s[..a]`, `out` holds its clusters, and `s[a..i]` is the open cluster. */
  ghost predicate Scanned(side: Side, s: seq<SwingLevel>, tol: real, cuts: seq<nat>, a: nat, i: nat,
                          out: seq<EqualLevel>) {
    a < i <= |s| && Cut(s, tol, cuts, a) && out == Emit(side, s, cuts) && IsRun(s, tol, |cuts| - 1, a, i)
  }

  lemma ScanStarts(side: Side, s: seq<SwingLevel>, tol: real)
    requires s != []
    ensures Scanned(side, s, tol, [0], 0, 1, [])
  {
  }

  lemma ScanExtends(side: Side, s: seq<SwingLevel>, tol: real, cuts: seq<nat>, a: nat, i: nat, out: seq<EqualLevel>)
    requires Scanned(side, s, tol, cuts, a, i, out) && i < |s| && s[i].price - s[i - 1].price <= tol
    ensures Scanned(side, s, tol, cuts, a, i + 1, out) && s[a..i] + [s[i]] == s[a..i + 1]
  {
  }

  /** A finished cluster is emitted when it has at least two members. */
  method CloseCluster(side: Side, s: seq<SwingLevel>, tol: real, cluster: seq<SwingLevel>, ghost cuts: seq<nat>,
                      ghost a: nat, ghost i: nat, out: seq<EqualLevel>)
    returns (out': seq<EqualLevel>)
    requires Scanned(side, s, tol, cuts, a, i, out) && cluster == s[a..i]
    requires i < |s| ==> !(s[i].price - s[i - 1].price <= tol)
    ensures Cut(s, tol, cuts + [i], i) && out' == Emit(side, s, cuts + [i])
    ensures i < |s| ==> Scanned(side, s, tol, cuts + [i], i, i + 1, out') && s[i..i + 1] == [s[i]]
  {
    CutGrows(s, tol, cuts, a, i);
    EmitGrows(side, s, cuts, i);
    out' := if |cluster| >= 2 then out + [Build(side, cluster)] else out;
  }

  method ClusterSide(side: Side, s: seq<SwingLevel>, tol: real) returns (out: seq<EqualLevel>, ghost cuts: seq<nat>)
    requires s != []
    ensures Cut(s, tol, cuts, |s|) && out == Emit(side, s, cuts)
  {
    var cluster := [s[0]];
    ghost var a: nat := 0;
    out, cuts := [], [0];
    ScanStarts(side, s, tol);
    for i := 1 to |s|
      invariant Scanned(side, s, tol, cuts, a, i, out) && cluster == s[a..i]
    {
      assert cluster[|cluster| - 1] == s[i - 1];
      if s[i].price - cluster[|cluster| - 1].price <= tol {
        ScanExtends(side, s, tol, cuts, a, i, out);
        cluster := cluster + [s[i]];
      } else {
        out := CloseCluster(side, s, tol, cluster, cuts, a, i, out);
        cluster := [s[i]];
        cuts, a := cuts + [i], i;
      }
    }
    out := CloseCluster(side, s, tol, cluster, cuts, a, |s|, out);
    cuts := cuts + [|s|];
  }

  /** The equal levels of one side: the components of size at least two. */
  ghost predicate SideClusters(side: Side, s: seq<SwingLevel>, tol: real, out: seq<EqualLevel>) {
    if |s| < 2 then out == []
    else exists cuts :: Cut(s, tol, cuts, |s|) && out == Emit(side, s, cuts)
  }

  /** The high clusters, then the low clusters. */
  ghost predicate IsEqualLevels(levels: seq<SwingLevel>, tol: real, out: seq<EqualLevel>) {
    exists highs, lows ::
      && out == highs + lows
      && SideClusters(High, Sorted(levels, High), tol, highs)
      && SideClusters(Low, Sorted(levels, Low), tol, lows)
  }

  /** `find_equal_highs_lows`. */
  method FindEqualHighsLows(levels: seq<SwingLevel>, tol: real) returns (r: Result<seq<EqualLevel>>)
    ensures r.Err? <==> tol < 0.0
    ensures r.Ok? ==> IsEqualLevels(levels, tol, r.value)
  {
    if tol < 0.0 {
      return Err("equal_hl_tolerance");
    }
    var highs: seq<EqualLevel>, lows: seq<EqualLevel> := [], [];
    var s := Sorted(levels, High);
    if |s| >= 2 {
      ghost var cuts;
      highs, cuts := ClusterSide(High, s, tol);
    }
    s := Sorted(levels, Low);
    if |s| >= 2 {
      ghost var cuts;
      lows, cuts := ClusterSide(Low, s, tol);
    }
    assert SideClusters(High, Sorted(levels, High), tol, highs) && SideClusters(Low, Sorted(levels, Low), tol, lows);
    r := Ok(highs + lows);
  }

  // ---- what the clusters are ----------------------------------------------------------------------------

  /** A maximal set of at least two levels linked by chains of close prices: positions `a` up to `b`. */
  ghost predicate Component(s: seq<SwingLevel>, tol: real, a: nat, b: nat) {
    && a + 2 <= b <= |s|
    && (forall i, j :: a <= i < b && 0 <= j < |s| ==> (Connected(s, Within(tol), i, j) <==> a <= j < b))
  }

  lemma {:induction false} RunAt(s: seq<SwingLevel>, tol: real, cuts: seq<nat>, n: nat, i: nat) returns (k: nat)
    requires Cut(s, tol, cuts, n) && i < n
    ensures k < |cuts| - 1 && cuts[k] <= i < cuts[k + 1] && RunOf(s, tol, i) == k
  {
    k := 0;
    while cuts[k + 1] <= i
      invariant k < |cuts| - 1 && cuts[k] <= i
      decreases |cuts| - k
    {
      k := k + 1;
    }
    assert IsRun(s, tol, k, cuts[k], cuts[k + 1]);
  }

  lemma CutIsComponent(s: seq<SwingLevel>, tol: real, cuts: seq<nat>, k: nat)
    requires SortedBy(s, Price()) && Cut(s, tol, cuts, |s|) && k < |cuts| - 1 && cuts[k + 1] - cuts[k] >= 2
    ensures Component(s, tol, cuts[k], cuts[k + 1])
  {
    RunsAreComponents(s, tol);
    forall i, j | cuts[k] <= i < cuts[k + 1] && 0 <= j < |s|
      ensures Connected(s, Within(tol), i, j) <==> cuts[k] <= j < cuts[k + 1]
    {
      var m := RunAt(s, tol, cuts, |s|, j);
      assert IsRun(s, tol, k, cuts[k], cuts[k + 1]);
      assert Tags(s, tol)[i] == Tags(s, tol)[j] <==> k == m;
      if m != k {
        assert m < k ==> cuts[m + 1] <= cuts[k];
        assert m > k ==> cuts[k + 1] <= cuts[m];
      }
    }
  }

  ghost predicate EmittedAt(side: Side, s: seq<SwingLevel>, cuts: seq<nat>, e: EqualLevel, k: nat) {
    && k + 1 < |cuts| && cuts[k] + 2 <= cuts[k + 1] <= |s| && e == Build(side, s[cuts[k]..cuts[k + 1]])
  }

  lemma {:induction false} EmitIff(side: Side, s: seq<SwingLevel>, cuts: seq<nat>, e: EqualLevel)
    requires forall j, k :: 0 <= j < k < |cuts| ==> cuts[j] < cuts[k]
    requires forall k :: 0 <= k < |cuts| ==> cuts[k] <= |s|
    ensures e in Emit(side, s, cuts) <==> exists k :: EmittedAt(side, s, cuts, e, k)
    decreases |cuts|
  {
    if |cuts| > 1 {
      var init, last := cuts[..|cuts| - 1], |cuts| - 2;
      EmitIff(side, s, init, e);
      forall k: nat | EmittedAt(side, s, init, e, k) ensures EmittedAt(side, s, cuts, e, k) {
      }
      forall k: nat | EmittedAt(side, s, cuts, e, k) ensures k == last || EmittedAt(side, s, init, e, k) {
      }
      assert EmittedAt(side, s, cuts, e, last)
          <==> cuts[last] + 2 <= cuts[last + 1] && e == Build(side, s[cuts[last]..cuts[last + 1]]);
    }
  }

  lemma ComponentIsCut(s: seq<SwingLevel>, tol: real, cuts: seq<nat>, a: nat, b: nat) returns (k: nat)
    requires SortedBy(s, Price()) && Cut(s, tol, cuts, |s|) && Component(s, tol, a, b)
    ensures k + 1 < |cuts| && cuts[k] == a && cuts[k + 1] == b
  {
    k := RunAt(s, tol, cuts, |s|, a);
    RunsAreComponents(s, tol);
    var tags := Tags(s, tol);
    assert IsRun(s, tol, k, cuts[k], cuts[k + 1]);
    assert forall j :: 0 <= j < |s| ==> (tags[j] == k <==> a <= j < b);
    forall j | 0 <= j < |s| && tags[j] == k ensures cuts[k] <= j < cuts[k + 1] {
      var m := RunAt(s, tol, cuts, |s|, j);
    }
    assert tags[cuts[k]] == k && tags[cuts[k + 1] - 1] == k && tags[b - 1] == k;
  }

  /**
    Each side's output holds exactly the connected components with at least two members, each built
    from its levels.
  */
  lemma ClustersAreComponents(side: Side, s: seq<SwingLevel>, tol: real, out: seq<EqualLevel>, e: EqualLevel)
    requires SortedBy(s, Price()) && SideClusters(side, s, tol, out)
    ensures e in out <==> exists a: nat, b: nat :: Component(s, tol, a, b) && e == Build(side, s[a..b])
  {
    if |s| >= 2 {
      var cuts :| Cut(s, tol, cuts, |s|) && out == Emit(side, s, cuts);
      EmitIff(side, s, cuts, e);
      if e in out {
        var k: nat :| EmittedAt(side, s, cuts, e, k);
        CutIsComponent(s, tol, cuts, k);
      }
      if a: nat, b: nat :| Component(s, tol, a, b) && e == Build(side, s[a..b]) {
        var k := ComponentIsCut(s, tol, cuts, a, b);
        assert EmittedAt(side, s, cuts, e, k);
      }
    }
  }

  lemma {:induction false} OfSideMembers(levels: seq<SwingLevel>, side: Side, l: SwingLevel)
    ensures l in OfSide(levels, side) <==> l in levels && l.side == side
  {
    if levels != [] {
      OfSideMembers(levels[1..], side, l);
    }
  }

  /** The list clustered for a side holds that side's levels, by ascending price. */
  lemma SortedSide(levels: seq<SwingLevel>, side: Side)
    ensures SortedBy(Sorted(levels, side), Price())
    ensures forall l :: l in Sorted(levels, side) <==> l in levels && l.side == side
  {
    StableSortSorts(OfSide(levels, side), Price());
    StableSortMembers(OfSide(levels, side), Price());
    forall l ensures l in OfSide(levels, side) <==> l in levels && l.side == side {
      OfSideMembers(levels, side, l);
    }
  }
}
