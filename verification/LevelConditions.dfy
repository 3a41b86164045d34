/** Matching, swing levels and equal levels in terms of times, prices and bars. */
module LevelConditions {
  import opened Foundations
  import opened Gathering
  import opened Sorting
  import opened Swings
  import opened Matching
  import opened SwingLevels
  import opened Components
  import opened EqualLevels

  // ---- matching --------------------------------------------------------------------------------------

  /** Same side, close in time, and close in price relative to the reference. */
  predicate Close(w: Window, reference: Point, candidate: Point) {
    && candidate.side == reference.side
    && -w.time <= candidate.time - reference.time <= w.time
    && Abs(candidate.price - reference.price) <= Mul(w.fraction, Abs(reference.price))
  }

  function Gap(reference: Point, candidate: Point): int {
    if candidate.time >= reference.time then candidate.time - reference.time else reference.time - candidate.time
  }

  /** No reference before position `k` took candidate `c`. */
  ghost predicate Free(a: seq<Option<nat>>, k: nat, c: nat) {
    k <= |a| && forall j :: 0 <= j < k ==> a[j] != Some(c)
  }

  /** Candidate `c` is free and close, and the first of the nearest in time among those. */
  ghost predicate Takes(w: Window, references: seq<Point>, candidates: seq<Point>, a: seq<Option<nat>>, k: nat,
                        c: nat) {
    && k < |references| && c < |candidates| && Free(a, k, c) && Close(w, references[k], candidates[c])
    && forall d: nat :: d < |candidates| && d != c && Free(a, k, d) && Close(w, references[k], candidates[d]) ==>
         && Gap(references[k], candidates[c]) <= Gap(references[k], candidates[d])
         && (d < c ==> Gap(references[k], candidates[c]) < Gap(references[k], candidates[d]))
  }

  lemma CloseIff(w: Window, reference: Point, candidate: Point)
    ensures w.Fits(reference, candidate) <==> Close(w, reference, candidate)
  {
  }

  lemma {:induction false} NearestIsFirst(w: Window, reference: Point, candidates: seq<Point>, used: set<nat>, n: nat)
    requires n <= |candidates|
    ensures var r := Matching.Nearest(w, reference, candidates, used, n);
            && (r.Some? ==> r.value < n && r.value !in used && w.Fits(reference, candidates[r.value]))
            && forall d: nat :: d < n && d !in used && w.Fits(reference, candidates[d]) ==>
                 && r.Some? && Distance(reference, candidates[r.value]) <= Distance(reference, candidates[d])
                 && (d < r.value ==> Distance(reference, candidates[r.value]) < Distance(reference, candidates[d]))
  {
    if n > 0 {
      NearestIsFirst(w, reference, candidates, used, n - 1);
    }
  }

  lemma GreedyPrefix(w: Window, references: seq<Point>, candidates: seq<Point>, k: nat)
    requires k < |references|
    ensures var a := Greedy(w, references, candidates);
            a[k] == Matching.Nearest(w, references[k], candidates, Used(a[..k]), |candidates|)
    decreases |references|
  {
    var n := |references| - 1;
    var init := references[..n];
    var before := Greedy(w, init, candidates);
    var a := Greedy(w, references, candidates);
    assert a[..n] == before;
    if k < n {
      GreedyPrefix(w, init, candidates, k);
      assert a[..k] == before[..k];
    }
  }

  lemma FreeIff(a: seq<Option<nat>>, k: nat, c: nat)
    requires k <= |a|
    ensures Free(a, k, c) <==> c !in Used(a[..k])
  {
    var b := a[..k];
    if c in Used(b) {
      var j :| 0 <= j < |b| && b[j].Some? && b[j].value == c;
      assert a[j] == Some(c);
    }
    if j :| 0 <= j < k && a[j] == Some(c) {
      assert b[j] == Some(c);
    }
  }

  /**
    References are served in order.  Each takes the nearest in time of the close candidates no earlier
    one has taken, the first of several; it takes none exactly when there is none.
  */
  lemma GreedyTakes(w: Window, references: seq<Point>, candidates: seq<Point>, k: nat)
    requires k < |references|
    ensures var a := Greedy(w, references, candidates);
            match a[k]
            case Some(c) => Takes(w, references, candidates, a, k, c)
            case None => forall d: nat :: d < |candidates| && Free(a, k, d) ==> !Close(w, references[k], candidates[d])
  {
    var a := Greedy(w, references, candidates);
    GreedyPrefix(w, references, candidates, k);
    NearestIsFirst(w, references[k], candidates, Used(a[..k]), |candidates|);
    forall d: nat ensures Free(a, k, d) <==> d !in Used(a[..k]) {
      FreeIff(a, k, d);
    }
    forall d: nat | d < |candidates|
      ensures w.Fits(references[k], candidates[d]) <==> Close(w, references[k], candidates[d]) {
      CloseIff(w, references[k], candidates[d]);
    }
    assert forall d: nat ::
          d < |candidates| ==> Gap(references[k], candidates[d]) == Distance(references[k], candidates[d]);
  }

  /** Calibration allows two H4 candles or three H1 candles, and 0.1 % of the price. */
  lemma CalibrationWindowIs(tf: Timeframe)
    ensures CalibrationWindow(tf)
            == Window(if tf.H4? then 8 * 60 * 60_000_000 else 3 * 60 * 60_000_000, 0.001)
  {
  }

  // ---- swings as of a cutoff -----------------------------------------------------------------------------

  /** Bar `i` is not later than the cutoff and holds this swing. */
  ghost predicate SwingBy(candles: seq<Candle>, p: SwingParams, asOf: int, i: nat, q: Point)
    requires p.lookback >= 1 && p.period >= 1
  {
    && i < |candles| && candles[i].time <= asOf && q.time == candles[i].time
    && SwingsOf(candles, p)[i] == Some(Pivot(q.side, q.price))
  }

  /** The swings as of a cutoff are exactly those of the column whose bars are not later. */
  lemma SwingsByIff(candles: seq<Candle>, p: SwingParams, asOf: int, q: Point)
    requires Accepted(candles, p) && p.period >= 1
    ensures q in SwingsBy(candles, p, asOf) <==> exists i: nat :: SwingBy(candles, p, asOf, i, q)
  {
    if candles != [] {
      var f := Marks(candles, p, asOf);
      GatherIff(f, |candles|, q);
      forall i: nat | i < |candles| ensures q in f(i) <==> SwingBy(candles, p, asOf, i, q) {
        assert SwingsOf(candles, p)[i] == SwingAt(candles, p, i);
      }
    }
  }

  ghost predicate InOrder(out: seq<Point>) {
    forall a, b :: 0 <= a < b < |out| ==> out[a].time < out[b].time
  }

  ghost predicate AllBefore(out: seq<Point>, t: int) {
    forall a :: 0 <= a < |out| ==> out[a].time < t
  }

  /** Round `i` finds at most one point, of the `i`-th time. */
  ghost predicate Timed(f: nat -> seq<Point>, times: seq<int>) {
    forall i: nat :: i < |times| ==> |f(i)| <= 1 && forall a :: 0 <= a < |f(i)| ==> f(i)[a].time == times[i]
  }

  lemma {:induction false} GatherByTime(f: nat -> seq<Point>, times: seq<int>, n: nat)
    requires Timed(f, times) && n <= |times| && forall i, j :: 0 <= i < j < |times| ==> times[i] < times[j]
    ensures InOrder(Gather(f, n)) && (n < |times| ==> AllBefore(Gather(f, n), times[n]))
  {
    if n > 0 {
      GatherByTime(f, times, n - 1);
    }
  }

  lemma MarksAreTimed(candles: seq<Candle>, p: SwingParams, asOf: int, times: seq<int>)
    requires p.lookback >= 1 && p.period >= 1
    requires |times| == |candles| && forall i :: 0 <= i < |candles| ==> times[i] == candles[i].time
    ensures Timed(Marks(candles, p, asOf), times)
  {
  }

  /** They come in order of time. */
  lemma SwingsByInOrder(candles: seq<Candle>, p: SwingParams, asOf: int)
    requires Accepted(candles, p) && StrictlyAscending(candles)
    ensures InOrder(SwingsBy(candles, p, asOf))
  {
    if candles != [] {
      var times := seq(|candles|, i requires 0 <= i < |candles| => candles[i].time);
      MarksAreTimed(candles, p, asOf, times);
      GatherByTime(Marks(candles, p, asOf), times, |candles|);
    }
  }

  // ---- swing levels ------------------------------------------------------------------------------------

  /** The latest `n` of `m`, as a list slice takes them: all for zero, all but the first ones for a negative `n`. */
  function Latest(m: nat, n: int): nat {
    if n > 0 then (if n < m then n else m) else if -n <= m then m + n else 0
  }

  /** The level of one of the latest `n` H4 swings: major when an H1 swing confirms it. */
  ghost predicate FromH4(h4: seq<Point>, n: int, a: seq<Option<nat>>, k: nat, l: SwingLevel) {
    && k < |a| == Latest(|h4|, n)
    && var q := h4[|h4| - |a| + k];
       && l.side == q.side && l.price == q.price && l.time == q.time && l.timeframe == H4
       && (if a[k].Some? then l.strength == Major && l.touches == 2 else l.strength == MajorH4Only && l.touches == 1)
  }

  /** The level of one of the latest `2 * n` H1 swings that confirms nothing: minor. */
  ghost predicate FromH1(h1: seq<Point>, n: int, a: seq<Option<nat>>, j: nat, l: SwingLevel) {
    && j < |h1| && j >= |h1| - 2 * n && (forall k :: 0 <= k < |a| ==> a[k] != Some(j))
    && l == SwingLevel(h1[j].side, h1[j].price, h1[j].time, H1, Minor, 1)
  }

  lemma MinorIff(h1: seq<Point>, n: int, a: seq<Option<nat>>, l: SwingLevel)
    ensures l in MinorLevels(h1, Used(a), |h1| - n * 2, |h1|) <==> exists j: nat :: FromH1(h1, n, a, j, l)
  {
    MinorLevelsAre(h1, Used(a), |h1| - n * 2, |h1|, l);
    forall j: nat
      ensures MinorAt(h1, Used(a), |h1| - n * 2, |h1|, j) && l == H1Level(h1[j]) <==> FromH1(h1, n, a, j, l) {
    }
  }

  lemma MajorIff(h4: seq<Point>, n: int, a: seq<Option<nat>>, l: SwingLevel)
    requires |a| == |Suffix(h4, n)|
    ensures l in H4Levels(Suffix(h4, n), a) <==> exists k: nat :: FromH4(h4, n, a, k, l)
  {
    var recent := Suffix(h4, n);
    assert |recent| == Latest(|h4|, n);
    forall k: nat | k < |a| ensures recent[k] == h4[|h4| - |a| + k] {
    }
    forall k: nat ensures k < |a| && H4Levels(recent, a)[k] == l <==> FromH4(h4, n, a, k, l) {
    }
  }

  lemma PairedIff(c: Confluence, p4: seq<Point>, p1: seq<Point>, a: seq<Option<nat>>, l: SwingLevel)
    requires a == Greedy(Window(c.candles * 4 * 60 * 60_000_000, c.fraction), Suffix(p4, c.swings), p1)
    ensures l in PairedLevels(c, p4, p1)
            <==> (exists k: nat :: FromH4(p4, c.swings, a, k, l)) || exists j: nat :: FromH1(p1, c.swings, a, j, l)
  {
    assert 4 * c.candles * HOUR == c.candles * 4 * 60 * 60_000_000;
    MajorIff(p4, c.swings, a, l);
    MinorIff(p1, c.swings, a, l);
  }

  /**
    The levels as of a cutoff: one for each of the latest `swings` H4 swings, and one for each of the
    latest `2 * swings` H1 swings that confirms none of them; an H4 swing is confirmed by the H1 swing the
    greedy matching gives it within `candles` H4 candles.
  */
  lemma LevelIff(c: Confluence, h4: seq<Candle>, h1: seq<Candle>, asOf: int, l: SwingLevel)
    requires Accepted(h4, c.h4) && Accepted(h1, c.h1)
    ensures var p4, p1 := SwingsBy(h4, c.h4, asOf), SwingsBy(h1, c.h1, asOf);
            var a := Greedy(Window(c.candles * 4 * 60 * 60_000_000, c.fraction), Suffix(p4, c.swings), p1);
            l in SwingLevelsOf(c, h4, h1, asOf)
            <==> (exists k: nat :: FromH4(p4, c.swings, a, k, l)) || exists j: nat :: FromH1(p1, c.swings, a, j, l)
  {
    var p4, p1 := SwingsBy(h4, c.h4, asOf), SwingsBy(h1, c.h1, asOf);
    var a := Greedy(Window(c.candles * 4 * 60 * 60_000_000, c.fraction), Suffix(p4, c.swings), p1);
    StableSortMembers(PairedLevels(c, p4, p1), LatestFirst(TimeOf()));
    PairedIff(c, p4, p1, a, l);
  }

  // ---- equal levels -------------------------------------------------------------------------------------

  /** Levels `a` up to `b` lie step by step within the tolerance, and their neighbours do not. */
  ghost predicate IsCluster(s: seq<SwingLevel>, tol: real, a: nat, b: nat) {
    && a + 2 <= b <= |s|
    && (forall i :: a < i < b ==> s[i].price - s[i - 1].price <= tol)
    && (a > 0 ==> s[a].price - s[a - 1].price > tol)
    && (b < |s| ==> s[b].price - s[b - 1].price > tol)
  }

  lemma {:induction false} SameRun(s: seq<SwingLevel>, tol: real, i: nat, j: nat)
    requires i <= j < |s|
    ensures RunOf(s, tol, i) <= RunOf(s, tol, j)
    ensures RunOf(s, tol, i) == RunOf(s, tol, j) <==> forall k :: i < k <= j ==> s[k].price - s[k - 1].price <= tol
  {
    if i < j {
      SameRun(s, tol, i, j - 1);
    }
  }

  /** Whether two levels are connected is a matter of their runs. */
  lemma ConnectedIff(s: seq<SwingLevel>, tol: real, i: nat, j: nat)
    requires SortedBy(s, Price()) && i < |s| && j < |s|
    ensures Connected(s, EqualLevels.Within(tol), i, j) <==> RunOf(s, tol, i) == RunOf(s, tol, j)
  {
    RunsAreComponents(s, tol);
    var tags := Tags(s, tol);
    assert tags[i] == tags[j] <==> RunOf(s, tol, i) == RunOf(s, tol, j);
  }

  lemma ClusterIsComponent(s: seq<SwingLevel>, tol: real, a: nat, b: nat)
    requires SortedBy(s, Price()) && IsCluster(s, tol, a, b)
    ensures Component(s, tol, a, b)
  {
    forall i, j | a <= i < b && 0 <= j < |s| ensures Connected(s, EqualLevels.Within(tol), i, j) <==> a <= j < b {
      ConnectedIff(s, tol, i, j);
      ClusterRun(s, tol, a, b, i, j);
    }
  }

  lemma ComponentRun(s: seq<SwingLevel>, tol: real, a: nat, b: nat, i: nat, j: nat)
    requires SortedBy(s, Price()) && Component(s, tol, a, b) && a <= i < b && j < |s|
    ensures RunOf(s, tol, i) == RunOf(s, tol, j) <==> a <= j < b
  {
    ConnectedIff(s, tol, i, j);
  }

  lemma ComponentIsCluster(s: seq<SwingLevel>, tol: real, a: nat, b: nat)
    requires SortedBy(s, Price()) && Component(s, tol, a, b)
    ensures IsCluster(s, tol, a, b)
  {
    ComponentRun(s, tol, a, b, a, b - 1);
    RunsToCluster(s, tol, a, b);
    if a > 0 {
      ComponentRun(s, tol, a, b, a, a - 1);
    }
    if b < |s| {
      ComponentRun(s, tol, a, b, b - 1, b);
    }
  }

  lemma RunsToCluster(s: seq<SwingLevel>, tol: real, a: nat, b: nat)
    requires a + 2 <= b <= |s| && RunOf(s, tol, a) == RunOf(s, tol, b - 1)
    ensures (a > 0 ==> RunOf(s, tol, a - 1) != RunOf(s, tol, a))
            && (b < |s| ==> RunOf(s, tol, b - 1) != RunOf(s, tol, b))
            ==> IsCluster(s, tol, a, b)
  {
    SameRun(s, tol, a, b - 1);
  }

  lemma ClusterRun(s: seq<SwingLevel>, tol: real, a: nat, b: nat, i: nat, j: nat)
    requires IsCluster(s, tol, a, b) && a <= i < b && j < |s|
    ensures RunOf(s, tol, i) == RunOf(s, tol, j) <==> a <= j < b
  {
    if j < i {
      SameRun(s, tol, j, i);
    } else {
      SameRun(s, tol, i, j);
    }
  }

  function Prices(ms: seq<SwingLevel>): (r: seq<real>)
    ensures |r| == |ms| && forall i :: 0 <= i < |ms| ==> r[i] == ms[i].price
  {
    seq(|ms|, i requires 0 <= i < |ms| => ms[i].price)
  }

  lemma {:induction false} SumPriceIs(ms: seq<SwingLevel>)
    ensures SumPrice(ms) == Sum(Prices(ms))
    decreases |ms|
  {
    if ms != [] {
      var init := ms[..|ms| - 1];
      SumPriceIs(init);
      assert Prices(ms)[..|ms| - 1] == Prices(init);
      TotalOfPrefix(Prices(ms), |ms| - 1, |ms| - 1);
    }
  }

  ghost predicate Attained(ms: seq<SwingLevel>, x: real) {
    exists i :: 0 <= i < |ms| && ms[i].price == x
  }

  lemma AttainedOn(ms: seq<SwingLevel>, l: SwingLevel, x: real)
    requires Attained(ms, x) || l.price == x
    ensures Attained(ms + [l], x)
  {
    var all := ms + [l];
    if l.price == x {
      assert all[|ms|].price == x;
    } else {
      var i :| 0 <= i < |ms| && ms[i].price == x;
      assert all[i].price == x;
    }
  }

  lemma {:induction false} ExtremesAre(ms: seq<SwingLevel>)
    requires ms != []
    ensures Attained(ms, MinPrice(ms)) && Attained(ms, MaxPrice(ms))
    ensures forall i :: 0 <= i < |ms| ==> MinPrice(ms) <= ms[i].price <= MaxPrice(ms)
    decreases |ms|
  {
    if |ms| > 1 {
      var init, last := ms[..|ms| - 1], ms[|ms| - 1];
      ExtremesAre(init);
      assert ms == init + [last];
      AttainedOn(init, last, MinPrice(ms));
      AttainedOn(init, last, MaxPrice(ms));
      assert forall i :: 0 <= i < |ms| - 1 ==> init[i] == ms[i];
    } else {
      assert ms[0].price == MinPrice(ms) == MaxPrice(ms);
    }
  }

  /** The equal level of a cluster: its side, its members, their mean, least and greatest price. */
  ghost predicate Describes(side: Side, ms: seq<SwingLevel>, e: EqualLevel) {
    && e.side == side && e.members == ms && Mul(e.average, |ms| as real) == Sum(Prices(ms))
    && Attained(ms, e.min) && Attained(ms, e.max)
    && forall i :: 0 <= i < |ms| ==> e.min <= ms[i].price <= e.max
  }

  lemma BuildDescribes(side: Side, ms: seq<SwingLevel>)
    requires ms != []
    ensures Describes(side, ms, Build(side, ms))
  {
    SumPriceIs(ms);
    ExtremesAre(ms);
    MulQuotient(SumPrice(ms), |ms| as real);
    assert Build(side, ms).average == Quotient(SumPrice(ms), |ms| as real);
  }

  lemma DescribedOnce(side: Side, ms: seq<SwingLevel>, e: EqualLevel)
    requires ms != [] && Describes(side, ms, e)
    ensures e == Build(side, ms)
  {
    BuildDescribes(side, ms);
    MulQuotient(e.average, |ms| as real);
    MulQuotient(Build(side, ms).average, |ms| as real);
  }

  /** An equal level is reported exactly when it describes a cluster of at least two levels. */
  lemma EqualLevelIff(side: Side, s: seq<SwingLevel>, tol: real, out: seq<EqualLevel>, e: EqualLevel)
    requires SortedBy(s, Price()) && SideClusters(side, s, tol, out)
    ensures e in out <==> exists a: nat, b: nat :: IsCluster(s, tol, a, b) && Describes(side, s[a..b], e)
  {
    ClustersAreComponents(side, s, tol, out, e);
    if e in out {
      var a: nat, b: nat :| Component(s, tol, a, b) && e == Build(side, s[a..b]);
      ComponentIsCluster(s, tol, a, b);
      BuildDescribes(side, s[a..b]);
    }
    if a: nat, b: nat :| IsCluster(s, tol, a, b) && Describes(side, s[a..b], e) {
      ClusterIsComponent(s, tol, a, b);
      DescribedOnce(side, s[a..b], e);
    }
  }

  // ---- orders --------------------------------------------------------------------------------------------

  /** `out` lists the points at the positions `ps`, which are exactly those below `n` inside (or outside) `at`. */
  ghost predicate ListsAt(points: seq<Point>, at: set<nat>, inside: bool, n: nat, ps: seq<nat>, out: seq<Point>) {
    && |ps| == |out| && (forall a, b :: 0 <= a < b < |ps| ==> ps[a] < ps[b])
    && (forall a :: 0 <= a < |ps| ==> ps[a] < n <= |points| && out[a] == points[ps[a]])
    && forall i: nat :: i < n ==> (i in ps <==> (i in at) == inside)
  }

  /** The matched or unmatched points come in their own order, none left out and none added. */
  lemma {:induction false} KeepIs(points: seq<Point>, at: set<nat>, inside: bool, n: nat) returns (ps: seq<nat>)
    requires n <= |points|
    ensures ListsAt(points, at, inside, n, ps, Keep(points, at, inside, n))
  {
    if n == 0 {
      ps := [];
    } else {
      var before := KeepIs(points, at, inside, n - 1);
      ps := if (n - 1 in at) == inside then before + [n - 1] else before;
      KeptStep(points, at, inside, n, before, Keep(points, at, inside, n - 1));
    }
  }

  lemma KeptStep(points: seq<Point>, at: set<nat>, inside: bool, n: nat, ps: seq<nat>, out: seq<Point>)
    requires 0 < n <= |points| && ListsAt(points, at, inside, n - 1, ps, out)
    ensures if (n - 1 in at) == inside then ListsAt(points, at, inside, n, ps + [n - 1], out + [points[n - 1]])
            else ListsAt(points, at, inside, n, ps, out)
  {
    var more := ps + [n - 1];
    assert forall i :: i in more <==> i in ps || i == n - 1;
    assert n - 1 !in ps;
  }

  /** The clusters emitted are those of the runs `ks`, in order. */
  ghost predicate EmittedFrom(side: Side, s: seq<SwingLevel>, cuts: seq<nat>, ks: seq<nat>, out: seq<EqualLevel>) {
    && |ks| == |out| && (forall a, b :: 0 <= a < b < |ks| ==> ks[a] < ks[b])
    && forall a :: 0 <= a < |ks| ==> EmittedAt(side, s, cuts, out[a], ks[a])
  }

  lemma EmittedOn(side: Side, s: seq<SwingLevel>, cuts: seq<nat>, ks: seq<nat>, out: seq<EqualLevel>)
    requires |cuts| > 1 && EmittedFrom(side, s, cuts[..|cuts| - 1], ks, out)
    ensures EmittedFrom(side, s, cuts, ks, out)
    ensures forall e :: EmittedAt(side, s, cuts, e, |cuts| - 2) ==>
              EmittedFrom(side, s, cuts, ks + [|cuts| - 2], out + [e])
  {
    var init := cuts[..|cuts| - 1];
    forall a | 0 <= a < |ks| ensures EmittedAt(side, s, cuts, out[a], ks[a]) && ks[a] < |cuts| - 2 {
      assert EmittedAt(side, s, init, out[a], ks[a]);
    }
  }

  lemma {:induction false} EmitRuns(side: Side, s: seq<SwingLevel>, cuts: seq<nat>) returns (ks: seq<nat>)
    requires forall j, k :: 0 <= j < k < |cuts| ==> cuts[j] < cuts[k]
    requires forall k :: 0 <= k < |cuts| ==> cuts[k] <= |s|
    ensures EmittedFrom(side, s, cuts, ks, Emit(side, s, cuts))
    decreases |cuts|
  {
    if |cuts| <= 1 {
      ks := [];
    } else {
      var init, last := cuts[..|cuts| - 1], |cuts| - 2;
      ks := EmitRuns(side, s, init);
      EmittedOn(side, s, cuts, ks, Emit(side, s, init));
      if cuts[last + 1] - cuts[last] >= 2 {
        var e := Build(side, s[cuts[last]..cuts[last + 1]]);
        assert EmittedAt(side, s, cuts, e, last);
        ks := ks + [last];
      }
    }
  }

  /** The equal levels of a side come by price: all members of one below all members of the next. */
  lemma EqualLevelsByPrice(side: Side, s: seq<SwingLevel>, tol: real, out: seq<EqualLevel>, a: nat, b: nat)
    requires SortedBy(s, Price()) && SideClusters(side, s, tol, out) && a < b < |out|
    ensures out[a].max <= out[b].min
  {
    var cuts :| Cut(s, tol, cuts, |s|) && out == Emit(side, s, cuts);
    var ks := EmitRuns(side, s, cuts);
    EmittedByPrice(side, s, cuts, out[a], ks[a], out[b], ks[b]);
  }

  lemma EmittedByPrice(side: Side, s: seq<SwingLevel>, cuts: seq<nat>, e: EqualLevel, j: nat, f: EqualLevel, k: nat)
    requires SortedBy(s, Price()) && forall i, m :: 0 <= i < m < |cuts| ==> cuts[i] < cuts[m]
    requires EmittedAt(side, s, cuts, e, j) && EmittedAt(side, s, cuts, f, k) && j < k
    ensures e.max <= f.min
  {
    assert cuts[j + 1] <= cuts[k] by {
      assert j + 1 < k ==> cuts[j + 1] < cuts[k];
    }
    SlicesByPrice(s, cuts[j], cuts[j + 1], cuts[k], cuts[k + 1]);
  }

  lemma SlicesByPrice(s: seq<SwingLevel>, a: nat, b: nat, c: nat, d: nat)
    requires SortedBy(s, Price()) && a < b <= c < d <= |s|
    ensures MaxPrice(s[a..b]) <= MinPrice(s[c..d])
  {
    ExtremesAre(s[a..b]);
    ExtremesAre(s[c..d]);
    var i :| 0 <= i < b - a && s[a..b][i].price == MaxPrice(s[a..b]);
    var m :| 0 <= m < d - c && s[c..d][m].price == MinPrice(s[c..d]);
    assert Price()(s[a + i]) <= Price()(s[c + m]);
  }
}
