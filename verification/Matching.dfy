/** Greedy matching of reference points to candidates: swing calibration and multi-timeframe confluence. */
module Matching {
  import opened Foundations

  datatype Point = Point(side: Side, time: int, price: real)

  /** Tolerances; the price tolerance is relative to the reference point's price. */
  datatype Window = Window(time: int, fraction: real) {
    predicate Fits(reference: Point, candidate: Point) {
      && candidate.side == reference.side
      && AbsInt(candidate.time - reference.time) <= time
      && Abs(candidate.price - reference.price) <= fraction * Abs(reference.price)
    }
  }

  function Distance(reference: Point, candidate: Point): nat {
    AbsInt(candidate.time - reference.time)
  }

  // ---- one reference point ------------------------------------------------------------------------

  /** The first nearest unused candidate among the first `n`. */
  function Nearest(w: Window, reference: Point, candidates: seq<Point>, used: set<nat>, n: nat): (r: Option<nat>)
    requires n <= |candidates|
    ensures r.Some? ==> r.value < n
  {
    if n == 0 then None
    else
      var best := Nearest(w, reference, candidates, used, n - 1);
      if n - 1 in used || !w.Fits(reference, candidates[n - 1]) then best
      else if best.None? || Distance(reference, candidates[n - 1]) < Distance(reference, candidates[best.value]) then
          Some(n - 1)
      else best
  }

  lemma {:induction false} NearestIsNearest(w: Window, reference: Point, candidates: seq<Point>, used: set<nat>, n: nat)
    requires n <= |candidates|
    ensures var r := Nearest(w, reference, candidates, used, n);
            && (r.Some? ==> r.value !in used && w.Fits(reference, candidates[r.value]))
            && forall j :: 0 <= j < n && j !in used && w.Fits(reference, candidates[j]) ==>
                 r.Some? && Distance(reference, candidates[r.value]) <= Distance(reference, candidates[j])
  {
    if n > 0 {
      NearestIsNearest(w, reference, candidates, used, n - 1);
    }
  }

  /** The inner loop over the candidates. */
  method FindNearest(w: Window, reference: Point, candidates: seq<Point>, used: set<nat>) returns (best: Option<nat>)
    ensures best == Nearest(w, reference, candidates, used, |candidates|)
  {
    best := None;
    for j := 0 to |candidates|
      invariant best == Nearest(w, reference, candidates, used, j)
    {
      if j in used {
        continue;
      }
      if !w.Fits(reference, candidates[j]) {
        continue;
      }
      if best.None? || Distance(reference, candidates[j]) < Distance(reference, candidates[best.value]) {
        best := Some(j);
      }
    }
  }

  // ---- all reference points -----------------------------------------------------------------------

  function Used(assignment: seq<Option<nat>>): set<nat> {
    set k | 0 <= k < |assignment| && assignment[k].Some? :: assignment[k].value
  }

  /** The candidate each reference point takes, points taken in order. */
  function Greedy(w: Window, references: seq<Point>, candidates: seq<Point>): (a: seq<Option<nat>>)
    ensures |a| == |references|
  {
    if references == [] then []
    else
      var before := Greedy(w, references[..|references| - 1], candidates);
      before + [Nearest(w, references[|references| - 1], candidates, Used(before), |candidates|)]
  }

  /** A pairing that respects type and tolerances and uses each candidate at most once. */
  ghost predicate Valid(w: Window, references: seq<Point>, candidates: seq<Point>, a: seq<Option<nat>>) {
    && |a| == |references|
    && (forall k ::
        0 <= k < |a| && a[k].Some? ==> a[k].value < |candidates| && w.Fits(references[k], candidates[a[k].value]))
    && (forall j, k :: 0 <= j < k < |a| && a[j].Some? && a[k].Some? ==> a[j].value != a[k].value)
  }

  /** Nothing can be added: every reference left out fits only used candidates. */
  ghost predicate Maximal(w: Window, references: seq<Point>, candidates: seq<Point>, a: seq<Option<nat>>)
    requires |a| == |references|
  {
    forall k, d: nat ::
          0 <= k < |a| && a[k].None? && d < |candidates| && w.Fits(references[k], candidates[d]) ==> d in Used(a)
  }

  lemma UsedGrows(a: seq<Option<nat>>, o: Option<nat>)
    ensures Used(a + [o]) == Used(a) + (if o.Some? then {o.value} else {})
  {
    var b := a + [o];
    forall d | d in Used(a) + (if o.Some? then {o.value} else {}) ensures d in Used(b) {
      if d in Used(a) {
        var k :| 0 <= k < |a| && a[k].Some? && a[k].value == d;
        assert b[k] == a[k];
      } else {
        assert b[|a|] == o;
      }
    }
  }

  lemma {:induction false} GreedyIsValidAndMaximal(w: Window, references: seq<Point>, candidates: seq<Point>)
    ensures Valid(w, references, candidates, Greedy(w, references, candidates))
    ensures Maximal(w, references, candidates, Greedy(w, references, candidates))
    decreases |references|
  {
    if references != [] {
      var init, last := references[..|references| - 1], references[|references| - 1];
      var before := Greedy(w, init, candidates);
      GreedyIsValidAndMaximal(w, init, candidates);
      var o := Nearest(w, last, candidates, Used(before), |candidates|);
      NearestIsNearest(w, last, candidates, Used(before), |candidates|);
      UsedGrows(before, o);
      if o.Some? {
        forall j | 0 <= j < |before| && before[j].Some? ensures before[j].value != o.value {
          assert before[j].value in Used(before);
        }
      }
    }
  }

  // ---- the bound ----------------------------------------------------------------------------------

  function Size(a: seq<Option<nat>>): nat {
    if a == [] then 0 else Size(a[..|a| - 1]) + (if a[|a| - 1].Some? then 1 else 0)
  }

  /** Positions of the matched reference points. */
  function Matched(a: seq<Option<nat>>): set<nat> {
    set k: nat | k < |a| && a[k].Some?
  }

  lemma {:induction false} SizeIsMatched(a: seq<Option<nat>>)
    ensures Size(a) == |Matched(a)|
  {
    if a != [] {
      var b := a[..|a| - 1];
      SizeIsMatched(b);
      assert Matched(a) == Matched(b) + (if a[|a| - 1].Some? then {|b|} else {});
    }
  }

  lemma {:induction false} UsedIsAsLarge(a: seq<Option<nat>>)
    requires forall j, k :: 0 <= j < k < |a| && a[j].Some? && a[k].Some? ==> a[j].value != a[k].value
    ensures |Used(a)| == Size(a)
  {
    if a != [] {
      var b, o := a[..|a| - 1], a[|a| - 1];
      UsedIsAsLarge(b);
      assert a == b + [o];
      UsedGrows(b, o);
    }
  }

  /** The part of the pairing `a` at the positions in `at`. */
  function Values(a: seq<Option<nat>>, at: set<nat>): set<nat> {
    set k | k in at && k < |a| && a[k].Some? :: a[k].value
  }

  lemma {:induction false} ValuesAsLarge(a: seq<Option<nat>>, at: set<nat>)
    requires at <= Matched(a)
    requires forall j, k :: 0 <= j < k < |a| && a[j].Some? && a[k].Some? ==> a[j].value != a[k].value
    ensures |Values(a, at)| == |at|
    decreases at
  {
    if at != {} {
      var k: nat :| k in at;
      ValuesAsLarge(a, at - {k});
      assert Values(a, at) == Values(a, at - {k}) + {a[k].value};
      assert a[k].value !in Values(a, at - {k});
    }
  }

  lemma SubsetSize(a: set<nat>, b: set<nat>)
    requires a <= b
    ensures |a| <= |b|
  {
    assert b == a + (b - a);
  }

  /** A maximal pairing has at least half the size of any valid pairing. */
  lemma MaximalIsHalf(w: Window, references: seq<Point>, candidates: seq<Point>, a: seq<Option<nat>>,
                      other: seq<Option<nat>>)
    requires Valid(w, references, candidates, a) && Maximal(w, references, candidates, a)
    requires Valid(w, references, candidates, other)
    ensures Size(other) <= 2 * Size(a)
  {
    SizeIsMatched(a);
    SizeIsMatched(other);
    UsedIsAsLarge(a);
    var shared, rest := Matched(other) * Matched(a), Matched(other) - Matched(a);
    assert Matched(other) == shared + rest;
    SubsetSize(shared, Matched(a));
    ValuesAsLarge(other, rest);
    forall d | d in Values(other, rest) ensures d in Used(a) {
      var k :| k in rest && k < |other| && other[k].Some? && other[k].value == d;
      assert a[k].None?;
    }
    SubsetSize(Values(other, rest), Used(a));
  }

  /** The greedy pairing has at least half the size of the best possible one. */
  lemma GreedyIsHalfOptimal(w: Window, references: seq<Point>, candidates: seq<Point>, other: seq<Option<nat>>)
    requires Valid(w, references, candidates, other)
    ensures Size(other) <= 2 * Size(Greedy(w, references, candidates))
  {
    GreedyIsValidAndMaximal(w, references, candidates);
    MaximalIsHalf(w, references, candidates, Greedy(w, references, candidates), other);
  }

  lemma GreedyOfPair(w: Window, r0: Point, r1: Point, candidates: seq<Point>)
    ensures var o := Nearest(w, r0, candidates, {}, |candidates|);
            Greedy(w, [r0, r1], candidates)
                == [o, Nearest(w, r1, candidates, if o.Some? then {o.value} else {}, |candidates|)]
  {
    var both, o := [r0, r1], Nearest(w, r0, candidates, {}, |candidates|);
    assert both[..0] == [] && both[..1] == [r0] && both[..2] == both;
    assert Used([]) == {};
    GreedyStep(w, both, candidates, 0);
    assert Greedy(w, both[..1], candidates) == [o];
    UsedGrows([], o);
    assert [] + [o] == [o];
    GreedyStep(w, both, candidates, 1);
    var used := if o.Some? then {o.value} else {};
    assert Used([o]) == used;
    var o' := Nearest(w, r1, candidates, used, |candidates|);
    assert Greedy(w, both[..2], candidates) == [o] + [o'];
  }

  lemma SizeOfPair(a: Option<nat>, b: Option<nat>)
    ensures Size([a, b]) == (if a.Some? then 1 else 0) + (if b.Some? then 1 else 0)
  {
    var both := [a, b];
    assert both[..1] == [a] && [a][..0] == [];
    assert Size([a]) == if a.Some? then 1 else 0;
    assert Size(both) == Size(both[..1]) + if b.Some? then 1 else 0;
  }

  /** The bound is tight: taking the nearest candidate first can lose half the pairs. */
  lemma GreedyCanLoseHalf() returns (w: Window, references: seq<Point>, candidates: seq<Point>, other: seq<Option<nat>>)
    ensures Valid(w, references, candidates, other) && Size(other) == 2 && Size(Greedy(w, references, candidates)) == 1
  {
    w := Window(3, 0.0);
    references := [Point(High, 0, 1.0), Point(High, 4, 1.0)];
    candidates := [Point(High, -3, 1.0), Point(High, 1, 1.0)];
    other := [Some(0), Some(1)];
    GreedyOfPair(w, references[0], references[1], candidates);
    assert Nearest(w, references[0], candidates, {}, 1) == Some(0);
    assert Nearest(w, references[0], candidates, {}, 2) == Some(1);
    assert Nearest(w, references[1], candidates, {1}, 1) == None;
    SizeOfPair(Some(0), Some(1));
    SizeOfPair(Some(1), None);
  }

  // ---- swing calibration ----------------------------------------------------------------------------

  datatype Timeframe = H4 | H1

  /** H4: two candles of slack, H1: three; prices within 0.1 %. */
  function CalibrationWindow(tf: Timeframe): Window {
    Window(if tf.H4? then 2 * (4 * HOUR) else 3 * HOUR, 0.001)
  }

  /** The elements at the positions that are (not) in `at`, in order. */
  function Keep(points: seq<Point>, at: set<nat>, inside: bool, n: nat): seq<Point>
    requires n <= |points|
  {
    if n == 0 then []
    else Keep(points, at, inside, n - 1) + (if (n - 1 in at) == inside then [points[n - 1]] else [])
  }

  lemma {:induction false} KeepSizes(points: seq<Point>, at: set<nat>, n: nat)
    requires n <= |points|
    ensures |Keep(points, at, false, n)| + |(set k | k in at && k < n)| == n
  {
    var low := set k | k in at && k < n;
    if n == 0 {
      assert low == {};
    } else {
      KeepSizes(points, at, n - 1);
      var lower := set k | k in at && k < n - 1;
      assert low == if n - 1 in at then lower + {n - 1} else lower;
    }
  }

  lemma UsedInRange(w: Window, references: seq<Point>, candidates: seq<Point>, a: seq<Option<nat>>)
    requires Valid(w, references, candidates, a)
    ensures |Used(a)| == Size(a) && (set k | k in Used(a) && k < |candidates|) == Used(a)
  {
    UsedIsAsLarge(a);
  }

  lemma GreedyStep(w: Window, references: seq<Point>, candidates: seq<Point>, i: nat)
    requires i < |references|
    ensures Greedy(w, references[..i + 1], candidates)
            == Greedy(w, references[..i], candidates)
                + [Nearest(w, references[i], candidates, Used(Greedy(w, references[..i], candidates)), |candidates|)]
  {
    assert references[..i + 1][..i] == references[..i];
  }

  lemma KeepStep(references: seq<Point>, a: seq<Option<nat>>, o: Option<nat>)
    requires |a| < |references|
    ensures Matched(a + [o]) == Matched(a) + (if o.Some? then {|a|} else {})
    ensures Keep(references, Matched(a + [o]), false, |a| + 1)
            == Keep(references, Matched(a), false, |a|) + (if o.Some? then [] else [references[|a|]])
    ensures Size(a + [o]) == Size(a) + (if o.Some? then 1 else 0)
  {
    assert Matched(a + [o]) == Matched(a) + (if o.Some? then {|a|} else {});
    KeepAgrees(references, Matched(a + [o]), Matched(a), |a|);
    assert (a + [o])[..|a|] == a;
  }

  lemma {:induction false} KeepAgrees(points: seq<Point>, a: set<nat>, b: set<nat>, n: nat)
    requires n <= |points| && forall k :: 0 <= k < n ==> (k in a <==> k in b)
    ensures Keep(points, a, false, n) == Keep(points, b, false, n)
  {
    if n > 0 {
      KeepAgrees(points, a, b, n - 1);
    }
  }

  /** `fps`: the detected swings nobody took. */
  method Unmatched(points: seq<Point>, used: set<nat>) returns (rest: seq<Point>)
    ensures rest == Keep(points, used, false, |points|)
  {
    rest := [];
    for j := 0 to |points|
      invariant rest == Keep(points, used, false, j)
    {
      if j !in used {
        rest := rest + [points[j]];
      }
    }
  }

  lemma CountsAddUp(w: Window, references: seq<Point>, candidates: seq<Point>, a: seq<Option<nat>>)
    requires Valid(w, references, candidates, a)
    ensures Size(a) + |Keep(references, Matched(a), false, |references|)| == |references|
    ensures Size(a) + |Keep(candidates, Used(a), false, |candidates|)| == |candidates|
  {
    UsedInRange(w, references, candidates, a);
    KeepSizes(candidates, Used(a), |candidates|);
    SizeIsMatched(a);
    KeepSizes(references, Matched(a), |references|);
    assert (set k | k in Matched(a) && k < |references|) == Matched(a);
  }

  /** One reference point more. */
  lemma GreedyGrows(w: Window, references: seq<Point>, candidates: seq<Point>, i: nat, a: seq<Option<nat>>,
                    best: Option<nat>)
    requires i < |references| && a == Greedy(w, references[..i], candidates)
    requires best == Nearest(w, references[i], candidates, Used(a), |candidates|)
    ensures a + [best] == Greedy(w, references[..i + 1], candidates)
    ensures Used(a + [best]) == Used(a) + (if best.Some? then {best.value} else {})
    ensures Size(a + [best]) == Size(a) + (if best.Some? then 1 else 0)
    ensures Keep(references, Matched(a + [best]), false, i + 1)
            == Keep(references, Matched(a), false, i) + (if best.Some? then [] else [references[i]])
  {
    GreedyStep(w, references, candidates, i);
    UsedGrows(a, best);
    KeepStep(references, a, best);
  }

  /** `_match`: matched count, false positives and false negatives. */
  method Match(detected: seq<Point>, annotated: seq<Point>, tf: Timeframe)
    returns (tp: nat, fps: seq<Point>, fns: seq<Point>)
    ensures var a := Greedy(CalibrationWindow(tf), annotated, detected);
            && tp == Size(a)
            && fps == Keep(detected, Used(a), false, |detected|)
            && fns == Keep(annotated, Matched(a), false, |annotated|)
    ensures tp + |fns| == |annotated| && tp + |fps| == |detected|
  {
    var w := CalibrationWindow(tf);
    var used: set<nat> := {};
    tp, fns := 0, [];
    ghost var a: seq<Option<nat>> := [];
    assert annotated[..0] == [];
    for i := 0 to |annotated|
      invariant a == Greedy(w, annotated[..i], detected) && used == Used(a)
      invariant tp == Size(a) && fns == Keep(annotated, Matched(a), false, i)
    {
      var best := FindNearest(w, annotated[i], detected, used);
      GreedyGrows(w, annotated, detected, i, a, best);
      if best.Some? {
        used := used + {best.value};
        tp := tp + 1;
      } else {
        fns := fns + [annotated[i]];
      }
      a := a + [best];
    }
    assert annotated[..|annotated|] == annotated;
    fps := Unmatched(detected, used);
    GreedyIsValidAndMaximal(w, annotated, detected);
    CountsAddUp(w, annotated, detected, a);
  }

  // ---- multi-timeframe swing levels -------------------------------------------------------------------

  datatype LevelStrength = Major | MajorH4Only | Minor

  datatype SwingLevel = SwingLevel(side: Side, price: real, time: int, timeframe: Timeframe, strength: LevelStrength,
                                   touches: nat)

  function H4Level(p: Point, confirmed: bool): SwingLevel {
    SwingLevel(p.side, p.price, p.time, H4, if confirmed then Major else MajorH4Only, if confirmed then 2 else 1)
  }

  function H1Level(p: Point): SwingLevel {
    SwingLevel(p.side, p.price, p.time, H1, Minor, 1)
  }

  /** Python's `xs[-n:]`, which is the whole list for n == 0 and drops the first |n| for negative n. */
  function Suffix(points: seq<Point>, n: int): seq<Point> {
    if n > 0 then (if n <= |points| then points[|points| - n..] else points)
    else if -n <= |points| then points[-n..]
    else []
  }

  function H4Levels(points: seq<Point>, a: seq<Option<nat>>): (levels: seq<SwingLevel>)
    requires |a| == |points|
    ensures |levels| == |points|
    ensures forall k :: 0 <= k < |points| ==> levels[k] == H4Level(points[k], a[k].Some?)
  {
    seq(|points|, k requires 0 <= k < |points| => H4Level(points[k], a[k].Some?))
  }

  /** The unmatched H1 swings from position `from` on. */
  function MinorLevels(points: seq<Point>, used: set<nat>, from: int, n: nat): seq<SwingLevel>
    requires n <= |points|
  {
    if n == 0 then []
    else
      MinorLevels(points, used, from, n - 1)
      + (if from <= n - 1 && n - 1 !in used then [H1Level(points[n - 1])] else [])
  }

  /** The loop over the recent H4 swings. */
  method ConfirmH4(w: Window, recent: seq<Point>, h1: seq<Point>)
    returns (levels: seq<SwingLevel>, used: set<nat>, ghost a: seq<Option<nat>>)
    ensures a == Greedy(w, recent, h1) && used == Used(a) && levels == H4Levels(recent, a)
  {
    levels, used, a := [], {}, [];
    assert recent[..0] == [];
    for i := 0 to |recent|
      invariant a == Greedy(w, recent[..i], h1) && used == Used(a)
      invariant |levels| == i && forall k :: 0 <= k < i ==> levels[k] == H4Level(recent[k], a[k].Some?)
    {
      var best := FindNearest(w, recent[i], h1, used);
      GreedyGrows(w, recent, h1, i, a, best);
      if best.Some? {
        used := used + {best.value};
        levels := levels + [H4Level(recent[i], true)];
      } else {
        levels := levels + [H4Level(recent[i], false)];
      }
      a := a + [best];
    }
    assert recent[..|recent|] == recent;
    assert levels == H4Levels(recent, a);
  }

  /** The loop over the recent H1 swings. */
  method LeftoverH1(h1: seq<Point>, used: set<nat>, from: int) returns (levels: seq<SwingLevel>)
    ensures levels == MinorLevels(h1, used, from, |h1|)
  {
    levels := [];
    for j := 0 to |h1|
      invariant levels == MinorLevels(h1, used, from, j)
    {
      if from <= j && j !in used {
        levels := levels + [H1Level(h1[j])];
      }
    }
  }

  /**
    The matching of `mark_swing_levels`, before its final sort by time: each recent H4 swing yields
    exactly one level, `Major` when it found its own H1 swing; the leftover recent H1 swings are minor.
  */
  method MatchLevels(h4: seq<Point>, h1: seq<Point>, swings: int, toleranceCandles: int, fraction: real)
    returns (levels: seq<SwingLevel>)
    ensures var w := Window(4 * toleranceCandles * HOUR, fraction);
            var recent := Suffix(h4, swings);
            var a := Greedy(w, recent, h1);
            && Valid(w, recent, h1, a) && Maximal(w, recent, h1, a)
            && levels == H4Levels(recent, a) + MinorLevels(h1, Used(a), |h1| - swings * 2, |h1|)
  {
    var w := Window(4 * toleranceCandles * HOUR, fraction);
    var recent := Suffix(h4, swings);
    var used;
    ghost var a;
    levels, used, a := ConfirmH4(w, recent, h1);
    GreedyIsValidAndMaximal(w, recent, h1);
    var minors := LeftoverH1(h1, used, |h1| - swings * 2);
    levels := levels + minors;
  }

  lemma {:induction false} MinorLevelsAre(points: seq<Point>, used: set<nat>, from: int, n: nat, l: SwingLevel)
    requires n <= |points|
    ensures l in MinorLevels(points, used, from, n)
            <==> exists j: nat :: MinorAt(points, used, from, n, j) && l == H1Level(points[j])
  {
    if n > 0 {
      MinorLevelsAre(points, used, from, n - 1, l);
      assert from <= n - 1 && n - 1 !in used ==> MinorAt(points, used, from, n, n - 1);
      forall j: nat | MinorAt(points, used, from, n - 1, j) ensures MinorAt(points, used, from, n, j) {
      }
      forall j: nat | MinorAt(points, used, from, n, j) ensures j == n - 1 || MinorAt(points, used, from, n - 1, j) {
      }
    }
  }

  predicate MinorAt(points: seq<Point>, used: set<nat>, from: int, n: nat, j: nat) {
    j < n <= |points| && from <= j && j !in used
  }

  /** A confirmed H4 level has an H1 swing of its own; no H1 swing confirms twice or also counts as minor. */
  lemma H1SwingsUsedOnce(w: Window, h4: seq<Point>, h1: seq<Point>, a: seq<Option<nat>>, from: int)
    requires Valid(w, h4, h1, a)
    ensures forall k :: 0 <= k < |h4| ==>
      (H4Levels(h4, a)[k].strength.Major? <==> a[k].Some? && w.Fits(h4[k], h1[a[k].value]))
    ensures forall j: nat, k: nat ::
              j < k < |h4| && H4Levels(h4, a)[j].strength.Major? && H4Levels(h4, a)[k].strength.Major? ==> a[j] != a[k]
    ensures forall l :: l in MinorLevels(h1, Used(a), from, |h1|) ==>
      exists j: nat :: j < |h1| && l == H1Level(h1[j]) && forall k :: 0 <= k < |a| ==> a[k] != Some(j)
  {
    forall l | l in MinorLevels(h1, Used(a), from, |h1|)
      ensures exists j: nat :: j < |h1| && l == H1Level(h1[j]) && forall k :: 0 <= k < |a| ==> a[k] != Some(j)
    {
      MinorLevelsAre(h1, Used(a), from, |h1|, l);
      var j: nat :| MinorAt(h1, Used(a), from, |h1|, j) && l == H1Level(h1[j]);
      forall k | 0 <= k < |a| ensures a[k] != Some(j) {
      }
    }
  }
}
