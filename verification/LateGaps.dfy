/** Whether a frame can still complete its first fair value gap: a condition on the candles so far. */
module LateGaps {
  import opened Foundations
  import opened Swings
  import opened PointsOfInterest

  function LastTime(candles: seq<Candle>): int
    requires candles != []
  {
    candles[|candles| - 1].time
  }

  /**
    A middle candle in the window is still to come, or is the last one, early enough for its third
    candle to be missing and late enough for its ATR to be defined and positive.
  */
  predicate GapPossible(candles: seq<Candle>, scan: FvgScan)
    requires candles != [] && scan.period >= 1
  {
    && LastTime(candles) <= scan.end
    && |candles| + (scan.end - LastTime(candles)) >= scan.period
    && (LastTime(candles) == scan.end ==> AtrAt(candles, scan.period, |candles| - 1).value > 0.0)
  }

  // ---- no gap follows -----------------------------------------------------------------------------------

  lemma {:induction false} NoFurtherGaps(candles: seq<Candle>, scan: FvgScan, i: nat, j: nat)
    requires 1 <= i <= j < |candles| && scan.period >= 1
    requires forall k :: i <= k < j ==> FvgAt(candles, scan, k).None?
    ensures FvgsBefore(candles, scan, j) == FvgsBefore(candles, scan, i)
  {
    if i < j {
      NoFurtherGaps(candles, scan, i, j - 1);
    }
  }

  /** Without a gap from the last known candle on, the longer frame has the gaps of the shorter one. */
  lemma GapsOfExtension(candles: seq<Candle>, more: seq<Candle>, scan: FvgScan)
    requires |candles| >= 3 && scan.period >= 1
    requires forall k :: |candles| - 1 <= k < |candles + more| - 1 ==> FvgAt(candles + more, scan, k).None?
    ensures Fvgs(candles + more, scan) == Fvgs(candles, scan)
  {
    var all, n := candles + more, |candles|;
    assert all[..n] == candles;
    FvgsOfPrefixAt(all, scan, n, n - 1);
    NoFurtherGaps(all, scan, n - 1, |all| - 1);
  }

  /** Times are whole numbers, so each candle is at least one later. */
  lemma {:induction false} TimesGrow(candles: seq<Candle>, i: nat, j: nat)
    requires StrictlyAscending(candles) && i <= j < |candles|
    ensures candles[j].time >= candles[i].time + (j - i)
  {
    if i < j {
      TimesGrow(candles, i, j - 1);
    }
  }

  lemma NoGapAt(candles: seq<Candle>, more: seq<Candle>, scan: FvgScan, k: nat)
    requires candles != [] && scan.period >= 1 && StrictlyAscending(candles + more)
    requires !GapPossible(candles, scan) && 2 <= |candles| <= k + 1 < |candles + more|
    ensures FvgAt(candles + more, scan, k).None?
  {
    var all, n := candles + more, |candles|;
    assert all[..n] == candles && all[n - 1] == candles[n - 1];
    TimesGrow(all, n - 1, k);
    if k == n - 1 {
      AtrOfPrefix(all, scan.period, n, k);
    }
  }

  // ---- a gap can follow ---------------------------------------------------------------------------------

  lemma SmoothSign(prev: real, period: nat, tr: real)
    requires period >= 1 && prev >= 0.0 && tr >= 0.0
    ensures Smooth(prev, period, tr) >= 0.0 && (tr > 0.0 ==> Smooth(prev, period, tr) > 0.0)
  {
    assert prev * (period - 1) as real >= 0.0;
  }

  lemma MeanSign(total: real, n: nat)
    requires n >= 1 && total >= 0.0
    ensures Mean(total, n) >= 0.0 && (total > 0.0 ==> Mean(total, n) > 0.0)
  {
  }

  lemma RangeSign(candles: seq<Candle>, i: nat)
    requires i < |candles| && Plausible(candles)
    ensures TrueRange(candles, i) >= 0.0 && (candles[i].low < candles[i].high ==> TrueRange(candles, i) > 0.0)
  {
    assert candles[i] in candles;
  }

  lemma {:induction false} SumSign(candles: seq<Candle>, n: nat)
    requires n <= |candles| && Plausible(candles)
    ensures SumTrueRange(candles, n) >= 0.0
  {
    if n > 0 {
      RangeSign(candles, n - 1);
      SumSign(candles, n - 1);
    }
  }

  /** The ATR is never negative, and positive at a candle that moved. */
  lemma {:induction false} AtrSign(candles: seq<Candle>, period: nat, i: nat)
    requires i < |candles| && period >= 1 && i >= period - 1 && Plausible(candles)
    ensures var atr := AtrAt(candles, period, i).value;
            atr >= 0.0 && (candles[i].low < candles[i].high ==> atr > 0.0)
  {
    RangeSign(candles, i);
    if i == period - 1 {
      SumSign(candles, i);
      assert SumTrueRange(candles, period) == SumTrueRange(candles, i) + TrueRange(candles, i);
      MeanSign(SumTrueRange(candles, period), period);
    } else {
      AtrSign(candles, period, i - 1);
      SmoothSign(AtrAt(candles, period, i - 1).value, period, TrueRange(candles, i));
    }
  }

  /** A price far enough beyond the first candle of a gap, and not the one to avoid. */
  function FarPrice(d: Trend, first: Candle, distance: real, avoid: real): (x: real)
    ensures x != avoid
    ensures if d.Bullish? then x > first.high + distance else x < first.low - distance
  {
    var x := if d.Bullish? then first.high + distance + 1.0 else first.low - distance - 1.0;
    if x != avoid then x else if d.Bullish? then x + 1.0 else x - 1.0
  }

  lemma FarEnough(size: real, atr: real, minSize: real)
    requires atr > 0.0 && size > Mul(minSize, atr)
    ensures Quotient(size, atr) >= minSize
  {
    MulQuotient(minSize, atr);
    QuotientMonotone(Mul(minSize, atr), size, atr);
  }

  /** A third candle that leaves a gap around the last one. */
  function Third(candles: seq<Candle>, scan: FvgScan, atr: real, avoid: real): Candle
    requires |candles| >= 2
  {
    var x := FarPrice(scan.direction, candles[|candles| - 2], Mul(scan.minSize, atr), avoid);
    Spike(LastTime(candles) + 1, x, x)
  }

  lemma WideGapFound(candles: seq<Candle>, scan: FvgScan, j: nat, atr: real, size: real)
    requires 1 <= j < |candles| - 1 && scan.period >= 1
    requires scan.start <= candles[j].time <= scan.end && AtrAt(candles, scan.period, j) == Some(atr) && atr > 0.0
    requires var a, c := candles[j - 1], candles[j + 1];
             size == (if scan.direction.Bullish? then c.low - a.high else a.low - c.high)
    requires size > 0.0 && Quotient(size, atr) >= scan.minSize
    ensures FvgAt(candles, scan, j) == Some(Gap(candles, scan.direction, j, atr))
  {
  }

  lemma ThirdCompletes(candles: seq<Candle>, scan: FvgScan, atr: real, avoid: real)
    requires |candles| >= 2 && scan.period >= 1 && scan.minSize >= 0.0
    requires AtrAt(candles, scan.period, |candles| - 1) == Some(atr) && atr > 0.0
    requires scan.start <= LastTime(candles) <= scan.end
    ensures var gap := FvgAt(candles + [Third(candles, scan, atr, avoid)], scan, |candles| - 1);
            gap.Some? && gap.value.proximal != avoid
  {
    var third, j := Third(candles, scan, atr, avoid), |candles| - 1;
    var all := candles + [third];
    assert all[..j + 1] == candles;
    AtrOfPrefix(all, scan.period, j + 1, j);
    assert all[j - 1] == candles[j - 1] && all[j] == candles[j] && all[j + 1] == third;
    assert Mul(scan.minSize, atr) >= 0.0;
    var size := if scan.direction.Bullish? then third.low - candles[j - 1].high else candles[j - 1].low - third.high;
    FarEnough(size, atr, scan.minSize);
    WideGapFound(all, scan, j, atr, size);
  }

  // ---- candles that leave no gap ------------------------------------------------------------------------

  /** `m` candles, a microsecond apart, from `low` to `high`. */
  function Spikes(from: int, low: real, high: real, m: nat): seq<Candle> {
    seq(m, i requires 0 <= i < m => Spike(from + i, low, high))
  }

  /** The frame continued by such candles. */
  function Continued(candles: seq<Candle>, low: real, high: real, m: nat): (r: seq<Candle>)
    requires candles != []
    ensures |r| == |candles| + m
    ensures forall i :: 0 <= i < |candles| ==> r[i] == candles[i]
    ensures forall i :: |candles| <= i < |r| ==> r[i] == Spike(LastTime(candles) + 1 + i - |candles|, low, high)
  {
    candles + Spikes(LastTime(candles) + 1, low, high, m)
  }

  /** The last two candles lie between `low` and `high`. */
  ghost predicate Spans(candles: seq<Candle>, low: real, high: real) {
    |candles| >= 2 && forall i :: |candles| - 2 <= i < |candles| ==> low <= candles[i].low <= candles[i].high <= high
  }

  /** Candles that span their two predecessors leave no gap. */
  lemma SpikesLeaveNoGap(candles: seq<Candle>, scan: FvgScan, low: real, high: real, m: nat, k: nat)
    requires scan.period >= 1 && low <= high && Spans(candles, low, high)
    requires |candles| - 1 <= k < |candles| + m - 1
    ensures FvgAt(Continued(candles, low, high, m), scan, k).None?
  {
    var all := Continued(candles, low, high, m);
    assert all[k + 1].low == low && all[k + 1].high == high;
    assert low <= all[k - 1].low <= all[k - 1].high <= high;
  }

  lemma SpikesArePlausible(candles: seq<Candle>, low: real, high: real, m: nat)
    requires candles != [] && Plausible(candles) && low <= high
    ensures Plausible(Continued(candles, low, high, m))
  {
    var all := Continued(candles, low, high, m);
    forall i | 0 <= i < |all|
      ensures all[i].low <= all[i].open <= all[i].high && all[i].low <= all[i].close <= all[i].high {
      assert i < |candles| ==> all[i] in candles;
    }
  }

  /** A range around the last two candles. */
  function Around(candles: seq<Candle>): (r: (real, real))
    requires |candles| >= 2
    ensures Plausible(candles) ==> Spans(candles, r.0, r.1) && r.0 < r.1
  {
    var a, b := candles[|candles| - 2], candles[|candles| - 1];
    assert a in candles && b in candles;
    (Min(a.low, b.low), Max(a.high, b.high) + 1.0)
  }

  /** The frame is long enough for a positive ATR, and its last candle still in the window. */
  ghost predicate Ready(candles: seq<Candle>, scan: FvgScan)
    requires scan.period >= 1
  {
    && candles != [] && LastTime(candles) <= scan.end && |candles| >= scan.period
    && AtrAt(candles, scan.period, |candles| - 1).value > 0.0
  }

  lemma SpikesAddNoGap(candles: seq<Candle>, scan: FvgScan, low: real, high: real, m: nat)
    requires |candles| >= 3 && scan.period >= 1 && Spans(candles, low, high) && low <= high
    ensures Fvgs(Continued(candles, low, high, m), scan) == Fvgs(candles, scan)
  {
    var more := Spikes(LastTime(candles) + 1, low, high, m);
    assert Continued(candles, low, high, m) == candles + more;
    forall k | |candles| - 1 <= k < |candles + more| - 1 ensures FvgAt(candles + more, scan, k).None? {
      SpikesLeaveNoGap(candles, scan, low, high, m, k);
    }
    GapsOfExtension(candles, more, scan);
  }

  lemma SpikesMakeReady(candles: seq<Candle>, scan: FvgScan, low: real, high: real, m: nat)
    requires candles != [] && scan.period >= 1 && Plausible(candles) && low < high
    requires m >= 1 && |candles| + m >= scan.period && LastTime(candles) + m <= scan.end
    ensures Ready(Continued(candles, low, high, m), scan)
  {
    var all := Continued(candles, low, high, m);
    SpikesArePlausible(candles, low, high, m);
    assert all[|all| - 1] == Spike(LastTime(candles) + m, low, high);
    AtrSign(all, scan.period, |all| - 1);
  }

  /** Enough such candles for the ATR to be defined, all within the window. */
  lemma GetReady(candles: seq<Candle>, scan: FvgScan) returns (all: seq<Candle>)
    requires |candles| >= 3 && scan.period >= 1 && Plausible(candles) && GapPossible(candles, scan)
    ensures |all| >= |candles| && all[..|candles|] == candles && LastTime(candles) <= LastTime(all)
    ensures Ready(all, scan) && Plausible(all) && Fvgs(all, scan) == Fvgs(candles, scan)
  {
    if LastTime(candles) == scan.end {
      all := candles;
    } else {
      var m := if |candles| < scan.period then scan.period - |candles| else 1;
      var (low, high) := Around(candles);
      SpikesAddNoGap(candles, scan, low, high, m);
      SpikesArePlausible(candles, low, high, m);
      SpikesMakeReady(candles, scan, low, high, m);
      all := Continued(candles, low, high, m);
    }
  }

  /** The gaps after the third candle: those before it and the one it completes. */
  lemma OneMoreGap(candles: seq<Candle>, c: Candle, scan: FvgScan)
    requires |candles| >= 3 && scan.period >= 1 && FvgAt(candles + [c], scan, |candles| - 1).Some?
    ensures Fvgs(candles + [c], scan) == Fvgs(candles, scan) + [FvgAt(candles + [c], scan, |candles| - 1).value]
  {
    var all := candles + [c];
    assert all[..|candles|] == candles;
    FvgsOfPrefixAt(all, scan, |candles|, |candles| - 1);
  }

  lemma ThirdIsPlausible(candles: seq<Candle>, scan: FvgScan, atr: real, avoid: real)
    requires |candles| >= 2 && Plausible(candles)
    ensures Plausible(candles + [Third(candles, scan, atr, avoid)])
  {
  }

  /** A plausible continuation whose first gap starts away from `avoid`. */
  lemma GapFollows(candles: seq<Candle>, scan: FvgScan, avoid: real) returns (more: seq<Candle>)
    requires |candles| >= 3 && scan.period >= 1 && scan.minSize >= 0.0 && Plausible(candles)
    requires GapPossible(candles, scan) && scan.start <= LastTime(candles) && Fvgs(candles, scan) == []
    ensures Plausible(candles + more)
    ensures Fvgs(candles + more, scan) != [] && Fvgs(candles + more, scan)[0].proximal != avoid
  {
    var known := GetReady(candles, scan);
    var atr := AtrAt(known, scan.period, |known| - 1).value;
    var third := Third(known, scan, atr, avoid);
    ThirdCompletes(known, scan, atr, avoid);
    OneMoreGap(known, third, scan);
    ThirdIsPlausible(known, scan, atr, avoid);
    more := known[|candles|..] + [third];
    assert candles + more == known + [third];
  }
}
