/** What the column of significant swings holds, in terms of the candles, the ATR and the column itself. */
module SwingColumn {
  import opened Foundations
  import opened Swings

  // ---- raw swings -----------------------------------------------------------------------------------

  /** A raw high is strictly above all `lookback` bars on either side, which exist. */
  lemma RawHighIff(candles: seq<Candle>, lookback: nat, i: nat, price: real)
    requires i < |candles|
    ensures RawAt(candles, lookback, i) == Some(Pivot(High, price))
            <==> (lookback <= i < |candles| - lookback && price == candles[i].high
                  && forall j :: i - lookback <= j <= i + lookback && j != i ==> candles[j].high < candles[i].high)
  {
  }

  /** A raw low is strictly below them, and the bar is no raw high. */
  lemma RawLowIff(candles: seq<Candle>, lookback: nat, i: nat, price: real)
    requires i < |candles|
    ensures RawAt(candles, lookback, i) == Some(Pivot(Low, price))
            <==> (lookback <= i < |candles| - lookback && price == candles[i].low
                  && (forall j :: i - lookback <= j <= i + lookback && j != i ==> candles[j].low > candles[i].low)
                  && exists j :: i - lookback <= j <= i + lookback && j != i && candles[j].high >= candles[i].high)
  {
  }

  // ---- the amplitude filter ---------------------------------------------------------------------------

  type Column = seq<Option<Pivot>>

  predicate On(swing: Option<Pivot>, side: Side) { swing.Some? && swing.value.side == side }

  /** Bar `j` holds the latest swing of this side in the column before bar `i`. */
  ghost predicate LatestBefore(column: Column, side: Side, i: nat, j: nat) {
    j < i <= |column| && On(column[j], side) && forall k :: j < k < i ==> !On(column[k], side)
  }

  ghost predicate NoneBefore(column: Column, side: Side, i: nat) {
    i <= |column| && forall k :: 0 <= k < i ==> !On(column[k], side)
  }

  /** The filter remembers the latest swing of this side in the column, if there is one. */
  ghost predicate Remembers(column: Column, side: Side, i: nat, mem: Memory) {
    match mem.Last(side)
    case None => NoneBefore(column, side, i)
    case Some(price) =>
      mem.keptAny && exists j: nat :: LatestBefore(column, side, i, j) && price == column[j].value.price
  }

  lemma RemembersOn(column: Column, side: Side, i: nat, mem: Memory, mem': Memory)
    requires i < |column| && Remembers(column, side, i, mem)
    requires mem' == if column[i].Some? then mem.Keep(column[i].value) else mem
    ensures Remembers(column, side, i + 1, mem')
  {
    if On(column[i], side) {
      assert LatestBefore(column, side, i + 1, i);
    } else if mem.Last(side).Some? {
      var j: nat :| LatestBefore(column, side, i, j) && mem.Last(side).value == column[j].value.price;
      assert LatestBefore(column, side, i + 1, j);
    }
  }

  lemma {:induction false} MemoryRemembers(candles: seq<Candle>, p: SwingParams, side: Side, i: nat)
    requires p.lookback >= 1 && p.period >= 1 && i <= |candles|
    ensures Remembers(SwingsOf(candles, p), side, i, MemoryBefore(candles, p, i))
  {
    if i > 0 {
      MemoryRemembers(candles, p, side, i - 1);
      MemoryStep(candles, p, i - 1);
      RemembersOn(SwingsOf(candles, p), side, i - 1, MemoryBefore(candles, p, i - 1), MemoryBefore(candles, p, i));
    }
  }

  /** The filter remembers what it puts into the column, and nothing else. */
  lemma MemoryStep(candles: seq<Candle>, p: SwingParams, i: nat)
    requires p.lookback >= 1 && p.period >= 1 && i < |candles|
    ensures var here, mem := SwingsOf(candles, p)[i], MemoryBefore(candles, p, i);
            MemoryBefore(candles, p, i + 1) == if here.Some? then mem.Keep(here.value) else mem
  {
  }

  /** The latest swing of the side before bar `i` is at least `distance` away from `price`. */
  ghost predicate FarFromLatest(column: Column, side: Side, i: nat, price: real, distance: real) {
    exists j: nat :: LatestBefore(column, side, i, j) && Abs(price - column[j].value.price) >= distance
  }

  lemma FarIff(column: Column, side: Side, i: nat, mem: Memory, price: real, distance: real)
    requires Remembers(column, side, i, mem) && mem.Last(side).Some?
    ensures FarFromLatest(column, side, i, price, distance) <==> Abs(price - mem.Last(side).value) >= distance
    ensures !NoneBefore(column, side, i) && mem.keptAny
  {
    var j: nat :| LatestBefore(column, side, i, j) && mem.Last(side).value == column[j].value.price;
    forall k: nat | LatestBefore(column, side, i, k) ensures k == j {
    }
  }

  lemma KeepsIff(column: Column, i: nat, mem: Memory, swing: Pivot, atr: Option<real>, amplitude: real, other: Side)
    requires Remembers(column, other, i, mem) && other == if swing.side == High then Low else High
    ensures Keeps(mem, swing, atr, amplitude)
            <==> NoneBefore(column, other, i)
                 || (atr.Some? && FarFromLatest(column, other, i, swing.price, Threshold(amplitude, atr.value)))
  {
    if mem.Last(other).Some? {
      FarIff(column, other, i, mem, swing.price, if atr.Some? then Threshold(amplitude, atr.value) else 0.0);
    }
  }

  lemma ThresholdIs(amplitude: real, atr: real)
    ensures Threshold(amplitude, atr) == Mul(amplitude, atr)
  {
  }

  /**
    A raw swing stands in the column exactly when no swing of the other side stands before it, or it is
    at least `amplitude` times the ATR at its bar away from the latest one that does.
  */
  lemma KeptIff(candles: seq<Candle>, p: SwingParams, i: nat, swing: Pivot)
    requires p.lookback >= 1 && p.period >= 1 && i < |candles| && RawAt(candles, p.lookback, i) == Some(swing)
    ensures var column, atr := SwingsOf(candles, p), AtrAt(candles, p.period, i);
            var other := if swing.side == High then Low else High;
            column[i].Some? <==>
            NoneBefore(column, other, i)
            || (atr.Some? && FarFromLatest(column, other, i, swing.price, Mul(p.amplitude, atr.value)))
  {
    var column, mem, atr := SwingsOf(candles, p), MemoryBefore(candles, p, i), AtrAt(candles, p.period, i);
    var other := if swing.side == High then Low else High;
    MemoryRemembers(candles, p, other, i);
    KeepsIff(column, i, mem, swing, atr, p.amplitude, other);
    if atr.Some? {
      ThresholdIs(p.amplitude, atr.value);
    }
    assert column[i].Some? <==> Keeps(mem, swing, atr, p.amplitude);
  }

  /** Nothing but raw swings stands in the column. */
  lemma OnlyRawSwings(candles: seq<Candle>, p: SwingParams, i: nat)
    requires p.lookback >= 1 && p.period >= 1 && i < |candles| && SwingsOf(candles, p)[i].Some?
    ensures SwingsOf(candles, p)[i] == RawAt(candles, p.lookback, i)
  {
  }

  /** The first raw swing of a frame is always kept. */
  lemma FirstRawIsKept(candles: seq<Candle>, p: SwingParams, i: nat)
    requires p.lookback >= 1 && p.period >= 1 && i < |candles|
    requires RawAt(candles, p.lookback, i).Some? && forall k :: 0 <= k < i ==> RawAt(candles, p.lookback, k).None?
    ensures SwingsOf(candles, p)[i] == RawAt(candles, p.lookback, i)
  {
    KeptIff(candles, p, i, RawAt(candles, p.lookback, i).value);
  }

  // ---- the ATR ----------------------------------------------------------------------------------------

  /** The true range reaches over the bar and to the previous close, and no further. */
  lemma TrueRangeIs(candles: seq<Candle>, i: nat)
    requires i < |candles|
    ensures var c, r := candles[i], TrueRange(candles, i);
            if i == 0 then r == c.high - c.low
            else
              var close := candles[i - 1].close;
              && r >= c.high - c.low
              && r >= c.high - close && r >= close - c.high && r >= c.low - close && r >= close - c.low
              && (r == c.high - c.low || r == Abs(c.high - close) || r == Abs(c.low - close))
  {
  }

  /** `x` to the power of `n`. */
  function Power(x: real, n: nat): real {
    if n == 0 then 1.0 else Mul(x, Power(x, n - 1))
  }

  /** What the true range of bar `k` weighs in the ATR of bar `i`: one part in `period`, fading with age. */
  function Weight(period: nat, i: nat, k: nat): real
    requires k <= i && period >= 1 && i >= period - 1
  {
    Mul(Quotient(1.0, period as real),
        Power(Quotient((period - 1) as real, period as real), i - (if k < period then period - 1 else k)))
  }

  function WeightedRanges(candles: seq<Candle>, period: nat, i: nat, n: nat): real
    requires n <= i + 1 <= |candles| && period >= 1 && i >= period - 1
  {
    if n == 0 then 0.0
    else WeightedRanges(candles, period, i, n - 1) + Mul(Weight(period, i, n - 1), TrueRange(candles, n - 1))
  }

  function Weights(period: nat, i: nat, n: nat): real
    requires n <= i + 1 && period >= 1 && i >= period - 1
  {
    if n == 0 then 0.0 else Weights(period, i, n - 1) + Weight(period, i, n - 1)
  }

  lemma {:induction false} Flat(candles: seq<Candle>, period: nat, n: nat)
    requires n <= period <= |candles| && period >= 1
    ensures WeightedRanges(candles, period, period - 1, n)
            == Mul(Quotient(1.0, period as real), SumTrueRange(candles, n))
    ensures Weights(period, period - 1, n) == Mul(Quotient(1.0, period as real), n as real)
  {
    var w := Quotient(1.0, period as real);
    if n == 0 {
      assert Mul(w, 0.0) == 0.0;
    } else {
      Flat(candles, period, n - 1);
      assert Weight(period, period - 1, n - 1) == Mul(w, 1.0) == w;
      MulSum(SumTrueRange(candles, n - 1), TrueRange(candles, n - 1), w);
      MulSum((n - 1) as real, 1.0, w);
      assert Mul(w, 1.0) == w;
    }
  }

  lemma Regrouped(x: real, a: real, b: real)
    ensures Mul(a, Mul(x, b)) == Mul(x, Mul(a, b)) && Mul(Mul(x, a), b) == Mul(x, Mul(a, b))
  {
  }

  /** One bar later every weight has faded by the same factor. */
  lemma {:induction false} Faded(candles: seq<Candle>, period: nat, i: nat, n: nat)
    requires 1 <= period <= i < |candles| && n <= i
    ensures var f := Quotient((period - 1) as real, period as real);
            && WeightedRanges(candles, period, i, n) == Mul(f, WeightedRanges(candles, period, i - 1, n))
            && Weights(period, i, n) == Mul(f, Weights(period, i - 1, n))
  {
    var f := Quotient((period - 1) as real, period as real);
    if n == 0 {
      assert Mul(f, 0.0) == 0.0;
    } else {
      Faded(candles, period, i, n - 1);
      var a, w := WeightedRanges(candles, period, i - 1, n - 1), Weight(period, i - 1, n - 1);
      var age := i - 1 - (if n - 1 < period then period - 1 else n - 1);
      Regrouped(f, Quotient(1.0, period as real), Power(f, age));
      assert Weight(period, i, n - 1) == Mul(f, w);
      Regrouped(f, w, TrueRange(candles, n - 1));
      MulSum(a, Mul(w, TrueRange(candles, n - 1)), f);
      MulSum(Weights(period, i - 1, n - 1), w, f);
    }
  }

  lemma SmoothIs(prev: real, period: nat, tr: real)
    requires period >= 1
    ensures Smooth(prev, period, tr)
            == Mul(Quotient((period - 1) as real, period as real), prev) + Mul(Quotient(1.0, period as real), tr)
    ensures Mul(Quotient((period - 1) as real, period as real), 1.0) + Quotient(1.0, period as real) == 1.0
  {
    var n := period as real;
    assert (prev * (period - 1) as real + tr) / n == prev * (period - 1) as real / n + tr / n;
    assert prev * (period - 1) as real / n == ((period - 1) as real / n) * prev;
    assert tr / n == (1.0 / n) * tr;
    assert (period - 1) as real / n + 1.0 / n == 1.0;
  }

  lemma MeanIs(total: real, period: nat)
    requires period >= 1
    ensures Mean(total, period) == Mul(Quotient(1.0, period as real), total)
    ensures Mul(Quotient(1.0, period as real), period as real) == 1.0
  {
    MulQuotient(1.0, period as real);
    assert total / period as real == (1.0 / period as real) * total;
  }

  lemma LatestWeight(period: nat, i: nat)
    requires 1 <= period <= i + 1
    ensures Weight(period, i, i) == Quotient(1.0, period as real)
  {
    assert Mul(Quotient(1.0, period as real), 1.0) == Quotient(1.0, period as real);
  }

  /**
    The ATR is the mean of all true ranges so far under those weights, which sum to one; the latest
    weighs one part in `period`.
  */
  lemma {:induction false} AtrIsWeightedMean(candles: seq<Candle>, period: nat, i: nat)
    requires 1 <= period <= i + 1 <= |candles|
    ensures AtrAt(candles, period, i) == Some(WeightedRanges(candles, period, i, i + 1))
    ensures Weights(period, i, i + 1) == 1.0 && Weight(period, i, i) == Quotient(1.0, period as real)
  {
    LatestWeight(period, i);
    if i == period - 1 {
      Flat(candles, period, period);
      MeanIs(SumTrueRange(candles, period), period);
    } else {
      AtrIsWeightedMean(candles, period, i - 1);
      Faded(candles, period, i, i);
      SmoothIs(AtrAt(candles, period, i - 1).value, period, TrueRange(candles, i));
    }
  }

  lemma {:induction false} PowerSign(x: real, n: nat)
    requires x >= 0.0
    ensures Power(x, n) >= 0.0
  {
    if n > 0 {
      PowerSign(x, n - 1);
    }
  }

  lemma WeightSign(period: nat, i: nat, k: nat)
    requires k <= i && period >= 1 && i >= period - 1
    ensures Weight(period, i, k) >= 0.0
  {
    PowerSign(Quotient((period - 1) as real, period as real), i - (if k < period then period - 1 else k));
  }

  lemma WeightedStep(w: real, r: real, low: real, high: real)
    requires w >= 0.0 && low <= r <= high
    ensures Mul(low, w) <= Mul(w, r) <= Mul(high, w)
  {
    assert Mul(w, r) - Mul(low, w) == w * (r - low) && Mul(high, w) - Mul(w, r) == w * (high - r);
    assert w * (r - low) >= 0.0 && w * (high - r) >= 0.0;
  }

  lemma {:induction false} WeightedBetween(candles: seq<Candle>, period: nat, i: nat, n: nat, low: real, high: real)
    requires n <= i + 1 <= |candles| && period >= 1 && i >= period - 1
    requires forall k :: 0 <= k < n ==> low <= TrueRange(candles, k) <= high
    ensures Mul(low, Weights(period, i, n)) <= WeightedRanges(candles, period, i, n) <= Mul(high, Weights(period, i, n))
  {
    if n == 0 {
      assert Mul(low, 0.0) == 0.0 && Mul(high, 0.0) == 0.0;
    } else {
      var w := Weight(period, i, n - 1);
      WeightedBetween(candles, period, i, n - 1, low, high);
      WeightSign(period, i, n - 1);
      WeightedStep(w, TrueRange(candles, n - 1), low, high);
      MulSum(Weights(period, i, n - 1), w, low);
      MulSum(Weights(period, i, n - 1), w, high);
    }
  }

  /** The ATR lies between the least and the greatest true range so far. */
  lemma AtrBetween(candles: seq<Candle>, period: nat, i: nat, low: real, high: real)
    requires 1 <= period <= i + 1 <= |candles|
    requires forall k :: 0 <= k <= i ==> low <= TrueRange(candles, k) <= high
    ensures low <= AtrAt(candles, period, i).value <= high
  {
    AtrIsWeightedMean(candles, period, i);
    WeightedBetween(candles, period, i, i + 1, low, high);
    assert Mul(low, 1.0) == low && Mul(high, 1.0) == high;
  }
}
