/** Exactly when a shift is reported, and which, in terms of pivots, closes and bodies. */
module ShiftConditions {
  import opened Foundations
  import opened SweepTypes
  import opened Swings
  import opened StructureShift

  // ---- one candle -----------------------------------------------------------------------------------

  /** Bar `k` holds a swing of the opposite side beyond the sweep's extreme. */
  predicate Target(swings: Column, sweep: Sweep, k: int) {
    && 0 <= k < |swings| && swings[k].Some?
    && if sweep.direction.Bullish? then swings[k].value.side.High? && swings[k].value.price > sweep.extreme
       else swings[k].value.side.Low? && swings[k].value.price < sweep.extreme
  }

  /** Candle `d` is displaced: its body is at least `multiplier` times the mean body before it. */
  predicate Displaced(candles: seq<Candle>, p: MssParams, d: nat)
    requires p.displacementLookback >= 1
  {
    && d < |candles|
    && var ratio := BodyRatio(candles, p.displacementLookback, d);
       ratio.Some? && ratio.value >= p.multiplier
  }

  /**
    Candle `i` closes beyond the latest target confirmed by then, bar `k`, and `d` is the latest displaced
    candle among it and the three before it.
  */
  ghost predicate Confirms(candles: seq<Candle>, swings: Column, p: MssParams, sweep: Sweep, i: nat, k: nat, d: nat)
    requires p.displacementLookback >= 1
  {
    && i < |candles| == |swings|
    && k + p.swing.lookback <= i && Target(swings, sweep, k)
    && (forall j :: k < j && j + p.swing.lookback <= i ==> !Target(swings, sweep, j))
    && (if sweep.direction.Bullish? then candles[i].close > swings[k].value.price
        else candles[i].close < swings[k].value.price)
    && d <= i <= d + 3 && Displaced(candles, p, d) && forall c: nat :: d < c <= i ==> !Displaced(candles, p, c)
  }

  /** The shift that candle `i` confirms by breaking the swing at bar `k`, displaced at candle `d`. */
  function ShiftBy(candles: seq<Candle>, swings: Column, p: MssParams, sweep: Sweep, i: nat, k: nat, d: nat): Mss
    requires i < |candles| && k < |candles| == |swings| && swings[k].Some? && d < |candles|
    requires p.displacementLookback >= 1 && BodyRatio(candles, p.displacementLookback, d).Some?
  {
    Mss(sweep.direction, sweep, candles[k].time, swings[k].value.price, candles[i].time, candles[i].close,
        BodyRatio(candles, p.displacementLookback, d).value, candles[d].time)
  }

  lemma {:induction false} DisplacementIff(candles: seq<Candle>, p: MssParams, c: int, stop: int, d: nat)
    requires c < |candles| && p.displacementLookback >= 1 && d <= c
    ensures (Displacement(candles, p, c, stop).Some? && Displacement(candles, p, c, stop).value.1 == d)
            <==> (stop <= d && Displaced(candles, p, d) && forall j: nat :: d < j <= c ==> !Displaced(candles, p, j))
    ensures Displacement(candles, p, c, stop).Some? && Displacement(candles, p, c, stop).value.1 == d ==>
              BodyRatio(candles, p.displacementLookback, d) == Some(Displacement(candles, p, c, stop).value.0)
    decreases c - stop
  {
    if c >= stop && c >= 0 {
      assert Displaced(candles, p, c) ==> Displacement(candles, p, c, stop).value.1 == c;
      if d < c {
        DisplacementIff(candles, p, c - 1, stop, d);
      }
    }
  }

  lemma LatestPivotIff(swings: Column, sweep: Sweep, from: int, k: nat)
    requires from < |swings|
    ensures LatestPivot(swings, sweep, from) == Some(k)
            <==> (k <= from && Target(swings, sweep, k) && forall j :: k < j <= from ==> !Target(swings, sweep, j))
  {
    assert forall j :: 0 <= j < |swings| ==> (Target(swings, sweep, j) <==> Breakable(sweep, swings[j]));
  }

  /** A candle confirms a shift exactly when it breaks the latest target with a displaced candle behind it. */
  lemma ShiftAtIff(candles: seq<Candle>, swings: Column, p: MssParams, sweep: Sweep, i: nat, mss: Mss)
    requires i < |candles| == |swings| && Usable(p)
    ensures ShiftAt(candles, swings, p, sweep, i) == Some(mss)
            <==> exists k: nat, d: nat :: Confirms(candles, swings, p, sweep, i, k, d)
                                          && mss == ShiftBy(candles, swings, p, sweep, i, k, d)
  {
    forall k: nat, d: nat | Confirms(candles, swings, p, sweep, i, k, d)
      ensures ShiftAt(candles, swings, p, sweep, i) == Some(ShiftBy(candles, swings, p, sweep, i, k, d)) {
      LatestPivotIff(swings, sweep, i - p.swing.lookback, k);
      DisplacementIff(candles, p, i, i - DISPLACEMENT_TRAILING_LOOKBACK, d);
    }
    if ShiftAt(candles, swings, p, sweep, i) == Some(mss) {
      var k := LatestPivot(swings, sweep, i - p.swing.lookback).value;
      var d := Displacement(candles, p, i, i - DISPLACEMENT_TRAILING_LOOKBACK).value.1;
      LatestPivotIff(swings, sweep, i - p.swing.lookback, k);
      DisplacementIff(candles, p, i, i - DISPLACEMENT_TRAILING_LOOKBACK, d);
      assert Confirms(candles, swings, p, sweep, i, k, d);
    }
  }

  // ---- the frame -------------------------------------------------------------------------------------

  ghost predicate ConfirmsAny(candles: seq<Candle>, swings: Column, p: MssParams, sweep: Sweep, i: nat)
    requires p.displacementLookback >= 1
  {
    exists k: nat, d: nat :: Confirms(candles, swings, p, sweep, i, k, d)
  }

  /** The candle comes after the sweep's return and at most `forwardMinutes` minutes later. */
  predicate InSearch(p: MssParams, sweep: Sweep, c: Candle) {
    sweep.returnTime < c.time <= sweep.returnTime + p.forwardMinutes * 60_000_000
  }

  /** Candle `i` is the first of the search window that confirms a shift. */
  ghost predicate FirstToConfirm(candles: seq<Candle>, swings: Column, p: MssParams, sweep: Sweep, i: nat)
    requires p.displacementLookback >= 1
  {
    && i < |candles| && InSearch(p, sweep, candles[i]) && ConfirmsAny(candles, swings, p, sweep, i)
    && forall j: nat :: j < i && InSearch(p, sweep, candles[j]) ==> !ConfirmsAny(candles, swings, p, sweep, j)
  }

  lemma AnyIff(candles: seq<Candle>, swings: Column, p: MssParams, sweep: Sweep, i: nat)
    requires i < |candles| == |swings| && Usable(p)
    ensures ShiftAt(candles, swings, p, sweep, i).Some? <==> ConfirmsAny(candles, swings, p, sweep, i)
  {
    if ShiftAt(candles, swings, p, sweep, i).Some? {
      ShiftAtIff(candles, swings, p, sweep, i, ShiftAt(candles, swings, p, sweep, i).value);
    }
    if k: nat, d: nat :| Confirms(candles, swings, p, sweep, i, k, d) {
      ShiftAtIff(candles, swings, p, sweep, i, ShiftBy(candles, swings, p, sweep, i, k, d));
    }
  }

  lemma {:induction false} ConfirmingFrom(candles: seq<Candle>, swings: Column, p: MssParams, sweep: Sweep, n: nat)
    requires n <= |candles| == |swings| && Usable(p) && StrictlyAscending(candles)
    ensures var r := ConfirmingCandle(candles, swings, p, sweep, n);
            && (r.Some? ==> InSearch(p, sweep, candles[r.value]) && ConfirmsAny(candles, swings, p, sweep, r.value))
            && forall j: nat :: n <= j < |candles| && (r.None? || j < r.value) && InSearch(p, sweep, candles[j]) ==>
                 !ConfirmsAny(candles, swings, p, sweep, j)
    decreases |candles| - n
  {
    if n < |candles| {
      AnyIff(candles, swings, p, sweep, n);
      ConfirmingFrom(candles, swings, p, sweep, n + 1);
    }
  }

  /** The reported candle is the first of the search window that confirms; none is reported when none does. */
  lemma ConfirmingIff(candles: seq<Candle>, p: MssParams, sweep: Sweep)
    requires Usable(p) && StrictlyAscending(candles)
    ensures var swings := SwingsOf(candles, p.swing);
            match Confirming(candles, p, sweep)
            case Some(i) => FirstToConfirm(candles, swings, p, sweep, i)
            case None => forall j: nat :: j < |candles| && InSearch(p, sweep, candles[j]) ==>
                           !ConfirmsAny(candles, swings, p, sweep, j)
  {
    ConfirmingFrom(candles, SwingsOf(candles, p.swing), p, sweep, 0);
  }

  /**
    A shift is reported exactly when some candle of the search window confirms one, and it is what the
    first such candle confirms.
  */
  lemma ShiftIff(candles: seq<Candle>, p: MssParams, sweep: Sweep, mss: Mss)
    requires Usable(p) && StrictlyAscending(candles)
    ensures var swings := SwingsOf(candles, p.swing);
            Shift(candles, p, sweep) == Some(mss)
            <==> exists i: nat, k: nat, d: nat ::
                   && FirstToConfirm(candles, swings, p, sweep, i) && Confirms(candles, swings, p, sweep, i, k, d)
                   && mss == ShiftBy(candles, swings, p, sweep, i, k, d)
  {
    var swings := SwingsOf(candles, p.swing);
    ConfirmingIff(candles, p, sweep);
    if Confirming(candles, p, sweep).Some? {
      var i := Confirming(candles, p, sweep).value;
      ShiftAtIff(candles, swings, p, sweep, i, mss);
      forall j: nat | FirstToConfirm(candles, swings, p, sweep, j) ensures j == i {
      }
    }
  }

  // ---- bodies ------------------------------------------------------------------------------------------

  /** The bodies of the candles from `from` up to `to`. */
  function Bodies(candles: seq<Candle>, from: nat, to: nat): (r: seq<real>)
    requires from <= to <= |candles|
    ensures |r| == to - from
  {
    seq(to - from, i requires 0 <= i < to - from => Abs(candles[from + i].close - candles[from + i].open))
  }

  lemma {:induction false} SumBodiesIs(candles: seq<Candle>, from: nat, to: nat)
    requires from <= to <= |candles|
    ensures SumBodies(candles, from, to) == Sum(Bodies(candles, from, to))
  {
    if from < to {
      SumBodiesIs(candles, from, to - 1);
      assert Bodies(candles, from, to)[..to - from - 1] == Bodies(candles, from, to - 1);
      TotalOfPrefix(Bodies(candles, from, to), to - from - 1, to - from - 1);
    }
  }

  /**
    The ratio compares a candle's body with the mean body of the `lookback` candles before it; it is
    undefined when they do not all exist or none has a body.
  */
  lemma BodyRatioIs(candles: seq<Candle>, lookback: nat, c: nat)
    requires c < |candles| && lookback >= 1
    ensures var r := BodyRatio(candles, lookback, c);
            && (r.Some? <==> c >= lookback && Sum(Bodies(candles, c - lookback, c)) > 0.0)
            && (r.Some? ==>
                Mul(r.value, Sum(Bodies(candles, c - lookback, c)))
                == Mul(lookback as real, Abs(candles[c].close - candles[c].open)))
  {
    if c >= lookback {
      var total, n, body := SumBodies(candles, c - lookback, c), lookback as real, Body(candles[c]);
      SumBodiesIs(candles, c - lookback, c);
      var mean := Mean(total, lookback);
      assert mean > 0.0 <==> total > 0.0;
      if mean > 0.0 {
        MulQuotient(body, mean);
        RatioScales(Quotient(body, mean), mean, n, total, body);
      }
    }
  }

  lemma RatioScales(ratio: real, mean: real, n: real, total: real, body: real)
    requires Mul(ratio, mean) == body && total == Mul(mean, n)
    ensures Mul(ratio, total) == Mul(n, body)
  {
    assert ratio * (mean * n) == n * (ratio * mean);
  }
}
