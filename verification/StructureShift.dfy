/** Market structure shift: a displaced body-close through the latest confirmed opposite pivot. */
module StructureShift {
  import opened Foundations
  import opened SweepTypes
  import opened Swings

  datatype MssParams = MssParams(swing: SwingParams, multiplier: real, displacementLookback: int, forwardMinutes: int)

  datatype Mss = Mss(
    direction: Trend,
    sweep: Sweep,
    brokenTime: int,
    brokenPrice: real,
    confirmTime: int,
    confirmClose: real,
    bodyRatio: real,
    displacementTime: int)

  /** The confirming candle or one of the three before it may be the displacement candle. */
  const DISPLACEMENT_TRAILING_LOOKBACK := 3

  function PivotSide(d: Trend): Side { if d.Bullish? then High else Low }

  predicate IsBreak(d: Trend, close: real, pivot: real) {
    if d.Bullish? then close > pivot else close < pivot
  }

  predicate Dominates(d: Trend, pivot: real, extreme: real) {
    if d.Bullish? then pivot > extreme else pivot < extreme
  }

  // ---- the displacement check ---------------------------------------------------------------------

  function Body(c: Candle): real { Abs(c.close - c.open) }

  function SumBodies(candles: seq<Candle>, from: nat, to: nat): real
    requires from <= to <= |candles|
  {
    if to == from then 0.0 else SumBodies(candles, from, to - 1) + Body(candles[to - 1])
  }

  /** Body of the candle at `c` over the mean body of the `lookback` candles before it, when defined. */
  function BodyRatio(candles: seq<Candle>, lookback: nat, c: nat): Option<real>
    requires c < |candles| && lookback >= 1
  {
    if c < lookback then None
    else
      var mean := Mean(SumBodies(candles, c - lookback, c), lookback);
      if mean <= 0.0 then None else Some(Quotient(Body(candles[c]), mean))
  }

  /** The first displaced candle among `c`, `c - 1`, ..., `stop`. */
  function Displacement(candles: seq<Candle>, p: MssParams, c: int, stop: int): (r: Option<(real, nat)>)
    requires c < |candles| && p.displacementLookback >= 1
    ensures r.Some? ==> stop <= r.value.1 <= c
    decreases c - stop
  {
    if c < stop || c < 0 then None
    else
      var ratio := BodyRatio(candles, p.displacementLookback, c);
      if ratio.Some? && ratio.value >= p.multiplier then Some((ratio.value, c))
      else Displacement(candles, p, c - 1, stop)
  }

  method MeanBody(candles: seq<Candle>, from: nat, to: nat) returns (mean: real)
    requires from < to <= |candles|
    ensures mean == Mean(SumBodies(candles, from, to), to - from)
  {
    var total := 0.0;
    for k := from to to
      invariant total == SumBodies(candles, from, k)
    {
      total := total + Body(candles[k]);
    }
    mean := Mean(total, to - from);
  }

  /** `_check_displacement`. */
  method CheckDisplacement(candles: seq<Candle>, p: MssParams, i: nat) returns (r: Option<(real, nat)>)
    requires i < |candles| && p.displacementLookback >= 1
    ensures r == Displacement(candles, p, i, i - DISPLACEMENT_TRAILING_LOOKBACK)
  {
    var c: int := i;
    while c >= i - DISPLACEMENT_TRAILING_LOOKBACK && c >= 0
      invariant c <= i
      invariant Displacement(candles, p, c, i - DISPLACEMENT_TRAILING_LOOKBACK)
                == Displacement(candles, p, i, i - DISPLACEMENT_TRAILING_LOOKBACK)
    {
      if c - p.displacementLookback >= 0 {
        var mean := MeanBody(candles, c - p.displacementLookback, c);
        if mean > 0.0 {
          var ratio := Quotient(Body(candles[c]), mean);
          if ratio >= p.multiplier {
            return Some((ratio, c));
          }
        }
      }
      c := c - 1;
    }
    r := None;
  }

  // ---- the shift ------------------------------------------------------------------------------------

  type Column = seq<Option<Pivot>>

  predicate Breakable(sweep: Sweep, swing: Option<Pivot>) {
    swing.Some? && swing.value.side == PivotSide(sweep.direction)
        && Dominates(sweep.direction, swing.value.price, sweep.extreme)
  }

  /** The latest significant opposite pivot at or before `k` beyond the sweep extreme. */
  function LatestPivot(swings: Column, sweep: Sweep, k: int): (r: Option<nat>)
    requires k < |swings|
    ensures r.Some? ==> r.value <= k && Breakable(sweep, swings[r.value]) && forall j ::
              r.value < j <= k ==> !Breakable(sweep, swings[j])
    ensures r.None? ==> forall j :: 0 <= j <= k ==> !Breakable(sweep, swings[j])
  {
    if k < 0 then None
    else if Breakable(sweep, swings[k]) then Some(k)
    else LatestPivot(swings, sweep, k - 1)
  }

  ghost predicate Usable(p: MssParams) {
    p.swing.lookback >= 1 && p.swing.period >= 1 && p.displacementLookback >= 1
  }

  /** The shift that candle `i` confirms, if any; a pivot counts once `lookback` bars have followed it. */
  function ShiftAt(candles: seq<Candle>, swings: Column, p: MssParams, sweep: Sweep, i: nat): Option<Mss>
    requires i < |candles| == |swings| && p.swing.lookback >= 1 && p.displacementLookback >= 1
  {
    var k := LatestPivot(swings, sweep, i - p.swing.lookback);
    if k.None? || !IsBreak(sweep.direction, candles[i].close, swings[k.value].value.price) then None
    else
      var d := Displacement(candles, p, i, i - DISPLACEMENT_TRAILING_LOOKBACK);
      if d.None? then None
      else Some(Mss(sweep.direction, sweep, candles[k.value].time, swings[k.value].value.price, candles[i].time,
                    candles[i].close,
                    d.value.0, candles[d.value.1].time))
  }

  function Deadline(p: MssParams, sweep: Sweep): int {
    sweep.returnTime + p.forwardMinutes * MINUTE
  }

  /** The first candle from `i` on that confirms within the search window. */
  function ConfirmingCandle(candles: seq<Candle>, swings: Column, p: MssParams, sweep: Sweep, i: nat): (r: Option<nat>)
    requires i <= |candles| == |swings| && p.swing.lookback >= 1 && p.displacementLookback >= 1
    ensures r.Some? ==> i <= r.value < |candles| && sweep.returnTime < candles[r.value].time <= Deadline(p, sweep)
    decreases |candles| - i
  {
    if i == |candles| then None
    else if candles[i].time <= sweep.returnTime then ConfirmingCandle(candles, swings, p, sweep, i + 1)
    else if candles[i].time > Deadline(p, sweep) then None
    else if ShiftAt(candles, swings, p, sweep, i).Some? then Some(i)
    else ConfirmingCandle(candles, swings, p, sweep, i + 1)
  }

  function ShiftIn(candles: seq<Candle>, swings: Column, p: MssParams, sweep: Sweep): Option<Mss>
    requires |candles| == |swings| && p.swing.lookback >= 1 && p.displacementLookback >= 1
  {
    var i := ConfirmingCandle(candles, swings, p, sweep, 0);
    if i.None? then None else ShiftAt(candles, swings, p, sweep, i.value)
  }

  /** The candle of the frame that confirms the shift after `sweep`. */
  ghost function Confirming(candles: seq<Candle>, p: MssParams, sweep: Sweep): Option<nat>
    requires Usable(p)
  {
    ConfirmingCandle(candles, SwingsOf(candles, p.swing), p, sweep, 0)
  }

  /** The market structure shift of the frame after `sweep`. */
  ghost function Shift(candles: seq<Candle>, p: MssParams, sweep: Sweep): Option<Mss>
    requires Usable(p)
  {
    ShiftIn(candles, SwingsOf(candles, p.swing), p, sweep)
  }

  predicate AcceptedMss(candles: seq<Candle>, p: MssParams) {
    && p.displacementLookback >= 1 && p.multiplier > 0.0 && p.forwardMinutes >= 0
    && (candles == [] || Accepted(candles, p.swing))
  }

  /** The backward scan for the pivot. */
  method ScanBack(swings: Column, sweep: Sweep, from: int) returns (r: Option<nat>)
    requires from < |swings|
    ensures r == LatestPivot(swings, sweep, from)
  {
    var k := from;
    while k >= 0
      invariant k <= from && LatestPivot(swings, sweep, k) == LatestPivot(swings, sweep, from)
    {
      if Breakable(sweep, swings[k]) {
        return Some(k);
      }
      k := k - 1;
    }
    r := None;
  }

  /** One candidate candle: pivot, break, displacement. */
  method ConfirmAt(candles: seq<Candle>, swings: Column, p: MssParams, sweep: Sweep, i: nat) returns (r: Option<Mss>)
    requires i < |candles| == |swings| && p.swing.lookback >= 1 && p.displacementLookback >= 1
    ensures r == ShiftAt(candles, swings, p, sweep, i)
  {
    var pivot := ScanBack(swings, sweep, i - p.swing.lookback);
    if pivot.None? || !IsBreak(sweep.direction, candles[i].close, swings[pivot.value].value.price) {
      return None;
    }
    var d := CheckDisplacement(candles, p, i);
    if d.None? {
      return None;
    }
    r := Some(Mss(sweep.direction, sweep, candles[pivot.value].time, swings[pivot.value].value.price,
                  candles[i].time, candles[i].close, d.value.0, candles[d.value.1].time));
  }

  /** The forward search of `detect_mss`. */
  method Search(candles: seq<Candle>, swings: Column, p: MssParams, sweep: Sweep) returns (r: Option<Mss>)
    requires |candles| == |swings| && p.swing.lookback >= 1 && p.displacementLookback >= 1
    ensures r == ShiftIn(candles, swings, p, sweep)
  {
    var i := 0;
    while i < |candles|
      invariant i <= |candles|
      invariant ConfirmingCandle(candles, swings, p, sweep, i) == ConfirmingCandle(candles, swings, p, sweep, 0)
    {
      if candles[i].time <= sweep.returnTime {
        i := i + 1;
        continue;
      }
      if candles[i].time > Deadline(p, sweep) {
        break;
      }
      r := ConfirmAt(candles, swings, p, sweep, i);
      if r.Some? {
        return;
      }
      i := i + 1;
    }
    r := None;
  }

  /** `detect_mss`. */
  method DetectMss(candles: seq<Candle>, sweep: Sweep, p: MssParams) returns (r: Result<Option<Mss>>)
    ensures r.Ok? <==> p.displacementLookback >= 1 && p.multiplier > 0.0 && p.forwardMinutes >= 0
                       && (candles == [] || (p.swing.lookback >= 1 && p.swing.amplitude >= 0.0 && p.swing.period >= 1))
    ensures r.Ok? ==> r.value == if candles == [] then None else Shift(candles, p, sweep)
  {
    if p.displacementLookback < 1 {
      return Err("displacement_lookback");
    }
    if p.multiplier <= 0.0 {
      return Err("displacement_multiplier");
    }
    if p.forwardMinutes < 0 {
      return Err("max_lookforward_minutes");
    }
    if |candles| == 0 {
      return Ok(None);
    }
    var found := FindSwings(candles, p.swing);
    if found.Err? {
      return Err(found.error);
    }
    var shift := Search(candles, found.value[..], p, sweep);
    r := Ok(shift);
  }

  // ---- causality --------------------------------------------------------------------------------------

  lemma {:induction false} SumBodiesOfPrefix(candles: seq<Candle>, m: nat, from: nat, to: nat)
    requires from <= to <= m <= |candles|
    ensures SumBodies(candles[..m], from, to) == SumBodies(candles, from, to)
  {
    if from < to {
      SumBodiesOfPrefix(candles, m, from, to - 1);
    }
  }

  lemma {:induction false} DisplacementOfPrefix(candles: seq<Candle>, p: MssParams, m: nat, c: int, stop: int)
    requires c < m <= |candles| && p.displacementLookback >= 1
    ensures Displacement(candles[..m], p, c, stop) == Displacement(candles, p, c, stop)
    decreases c - stop
  {
    if c >= stop && c >= 0 {
      if c >= p.displacementLookback {
        SumBodiesOfPrefix(candles, m, c - p.displacementLookback, c);
      }
      DisplacementOfPrefix(candles, p, m, c - 1, stop);
    }
  }

  /** `short` and `full` agree on the swings confirmed before bar `m`. */
  ghost predicate AgreeBelow(short: Column, full: Column, lookback: nat, m: nat) {
    && |short| == m <= |full|
    && forall k :: 0 <= k && k + lookback < m ==> short[k] == full[k]
  }

  lemma {:induction false} LatestPivotOfPrefix(short: Column, full: Column, lookback: nat, m: nat, sweep: Sweep, k: int)
    requires AgreeBelow(short, full, lookback, m) && k + lookback < m
    ensures LatestPivot(short, sweep, k) == LatestPivot(full, sweep, k)
  {
    if k >= 0 {
      LatestPivotOfPrefix(short, full, lookback, m, sweep, k - 1);
    }
  }

  /** Whether, and with what, candle `i` confirms is decided by the candles up to and including `i`. */
  lemma ShiftOfPrefix(candles: seq<Candle>, short: Column, full: Column, p: MssParams, sweep: Sweep, m: nat, i: nat)
    requires i < m <= |candles| == |full| && Usable(p) && AgreeBelow(short, full, p.swing.lookback, m)
    ensures ShiftAt(candles[..m], short, p, sweep, i) == ShiftAt(candles, full, p, sweep, i)
  {
    LatestPivotOfPrefix(short, full, p.swing.lookback, m, sweep, i - p.swing.lookback);
    DisplacementOfPrefix(candles, p, m, i, i - DISPLACEMENT_TRAILING_LOOKBACK);
  }

  lemma {:induction false} ConfirmingOfPrefix(candles: seq<Candle>, short: Column, full: Column, p: MssParams,
                                              sweep: Sweep, m: nat, i: nat)
    requires i <= m <= |candles| == |full| && Usable(p) && AgreeBelow(short, full, p.swing.lookback, m)
    ensures var all := ConfirmingCandle(candles, full, p, sweep, i);
            ConfirmingCandle(candles[..m], short, p, sweep, i) == if all.Some? && all.value < m then all else None
    decreases m - i
  {
    if i < m {
      ShiftOfPrefix(candles, short, full, p, sweep, m, i);
      ConfirmingOfPrefix(candles, short, full, p, sweep, m, i + 1);
    }
  }

  lemma NoLookaheadIn(candles: seq<Candle>, short: Column, full: Column, p: MssParams, sweep: Sweep, m: nat)
    requires m <= |candles| == |full| && Usable(p) && AgreeBelow(short, full, p.swing.lookback, m)
    ensures var i := ConfirmingCandle(candles, full, p, sweep, 0);
            ShiftIn(candles[..m], short, p, sweep) == if i.Some? && i.value < m then ShiftIn(candles, full, p, sweep)
                else None
  {
    ConfirmingOfPrefix(candles, short, full, p, sweep, m, 0);
    var i := ConfirmingCandle(candles, full, p, sweep, 0);
    if i.Some? && i.value < m {
      ShiftOfPrefix(candles, short, full, p, sweep, m, i.value);
    }
  }

  /**
    No lookahead: a detector that has seen only the first `m` candles reports exactly the shift the
    full frame reports, if its confirming candle is among them, and nothing otherwise.
  */
  lemma NoLookahead(candles: seq<Candle>, p: MssParams, sweep: Sweep, m: nat)
    requires m <= |candles| && Usable(p)
    ensures var i := Confirming(candles, p, sweep);
            Shift(candles[..m], p, sweep) == if i.Some? && i.value < m then Shift(candles, p, sweep) else None
  {
    SwingsOfPrefix(candles, p.swing, m);
    NoLookaheadIn(candles, SwingsOf(candles[..m], p.swing), SwingsOf(candles, p.swing), p, sweep, m);
  }

  /** Two frames that share the candles up to a confirming one report the same shift, whatever follows. */
  lemma FutureIsIrrelevant(a: seq<Candle>, b: seq<Candle>, p: MssParams, sweep: Sweep, i: nat)
    requires Usable(p) && i < |a| && i < |b| && a[..i + 1] == b[..i + 1]
    requires Confirming(a, p, sweep) == Some(i)
    ensures Confirming(b, p, sweep) == Some(i) && Shift(b, p, sweep) == Shift(a, p, sweep)
  {
    SwingsOfPrefix(a, p.swing, i + 1);
    SwingsOfPrefix(b, p.swing, i + 1);
    var short := SwingsOf(a[..i + 1], p.swing);
    ConfirmingOfPrefix(a, short, SwingsOf(a, p.swing), p, sweep, i + 1, 0);
    ConfirmingOfPrefix(b, short, SwingsOf(b, p.swing), p, sweep, i + 1, 0);
    NoLookaheadIn(a, short, SwingsOf(a, p.swing), p, sweep, i + 1);
    NoLookaheadIn(b, short, SwingsOf(b, p.swing), p, sweep, i + 1);
  }

  /** The ratio is undefined or below the multiplier. */
  predicate Weak(ratio: Option<real>, multiplier: real) { ratio.None? || ratio.value < multiplier }

  /** What a reported shift promises: the latest confirmed pivot, a body-close beyond it, an impulsive candle. */
  lemma ShiftIsGenuine(candles: seq<Candle>, swings: Column, p: MssParams, sweep: Sweep, i: nat)
    returns (k: nat, d: nat)
    requires |candles| == |swings| && Usable(p) && ConfirmingCandle(candles, swings, p, sweep, 0) == Some(i)
    ensures i < |candles| && ShiftIn(candles, swings, p, sweep).Some? && k + p.swing.lookback <= i
    ensures Breakable(sweep, swings[k]) && forall j :: k < j <= i - p.swing.lookback ==> !Breakable(sweep, swings[j])
    ensures i - DISPLACEMENT_TRAILING_LOOKBACK <= d <= i
    ensures forall c: nat :: d < c <= i ==> Weak(BodyRatio(candles, p.displacementLookback, c), p.multiplier)
    ensures var mss := ShiftIn(candles, swings, p, sweep).value;
            && mss.sweep == sweep && mss.brokenPrice == swings[k].value.price && mss.brokenTime == candles[k].time
            && sweep.returnTime < mss.confirmTime == candles[i].time <= Deadline(p, sweep)
            && mss.confirmClose == candles[i].close && IsBreak(sweep.direction, mss.confirmClose, mss.brokenPrice)
            && BodyRatio(candles, p.displacementLookback, d) == Some(mss.bodyRatio) && mss.bodyRatio >= p.multiplier
            && mss.displacementTime == candles[d].time
  {
    ConfirmingConfirms(candles, swings, p, sweep, 0);
    k := LatestPivot(swings, sweep, i - p.swing.lookback).value;
    d := DisplacementIsImpulsive(candles, p, i, i - DISPLACEMENT_TRAILING_LOOKBACK);
  }

  lemma {:induction false} ConfirmingConfirms(candles: seq<Candle>, swings: Column, p: MssParams, sweep: Sweep, i: nat)
    requires i <= |candles| == |swings| && Usable(p)
    ensures var r := ConfirmingCandle(candles, swings, p, sweep, i);
            r.Some? ==> ShiftAt(candles, swings, p, sweep, r.value).Some?
    decreases |candles| - i
  {
    if i < |candles| {
      ConfirmingConfirms(candles, swings, p, sweep, i + 1);
    }
  }

  lemma {:induction false} DisplacementIsImpulsive(candles: seq<Candle>, p: MssParams, c: int, stop: int)
    returns (d: nat)
    requires c < |candles| && p.displacementLookback >= 1 && Displacement(candles, p, c, stop).Some?
    ensures stop <= d <= c && Displacement(candles, p, c, stop).value.1 == d
    ensures BodyRatio(candles, p.displacementLookback, d) == Some(Displacement(candles, p, c, stop).value.0)
    ensures Displacement(candles, p, c, stop).value.0 >= p.multiplier
    ensures forall j: nat :: d < j <= c ==> Weak(BodyRatio(candles, p.displacementLookback, j), p.multiplier)
    decreases c - stop
  {
    d := Displacement(candles, p, c, stop).value.1;
    var ratio := BodyRatio(candles, p.displacementLookback, c);
    if !(ratio.Some? && ratio.value >= p.multiplier) {
      var _ := DisplacementIsImpulsive(candles, p, c - 1, stop);
    }
  }
}
