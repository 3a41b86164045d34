/** Fractal swing points and the ATR amplitude filter, as loops and as functions of one bar. */
module Swings {
  import opened Foundations

  datatype Pivot = Pivot(side: Side, price: real)

  datatype SwingParams = SwingParams(lookback: int, amplitude: real, period: int)

  // ---- average true range -----------------------------------------------------------------------

  function TrueRange(candles: seq<Candle>, i: nat): real
    requires i < |candles|
  {
    var c := candles[i];
    if i == 0 then c.high - c.low
    else Max(c.high - c.low, Max(Abs(c.high - candles[i - 1].close), Abs(c.low - candles[i - 1].close)))
  }

  function SumTrueRange(candles: seq<Candle>, n: nat): real
    requires n <= |candles|
  {
    if n == 0 then 0.0 else SumTrueRange(candles, n - 1) + TrueRange(candles, n - 1)
  }

  function Mean(total: real, n: nat): real
    requires n >= 1
  {
    total / n as real
  }

  /** One step of Wilder's smoothing. */
  function Smooth(prev: real, period: nat, tr: real): real
    requires period >= 1
  {
    (prev * (period - 1) as real + tr) / period as real
  }

  /** Wilder's smoothing; undefined (NaN) before the first full window. */
  function AtrAt(candles: seq<Candle>, period: nat, i: nat): (r: Option<real>)
    requires i < |candles| && period >= 1
    ensures r.Some? <==> i >= period - 1
  {
    if i < period - 1 then None
    else if i == period - 1 then Some(Mean(SumTrueRange(candles, period), period))
    else Some(Smooth(AtrAt(candles, period, i - 1).value, period, TrueRange(candles, i)))
  }

  /** `_atr`. */
  method Atr(candles: seq<Candle>, period: int) returns (r: Result<array<Option<real>>>)
    ensures r.Err? <==> period <= 0
    ensures r.Ok? ==> fresh(r.value) && r.value.Length == |candles|
                      && forall i :: 0 <= i < |candles| ==> r.value[i] == AtrAt(candles, period, i)
  {
    if period <= 0 {
      return Err("ATR period");
    }
    var atr := new Option<real>[|candles|](_ => None);
    r := Ok(atr);
    if |candles| < period {
      return;
    }
    var total := 0.0;
    for i := 0 to period
      invariant total == SumTrueRange(candles, i)
    {
      total := total + TrueRange(candles, i);
    }
    atr[period - 1] := Some(Mean(total, period));
    for i := period to |candles|
      invariant forall k :: 0 <= k < i ==> atr[k] == AtrAt(candles, period, k)
      invariant forall k :: i <= k < |candles| ==> atr[k] == None
    {
      var prev := atr[i - 1].value;
      atr[i] := Some(Smooth(prev, period, TrueRange(candles, i)));
    }
  }

  // ---- fractals ---------------------------------------------------------------------------------

  /** Strictly above every neighbour within `lookback` bars, all of which exist. */
  predicate FractalHigh(candles: seq<Candle>, lookback: nat, i: nat) {
    && lookback <= i && i + lookback < |candles|
    && forall j :: i - lookback <= j <= i + lookback && j != i ==> candles[j].high < candles[i].high
  }

  predicate FractalLow(candles: seq<Candle>, lookback: nat, i: nat) {
    && lookback <= i && i + lookback < |candles|
    && forall j :: i - lookback <= j <= i + lookback && j != i ==> candles[i].low < candles[j].low
  }

  /** Highs are tested first: a bar that is both is reported as a high. */
  function RawAt(candles: seq<Candle>, lookback: nat, i: nat): Option<Pivot>
    requires i < |candles|
  {
    if FractalHigh(candles, lookback, i) then Some(Pivot(High, candles[i].high))
    else if FractalLow(candles, lookback, i) then Some(Pivot(Low, candles[i].low))
    else None
  }

  /** `find_raw_swings`. */
  method FindRawSwings(candles: seq<Candle>, lookback: int) returns (r: Result<array<Option<Pivot>>>)
    ensures r.Err? <==> lookback < 1
    ensures r.Ok? ==> fresh(r.value) && r.value.Length == |candles|
                      && forall i :: 0 <= i < |candles| ==> r.value[i] == RawAt(candles, lookback, i)
  {
    if lookback < 1 {
      return Err("lookback");
    }
    var raw := new Option<Pivot>[|candles|](_ => None);
    r := Ok(raw);
    if |candles| < 2 * lookback + 1 {
      return;
    }
    for i := lookback to |candles| - lookback
      invariant forall k :: 0 <= k < i ==> raw[k] == RawAt(candles, lookback, k)
      invariant forall k :: i <= k < |candles| ==> raw[k] == None
    {
      if FractalHigh(candles, lookback, i) {
        raw[i] := Some(Pivot(High, candles[i].high));
      } else if FractalLow(candles, lookback, i) {
        raw[i] := Some(Pivot(Low, candles[i].low));
      }
    }
  }

  // ---- the amplitude filter -----------------------------------------------------------------------

  /** `last_opposite_price` and `has_kept_any`. */
  datatype Memory = Memory(high: Option<real>, low: Option<real>, keptAny: bool) {
    function Last(side: Side): Option<real> {
      if side.High? then high else low
    }

    function Keep(p: Pivot): Memory {
      if p.side.High? then Memory(Some(p.price), low, true) else Memory(high, Some(p.price), true)
    }
  }

  function Threshold(amplitude: real, atr: real): real { amplitude * atr }

  predicate Keeps(mem: Memory, p: Pivot, atr: Option<real>, amplitude: real) {
    var opposite := mem.Last(p.side.Opposite());
    !mem.keptAny || opposite.None? || (atr.Some? && Abs(p.price - opposite.value) >= Threshold(amplitude, atr.value))
  }

  /** The filter's running state before bar `i`. */
  function MemoryBefore(candles: seq<Candle>, p: SwingParams, i: nat): Memory
    requires i <= |candles| && p.lookback >= 1 && p.period >= 1
  {
    if i == 0 then Memory(None, None, false)
    else
      var mem := MemoryBefore(candles, p, i - 1);
      match RawAt(candles, p.lookback, i - 1)
      case None => mem
      case Some(pivot) =>
        if Keeps(mem, pivot, AtrAt(candles, p.period, i - 1), p.amplitude) then mem.Keep(pivot) else mem
  }

  /** The significant swing at bar `i`, if any. */
  function SwingAt(candles: seq<Candle>, p: SwingParams, i: nat): Option<Pivot>
    requires i < |candles| && p.lookback >= 1 && p.period >= 1
  {
    match RawAt(candles, p.lookback, i)
    case None => None
    case Some(pivot) =>
      if Keeps(MemoryBefore(candles, p, i), pivot, AtrAt(candles, p.period, i), p.amplitude) then Some(pivot) else None
  }

  /** The column of significant swings of a frame. */
  function SwingsOf(candles: seq<Candle>, p: SwingParams): seq<Option<Pivot>>
    requires p.lookback >= 1 && p.period >= 1
  {
    seq(|candles|, i requires 0 <= i < |candles| => SwingAt(candles, p, i))
  }

  /** Parameters `find_swings` accepts on this frame; an empty frame is not checked for its ATR period. */
  predicate Accepted(candles: seq<Candle>, p: SwingParams) {
    p.lookback >= 1 && p.amplitude >= 0.0 && (candles == [] || p.period >= 1)
  }

  /** `find_swings`: the fractal pass, then the amplitude filter. */
  method FindSwings(candles: seq<Candle>, p: SwingParams) returns (r: Result<array<Option<Pivot>>>)
    ensures r.Ok? <==> p.lookback >= 1 && p.amplitude >= 0.0 && (candles == [] || p.period >= 1)
    ensures r.Ok? ==> fresh(r.value) && r.value.Length == |candles|
    ensures r.Ok? && candles != [] ==> r.value[..] == SwingsOf(candles, p)
  {
    var rawResult := FindRawSwings(candles, p.lookback);
    if rawResult.Err? {
      return Err(rawResult.error);
    }
    if p.amplitude < 0.0 {
      return Err("min_amplitude_atr_mult");
    }
    var out := new Option<Pivot>[|candles|](_ => None);
    if |candles| == 0 {
      return Ok(out);
    }
    var atrResult := Atr(candles, p.period);
    if atrResult.Err? {
      return Err(atrResult.error);
    }
    var raw, atr := rawResult.value, atrResult.value;
    var mem := Memory(None, None, false);
    for i := 0 to |candles|
      modifies out
      invariant mem == MemoryBefore(candles, p, i)
      invariant forall k :: 0 <= k < i ==> out[k] == SwingAt(candles, p, k)
      invariant forall k :: i <= k < |candles| ==> out[k] == None
    {
      if raw[i].Some? && Keeps(mem, raw[i].value, atr[i], p.amplitude) {
        out[i] := raw[i];
        mem := mem.Keep(raw[i].value);
      }
    }
    r := Ok(out);
  }

  // ---- no bar is used before it exists ------------------------------------------------------------

  lemma {:induction false} AtrOfPrefix(candles: seq<Candle>, period: nat, m: nat, i: nat)
    requires i < m <= |candles| && period >= 1
    ensures AtrAt(candles[..m], period, i) == AtrAt(candles, period, i)
  {
    if i == period - 1 {
      SumOfPrefix(candles, m, period);
    } else if i > period - 1 {
      AtrOfPrefix(candles, period, m, i - 1);
    }
  }

  lemma {:induction false} SumOfPrefix(candles: seq<Candle>, m: nat, n: nat)
    requires n <= m <= |candles|
    ensures SumTrueRange(candles[..m], n) == SumTrueRange(candles, n)
  {
    if n > 0 {
      SumOfPrefix(candles, m, n - 1);
    }
  }

  /** A fractal is fixed as soon as its right-hand neighbours exist. */
  lemma RawOfPrefix(candles: seq<Candle>, lookback: nat, m: nat, i: nat)
    requires m <= |candles| && i + lookback < m
    ensures RawAt(candles[..m], lookback, i) == RawAt(candles, lookback, i)
  {
    var short := candles[..m];
    assert forall j :: 0 <= j < m ==> short[j] == candles[j];
    assert FractalHigh(short, lookback, i) <==> FractalHigh(candles, lookback, i) by {
      if FractalHigh(short, lookback, i) {
        forall j | i - lookback <= j <= i + lookback && j != i ensures candles[j].high < candles[i].high {
          assert short[j].high < short[i].high;
        }
      }
    }
    assert FractalLow(short, lookback, i) <==> FractalLow(candles, lookback, i) by {
      if FractalLow(short, lookback, i) {
        forall j | i - lookback <= j <= i + lookback && j != i ensures candles[i].low < candles[j].low {
          assert short[i].low < short[j].low;
        }
      }
    }
  }

  lemma {:induction false} MemoryOfPrefix(candles: seq<Candle>, p: SwingParams, m: nat, i: nat)
    requires p.lookback >= 1 && p.period >= 1
    requires m <= |candles| && (i == 0 || i - 1 + p.lookback < m)
    ensures i <= m && MemoryBefore(candles[..m], p, i) == MemoryBefore(candles, p, i)
  {
    if i > 0 {
      MemoryOfPrefix(candles, p, m, i - 1);
      RawOfPrefix(candles, p.lookback, m, i - 1);
      AtrOfPrefix(candles, p.period, m, i - 1);
    }
  }

  /** Once confirmed, a swing never changes: the frame seen `lookback` bars later already decides it. */
  lemma SwingOfPrefix(candles: seq<Candle>, p: SwingParams, m: nat, i: nat)
    requires p.lookback >= 1 && p.period >= 1
    requires m <= |candles| && i + p.lookback < m
    ensures SwingAt(candles[..m], p, i) == SwingAt(candles, p, i)
  {
    RawOfPrefix(candles, p.lookback, m, i);
    MemoryOfPrefix(candles, p, m, i);
    AtrOfPrefix(candles, p.period, m, i);
  }

  /** The columns of a frame and of a prefix agree on every swing confirmed within the prefix. */
  lemma SwingsOfPrefix(candles: seq<Candle>, p: SwingParams, m: nat)
    requires p.lookback >= 1 && p.period >= 1 && m <= |candles|
    ensures |SwingsOf(candles[..m], p)| == m && |SwingsOf(candles, p)| == |candles|
    ensures forall k :: 0 <= k && k + p.lookback < m ==> SwingsOf(candles[..m], p)[k] == SwingsOf(candles, p)[k]
  {
    forall k | 0 <= k && k + p.lookback < m ensures SwingsOf(candles[..m], p)[k] == SwingsOf(candles, p)[k] {
      SwingOfPrefix(candles, p, m, k);
    }
  }
}
