/** Entry zones after a structure shift: fair value gaps, order blocks, and the OTE test. */
module PointsOfInterest {
  import opened Foundations
  import opened Swings
  import opened StructureShift

  datatype Fvg = Fvg(direction: Trend, proximal: real, distal: real, time1: int, time2: int, time3: int, size: real,
                     sizeRatio: real)

  datatype OrderBlock = OrderBlock(direction: Trend, proximal: real, distal: real, time: int)

  // ---- fair value gaps ----------------------------------------------------------------------------

  datatype FvgScan = FvgScan(direction: Trend, start: int, end: int, minSize: real, period: int)

  /** The candles around `j` leave a gap in the scan's direction. */
  predicate GapAt(candles: seq<Candle>, direction: Trend, j: nat)
    requires 1 <= j < |candles| - 1
  {
    if direction.Bullish? then candles[j - 1].high < candles[j + 1].low else candles[j - 1].low > candles[j + 1].high
  }

  function Gap(candles: seq<Candle>, direction: Trend, j: nat, atr: real): Fvg
    requires 1 <= j < |candles| - 1 && atr != 0.0
  {
    var a, b, c := candles[j - 1], candles[j], candles[j + 1];
    if direction.Bullish? then
        Fvg(direction, c.low, a.high, a.time, b.time, c.time, c.low - a.high, Quotient(c.low - a.high, atr))
    else Fvg(direction, c.high, a.low, a.time, b.time, c.time, a.low - c.high, Quotient(a.low - c.high, atr))
  }

  /** The gap whose middle candle is `j`, if it is in the window and large enough. */
  function FvgAt(candles: seq<Candle>, scan: FvgScan, j: nat): Option<Fvg>
    requires 1 <= j < |candles| - 1 && scan.period >= 1
  {
    var atr := AtrAt(candles, scan.period, j);
    if candles[j].time < scan.start || candles[j].time > scan.end || !GapAt(candles, scan.direction, j) then None
    else if atr.None? || atr.value <= 0.0 then None
    else
      var gap := Gap(candles, scan.direction, j, atr.value);
      if gap.sizeRatio < scan.minSize then None else Some(gap)
  }

  function FvgsBefore(candles: seq<Candle>, scan: FvgScan, j: nat): seq<Fvg>
    requires (j <= 1 || j < |candles|) && scan.period >= 1
  {
    if j <= 1 then []
    else
      var here := FvgAt(candles, scan, j - 1);
      FvgsBefore(candles, scan, j - 1) + (if here.Some? then [here.value] else [])
  }

  /** All gaps of the frame, by middle candle. */
  function Fvgs(candles: seq<Candle>, scan: FvgScan): seq<Fvg>
    requires scan.period >= 1
  {
    if |candles| < 3 then [] else FvgsBefore(candles, scan, |candles| - 1)
  }

  /** `detect_fvgs_in_window`. */
  method DetectFvgs(candles: seq<Candle>, scan: FvgScan) returns (r: Result<seq<Fvg>>)
    ensures r.Ok? <==> scan.minSize >= 0.0 && (|candles| < 3 || scan.period >= 1)
    ensures r.Ok? ==> r.value == if |candles| < 3 then [] else Fvgs(candles, scan)
  {
    if scan.minSize < 0.0 {
      return Err("min_size_atr_mult");
    }
    if |candles| < 3 {
      return Ok([]);
    }
    var atrResult := Atr(candles, scan.period);
    if atrResult.Err? {
      return Err(atrResult.error);
    }
    var atr := atrResult.value;
    var out: seq<Fvg> := [];
    for j := 1 to |candles| - 1
      invariant out == FvgsBefore(candles, scan, j)
    {
      if candles[j].time < scan.start || candles[j].time > scan.end {
        continue;
      }
      if !GapAt(candles, scan.direction, j) {
        continue;
      }
      if atr[j].None? || atr[j].value <= 0.0 {
        continue;
      }
      var gap := Gap(candles, scan.direction, j, atr[j].value);
      if gap.sizeRatio < scan.minSize {
        continue;
      }
      out := out + [gap];
    }
    r := Ok(out);
  }

  lemma {:induction false} FvgsOfPrefixAt(candles: seq<Candle>, scan: FvgScan, m: nat, j: nat)
    requires m <= |candles| && scan.period >= 1 && (j <= 1 || j < m)
    ensures FvgsBefore(candles[..m], scan, j) == FvgsBefore(candles, scan, j)
  {
    if j > 1 {
      FvgsOfPrefixAt(candles, scan, m, j - 1);
      AtrOfPrefix(candles, scan.period, m, j - 1);
    }
  }

  lemma {:induction false} FvgsExtend(candles: seq<Candle>, scan: FvgScan, i: nat, j: nat)
    requires i <= j && (j <= 1 || j < |candles|) && scan.period >= 1
    ensures FvgsBefore(candles, scan, i) <= FvgsBefore(candles, scan, j)
  {
    if i < j {
      FvgsExtend(candles, scan, i, j - 1);
    }
  }

  /** A gap is reported as soon as its third candle exists and stays reported: prefixes report prefixes. */
  lemma FvgsOfPrefix(candles: seq<Candle>, scan: FvgScan, m: nat)
    requires m <= |candles| && scan.period >= 1
    ensures Fvgs(candles[..m], scan) <= Fvgs(candles, scan)
  {
    if m >= 3 {
      FvgsOfPrefixAt(candles, scan, m, m - 1);
      FvgsExtend(candles, scan, m - 1, |candles| - 1);
    }
  }

  // ---- order blocks -------------------------------------------------------------------------------

  const ORDER_BLOCK_LOOKBACK := 20

  predicate OppositeColour(d: Trend, c: Candle) {
    if d.Bullish? then c.close < c.open else c.close > c.open
  }

  function BlockOf(d: Trend, c: Candle): OrderBlock {
    if d.Bullish? then OrderBlock(d, c.high, c.low, c.time) else OrderBlock(d, c.low, c.high, c.time)
  }

  function FirstAtTime(candles: seq<Candle>, t: int, i: nat): (r: Option<nat>)
    requires i <= |candles|
    ensures r.Some? ==> i <= r.value < |candles|
    decreases |candles| - i
  {
    if i == |candles| then None else if candles[i].time == t then Some(i) else FirstAtTime(candles, t, i + 1)
  }

  /** The latest opposite-coloured candle at or before `k`, not before `earliest`. */
  function LatestOpposite(candles: seq<Candle>, d: Trend, k: int, earliest: int): (r: Option<OrderBlock>)
    requires k < |candles| && 0 <= earliest
    decreases k - earliest
  {
    if k < earliest then None
    else if OppositeColour(d, candles[k]) then Some(BlockOf(d, candles[k]))
    else LatestOpposite(candles, d, k - 1, earliest)
  }

  /** Candle `j` is the latest opposite-coloured one from `earliest` to `k`. */
  predicate IsLatestOpposite(candles: seq<Candle>, d: Trend, k: int, earliest: int, j: int) {
    && 0 <= earliest <= j <= k < |candles| && OppositeColour(d, candles[j])
    && forall i :: j < i <= k ==> !OppositeColour(d, candles[i])
  }

  /**
    `r` is the block of the latest opposite-coloured candle from `earliest` to `k`; `None` means there
    is no such candle.
  */
  ghost predicate LatestBlock(candles: seq<Candle>, d: Trend, k: int, earliest: int, r: Option<OrderBlock>)
    requires k < |candles| && 0 <= earliest
  {
    match r
    case None => forall j :: earliest <= j <= k ==> !OppositeColour(d, candles[j])
    case Some(block) => exists j :: IsLatestOpposite(candles, d, k, earliest, j) && block == BlockOf(d, candles[j])
  }

  lemma {:induction false} LatestOppositeIsLatest(candles: seq<Candle>, d: Trend, k: int, earliest: int)
    requires k < |candles| && 0 <= earliest
    ensures LatestBlock(candles, d, k, earliest, LatestOpposite(candles, d, k, earliest))
    decreases k - earliest
  {
    if k >= earliest {
      if OppositeColour(d, candles[k]) {
        assert IsLatestOpposite(candles, d, k, earliest, k);
      } else {
        LatestOppositeIsLatest(candles, d, k - 1, earliest);
        forall j | IsLatestOpposite(candles, d, k - 1, earliest, j)
          ensures IsLatestOpposite(candles, d, k, earliest, j) {
        }
      }
    }
  }

  function Earliest(displacement: int, lookback: int): (e: int)
    ensures e >= 0 && (e == displacement - lookback || e == 0)
  {
    if displacement - lookback > 0 then displacement - lookback else 0
  }

  function OrderBlockFor(candles: seq<Candle>, mss: Mss, lookback: int): Option<OrderBlock> {
    match FirstAtTime(candles, mss.displacementTime, 0)
    case None => None
    case Some(i) => LatestOpposite(candles, mss.direction, i - 1, Earliest(i, lookback))
  }

  /** The block is that of the latest opposite-coloured candle within the lookback before the displacement candle. */
  lemma OrderBlockIsLatest(candles: seq<Candle>, mss: Mss, lookback: int)
    ensures var r, at := OrderBlockFor(candles, mss, lookback), FirstAtTime(candles, mss.displacementTime, 0);
            if at.None? then r.None?
            else LatestBlock(candles, mss.direction, at.value as int - 1, Earliest(at.value, lookback), r)
  {
    var at := FirstAtTime(candles, mss.displacementTime, 0);
    if at.Some? {
      LatestOppositeIsLatest(candles, mss.direction, at.value as int - 1, Earliest(at.value, lookback));
    }
  }

  /** `detect_order_block`: a forward search for the displacement candle, then a bounded backward scan. */
  method DetectOrderBlock(candles: seq<Candle>, mss: Mss, lookback: int) returns (r: Result<Option<OrderBlock>>)
    ensures r.Ok? <==> lookback >= 1
    ensures r.Ok? ==> r.value == OrderBlockFor(candles, mss, lookback)
  {
    if lookback < 1 {
      return Err("lookback_candles");
    }
    var i := 0;
    while i < |candles| && candles[i].time != mss.displacementTime
      invariant i <= |candles|
                && FirstAtTime(candles, mss.displacementTime, i) == FirstAtTime(candles, mss.displacementTime, 0)
    {
      i := i + 1;
    }
    if i == |candles| {
      return Ok(None);
    }
    var earliest := Earliest(i, lookback);
    var k := i - 1;
    while k >= earliest
      invariant k < i
                && LatestOpposite(candles, mss.direction, k, earliest)
                == LatestOpposite(candles, mss.direction, i - 1, earliest)
    {
      if OppositeColour(mss.direction, candles[k]) {
        return Ok(Some(BlockOf(mss.direction, candles[k])));
      }
      k := k - 1;
    }
    r := Ok(None);
  }

  // ---- optimal trade entry --------------------------------------------------------------------------

  datatype Zone = Zone(proximal: real, distal: real)

  const OTE_LOW: real := 0.62
  const OTE_HIGH: real := 0.79

  /** `_ote_overlaps_poi`. */
  function OteOverlaps(poi: Zone, extreme: real, broken: real): bool {
    var low, high := Min(extreme, broken), Max(extreme, broken);
    var leg := high - low;
    if leg <= 0.0 then false
    else
      var (oteLow, oteHigh) :=
        if broken > extreme then (high - Mul(OTE_HIGH, leg), high - Mul(OTE_LOW, leg))
        else (low + Mul(OTE_LOW, leg), low + Mul(OTE_HIGH, leg));
      Max(poi.proximal, poi.distal) >= oteLow && Min(poi.proximal, poi.distal) <= oteHigh
  }

  /** The price that retraces the fraction `f` of the leg from `extreme` to `broken`. */
  function Retracement(extreme: real, broken: real, f: real): real { broken + Mul(f, extreme - broken) }

  /** The fraction `f` lies in the OTE band and its retracement price in the zone. */
  predicate RetracedInto(poi: Zone, extreme: real, broken: real, f: real) {
    && 0.62 <= f <= 0.79
    && Min(poi.proximal, poi.distal) <= broken + Mul(f, extreme - broken) <= Max(poi.proximal, poi.distal)
  }

  /** The test holds exactly when some price of the zone retraces between 62 % and 79 % of a leg of some length. */
  lemma OteMeansRetracement(poi: Zone, extreme: real, broken: real)
    ensures OteOverlaps(poi, extreme, broken)
            <==> extreme != broken && exists f: real :: RetracedInto(poi, extreme, broken, f)
  {
    var lo, hi := Min(poi.proximal, poi.distal), Max(poi.proximal, poi.distal);
    if extreme != broken {
      if f: real :| RetracedInto(poi, extreme, broken, f) {
        RetracementBetween(extreme, broken, f);
      }
      if OteOverlaps(poi, extreme, broken) {
        var f := FractionInZone(extreme, broken, lo, hi);
        assert RetracedInto(poi, extreme, broken, f);
      }
    }
  }

  lemma RetracementBetween(extreme: real, broken: real, f: real)
    requires OTE_LOW <= f <= OTE_HIGH
    ensures var a, b := Retracement(extreme, broken, OTE_LOW), Retracement(extreme, broken, OTE_HIGH);
            Min(a, b) <= Retracement(extreme, broken, f) <= Max(a, b)
  {
    PartMonotone(OTE_LOW, f, extreme - broken);
    PartMonotone(f, OTE_HIGH, extreme - broken);
  }

  lemma PartMonotone(f: real, g: real, d: real)
    requires f <= g
    ensures d >= 0.0 ==> Mul(f, d) <= Mul(g, d)
    ensures d <= 0.0 ==> Mul(g, d) <= Mul(f, d)
    ensures f < g && d > 0.0 ==> Mul(f, d) < Mul(g, d)
    ensures f < g && d < 0.0 ==> Mul(g, d) < Mul(f, d)
  {
    var x := g - f;
    assert Mul(g, d) - Mul(f, d) == x * d;
    if d > 0.0 {
      assert x * d >= 0.0;
    } else {
      assert x * -d >= 0.0;
    }
  }

  lemma FractionInZone(extreme: real, broken: real, lo: real, hi: real) returns (f: real)
    requires extreme != broken && lo <= hi
    requires var a, b := Retracement(extreme, broken, OTE_LOW), Retracement(extreme, broken, OTE_HIGH);
             hi >= Min(a, b) && lo <= Max(a, b)
    ensures OTE_LOW <= f <= OTE_HIGH && lo <= Retracement(extreme, broken, f) <= hi
  {
    var a, b := Retracement(extreme, broken, OTE_LOW), Retracement(extreme, broken, OTE_HIGH);
    if lo <= a <= hi {
      f := OTE_LOW;
    } else if lo <= b <= hi {
      f := OTE_HIGH;
    } else {
      f := Quotient(lo - broken, extreme - broken);
      assert Mul(f, extreme - broken) == lo - broken;
      assert Min(a, b) <= lo <= Max(a, b);
      FractionBetween(f, extreme - broken);
    }
  }

  lemma FractionBetween(f: real, d: real)
    requires d != 0.0
    requires Min(Mul(OTE_LOW, d), Mul(OTE_HIGH, d)) <= Mul(f, d) <= Max(Mul(OTE_LOW, d), Mul(OTE_HIGH, d))
    ensures OTE_LOW <= f <= OTE_HIGH
  {
    if f < OTE_LOW {
      PartMonotone(f, OTE_LOW, d);
      PartMonotone(OTE_LOW, OTE_HIGH, d);
    }
    if f > OTE_HIGH {
      PartMonotone(OTE_HIGH, f, d);
      PartMonotone(OTE_LOW, OTE_HIGH, d);
    }
  }
}
