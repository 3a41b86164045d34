/** Gaps and order blocks in terms of the candles they are made of. */
module EntryZones {
  import opened Foundations
  import opened Swings
  import opened StructureShift
  import opened PointsOfInterest

  // ---- gaps -----------------------------------------------------------------------------------------

  /**
    Gap `g` is what candle `j` leaves open between its neighbours: from the first one's high up to the
    third one's low, or from its low down to the third one's high.  Candle `j` lies in the window, and
    the gap is at least `minSize` times the ATR there.
  */
  ghost predicate IsGap(candles: seq<Candle>, scan: FvgScan, j: nat, g: Fvg)
    requires scan.period >= 1
  {
    && 1 <= j < |candles| - 1 && scan.start <= candles[j].time <= scan.end && g.direction == scan.direction
    && g.time1 == candles[j - 1].time && g.time2 == candles[j].time && g.time3 == candles[j + 1].time
    && (match scan.direction
        case Bullish => g.distal == candles[j - 1].high && g.proximal == candles[j + 1].low
                        && g.size == g.proximal - g.distal
        case Bearish => g.distal == candles[j - 1].low && g.proximal == candles[j + 1].high
                        && g.size == g.distal - g.proximal)
    && g.size > 0.0 && g.sizeRatio >= scan.minSize
    && var atr := AtrAt(candles, scan.period, j); atr.Some? && atr.value > 0.0 && Mul(g.sizeRatio, atr.value) == g.size
  }

  lemma FvgAtIff(candles: seq<Candle>, scan: FvgScan, j: nat, g: Fvg)
    requires 1 <= j < |candles| - 1 && scan.period >= 1
    ensures FvgAt(candles, scan, j) == Some(g) <==> IsGap(candles, scan, j, g)
  {
    var atr := AtrAt(candles, scan.period, j);
    if atr.Some? && atr.value > 0.0 {
      MulQuotient(g.size, atr.value);
      MulQuotient(g.sizeRatio, atr.value);
    }
  }

  /** The gaps with their middle candles: in order, one each, and none left out. */
  ghost predicate GapsAt(candles: seq<Candle>, scan: FvgScan, n: nat, js: seq<nat>, gaps: seq<Fvg>)
    requires scan.period >= 1
  {
    && |js| == |gaps| && (forall a, b :: 0 <= a < b < |js| ==> js[a] < js[b])
    && (forall a :: 0 <= a < |js| ==> js[a] < n && IsGap(candles, scan, js[a], gaps[a]))
    && forall j: nat, g :: j < n && IsGap(candles, scan, j, g) ==> j in js
  }

  lemma GapsGrow(candles: seq<Candle>, scan: FvgScan, n: nat, js: seq<nat>, gaps: seq<Fvg>)
    requires scan.period >= 1 && GapsAt(candles, scan, n, js, gaps) && 1 <= n < |candles| - 1
    ensures var here := FvgAt(candles, scan, n);
            if here.Some? then GapsAt(candles, scan, n + 1, js + [n], gaps + [here.value])
            else GapsAt(candles, scan, n + 1, js, gaps)
  {
    var here := FvgAt(candles, scan, n);
    forall g ensures here == Some(g) <==> IsGap(candles, scan, n, g) {
      FvgAtIff(candles, scan, n, g);
    }
    if here.Some? {
      assert forall j :: j in js ==> j in js + [n];
      assert n in js + [n];
    }
  }

  lemma {:induction false} GapsBefore(candles: seq<Candle>, scan: FvgScan, n: nat) returns (js: seq<nat>)
    requires scan.period >= 1 && (n <= 1 || n < |candles|)
    ensures GapsAt(candles, scan, n, js, FvgsBefore(candles, scan, n))
  {
    if n <= 1 {
      js := [];
    } else {
      var before, here := FvgsBefore(candles, scan, n - 1), FvgAt(candles, scan, n - 1);
      js := GapsBefore(candles, scan, n - 1);
      GapsGrow(candles, scan, n - 1, js, before);
      assert FvgsBefore(candles, scan, n) == if here.Some? then before + [here.value] else before;
      if here.Some? {
        js := js + [n - 1];
      }
    }
  }

  /** The detector lists exactly the gaps of the frame, by middle candle. */
  lemma GapsAreListed(candles: seq<Candle>, scan: FvgScan) returns (js: seq<nat>)
    requires scan.period >= 1
    ensures GapsAt(candles, scan, |candles|, js, Fvgs(candles, scan))
  {
    if |candles| < 3 {
      js := [];
    } else {
      js := GapsBefore(candles, scan, |candles| - 1);
    }
  }

  /** The earliest gap. */
  ghost predicate FirstGap(candles: seq<Candle>, scan: FvgScan, j: nat, g: Fvg)
    requires scan.period >= 1
  {
    IsGap(candles, scan, j, g) && forall k: nat, h :: k < j ==> !IsGap(candles, scan, k, h)
  }

  ghost predicate NoGap(candles: seq<Candle>, scan: FvgScan)
    requires scan.period >= 1
  {
    forall j: nat, g :: !IsGap(candles, scan, j, g)
  }

  /** The detector's first gap is the earliest one, and it has none exactly when there is none. */
  lemma FirstGapIff(candles: seq<Candle>, scan: FvgScan, g: Fvg)
    requires scan.period >= 1
    ensures var gaps := Fvgs(candles, scan);
            && (gaps == [] <==> NoGap(candles, scan))
            && (gaps != [] && gaps[0] == g <==> exists j: nat :: FirstGap(candles, scan, j, g))
  {
    var gaps := Fvgs(candles, scan);
    var js := GapsAreListed(candles, scan);
    if gaps != [] {
      assert forall a :: 0 < a < |js| ==> js[0] < js[a];
      assert FirstGap(candles, scan, js[0], gaps[0]);
      forall j: nat | FirstGap(candles, scan, j, g) ensures g == gaps[0] {
        assert j == js[0];
        FvgAtIff(candles, scan, j, g);
        FvgAtIff(candles, scan, j, gaps[0]);
      }
    }
  }

  // ---- order blocks ----------------------------------------------------------------------------------

  /** The candle closes against the shift. */
  predicate AgainstShift(d: Trend, c: Candle) {
    match d
    case Bullish => c.close < c.open
    case Bearish => c.close > c.open
  }

  /**
    Block `b` is candle `j`, the last one to close against the shift among the `lookback` candles before
    the displacement candle `d`; its near edge is the high for a bullish and the low for a bearish shift.
  */
  ghost predicate IsBlock(candles: seq<Candle>, mss: Mss, lookback: nat, d: nat, j: nat, b: OrderBlock) {
    && j < d < |candles| && d - j <= lookback
    && candles[d].time == mss.displacementTime && (forall k :: 0 <= k < d ==> candles[k].time != mss.displacementTime)
    && AgainstShift(mss.direction, candles[j])
    && (forall k :: j < k < d ==> !AgainstShift(mss.direction, candles[k]))
    && b.direction == mss.direction && b.time == candles[j].time
    && match mss.direction
       case Bullish => b.proximal == candles[j].high && b.distal == candles[j].low
       case Bearish => b.proximal == candles[j].low && b.distal == candles[j].high
  }

  lemma {:induction false} FirstAtTimeIs(candles: seq<Candle>, t: int, i: nat)
    requires i <= |candles|
    ensures var r := FirstAtTime(candles, t, i);
            && (r.Some? ==> candles[r.value].time == t && forall k :: i <= k < r.value ==> candles[k].time != t)
            && (r.None? ==> forall k :: i <= k < |candles| ==> candles[k].time != t)
    decreases |candles| - i
  {
    if i < |candles| {
      FirstAtTimeIs(candles, t, i + 1);
    }
  }

  lemma {:induction false} LatestOppositeIff(candles: seq<Candle>, d: Trend, k: int, earliest: int, b: OrderBlock)
    requires k < |candles| && 0 <= earliest
    ensures LatestOpposite(candles, d, k, earliest) == Some(b)
            <==> exists j :: IsLatestOpposite(candles, d, k, earliest, j) && b == BlockOf(d, candles[j])
    decreases k - earliest
  {
    if k >= earliest {
      LatestOppositeIff(candles, d, k - 1, earliest, b);
      if OppositeColour(d, candles[k]) {
        assert IsLatestOpposite(candles, d, k, earliest, k);
        forall j | IsLatestOpposite(candles, d, k, earliest, j) ensures j == k {
        }
      } else {
        forall j ensures IsLatestOpposite(candles, d, k, earliest, j)
            <==> IsLatestOpposite(candles, d, k - 1, earliest, j) {
        }
      }
    }
  }

  /** The block found is exactly the one described. */
  lemma BlockIff(candles: seq<Candle>, mss: Mss, lookback: nat, b: OrderBlock)
    ensures OrderBlockFor(candles, mss, lookback) == Some(b)
            <==> exists d: nat, j: nat :: IsBlock(candles, mss, lookback, d, j, b)
  {
    var at := FirstAtTime(candles, mss.displacementTime, 0);
    FirstAtTimeIs(candles, mss.displacementTime, 0);
    if at.Some? {
      var d: int, earliest := at.value, Earliest(at.value, lookback);
      LatestOppositeIff(candles, mss.direction, d - 1, earliest, b);
      forall j: nat
        ensures IsBlock(candles, mss, lookback, d, j, b)
                <==> IsLatestOpposite(candles, mss.direction, d - 1, earliest, j)
                     && b == BlockOf(mss.direction, candles[j]) {
      }
      forall e: nat, j: nat | IsBlock(candles, mss, lookback, e, j, b) ensures e == d {
      }
    }
  }
}
