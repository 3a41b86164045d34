/** How far past a structure shift the decision on its sweep looks. */
module DecisionTiming {
  import opened Foundations
  import opened SweepTypes
  import opened Swings
  import opened StructureShift
  import opened PointsOfInterest
  import opened LateGaps
  import opened Simulator
  import opened SetupBuilder

  // ---- entry zones of a prefix ------------------------------------------------------------------------

  lemma {:induction false} FirstAtTimeOfPrefix(candles: seq<Candle>, t: int, m: nat, i: nat)
    requires i <= m <= |candles|
    ensures var full := FirstAtTime(candles, t, i);
            FirstAtTime(candles[..m], t, i) == if full.Some? && full.value < m then full else None
    decreases m - i
  {
    if i < m {
      FirstAtTimeOfPrefix(candles, t, m, i + 1);
    }
  }

  lemma {:induction false} LatestOppositeOfPrefix(candles: seq<Candle>, d: Trend, m: nat, k: int, earliest: int)
    requires k < m <= |candles| && 0 <= earliest
    ensures LatestOpposite(candles[..m], d, k, earliest) == LatestOpposite(candles, d, k, earliest)
    decreases k - earliest
  {
    if k >= earliest {
      LatestOppositeOfPrefix(candles, d, m, k - 1, earliest);
    }
  }

  lemma {:induction false} TimeIsFound(candles: seq<Candle>, i: nat, d: nat)
    requires i <= d < |candles|
    ensures FirstAtTime(candles, candles[d].time, i).Some? && FirstAtTime(candles, candles[d].time, i).value <= d
    decreases d - i
  {
    if candles[i].time != candles[d].time {
      TimeIsFound(candles, i + 1, d);
    }
  }

  /** The order block lies before the displacement candle, so any frame that holds that candle has it. */
  lemma OrderBlockOfPrefix(candles: seq<Candle>, mss: Mss, lookback: int, m: nat, d: nat)
    requires d < m <= |candles| && candles[d].time == mss.displacementTime
    ensures OrderBlockFor(candles[..m], mss, lookback) == OrderBlockFor(candles, mss, lookback)
  {
    TimeIsFound(candles, 0, d);
    FirstAtTimeOfPrefix(candles, mss.displacementTime, m, 0);
    var i: int := FirstAtTime(candles, mss.displacementTime, 0).value;
    LatestOppositeOfPrefix(candles, mss.direction, m, i - 1, Earliest(i, lookback));
  }

  /** A frame whose last candle is past the scan's window has all its gaps. */
  lemma FvgsOfCoveringPrefix(candles: seq<Candle>, scan: FvgScan, m: nat)
    requires StrictlyAscending(candles) && 3 <= m <= |candles| && scan.period >= 1
    requires m == |candles| || candles[m - 1].time > scan.end
    ensures Fvgs(candles[..m], scan) == Fvgs(candles, scan)
  {
    FvgsOfPrefixAt(candles, scan, m, m - 1);
    if m < |candles| {
      NoFurtherGaps(candles, scan, m - 1, |candles| - 1);
    } else {
      assert candles[..m] == candles;
    }
  }

  // ---- the decision -------------------------------------------------------------------------------------

  /** The entry zone after a shift. */
  function ZoneAfter(cfg: Settings, candles: seq<Candle>, mss: Mss): Option<Poi>
    requires cfg.fvgPeriod >= 1
  {
    ChoosePoi(Fvgs(candles, GapScan(cfg, mss)), OrderBlockFor(candles, mss, ORDER_BLOCK_LOOKBACK))
  }

  /** Candle `i` of the frame confirms the shift `mss` of the sweep. */
  ghost predicate Confirmed(cfg: Settings, candles: seq<Candle>, sweep: Sweep, i: nat, mss: Mss) {
    Sane(cfg) && Confirming(candles, cfg.mss, sweep) == Some(i) && Shift(candles, cfg.mss, sweep) == Some(mss)
  }

  /** The shift, its displacement candle and its order block are known once the confirming candle is. */
  lemma ShiftIsKnown(cfg: Settings, candles: seq<Candle>, sweep: Sweep, i: nat, mss: Mss, m: nat)
    requires Confirmed(cfg, candles, sweep, i, mss) && i < m <= |candles|
    ensures Shift(candles[..m], cfg.mss, sweep) == Some(mss) && 3 <= m
    ensures OrderBlockFor(candles[..m], mss, ORDER_BLOCK_LOOKBACK) == OrderBlockFor(candles, mss, ORDER_BLOCK_LOOKBACK)
  {
    NoLookahead(candles, cfg.mss, sweep, m);
    ShiftNeedsThree(candles[..m], cfg.mss, sweep);
    var k, d := ShiftIsGenuine(candles, SwingsOf(candles, cfg.mss.swing), cfg.mss, sweep, i);
    OrderBlockOfPrefix(candles, mss, ORDER_BLOCK_LOOKBACK, m, d);
  }

  lemma DecideByZone(cfg: Settings, candles: seq<Candle>, sweep: Sweep, bias: Trend, kz: Killzone,
                     levels: seq<MarkedLevel>,
                     mss: Mss, zone: Option<Poi>)
    requires Sane(cfg) && candles != [] && Shift(candles, cfg.mss, sweep) == Some(mss)
             && zone == ZoneAfter(cfg, candles, mss)
    ensures Decide(cfg, candles, sweep, bias, kz, levels)
            == if zone.None? then Reject(sweep, NoPoi) else PlanTrade(cfg, sweep, bias, kz, levels, mss, zone.value)
  {
  }

  /**
    Once the frame reaches past the gap window, half an hour after the confirmation, later candles
    change nothing.
  */
  lemma DecisionIsFinal(cfg: Settings, candles: seq<Candle>, sweep: Sweep, bias: Trend, kz: Killzone,
                        levels: seq<MarkedLevel>,
                        i: nat, mss: Mss, m: nat)
    requires StrictlyAscending(candles) && Confirmed(cfg, candles, sweep, i, mss) && i < m <= |candles|
    requires m == |candles| || candles[m - 1].time > mss.confirmTime + FVG_FORWARD_MINUTES * MINUTE
    ensures Decide(cfg, candles[..m], sweep, bias, kz, levels) == Decide(cfg, candles, sweep, bias, kz, levels)
  {
    ShiftIsKnown(cfg, candles, sweep, i, mss, m);
    FvgsOfCoveringPrefix(candles, GapScan(cfg, mss), m);
    var zone := ZoneAfter(cfg, candles, mss);
    DecideByZone(cfg, candles, sweep, bias, kz, levels, mss, zone);
    DecideByZone(cfg, candles[..m], sweep, bias, kz, levels, mss, zone);
  }

  /** Without a shift in the full frame every prefix rejects the sweep for the same reason. */
  lemma NoShiftIsFinal(cfg: Settings, candles: seq<Candle>, sweep: Sweep, bias: Trend, kz: Killzone,
                       levels: seq<MarkedLevel>, m: nat)
    requires m <= |candles| && (Sane(cfg) ==> Confirming(candles, cfg.mss, sweep).None?)
    ensures Decide(cfg, candles[..m], sweep, bias, kz, levels) == Decide(cfg, candles, sweep, bias, kz, levels)
            == Reject(sweep, NoMss)
  {
    if Sane(cfg) {
      NoLookahead(candles, cfg.mss, sweep, m);
    }
  }

  // ---- a prefix against one frame -----------------------------------------------------------------------

  /** The gaps of the frame leave the zone of its prefix alone: one is complete already, or none follows. */
  ghost predicate ZoneSettled(cfg: Settings, candles: seq<Candle>, mss: Mss, m: nat)
    requires m <= |candles| && cfg.fvgPeriod >= 1
  {
    Fvgs(candles[..m], GapScan(cfg, mss)) != [] || Fvgs(candles, GapScan(cfg, mss)) == []
  }

  /** The zone seen so far is the final one exactly when it is settled: a later gap replaces an order block. */
  lemma ZoneSettledIff(cfg: Settings, candles: seq<Candle>, sweep: Sweep, i: nat, mss: Mss, m: nat)
    requires Confirmed(cfg, candles, sweep, i, mss) && i < m <= |candles|
    ensures ZoneAfter(cfg, candles[..m], mss) == ZoneAfter(cfg, candles, mss) <==> ZoneSettled(cfg, candles, mss, m)
  {
    ShiftIsKnown(cfg, candles, sweep, i, mss, m);
    FvgsOfPrefix(candles, GapScan(cfg, mss), m);
  }

  lemma PlanCarriesZone(cfg: Settings, sweep: Sweep, bias: Trend, kz: Killzone, levels: seq<MarkedLevel>, mss: Mss,
                        poi: Poi)
    ensures var v := PlanTrade(cfg, sweep, bias, kz, levels, mss, poi);
            if v.Accepted? then v.setup.poi == poi else v == Reject(sweep, v.reason)
  {
  }

  /**
    The decision on the first `m` candles, the confirming one included, is the final one exactly when
    the zone is settled, or both zones lead to a rejection for the same reason.
  */
  lemma EarlyDecisionIff(cfg: Settings, candles: seq<Candle>, sweep: Sweep, bias: Trend, kz: Killzone,
                         levels: seq<MarkedLevel>,
                         i: nat, mss: Mss, m: nat)
    requires Confirmed(cfg, candles, sweep, i, mss) && i < m <= |candles|
    ensures var early, final :=
            Decide(cfg, candles[..m], sweep, bias, kz, levels), Decide(cfg, candles, sweep, bias, kz, levels);
            && (ZoneSettled(cfg, candles, mss, m) ==> early == final)
            && (!ZoneSettled(cfg, candles, mss, m) ==>
                 (early == final <==> early.Rejected? && final.Rejected? && early.reason == final.reason))
  {
    ShiftIsKnown(cfg, candles, sweep, i, mss, m);
    ZoneSettledIff(cfg, candles, sweep, i, mss, m);
    var a, b := ZoneAfter(cfg, candles[..m], mss), ZoneAfter(cfg, candles, mss);
    DecideByZone(cfg, candles[..m], sweep, bias, kz, levels, mss, a);
    DecideByZone(cfg, candles, sweep, bias, kz, levels, mss, b);
    if a.Some? {
      PlanCarriesZone(cfg, sweep, bias, kz, levels, mss, a.value);
    }
    if b.Some? {
      PlanCarriesZone(cfg, sweep, bias, kz, levels, mss, b.value);
    }
  }

  // ---- the decision against everything that may follow ----------------------------------------------------

  /** A gap is complete already, or none can be completed any more: both are read off the candles so far. */
  predicate ZoneKnown(cfg: Settings, candles: seq<Candle>, mss: Mss)
    requires candles != [] && cfg.fvgPeriod >= 1
  {
    Fvgs(candles, GapScan(cfg, mss)) != [] || !GapPossible(candles, GapScan(cfg, mss))
  }

  ghost predicate ZoneIsFinal(cfg: Settings, candles: seq<Candle>, mss: Mss)
    requires cfg.fvgPeriod >= 1
  {
    forall more :: Plausible(candles + more) ==> ZoneAfter(cfg, candles + more, mss) == ZoneAfter(cfg, candles, mss)
  }

  /** Whatever the levels, no continuation of the frame changes the decision. */
  ghost predicate DecisionStands(cfg: Settings, candles: seq<Candle>, sweep: Sweep, bias: Trend, kz: Killzone) {
    forall more, levels :: Plausible(candles + more) ==>
      Decide(cfg, candles + more, sweep, bias, kz, levels) == Decide(cfg, candles, sweep, bias, kz, levels)
  }

  lemma StillConfirmed(cfg: Settings, candles: seq<Candle>, more: seq<Candle>, sweep: Sweep, i: nat, mss: Mss)
    requires Confirmed(cfg, candles, sweep, i, mss)
    ensures Confirmed(cfg, candles + more, sweep, i, mss) && i < |candles|
  {
    assert (candles + more)[..i + 1] == candles[..i + 1];
    FutureIsIrrelevant(candles, candles + more, cfg.mss, sweep, i);
  }

  /** The displacement candle, where the gap window starts, is part of the frame. */
  lemma WindowHasBegun(cfg: Settings, candles: seq<Candle>, sweep: Sweep, i: nat, mss: Mss)
    requires StrictlyAscending(candles) && Confirmed(cfg, candles, sweep, i, mss)
    ensures |candles| >= 3 && GapScan(cfg, mss).start <= LastTime(candles)
  {
    ShiftNeedsThree(candles, cfg.mss, sweep);
    var k, d := ShiftIsGenuine(candles, SwingsOf(candles, cfg.mss.swing), cfg.mss, sweep, i);
    TimesGrow(candles, d, |candles| - 1);
  }

  lemma KnownIsSettled(cfg: Settings, candles: seq<Candle>, more: seq<Candle>, mss: Mss)
    requires |candles| >= 3 && cfg.fvgPeriod >= 1 && StrictlyAscending(candles + more) && ZoneKnown(cfg, candles, mss)
    ensures ZoneSettled(cfg, candles + more, mss, |candles|)
  {
    var scan := GapScan(cfg, mss);
    assert (candles + more)[..|candles|] == candles;
    if !GapPossible(candles, scan) {
      forall k | |candles| - 1 <= k < |candles + more| - 1 ensures FvgAt(candles + more, scan, k).None? {
        NoGapAt(candles, more, scan, k);
      }
      GapsOfExtension(candles, more, scan);
    }
  }

  /**
    The entry zone after a confirmed shift survives every continuation of the frame exactly when a gap
    is complete or none is possible any more.
  */
  lemma ZoneKnownIff(cfg: Settings, candles: seq<Candle>, sweep: Sweep, i: nat, mss: Mss)
    requires Plausible(candles) && Confirmed(cfg, candles, sweep, i, mss)
    ensures candles != [] && (ZoneIsFinal(cfg, candles, mss) <==> ZoneKnown(cfg, candles, mss))
  {
    WindowHasBegun(cfg, candles, sweep, i, mss);
    if ZoneKnown(cfg, candles, mss) {
      forall more | Plausible(candles + more)
        ensures ZoneAfter(cfg, candles + more, mss) == ZoneAfter(cfg, candles, mss)
      {
        assert (candles + more)[..|candles|] == candles;
        StillConfirmed(cfg, candles, more, sweep, i, mss);
        KnownIsSettled(cfg, candles, more, mss);
        ZoneSettledIff(cfg, candles + more, sweep, i, mss, |candles|);
      }
    } else {
      var more := GapFollows(candles, GapScan(cfg, mss), 0.0);
      assert (candles + more)[..|candles|] == candles;
      StillConfirmed(cfg, candles, more, sweep, i, mss);
      ZoneSettledIff(cfg, candles + more, sweep, i, mss, |candles|);
    }
  }

  // ---- the decision changes with the zone -------------------------------------------------------------------

  lemma WhyPlanFails(cfg: Settings, sweep: Sweep, bias: Trend, kz: Killzone, levels: seq<MarkedLevel>, mss: Mss,
                     poi: Poi)
    ensures var v := PlanTrade(cfg, sweep, bias, kz, levels, mss, poi);
            v.Rejected? ==>
                  v.reason != NoPoi && (v.reason == InvalidRisk <==> poi.Proximal() == StopOf(cfg, sweep, mss))
  {
  }

  /** A level far enough on the profit side, under a name of its own. */
  function ReachingLevel(d: Direction, entry: real, risk: real, minRR: real, name: string): MarkedLevel {
    var reach := Mul(Abs(minRR) + 1.0, risk);
    if d.Long? then MarkedLevel(entry + reach, High, name + "+", Major)
    else MarkedLevel(entry - reach, Low, name + "+", Major)
  }

  lemma LevelReaches(d: Direction, entry: real, risk: real, minRR: real, sweep: Sweep)
    requires risk > 0.0
    ensures var lv := ReachingLevel(d, entry, risk, minRR, sweep.levelName);
            Opposing(d, entry, lv) && Reaches(entry, risk, minRR, sweep, lv)
  {
    var m := Abs(minRR) + 1.0;
    assert m * risk > 0.0;
    MulQuotient(m, risk);
  }

  /** With a suitable target an order block of positive risk is always traded, at grade B or better. */
  lemma BlockIsTraded(cfg: Settings, sweep: Sweep, bias: Trend, kz: Killzone, mss: Mss, block: OrderBlock)
    returns (levels: seq<MarkedLevel>)
    requires block.proximal != StopOf(cfg, sweep, mss)
    ensures PlanTrade(cfg, sweep, bias, kz, levels, mss, BlockPoi(block)).Accepted?
  {
    var d, entry := DirectionOf(mss.direction), block.proximal;
    var risk := Abs(entry - StopOf(cfg, sweep, mss));
    levels := [ReachingLevel(d, entry, risk, cfg.minRR, sweep.levelName)];
    LevelReaches(d, entry, risk, cfg.minRR, sweep);
    TakeProfitIsNearest(d, entry, risk, levels, sweep, cfg.minRR);
    assert levels[0] in levels;
  }

  /** A gap in place of what the frame has so far leads to another decision. */
  lemma LateGapChangesDecision(cfg: Settings, sweep: Sweep, bias: Trend, kz: Killzone, mss: Mss,
                               block: Option<OrderBlock>, gap: Fvg) returns (levels: seq<MarkedLevel>)
    requires gap.proximal != StopOf(cfg, sweep, mss)
    ensures var early := ChoosePoi([], block);
            (if early.None? then Reject(sweep, NoPoi) else PlanTrade(cfg, sweep, bias, kz, levels, mss, early.value))
            != PlanTrade(cfg, sweep, bias, kz, levels, mss, GapPoi(gap))
  {
    levels := [];
    if block.Some? && block.value.proximal != StopOf(cfg, sweep, mss) {
      levels := BlockIsTraded(cfg, sweep, bias, kz, mss, block.value);
      PlanCarriesZone(cfg, sweep, bias, kz, levels, mss, BlockPoi(block.value));
      PlanCarriesZone(cfg, sweep, bias, kz, levels, mss, GapPoi(gap));
    } else {
      WhyPlanFails(cfg, sweep, bias, kz, levels, mss, GapPoi(gap));
      if block.Some? {
        WhyPlanFails(cfg, sweep, bias, kz, levels, mss, BlockPoi(block.value));
      }
    }
  }

  /** While a gap is possible, some continuation and some levels change the decision. */
  lemma DecisionCanChange(cfg: Settings, candles: seq<Candle>, sweep: Sweep, bias: Trend, kz: Killzone, i: nat,
                          mss: Mss) returns (more: seq<Candle>, levels: seq<MarkedLevel>)
    requires Plausible(candles) && Confirmed(cfg, candles, sweep, i, mss)
    requires candles != [] && !ZoneKnown(cfg, candles, mss)
    ensures Plausible(candles + more)
    ensures Decide(cfg, candles + more, sweep, bias, kz, levels) != Decide(cfg, candles, sweep, bias, kz, levels)
  {
    WindowHasBegun(cfg, candles, sweep, i, mss);
    more := GapFollows(candles, GapScan(cfg, mss), StopOf(cfg, sweep, mss));
    StillConfirmed(cfg, candles, more, sweep, i, mss);
    assert (candles + more)[..|candles|] == candles;
    ShiftIsKnown(cfg, candles + more, sweep, i, mss, |candles|);
    var block := OrderBlockFor(candles, mss, ORDER_BLOCK_LOOKBACK);
    var gap := Fvgs(candles + more, GapScan(cfg, mss))[0];
    levels := LateGapChangesDecision(cfg, sweep, bias, kz, mss, block, gap);
    DecideByZone(cfg, candles, sweep, bias, kz, levels, mss, ChoosePoi([], block));
    DecideByZone(cfg, candles + more, sweep, bias, kz, levels, mss, Some(GapPoi(gap)));
  }

  /**
    The decision after a confirmed shift stands against every continuation of the frame and for all
    levels exactly when a gap is complete or none is possible any more.
  */
  lemma DecisionStandsIff(cfg: Settings, candles: seq<Candle>, sweep: Sweep, bias: Trend, kz: Killzone, i: nat,
                          mss: Mss)
    requires Plausible(candles) && Confirmed(cfg, candles, sweep, i, mss)
    ensures candles != [] && (DecisionStands(cfg, candles, sweep, bias, kz) <==> ZoneKnown(cfg, candles, mss))
  {
    WindowHasBegun(cfg, candles, sweep, i, mss);
    if ZoneKnown(cfg, candles, mss) {
      forall more, levels | Plausible(candles + more)
        ensures Decide(cfg, candles + more, sweep, bias, kz, levels) == Decide(cfg, candles, sweep, bias, kz, levels)
      {
        assert (candles + more)[..|candles|] == candles;
        StillConfirmed(cfg, candles, more, sweep, i, mss);
        KnownIsSettled(cfg, candles, more, mss);
        EarlyDecisionIff(cfg, candles + more, sweep, bias, kz, levels, i, mss, |candles|);
      }
    } else {
      var more, levels := DecisionCanChange(cfg, candles, sweep, bias, kz, i, mss);
    }
  }
}
