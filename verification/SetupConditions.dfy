/** Every verdict on a sweep, in terms of prices, levels and candles. */
module SetupConditions {
  import opened Foundations
  import opened SweepTypes
  import opened Sorting
  import opened Gathering
  import SweepDedup
  import opened Swings
  import opened StructureShift
  import opened PointsOfInterest
  import opened EntryZones
  import opened Simulator
  import opened SetupBuilder

  // ---- the target ------------------------------------------------------------------------------------

  /** Liquidity the trade can aim at: on the profit side of the entry, and not the level just swept. */
  predicate Aim(d: Trend, entry: real, sweep: Sweep, lv: MarkedLevel) {
    && (match d
        case Bullish => lv.side.High? && lv.price > entry
        case Bearish => lv.side.Low? && lv.price < entry)
    && !(lv.name == sweep.levelName && lv.price == sweep.levelPrice)
  }

  /** It lies at least `minRR` risks away. */
  predicate FarAim(d: Trend, entry: real, risk: real, minRR: real, sweep: Sweep, lv: MarkedLevel) {
    Aim(d, entry, sweep, lv) && Abs(lv.price - entry) >= Mul(minRR, risk)
  }

  /** Level `b` is the nearest that lies far enough, and the first in the list of those equally near. */
  ghost predicate IsTarget(d: Trend, entry: real, risk: real, minRR: real, sweep: Sweep, levels: seq<MarkedLevel>,
                           b: nat) {
    && b < |levels| && FarAim(d, entry, risk, minRR, sweep, levels[b])
    && forall a :: 0 <= a < |levels| && FarAim(d, entry, risk, minRR, sweep, levels[a]) ==>
         && Abs(levels[b].price - entry) <= Abs(levels[a].price - entry)
         && (a < b ==> Abs(levels[b].price - entry) < Abs(levels[a].price - entry))
  }

  /** The first of the list that lies far enough. */
  function FirstFar(entry: real, risk: real, minRR: real, sweep: Sweep, levels: seq<MarkedLevel>): Option<MarkedLevel>
    requires risk != 0.0
  {
    if levels == [] then None
    else if Reaches(entry, risk, minRR, sweep, levels[0]) then Some(levels[0])
    else FirstFar(entry, risk, minRR, sweep, levels[1..])
  }

  lemma {:induction false} FirstFarIsTarget(entry: real, risk: real, minRR: real, sweep: Sweep,
                                            levels: seq<MarkedLevel>)
    requires risk != 0.0
    ensures var f := FirstFar(entry, risk, minRR, sweep, levels);
            FirstReaching(entry, risk, minRR, sweep, levels)
            == if f.None? then None else Some(Target(f.value.price, f.value.name, RewardRisk(entry, risk, f.value)))
  {
    if levels != [] {
      FirstFarIsTarget(entry, risk, minRR, sweep, levels[1..]);
    }
  }

  lemma {:induction false} FirstFarInserted(entry: real, risk: real, minRR: real, sweep: Sweep, x: MarkedLevel,
                                            s: seq<MarkedLevel>, key: MarkedLevel -> real)
    requires risk != 0.0 && SortedBy(s, key)
    ensures var f := FirstFar(entry, risk, minRR, sweep, s);
            FirstFar(entry, risk, minRR, sweep, Insert(x, s, key))
            == if Reaches(entry, risk, minRR, sweep, x) && (f.None? || key(x) <= key(f.value)) then Some(x) else f
    ensures FirstFar(entry, risk, minRR, sweep, s).Some? && s != [] ==>
              key(s[0]) <= key(FirstFar(entry, risk, minRR, sweep, s).value)
  {
    if s != [] {
      FirstFarInserted(entry, risk, minRR, sweep, x, s[1..], key);
      var t := Insert(x, s, key);
      if key(x) <= key(s[0]) {
        assert t == [x] + s && t[1..] == s;
      } else {
        assert t == [s[0]] + Insert(x, s[1..], key) && t[1..] == Insert(x, s[1..], key);
      }
      assert s[1..] != [] ==> key(s[0]) <= key(s[1]);
    } else {
      assert Insert(x, s, key) == [x] && [x][1..] == [];
    }
  }

  lemma FarIff(d: Trend, entry: real, risk: real, minRR: real, sweep: Sweep, lv: MarkedLevel)
    requires risk > 0.0
    ensures FarAim(d, entry, risk, minRR, sweep, lv)
            <==> Opposing(DirectionOf(d), entry, lv) && Reaches(entry, risk, minRR, sweep, lv)
  {
    var far := Abs(lv.price - entry);
    MulQuotient(far, risk);
    if far < Mul(minRR, risk) && Quotient(far, risk) >= minRR {
      MulMonotone(minRR, Quotient(far, risk), risk);
    }
    if far >= Mul(minRR, risk) && Quotient(far, risk) < minRR {
      MulMonotone(Quotient(far, risk), minRR, risk);
    }
  }

  /** `c` is the target among the levels, if any lies far enough. */
  ghost predicate Picks(d: Trend, entry: real, risk: real, minRR: real, sweep: Sweep, levels: seq<MarkedLevel>,
                        c: Option<MarkedLevel>) {
    match c
    case None => forall a :: 0 <= a < |levels| ==> !FarAim(d, entry, risk, minRR, sweep, levels[a])
    case Some(lv) => exists b: nat :: IsTarget(d, entry, risk, minRR, sweep, levels, b) && levels[b] == lv
  }

  lemma NewTarget(d: Trend, entry: real, risk: real, minRR: real, sweep: Sweep, x: MarkedLevel, rest: seq<MarkedLevel>,
                  c: Option<MarkedLevel>)
    requires Picks(d, entry, risk, minRR, sweep, rest, c) && FarAim(d, entry, risk, minRR, sweep, x)
    requires c.None? || Abs(x.price - entry) <= Abs(c.value.price - entry)
    ensures IsTarget(d, entry, risk, minRR, sweep, [x] + rest, 0)
  {
    var all := [x] + rest;
    assert forall a :: 0 < a < |all| ==> all[a] == rest[a - 1];
  }

  lemma SameTarget(d: Trend, entry: real, risk: real, minRR: real, sweep: Sweep, x: MarkedLevel,
                   rest: seq<MarkedLevel>, b: nat)
    requires IsTarget(d, entry, risk, minRR, sweep, rest, b)
    requires FarAim(d, entry, risk, minRR, sweep, x) ==> Abs(rest[b].price - entry) < Abs(x.price - entry)
    ensures IsTarget(d, entry, risk, minRR, sweep, [x] + rest, b + 1)
  {
    var all := [x] + rest;
    assert forall a :: 0 < a < |all| ==> all[a] == rest[a - 1];
  }

  lemma PicksMore(d: Trend, entry: real, risk: real, minRR: real, sweep: Sweep, x: MarkedLevel, rest: seq<MarkedLevel>,
                  c: Option<MarkedLevel>)
    requires Picks(d, entry, risk, minRR, sweep, rest, c)
    ensures var better := FarAim(d, entry, risk, minRR, sweep, x)
                          && (c.None? || Abs(x.price - entry) <= Abs(c.value.price - entry));
            Picks(d, entry, risk, minRR, sweep, [x] + rest, if better then Some(x) else c)
  {
    if FarAim(d, entry, risk, minRR, sweep, x) && (c.None? || Abs(x.price - entry) <= Abs(c.value.price - entry)) {
      NewTarget(d, entry, risk, minRR, sweep, x, rest, c);
    } else if c.Some? {
      var b: nat :| IsTarget(d, entry, risk, minRR, sweep, rest, b) && rest[b] == c.value;
      SameTarget(d, entry, risk, minRR, sweep, x, rest, b);
    }
  }

  lemma {:induction false} ScanPicks(d: Trend, entry: real, risk: real, minRR: real, sweep: Sweep,
                                     levels: seq<MarkedLevel>)
    requires risk > 0.0
    ensures var key := Distance(DirectionOf(d), entry);
            var sorted := StableSort(OpposingLevels(DirectionOf(d), entry, levels), key);
            Picks(d, entry, risk, minRR, sweep, levels, FirstFar(entry, risk, minRR, sweep, sorted))
  {
    if levels != [] {
      var x, rest, key := levels[0], levels[1..], Distance(DirectionOf(d), entry);
      var opposing := OpposingLevels(DirectionOf(d), entry, rest);
      var sorted := StableSort(opposing, key);
      var c := FirstFar(entry, risk, minRR, sweep, sorted);
      ScanPicks(d, entry, risk, minRR, sweep, rest);
      FarIff(d, entry, risk, minRR, sweep, x);
      PicksMore(d, entry, risk, minRR, sweep, x, rest, c);
      assert levels == [x] + rest;
      if Opposing(DirectionOf(d), entry, x) {
        StableSortSorts(opposing, key);
        FirstFarInserted(entry, risk, minRR, sweep, x, sorted, key);
        if c.Some? {
          DistanceOfPicked(d, entry, risk, minRR, sweep, rest, c);
        }
        assert ([x] + opposing)[1..] == opposing;
        assert key(x) == Abs(x.price - entry);
      }
    }
  }

  lemma DistanceOfPicked(d: Trend, entry: real, risk: real, minRR: real, sweep: Sweep, levels: seq<MarkedLevel>,
                         c: Option<MarkedLevel>)
    requires Picks(d, entry, risk, minRR, sweep, levels, c) && c.Some?
    ensures Distance(DirectionOf(d), entry)(c.value) == Abs(c.value.price - entry)
  {
  }

  /** The target found is the nearest that lies far enough; none is found exactly when none does. */
  lemma TargetIs(d: Trend, entry: real, risk: real, minRR: real, sweep: Sweep, levels: seq<MarkedLevel>)
    requires risk > 0.0
    ensures match TakeProfit(DirectionOf(d), entry, risk, levels, sweep, minRR)
            case None => forall a :: 0 <= a < |levels| ==> !FarAim(d, entry, risk, minRR, sweep, levels[a])
            case Some(t) => exists b: nat ::
              && IsTarget(d, entry, risk, minRR, sweep, levels, b)
              && t.price == levels[b].price && t.name == levels[b].name && Mul(t.rr, risk) == Abs(t.price - entry)
  {
    var sorted := StableSort(OpposingLevels(DirectionOf(d), entry, levels), Distance(DirectionOf(d), entry));
    ScanPicks(d, entry, risk, minRR, sweep, levels);
    FirstFarIsTarget(entry, risk, minRR, sweep, sorted);
    var f := FirstFar(entry, risk, minRR, sweep, sorted);
    if f.Some? {
      MulQuotient(Abs(f.value.price - entry), risk);
    }
  }

  // ---- the entry zone -----------------------------------------------------------------------------------

  /** Gaps may form from the second of the displacement candle to half an hour after the confirmation. */
  ghost predicate IsWindow(cfg: Settings, mss: Mss, scan: FvgScan) {
    && scan.direction == mss.direction && scan.minSize == cfg.fvgMinSize && scan.period == cfg.fvgPeriod
    && scan.start % 1_000_000 == 0 && scan.start <= mss.displacementTime < scan.start + 1_000_000
    && scan.end == mss.confirmTime + 30 * 60_000_000
  }

  /** The zone is the earliest gap, or, without one, the last opposite candle of the twenty before the displacement. */
  ghost predicate IsZone(cfg: Settings, candles: seq<Candle>, mss: Mss, poi: Poi)
    requires cfg.fvgPeriod >= 1
  {
    exists scan :: IsWindow(cfg, mss, scan) &&
      match poi
      case GapPoi(g) => exists j: nat :: FirstGap(candles, scan, j, g)
      case BlockPoi(b) => NoGap(candles, scan) && exists d: nat, j: nat :: IsBlock(candles, mss, 20, d, j, b)
  }

  lemma WindowIs(cfg: Settings, mss: Mss, scan: FvgScan)
    ensures IsWindow(cfg, mss, scan) <==> scan == GapScan(cfg, mss)
  {
  }

  /** The zone chosen after a shift is exactly that one. */
  lemma ZoneIff(cfg: Settings, candles: seq<Candle>, mss: Mss, poi: Poi)
    requires cfg.fvgPeriod >= 1
    ensures ChoosePoi(Fvgs(candles, GapScan(cfg, mss)), OrderBlockFor(candles, mss, ORDER_BLOCK_LOOKBACK)) == Some(poi)
            <==> IsZone(cfg, candles, mss, poi)
  {
    var scan := GapScan(cfg, mss);
    forall other | IsWindow(cfg, mss, other) ensures other == scan {
      WindowIs(cfg, mss, other);
    }
    WindowIs(cfg, mss, scan);
    match poi
    case GapPoi(g) => FirstGapIff(candles, scan, g);
    case BlockPoi(b) =>
      FirstGapIff(candles, scan, Fvg(Bullish, 0.0, 0.0, 0, 0, 0, 0.0, 0.0));
      BlockIff(candles, mss, ORDER_BLOCK_LOOKBACK, b);
  }

  // ---- the grade ----------------------------------------------------------------------------------------

  /**
    The grade of a setup whose displacement and R:R passed their checks.  Blocks are always B.  A gap is
    A+ or A away from minor levels; at a minor level it is B if it is small or barely pays, and rejected
    otherwise.
  */
  function Graded(cfg: Settings, strength: Strength, poi: Poi, rr: real, ote: bool): Option<Grade> {
    match poi
    case BlockPoi(_) => Some(B)
    case GapPoi(gap) =>
      if strength.Minor? then
        if gap.sizeRatio < Mul(1.5, cfg.fvgMinSize) || rr < Mul(1.01, cfg.minRR) then Some(B) else None
      else if ote && rr >= cfg.aPlusRR && !strength.MajorH4Only? then Some(APlus)
      else Some(A)
  }

  lemma GradeIs(cfg: Settings, strength: Strength, poi: Poi, rr: real, bodyRatio: real, ote: bool)
    requires bodyRatio >= cfg.mss.multiplier && rr >= cfg.minRR
    requires poi.GapPoi? ==> poi.fvg.sizeRatio >= cfg.fvgMinSize
    ensures GradeSetup(cfg, strength, poi, rr, bodyRatio, ote) == Graded(cfg, strength, poi, rr, ote)
  {
  }

  // ---- the verdict --------------------------------------------------------------------------------------

  /** Some price of the zone retraces between 62 % and 79 % of the leg from the sweep to the broken swing. */
  ghost predicate Retraced(sweep: Sweep, mss: Mss, poi: Poi) {
    && sweep.extreme != mss.brokenPrice
    && exists f: real :: RetracedInto(Zone(poi.Proximal(), poi.Distal()), sweep.extreme, mss.brokenPrice, f)
  }

  /** Accepted with this plan, or rejected for its grade. */
  ghost predicate PlannedTo(cfg: Settings, sweep: Sweep, bias: Trend, kz: Killzone, mss: Mss, poi: Poi, entry: real,
                            stop: real, target: MarkedLevel, rr: real, v: Verdict) {
    match Graded(cfg, sweep.levelStrength, poi, rr, Retraced(sweep, mss, poi))
    case None => v == Rejected(sweep.time, GradeRejected, sweep)
    case Some(grade) =>
      var cap := cfg.partialTarget;
      var partial := Mul(cap, Abs(entry - stop));
      var tp1 := if rr <= cap then target.price else if mss.direction.Bullish? then entry + partial
          else entry - partial;
      v == Accepted(Setup(Plan(mss.confirmTime, if mss.direction.Bullish? then Long else Short, entry, stop, tp1,
                               target.price, if rr <= cap then rr else cap, rr),
                          bias, kz, sweep, mss, poi, target.name, grade))
  }

  /** The verdict on a shift and its entry zone. */
  ghost predicate Planned(cfg: Settings, sweep: Sweep, bias: Trend, kz: Killzone, levels: seq<MarkedLevel>, mss: Mss,
                          poi: Poi, v: Verdict) {
    var entry := if poi.GapPoi? then poi.fvg.proximal else poi.block.proximal;
    var stop := if mss.direction.Bullish? then sweep.extreme - cfg.stopBuffer else sweep.extreme + cfg.stopBuffer;
    var risk := Abs(entry - stop);
    if entry == stop then v == Rejected(sweep.time, InvalidRisk, sweep)
    else if forall a :: 0 <= a < |levels| ==> !FarAim(mss.direction, entry, risk, cfg.minRR, sweep, levels[a]) then
      v == Rejected(sweep.time,
                    if exists a ::
                          0 <= a < |levels| && Aim(mss.direction, entry, sweep, levels[a]) then RrBelowThreshold
                    else NoOpposingLiquidity, sweep)
    else exists b: nat, rr: real :: PlannedFor(cfg, sweep, bias, kz, levels, mss, poi, entry, stop, b, rr, v)
  }

  /** The verdict once level `b` is the target, at `rr` risks from the entry. */
  ghost predicate PlannedFor(cfg: Settings, sweep: Sweep, bias: Trend, kz: Killzone, levels: seq<MarkedLevel>, mss: Mss,
                             poi: Poi, entry: real, stop: real, b: nat, rr: real, v: Verdict) {
    && IsTarget(mss.direction, entry, Abs(entry - stop), cfg.minRR, sweep, levels, b)
    && Mul(rr, Abs(entry - stop)) == Abs(levels[b].price - entry)
    && PlannedTo(cfg, sweep, bias, kz, mss, poi, entry, stop, levels[b], rr, v)
  }

  lemma RrReaches(rr: real, minRR: real, risk: real, reward: real)
    requires risk > 0.0 && Mul(rr, risk) == reward && reward >= Mul(minRR, risk)
    ensures rr >= minRR
  {
    if rr < minRR {
      MulMonotone(rr, minRR, risk);
    }
  }

  lemma PlannedToIs(cfg: Settings, sweep: Sweep, bias: Trend, kz: Killzone, mss: Mss, poi: Poi, target: Target,
                    lv: MarkedLevel)
    requires mss.bodyRatio >= cfg.mss.multiplier && (poi.GapPoi? ==> poi.fvg.sizeRatio >= cfg.fvgMinSize)
    requires lv.price == target.price && lv.name == target.name && target.rr >= cfg.minRR
    ensures PlannedTo(cfg, sweep, bias, kz, mss, poi, poi.Proximal(), StopOf(cfg, sweep, mss), lv, target.rr,
                      PlanToward(cfg, sweep, bias, kz, mss, poi, target))
  {
    OteMeansRetracement(poi.AsZone(), sweep.extreme, mss.brokenPrice);
    GradeIs(cfg, sweep.levelStrength, poi, target.rr, mss.bodyRatio,
            OteOverlaps(poi.AsZone(), sweep.extreme, mss.brokenPrice));
  }

  lemma WhyNotIs(d: Trend, entry: real, levels: seq<MarkedLevel>, sweep: Sweep)
    ensures WhyNoTarget(DirectionOf(d), entry, levels, sweep)
            == if exists a :: 0 <= a < |levels| && Aim(d, entry, sweep, levels[a]) then RrBelowThreshold
               else NoOpposingLiquidity
  {
    assert forall lv :: Aim(d, entry, sweep, lv) <==> Opposing(DirectionOf(d), entry, lv) && !JustSwept(sweep, lv);
  }

  lemma TargetIsPlanned(cfg: Settings, sweep: Sweep, bias: Trend, kz: Killzone, levels: seq<MarkedLevel>, mss: Mss,
                        poi: Poi, t: Target) returns (b: nat)
    requires mss.bodyRatio >= cfg.mss.multiplier && (poi.GapPoi? ==> poi.fvg.sizeRatio >= cfg.fvgMinSize)
    requires var entry, stop := poi.Proximal(), StopOf(cfg, sweep, mss);
             entry != stop
             && TakeProfit(DirectionOf(mss.direction), entry, Abs(entry - stop), levels, sweep, cfg.minRR) == Some(t)
    ensures PlannedFor(cfg, sweep, bias, kz, levels, mss, poi, poi.Proximal(), StopOf(cfg, sweep, mss), b, t.rr,
                       PlanToward(cfg, sweep, bias, kz, mss, poi, t))
  {
    var d, entry, risk := mss.direction, poi.Proximal(), Abs(poi.Proximal() - StopOf(cfg, sweep, mss));
    TargetIs(d, entry, risk, cfg.minRR, sweep, levels);
    b :| IsTarget(d, entry, risk, cfg.minRR, sweep, levels, b)
      && t.price == levels[b].price && t.name == levels[b].name && Mul(t.rr, risk) == Abs(t.price - entry);
    RrReaches(t.rr, cfg.minRR, risk, Abs(levels[b].price - entry));
    PlannedToIs(cfg, sweep, bias, kz, mss, poi, t, levels[b]);
  }

  lemma PlanIsPlanned(cfg: Settings, sweep: Sweep, bias: Trend, kz: Killzone, levels: seq<MarkedLevel>, mss: Mss,
                      poi: Poi)
    requires mss.bodyRatio >= cfg.mss.multiplier && (poi.GapPoi? ==> poi.fvg.sizeRatio >= cfg.fvgMinSize)
    ensures Planned(cfg, sweep, bias, kz, levels, mss, poi, PlanTrade(cfg, sweep, bias, kz, levels, mss, poi))
  {
    var d, entry, stop := mss.direction, poi.Proximal(), StopOf(cfg, sweep, mss);
    if entry != stop {
      var risk := Abs(entry - stop);
      var t := TakeProfit(DirectionOf(d), entry, risk, levels, sweep, cfg.minRR);
      if t.None? {
        NoTargetIsPlanned(cfg, sweep, bias, kz, levels, mss, poi);
      } else {
        var b := TargetIsPlanned(cfg, sweep, bias, kz, levels, mss, poi, t.value);
        assert FarAim(d, entry, risk, cfg.minRR, sweep, levels[b]);
      }
    }
  }

  lemma NoTargetIsPlanned(cfg: Settings, sweep: Sweep, bias: Trend, kz: Killzone, levels: seq<MarkedLevel>, mss: Mss,
                          poi: Poi)
    requires var entry, stop := poi.Proximal(), StopOf(cfg, sweep, mss);
             entry != stop
             && TakeProfit(DirectionOf(mss.direction), entry, Abs(entry - stop), levels, sweep, cfg.minRR).None?
    ensures Planned(cfg, sweep, bias, kz, levels, mss, poi, PlanTrade(cfg, sweep, bias, kz, levels, mss, poi))
  {
    var d, entry, risk := mss.direction, poi.Proximal(), Abs(poi.Proximal() - StopOf(cfg, sweep, mss));
    TargetIs(d, entry, risk, cfg.minRR, sweep, levels);
    WhyNotIs(d, entry, levels, sweep);
  }

  lemma PlannedForUnique(cfg: Settings, sweep: Sweep, bias: Trend, kz: Killzone, levels: seq<MarkedLevel>, mss: Mss,
                         poi: Poi, entry: real, stop: real, b: nat, rr: real, v: Verdict, c: nat, ss: real, w: Verdict)
    requires entry != stop && PlannedFor(cfg, sweep, bias, kz, levels, mss, poi, entry, stop, b, rr, v)
    requires PlannedFor(cfg, sweep, bias, kz, levels, mss, poi, entry, stop, c, ss, w)
    ensures v == w
  {
    var risk := Abs(entry - stop);
    assert b == c by {
      assert FarAim(mss.direction, entry, risk, cfg.minRR, sweep, levels[b]);
      assert FarAim(mss.direction, entry, risk, cfg.minRR, sweep, levels[c]);
    }
    MulQuotient(rr, risk);
    MulQuotient(ss, risk);
  }

  /** Only one verdict fits. */
  lemma PlannedUnique(cfg: Settings, sweep: Sweep, bias: Trend, kz: Killzone, levels: seq<MarkedLevel>, mss: Mss,
                      poi: Poi, v: Verdict, w: Verdict)
    requires Planned(cfg, sweep, bias, kz, levels, mss, poi, v) && Planned(cfg, sweep, bias, kz, levels, mss, poi, w)
    ensures v == w
  {
    var d, entry, stop := mss.direction, poi.Proximal(), StopOf(cfg, sweep, mss);
    if entry != stop
       && exists a :: (0 <= a < |levels| && FarAim(d, entry, Abs(entry - stop), cfg.minRR, sweep, levels[a])) {
      var b: nat, rr: real :| PlannedFor(cfg, sweep, bias, kz, levels, mss, poi, entry, stop, b, rr, v);
      var c: nat, ss: real :| PlannedFor(cfg, sweep, bias, kz, levels, mss, poi, entry, stop, c, ss, w);
      PlannedForUnique(cfg, sweep, bias, kz, levels, mss, poi, entry, stop, b, rr, v, c, ss, w);
    }
  }

  /** The verdict on one sweep. */
  ghost predicate IsVerdict(cfg: Settings, candles: seq<Candle>, sweep: Sweep, bias: Trend, kz: Killzone,
                            levels: seq<MarkedLevel>, v: Verdict)
    requires Sane(cfg)
  {
    match Shift(candles, cfg.mss, sweep)
    case None => v == Rejected(sweep.time, NoMss, sweep)
    case Some(mss) =>
      if forall poi :: !IsZone(cfg, candles, mss, poi) then v == Rejected(sweep.time, NoPoi, sweep)
      else exists poi :: IsZone(cfg, candles, mss, poi) && Planned(cfg, sweep, bias, kz, levels, mss, poi, v)
  }

  lemma ShiftIsStrong(cfg: Settings, candles: seq<Candle>, sweep: Sweep)
    requires Sane(cfg) && Shift(candles, cfg.mss, sweep).Some?
    ensures Shift(candles, cfg.mss, sweep).value.bodyRatio >= cfg.mss.multiplier
  {
    var swings := SwingsOf(candles, cfg.mss.swing);
    var k, d := ShiftIsGenuine(candles, swings, cfg.mss, sweep,
                               ConfirmingCandle(candles, swings, cfg.mss, sweep, 0).value);
  }

  lemma GapIsLarge(cfg: Settings, candles: seq<Candle>, mss: Mss, g: Fvg)
    requires Sane(cfg) && IsZone(cfg, candles, mss, GapPoi(g))
    ensures g.sizeRatio >= cfg.fvgMinSize
  {
  }

  /**
    The decision on a sweep is the one verdict its shift, its entry zone, the prices and the levels call
    for.
  */
  lemma VerdictIff(cfg: Settings, candles: seq<Candle>, sweep: Sweep, bias: Trend, kz: Killzone,
                   levels: seq<MarkedLevel>, v: Verdict)
    requires Sane(cfg) && candles != []
    ensures v == Decide(cfg, candles, sweep, bias, kz, levels)
            <==> IsVerdict(cfg, candles, sweep, bias, kz, levels, v)
  {
    var shift := Shift(candles, cfg.mss, sweep);
    if shift.Some? {
      var mss := shift.value;
      ShiftIsStrong(cfg, candles, sweep);
      var zone := ChoosePoi(Fvgs(candles, GapScan(cfg, mss)), OrderBlockFor(candles, mss, ORDER_BLOCK_LOOKBACK));
      forall poi ensures zone == Some(poi) <==> IsZone(cfg, candles, mss, poi) {
        ZoneIff(cfg, candles, mss, poi);
      }
      if zone.Some? {
        if zone.value.GapPoi? {
          GapIsLarge(cfg, candles, mss, zone.value.fvg);
        }
        var w := PlanTrade(cfg, sweep, bias, kz, levels, mss, zone.value);
        PlanIsPlanned(cfg, sweep, bias, kz, levels, mss, zone.value);
        if Planned(cfg, sweep, bias, kz, levels, mss, zone.value, v) {
          PlannedUnique(cfg, sweep, bias, kz, levels, mss, zone.value, v, w);
        }
      }
    }
  }

  lemma StampedAtConfirmation(cfg: Settings, sweep: Sweep, bias: Trend, kz: Killzone, levels: seq<MarkedLevel>,
                              mss: Mss, poi: Poi)
    ensures var v := PlanTrade(cfg, sweep, bias, kz, levels, mss, poi);
            v.Accepted? ==> v.setup.plan.timestamp == mss.confirmTime && v.setup.mss == mss && v.setup.poi == poi
                            && v.setup.plan.entry == poi.Proximal()
  {
  }

  /** An accepted setup: its shift and its zone are those of the frame, its entry is the zone's near edge. */
  lemma AcceptedFrom(cfg: Settings, candles: seq<Candle>, sweep: Sweep, bias: Trend, kz: Killzone,
                     levels: seq<MarkedLevel>)
    ensures var v := Decide(cfg, candles, sweep, bias, kz, levels);
            v.Accepted? ==>
              && Sane(cfg) && Shift(candles, cfg.mss, sweep) == Some(v.setup.mss)
              && IsZone(cfg, candles, v.setup.mss, v.setup.poi)
              && v.setup.plan.timestamp == v.setup.mss.confirmTime && v.setup.plan.entry == v.setup.poi.Proximal()
  {
    var v := Decide(cfg, candles, sweep, bias, kz, levels);
    if v.Accepted? {
      var mss := Shift(candles, cfg.mss, sweep).value;
      var poi := ChoosePoi(Fvgs(candles, GapScan(cfg, mss)), OrderBlockFor(candles, mss, ORDER_BLOCK_LOOKBACK)).value;
      StampedAtConfirmation(cfg, sweep, bias, kz, levels, mss, poi);
      ZoneIff(cfg, candles, mss, poi);
    }
  }

  /**
    A setup confirmed after the killzone's end is rejected at its confirmation, with its sweep; every
    other verdict stands.
  */
  lemma GateIff(cfg: Settings, candles: seq<Candle>, session: Session, bias: Trend, sweep: Sweep)
    ensures var v, w := Decide(cfg, candles, sweep, bias, session.killzone, session.levels),
                JudgeOne(cfg, candles, session, bias, sweep);
            if v.Accepted? && v.setup.mss.confirmTime > session.scan.end then
              w == Rejected(v.setup.mss.confirmTime, KillzoneGating, sweep)
            else w == v
  {
    AcceptedFrom(cfg, candles, sweep, bias, session.killzone, session.levels);
  }

  /** The entry is the edge of a candle the price left behind. */
  ghost predicate EntersAtEdge(cfg: Settings, candles: seq<Candle>, s: Setup)
    requires cfg.fvgPeriod >= 1
  {
    match s.poi
    case GapPoi(g) => exists scan, j: nat ::
      && IsWindow(cfg, s.mss, scan) && FirstGap(candles, scan, j, g)
      && s.plan.entry == if s.mss.direction.Bullish? then candles[j + 1].low else candles[j + 1].high
    case BlockPoi(b) => exists d: nat, j: nat ::
      && IsBlock(candles, s.mss, 20, d, j, b)
      && s.plan.entry == if s.mss.direction.Bullish? then candles[j].high else candles[j].low
  }

  lemma ZoneEdge(cfg: Settings, candles: seq<Candle>, s: Setup)
    requires cfg.fvgPeriod >= 1 && IsZone(cfg, candles, s.mss, s.poi) && s.plan.entry == s.poi.Proximal()
    ensures EntersAtEdge(cfg, candles, s)
  {
    var scan :| IsWindow(cfg, s.mss, scan) &&
      match s.poi
      case GapPoi(g) => exists j: nat :: FirstGap(candles, scan, j, g)
      case BlockPoi(b) => NoGap(candles, scan) && exists d: nat, j: nat :: IsBlock(candles, s.mss, 20, d, j, b);
  }

  /**
    Every setup of the day enters at the near edge of its zone: for a long the low of the gap's third
    candle or the high of the block candle.
  */
  lemma DayEntersAtEdges(cfg: Settings, candles: seq<Candle>, tol: SweepDedup.Tolerance, sessions: seq<Session>,
                         s: Setup)
    requires s in SetupsOf(DayVerdicts(cfg, candles, tol, sessions))
    ensures Sane(cfg) && EntersAtEdge(cfg, candles, s)
  {
    SetupsAreAccepted(DayVerdicts(cfg, candles, tol, sessions), s);
    GatherIff(Rounds(cfg, candles, tol, sessions), |sessions|, Accepted(s));
    var i: nat :| i < |sessions| && Accepted(s) in Rounds(cfg, candles, tol, sessions)(i);
    SessionEntersAtEdge(cfg, candles, tol, sessions[i], s);
  }

  lemma SessionEntersAtEdge(cfg: Settings, candles: seq<Candle>, tol: SweepDedup.Tolerance, session: Session, s: Setup)
    requires Accepted(s) in SessionVerdicts(cfg, candles, tol, session)
    ensures Sane(cfg) && EntersAtEdge(cfg, candles, s)
  {
    var bias := session.bias.value;
    var sweeps := Aligned(Reported(candles, tol, session), bias);
    VerdictsOrigin(cfg, candles, session, bias, sweeps, Accepted(s));
    var sweep :| sweep in sweeps && Accepted(s) == JudgeOne(cfg, candles, session, bias, sweep);
    AcceptedFrom(cfg, candles, sweep, bias, session.killzone, session.levels);
    ZoneEdge(cfg, candles, s);
  }

  /**
    A sweep's pipeline refuses its settings exactly when a shift parameter is out of range, or the frame
    has a shift and a gap parameter is.
  */
  lemma RefusesIff(cfg: Settings, candles: seq<Candle>, sweep: Sweep)
    ensures Refuses(cfg, candles, sweep)
            <==> var p := cfg.mss;
                 || p.displacementLookback < 1 || p.multiplier <= 0.0 || p.forwardMinutes < 0
                 || (candles != [] && (p.swing.lookback < 1 || p.swing.amplitude < 0.0 || p.swing.period < 1))
                 || (candles != [] && Shift(candles, p, sweep).Some? && (cfg.fvgMinSize < 0.0 || cfg.fvgPeriod < 1))
  {
  }
}
