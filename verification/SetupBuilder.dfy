/** From sweep to trade plan: entry, stop, targets, grade, and the bookkeeping over a trading day. */
module SetupBuilder {
  import opened Foundations
  import opened SweepTypes
  import opened Gathering
  import opened Sorting
  import SweepDedup
  import opened SweepDetection
  import opened Swings
  import opened StructureShift
  import opened PointsOfInterest
  import opened Simulator

  // ---- take profit ----------------------------------------------------------------------------------

  datatype Target = Target(price: real, name: string, rr: real)

  /** Liquidity on the profit side of the entry. */
  predicate Opposing(d: Direction, entry: real, lv: MarkedLevel) {
    if d.Long? then lv.side.High? && lv.price > entry else lv.side.Low? && lv.price < entry
  }

  predicate JustSwept(sweep: Sweep, lv: MarkedLevel) {
    lv.name == sweep.levelName && lv.price == sweep.levelPrice
  }

  function OpposingLevels(d: Direction, entry: real, levels: seq<MarkedLevel>): seq<MarkedLevel> {
    if levels == [] then []
    else if Opposing(d, entry, levels[0]) then [levels[0]] + OpposingLevels(d, entry, levels[1..])
    else OpposingLevels(d, entry, levels[1..])
  }

  function Distance(d: Direction, entry: real): (MarkedLevel -> real) {
    (lv: MarkedLevel) => if d.Long? then lv.price - entry else entry - lv.price
  }

  function RewardRisk(entry: real, risk: real, lv: MarkedLevel): real
    requires risk != 0.0
  {
    Quotient(Abs(lv.price - entry), risk)
  }

  predicate Reaches(entry: real, risk: real, minRR: real, sweep: Sweep, lv: MarkedLevel)
    requires risk != 0.0
  {
    !JustSwept(sweep, lv) && RewardRisk(entry, risk, lv) >= minRR
  }

  function FirstReaching(entry: real, risk: real, minRR: real, sweep: Sweep, levels: seq<MarkedLevel>): Option<Target>
    requires risk != 0.0
  {
    if levels == [] then None
    else if Reaches(entry, risk, minRR, sweep, levels[0]) then
      Some(Target(levels[0].price, levels[0].name, RewardRisk(entry, risk, levels[0])))
    else FirstReaching(entry, risk, minRR, sweep, levels[1..])
  }

  function TakeProfit(d: Direction, entry: real, risk: real, levels: seq<MarkedLevel>, sweep: Sweep,
                      minRR: real): Option<Target>
    requires risk != 0.0
  {
    FirstReaching(entry, risk, minRR, sweep, StableSort(OpposingLevels(d, entry, levels), Distance(d, entry)))
  }

  /** `_select_take_profit`: sort by distance, scan from the nearest. */
  method SelectTakeProfit(d: Direction, entry: real, risk: real, levels: seq<MarkedLevel>, sweep: Sweep, minRR: real)
    returns (r: Option<Target>)
    requires risk != 0.0
    ensures r == TakeProfit(d, entry, risk, levels, sweep, minRR)
  {
    var opposing := StableSort(OpposingLevels(d, entry, levels), Distance(d, entry));
    for i := 0 to |opposing|
      invariant FirstReaching(entry, risk, minRR, sweep, opposing[i..])
                == FirstReaching(entry, risk, minRR, sweep, opposing)
    {
      assert opposing[i..][0] == opposing[i] && opposing[i..][1..] == opposing[i + 1..];
      if JustSwept(sweep, opposing[i]) {
        continue;
      }
      var rr := RewardRisk(entry, risk, opposing[i]);
      if rr >= minRR {
        return Some(Target(opposing[i].price, opposing[i].name, rr));
      }
    }
    r := None;
  }

  lemma {:induction false} OpposingLevelsAre(d: Direction, entry: real, levels: seq<MarkedLevel>, lv: MarkedLevel)
    ensures lv in OpposingLevels(d, entry, levels) <==> lv in levels && Opposing(d, entry, lv)
  {
    if levels != [] {
      OpposingLevelsAre(d, entry, levels[1..], lv);
    }
  }

  lemma {:induction false} FirstReachingIsFirst(entry: real, risk: real, minRR: real, sweep: Sweep,
                                                levels: seq<MarkedLevel>, key: MarkedLevel -> real)
    requires risk != 0.0 && SortedBy(levels, key)
    ensures var r := FirstReaching(entry, risk, minRR, sweep, levels);
            && (r.None? ==> forall lv :: lv in levels ==> !Reaches(entry, risk, minRR, sweep, lv))
            && (r.Some? ==> exists best :: best in levels && Reaches(entry, risk, minRR, sweep, best)
                              && r.value == Target(best.price, best.name, RewardRisk(entry, risk, best))
                              && forall lv ::
                                    lv in levels && Reaches(entry, risk, minRR, sweep, lv) ==> key(best) <= key(lv))
  {
    if levels != [] {
      FirstReachingIsFirst(entry, risk, minRR, sweep, levels[1..], key);
      assert forall lv :: lv in levels ==> lv == levels[0] || lv in levels[1..];
      if Reaches(entry, risk, minRR, sweep, levels[0]) {
        forall lv | lv in levels ensures key(levels[0]) <= key(lv) {
          var i :| 0 <= i < |levels| && levels[i] == lv;
        }
        assert levels[0] in levels;
      }
    }
  }

  /** The chosen level: on the profit side, not the one just swept, reaching the minimum R:R, and the nearest such. */
  ghost predicate NearestTarget(d: Direction, entry: real, risk: real, levels: seq<MarkedLevel>, sweep: Sweep,
                                minRR: real, t: Target)
    requires risk != 0.0
  {
    exists best :: best in levels && Opposing(d, entry, best) && Reaches(entry, risk, minRR, sweep, best)
      && t == Target(best.price, best.name, RewardRisk(entry, risk, best))
      && forall lv :: lv in levels && Opposing(d, entry, lv) && Reaches(entry, risk, minRR, sweep, lv) ==>
           Abs(best.price - entry) <= Abs(lv.price - entry)
  }

  /** `None` means no opposing level reaches the minimum R:R; otherwise the nearest one that does is taken. */
  lemma TakeProfitIsNearest(d: Direction, entry: real, risk: real, levels: seq<MarkedLevel>, sweep: Sweep, minRR: real)
    requires risk != 0.0
    ensures var r := TakeProfit(d, entry, risk, levels, sweep, minRR);
            && (r.None? <==>
                forall lv :: lv in levels && Opposing(d, entry, lv) ==> !Reaches(entry, risk, minRR, sweep, lv))
            && (r.Some? ==> NearestTarget(d, entry, risk, levels, sweep, minRR, r.value))
  {
    var opposing, key := OpposingLevels(d, entry, levels), Distance(d, entry);
    var sorted := StableSort(opposing, key);
    StableSortSorts(opposing, key);
    StableSortMembers(opposing, key);
    FirstReachingIsFirst(entry, risk, minRR, sweep, sorted, key);
    forall lv ensures lv in sorted <==> lv in levels && Opposing(d, entry, lv) {
      OpposingLevelsAre(d, entry, levels, lv);
    }
    assert forall lv :: lv in sorted ==> key(lv) == Abs(lv.price - entry);
  }

  /** `_no_opposing_or_low_rr`. */
  function WhyNoTarget(d: Direction, entry: real, levels: seq<MarkedLevel>, sweep: Sweep): Reason {
    if exists i :: 0 <= i < |levels| && Opposing(d, entry, levels[i]) && !JustSwept(sweep, levels[i])
    then RrBelowThreshold
    else NoOpposingLiquidity
  }

  // ---- partial target -------------------------------------------------------------------------------

  /** `_compute_tp1`: price and R:R of the partial exit. */
  function PartialTarget(d: Direction, entry: real, risk: real, runner: Target, cap: real): (real, real) {
    if runner.rr <= cap then (runner.price, runner.rr)
    else (if d.Long? then entry + Mul(cap, risk) else entry - Mul(cap, risk), cap)
  }

  /** Signed distance from the entry in the trade's direction. */
  function Gain(d: Direction, entry: real, price: real): real {
    if d.Long? then price - entry else entry - price
  }

  /**
    For a runner on the profit side, TP1 sits at min(runner R:R, cap) risks from the entry, never
    beyond the runner; it is on the runner's side exactly when that multiple is positive.
  */
  lemma PartialTargetBetween(d: Direction, entry: real, risk: real, runner: Target, cap: real)
    requires risk > 0.0 && Gain(d, entry, runner.price) > 0.0 && runner.rr == Quotient(Abs(runner.price - entry), risk)
    ensures var (tp1, rr) := PartialTarget(d, entry, risk, runner, cap);
            && rr == Min(runner.rr, cap) && Gain(d, entry, tp1) == Mul(rr, risk)
            && Gain(d, entry, tp1) <= Gain(d, entry, runner.price)
            && (Gain(d, entry, tp1) > 0.0 <==> cap > 0.0)
  {
    var gain := Gain(d, entry, runner.price);
    MulQuotient(gain, risk);
    assert Mul(runner.rr, risk) == gain && Mul(0.0, risk) == 0.0;
    if runner.rr < 0.0 {
      MulMonotone(runner.rr, 0.0, risk);
    }
    if runner.rr > cap {
      MulMonotone(cap, runner.rr, risk);
      if cap > 0.0 {
        MulMonotone(0.0, cap, risk);
      } else if cap < 0.0 {
        MulMonotone(cap, 0.0, risk);
      }
    }
  }

  // ---- grading ----------------------------------------------------------------------------------------

  datatype Grade = APlus | A | B

  datatype Poi = GapPoi(fvg: Fvg) | BlockPoi(block: OrderBlock) {
    function Proximal(): real { if GapPoi? then fvg.proximal else block.proximal }
    function Distal(): real { if GapPoi? then fvg.distal else block.distal }
    function AsZone(): Zone { Zone(Proximal(), Distal()) }
  }

  datatype Settings = Settings(
    mss: MssParams,
    fvgMinSize: real,
    fvgPeriod: int,
    minRR: real,
    aPlusRR: real,
    partialTarget: real,
    stopBuffer: real)

  /** `_count_b_weaknesses` finds at least one. */
  predicate HasWeakness(cfg: Settings, poi: Poi, rr: real, bodyRatio: real) {
    || (poi.GapPoi? && cfg.fvgMinSize <= poi.fvg.sizeRatio < Mul(1.5, cfg.fvgMinSize))
    || 1.0 <= bodyRatio < cfg.mss.multiplier
    || rr < Mul(1.01, cfg.minRR)
    || poi.BlockPoi?
  }

  /** `grade_setup`. */
  function GradeSetup(cfg: Settings, strength: Strength, poi: Poi, rr: real, bodyRatio: real,
                      ote: bool): Option<Grade> {
    if (strength.Structural? || strength.Major?) && bodyRatio >= cfg.mss.multiplier && poi.GapPoi? && ote
        && rr >= cfg.aPlusRR then Some(APlus)
    else if !strength.Minor? && poi.GapPoi? && rr >= cfg.minRR then Some(A)
    else if rr >= cfg.minRR && HasWeakness(cfg, poi, rr, bodyRatio) then Some(B)
    else None
  }

  // ---- one sweep ----------------------------------------------------------------------------------------

  datatype Killzone = London | NewYork

  datatype Reason =
    | NoMss | NoPoi | InvalidRisk | NoOpposingLiquidity | RrBelowThreshold | GradeRejected | KillzoneGating

  datatype Setup = Setup(plan: Plan, bias: Trend, killzone: Killzone, sweep: Sweep, mss: Mss, poi: Poi,
                         targetName: string, quality: Grade)

  datatype Verdict = Accepted(setup: Setup) | Rejected(timestamp: int, reason: Reason, sweep: Sweep)

  const FVG_FORWARD_MINUTES := 30
  const SECOND := 1_000_000

  /** Gaps are searched from the displacement candle (to the second) to half an hour after confirmation. */
  function GapScan(cfg: Settings, mss: Mss): FvgScan {
    FvgScan(mss.direction, mss.displacementTime - mss.displacementTime % SECOND,
            mss.confirmTime + FVG_FORWARD_MINUTES * MINUTE,
            cfg.fvgMinSize, cfg.fvgPeriod)
  }

  function ChoosePoi(fvgs: seq<Fvg>, block: Option<OrderBlock>): Option<Poi> {
    if fvgs != [] then Some(GapPoi(fvgs[0]))
    else if block.Some? then Some(BlockPoi(block.value))
    else None
  }

  function StopFor(d: Direction, extreme: real, buffer: real): real {
    if d.Long? then extreme - buffer else extreme + buffer
  }

  function DirectionOf(t: Trend): Direction { if t.Bullish? then Long else Short }

  function Reject(sweep: Sweep, why: Reason): Verdict { Rejected(sweep.time, why, sweep) }

  function StopOf(cfg: Settings, sweep: Sweep, mss: Mss): real {
    StopFor(DirectionOf(mss.direction), sweep.extreme, cfg.stopBuffer)
  }

  /** Entry at the near edge of the zone, stop beyond the sweep, exits toward the target. */
  function PlanFor(cfg: Settings, sweep: Sweep, mss: Mss, poi: Poi, target: Target): Plan {
    var d := DirectionOf(mss.direction);
    var (tp1, tp1RR) :=
        PartialTarget(d, poi.Proximal(), Abs(poi.Proximal() - StopOf(cfg, sweep, mss)), target, cfg.partialTarget);
    Plan(mss.confirmTime, d, poi.Proximal(), StopOf(cfg, sweep, mss), tp1, target.price, tp1RR, target.rr)
  }

  /** The plan toward a chosen target, once graded. */
  function PlanToward(cfg: Settings, sweep: Sweep, bias: Trend, kz: Killzone, mss: Mss, poi: Poi,
                      target: Target): Verdict {
    var ote := OteOverlaps(poi.AsZone(), sweep.extreme, mss.brokenPrice);
    var grade := GradeSetup(cfg, sweep.levelStrength, poi, target.rr, mss.bodyRatio, ote);
    if grade.None? then Reject(sweep, GradeRejected)
    else Accepted(Setup(PlanFor(cfg, sweep, mss, poi, target), bias, kz, sweep, mss, poi, target.name, grade.value))
  }

  /** The plan of a trade with a positive risk. */
  function PlanAt(cfg: Settings, sweep: Sweep, bias: Trend, kz: Killzone, levels: seq<MarkedLevel>, mss: Mss, poi: Poi,
                  d: Direction, entry: real, risk: real): Verdict
    requires risk != 0.0
  {
    var target := TakeProfit(d, entry, risk, levels, sweep, cfg.minRR);
    if target.None? then Reject(sweep, WhyNoTarget(d, entry, levels, sweep))
    else PlanToward(cfg, sweep, bias, kz, mss, poi, target.value)
  }

  /** The trade plan for a shift and an entry zone. */
  function PlanTrade(cfg: Settings, sweep: Sweep, bias: Trend, kz: Killzone, levels: seq<MarkedLevel>, mss: Mss,
                     poi: Poi): Verdict {
    var risk := Abs(poi.Proximal() - StopOf(cfg, sweep, mss));
    if risk <= 0.0 then Reject(sweep, InvalidRisk)
    else PlanAt(cfg, sweep, bias, kz, levels, mss, poi, DirectionOf(mss.direction), poi.Proximal(), risk)
  }

  /** Settings that none of the detectors rejects. */
  ghost predicate Sane(cfg: Settings) {
    && Usable(cfg.mss) && cfg.mss.multiplier > 0.0 && cfg.mss.forwardMinutes >= 0 && cfg.mss.swing.amplitude >= 0.0
    && cfg.fvgMinSize >= 0.0 && cfg.fvgPeriod >= 1
  }

  /** Entry zone and plan after a shift. */
  function DecideAfter(cfg: Settings, candles: seq<Candle>, sweep: Sweep, bias: Trend, kz: Killzone,
                       levels: seq<MarkedLevel>, mss: Mss): Verdict
    requires cfg.fvgPeriod >= 1
  {
    var poi := ChoosePoi(Fvgs(candles, GapScan(cfg, mss)), OrderBlockFor(candles, mss, ORDER_BLOCK_LOOKBACK));
    if poi.None? then Reject(sweep, NoPoi) else PlanTrade(cfg, sweep, bias, kz, levels, mss, poi.value)
  }

  /** What `_try_build_setup` decides for one sweep, unless it refuses its settings. */
  ghost function Decide(cfg: Settings, candles: seq<Candle>, sweep: Sweep, bias: Trend, kz: Killzone,
                        levels: seq<MarkedLevel>): Verdict {
    if !Sane(cfg) || candles == [] then Reject(sweep, NoMss)
    else
      var mss := Shift(candles, cfg.mss, sweep);
      if mss.None? then Reject(sweep, NoMss) else DecideAfter(cfg, candles, sweep, bias, kz, levels, mss.value)
  }

  /** A detector raises `ValueError`: the shift detector at once, the gap detector once there is a shift. */
  ghost predicate Refuses(cfg: Settings, candles: seq<Candle>, sweep: Sweep) {
    || !AcceptedMss(candles, cfg.mss)
    || (candles != [] && Shift(candles, cfg.mss, sweep).Some? && (cfg.fvgMinSize < 0.0 || cfg.fvgPeriod < 1))
  }

  lemma {:induction false} PivotNeedsThree(candles: seq<Candle>, p: SwingParams, sweep: Sweep, k: int)
    requires p.lookback >= 1 && p.period >= 1 && k < |candles|
    ensures LatestPivot(SwingsOf(candles, p), sweep, k).Some? ==> |candles| >= 3
  {
    if k >= 0 {
      PivotNeedsThree(candles, p, sweep, k - 1);
    }
  }

  /** A shift breaks a confirmed fractal, which has a bar on either side. */
  lemma ShiftNeedsThree(candles: seq<Candle>, p: MssParams, sweep: Sweep)
    requires Usable(p) && Shift(candles, p, sweep).Some?
    ensures |candles| >= 3
  {
    var swings := SwingsOf(candles, p.swing);
    var i := ConfirmingCandle(candles, swings, p, sweep, 0).value;
    ConfirmingConfirms(candles, swings, p, sweep, 0);
    PivotNeedsThree(candles, p.swing, sweep, i - p.swing.lookback);
  }

  /** Risk, target, partial target and grade for one entry zone. */
  method MakePlan(cfg: Settings, sweep: Sweep, bias: Trend, kz: Killzone, levels: seq<MarkedLevel>, mss: Mss, poi: Poi)
    returns (v: Verdict)
    ensures v == PlanTrade(cfg, sweep, bias, kz, levels, mss, poi)
  {
    var d := DirectionOf(mss.direction);
    var entry := poi.Proximal();
    var risk := Abs(entry - StopOf(cfg, sweep, mss));
    if risk <= 0.0 {
      return Reject(sweep, InvalidRisk);
    }
    var target := SelectTakeProfit(d, entry, risk, levels, sweep, cfg.minRR);
    if target.None? {
      return Reject(sweep, WhyNoTarget(d, entry, levels, sweep));
    }
    v := PlanToward(cfg, sweep, bias, kz, mss, poi, target.value);
  }

  /** Entry zone and plan after a shift. */
  method BuildAfter(cfg: Settings, candles: seq<Candle>, sweep: Sweep, bias: Trend, kz: Killzone,
                    levels: seq<MarkedLevel>, mss: Mss)
    returns (r: Result<Verdict>)
    ensures r.Err? <==> cfg.fvgMinSize < 0.0 || (|candles| >= 3 && cfg.fvgPeriod < 1)
    ensures r.Ok? && cfg.fvgPeriod >= 1 ==> r.value == DecideAfter(cfg, candles, sweep, bias, kz, levels, mss)
  {
    var fvgs := DetectFvgs(candles, GapScan(cfg, mss));
    if fvgs.Err? {
      return Err(fvgs.error);
    }
    var block := DetectOrderBlock(candles, mss, ORDER_BLOCK_LOOKBACK);
    var poi := ChoosePoi(fvgs.value, block.value);
    if poi.None? {
      return Ok(Reject(sweep, NoPoi));
    }
    var v := MakePlan(cfg, sweep, bias, kz, levels, mss, poi.value);
    r := Ok(v);
  }

  /** `_try_build_setup`; a detector's `ValueError` passes through. */
  method TryBuildSetup(cfg: Settings, candles: seq<Candle>, sweep: Sweep, bias: Trend, kz: Killzone,
                       levels: seq<MarkedLevel>)
    returns (r: Result<Verdict>)
    ensures r.Err? <==> Refuses(cfg, candles, sweep)
    ensures r.Ok? ==> r.value == Decide(cfg, candles, sweep, bias, kz, levels)
  {
    var shift := DetectMss(candles, sweep, cfg.mss);
    if shift.Err? {
      return Err(shift.error);
    }
    if shift.value.None? {
      return Ok(Reject(sweep, NoMss));
    }
    ShiftNeedsThree(candles, cfg.mss, sweep);
    r := BuildAfter(cfg, candles, sweep, bias, kz, levels, shift.value.value);
  }

  // ---- a trading day --------------------------------------------------------------------------------------

  /** One killzone: its window, its levels, and the bias in force, if any. */
  datatype Session = Session(killzone: Killzone, scan: Scan, bias: Option<Trend>, levels: seq<MarkedLevel>)

  function Aligned(sweeps: seq<Sweep>, bias: Trend): seq<Sweep> {
    if sweeps == [] then []
    else if sweeps[|sweeps| - 1].direction == bias then Aligned(sweeps[..|sweeps| - 1], bias) + [sweeps[|sweeps| - 1]]
    else Aligned(sweeps[..|sweeps| - 1], bias)
  }

  /** Setups confirmed after the killzone's end are dropped; the end itself still counts. */
  function Gate(v: Verdict, sweep: Sweep, end: int): Verdict {
    if v.Accepted? && v.setup.plan.timestamp > end then Rejected(v.setup.plan.timestamp, KillzoneGating, sweep) else v
  }

  ghost function JudgeOne(cfg: Settings, candles: seq<Candle>, session: Session, bias: Trend, sweep: Sweep): Verdict
  {
    Gate(Decide(cfg, candles, sweep, bias, session.killzone, session.levels), sweep, session.scan.end)
  }

  ghost function Verdicts(cfg: Settings, candles: seq<Candle>, session: Session, bias: Trend,
                          sweeps: seq<Sweep>): (vs: seq<Verdict>)
    ensures |vs| == |sweeps|
  {
    if sweeps == [] then []
    else
      Verdicts(cfg, candles, session, bias, sweeps[..|sweeps| - 1])
          + [JudgeOne(cfg, candles, session, bias, sweeps[|sweeps| - 1])]
  }

  function SetupsOf(vs: seq<Verdict>): seq<Setup> {
    if vs == [] then []
    else SetupsOf(vs[..|vs| - 1]) + (if vs[|vs| - 1].Accepted? then [vs[|vs| - 1].setup] else [])
  }

  function RejectionsOf(vs: seq<Verdict>): seq<Verdict> {
    if vs == [] then []
    else RejectionsOf(vs[..|vs| - 1]) + (if vs[|vs| - 1].Rejected? then [vs[|vs| - 1]] else [])
  }

  lemma VerdictsAppend(cfg: Settings, candles: seq<Candle>, session: Session, bias: Trend, sweeps: seq<Sweep>,
                       before: seq<Verdict>, v: Verdict)
    requires sweeps != []
    requires before == Verdicts(cfg, candles, session, bias, sweeps[..|sweeps| - 1])
             && v == JudgeOne(cfg, candles, session, bias, sweeps[|sweeps| - 1])
    ensures Verdicts(cfg, candles, session, bias, sweeps) == before + [v]
  {
  }

  lemma VerdictsStep(cfg: Settings, candles: seq<Candle>, session: Session, bias: Trend, sweeps: seq<Sweep>, i: nat,
                     before: seq<Verdict>, v: Verdict)
    requires i < |sweeps|
    requires before == Verdicts(cfg, candles, session, bias, sweeps[..i])
             && v == JudgeOne(cfg, candles, session, bias, sweeps[i])
    ensures var after := Verdicts(cfg, candles, session, bias, sweeps[..i + 1]);
            && SetupsOf(after) == SetupsOf(before) + (if v.Accepted? then [v.setup] else [])
            && RejectionsOf(after) == RejectionsOf(before) + (if v.Rejected? then [v] else [])
  {
    var after := Verdicts(cfg, candles, session, bias, sweeps[..i + 1]);
    assert sweeps[..i + 1][..i] == sweeps[..i];
    assert after == before + [v];
    assert after[..|after| - 1] == before;
  }

  /** `setups` and `rejected` split the verdicts on `sweeps`, none of which is refused. */
  ghost predicate Judged(cfg: Settings, candles: seq<Candle>, session: Session, bias: Trend, sweeps: seq<Sweep>,
                         setups: seq<Setup>, rejected: seq<Verdict>) {
    && (forall i :: 0 <= i < |sweeps| ==> !Refuses(cfg, candles, sweeps[i]))
    && setups == SetupsOf(Verdicts(cfg, candles, session, bias, sweeps))
    && rejected == RejectionsOf(Verdicts(cfg, candles, session, bias, sweeps))
  }

  lemma JudgedStep(cfg: Settings, candles: seq<Candle>, session: Session, bias: Trend, sweeps: seq<Sweep>, i: nat,
                   setups: seq<Setup>, rejected: seq<Verdict>, v: Verdict)
    requires i < |sweeps| && Judged(cfg, candles, session, bias, sweeps[..i], setups, rejected)
    requires !Refuses(cfg, candles, sweeps[i]) && v == JudgeOne(cfg, candles, session, bias, sweeps[i])
    ensures Judged(cfg, candles, session, bias, sweeps[..i + 1], setups + (if v.Accepted? then [v.setup] else []),
                   rejected + (if v.Rejected? then [v] else []))
  {
    VerdictsStep(cfg, candles, session, bias, sweeps, i, Verdicts(cfg, candles, session, bias, sweeps[..i]), v);
  }

  /** One sweep, with the killzone gate. */
  method Judge(cfg: Settings, candles: seq<Candle>, session: Session, bias: Trend, sweep: Sweep)
    returns (r: Result<Verdict>)
    ensures r.Err? <==> Refuses(cfg, candles, sweep)
    ensures r.Ok? ==> r.value == JudgeOne(cfg, candles, session, bias, sweep)
  {
    var v := TryBuildSetup(cfg, candles, sweep, bias, session.killzone, session.levels);
    if v.Ok? && v.value.Accepted? && v.value.setup.plan.timestamp > session.scan.end {
      return Ok(Rejected(v.value.setup.plan.timestamp, KillzoneGating, sweep));
    }
    r := v;
  }

  /** The inner loop over the aligned sweeps of one killzone. */
  method JudgeSweeps(cfg: Settings, candles: seq<Candle>, session: Session, bias: Trend, sweeps: seq<Sweep>)
    returns (setups: seq<Setup>, rejected: seq<Verdict>, error: Option<string>)
    ensures error.Some? <==> exists i :: 0 <= i < |sweeps| && Refuses(cfg, candles, sweeps[i])
    ensures error.None? ==> setups == SetupsOf(Verdicts(cfg, candles, session, bias, sweeps))
                            && rejected == RejectionsOf(Verdicts(cfg, candles, session, bias, sweeps))
  {
    setups, rejected, error := [], [], None;
    for i := 0 to |sweeps|
      invariant error.None? && Judged(cfg, candles, session, bias, sweeps[..i], setups, rejected)
    {
      var v := Judge(cfg, candles, session, bias, sweeps[i]);
      if v.Err? {
        error := Some(v.error);
        return;
      }
      JudgedStep(cfg, candles, session, bias, sweeps, i, setups, rejected, v.value);
      if v.value.Rejected? {
        rejected := rejected + [v.value];
        continue;
      }
      setups := setups + [v.value.setup];
    }
    assert sweeps[..|sweeps|] == sweeps;
  }

  /** The deduplicated sweeps of a killzone; without a bias the detector is not asked. */
  ghost function Reported(candles: seq<Candle>, tol: SweepDedup.Tolerance, session: Session): seq<Sweep> {
    if session.bias.None? then [] else SweepDedup.Dedup(tol, RawSweeps(candles, session.levels, session.scan))
  }

  /** One verdict for every sweep along the bias. */
  ghost function SessionVerdicts(cfg: Settings, candles: seq<Candle>, tol: SweepDedup.Tolerance,
                                 session: Session): seq<Verdict>
  {
    if session.bias.None? then []
    else Verdicts(cfg, candles, session, session.bias.value,
                  Aligned(Reported(candles, tol, session), session.bias.value))
  }

  ghost function Rounds(cfg: Settings, candles: seq<Candle>, tol: SweepDedup.Tolerance,
                        sessions: seq<Session>): (nat -> seq<Verdict>)
  {
    (i: nat) => if i < |sessions| then SessionVerdicts(cfg, candles, tol, sessions[i]) else []
  }

  /** The verdicts of all killzones, in order. */
  ghost function DayVerdicts(cfg: Settings, candles: seq<Candle>, tol: SweepDedup.Tolerance,
                             sessions: seq<Session>): seq<Verdict>
  {
    Gather(Rounds(cfg, candles, tol, sessions), |sessions|)
  }

  lemma {:induction false} SplitAppend(a: seq<Verdict>, b: seq<Verdict>)
    ensures SetupsOf(a + b) == SetupsOf(a) + SetupsOf(b) && RejectionsOf(a + b) == RejectionsOf(a) + RejectionsOf(b)
    decreases |b|
  {
    if b == [] {
      assert a + b == a;
    } else {
      assert (a + b)[..|a + b| - 1] == a + b[..|b| - 1];
      SplitAppend(a, b[..|b| - 1]);
    }
  }

  /** The sweep detector raises `ValueError`. */
  predicate DetectorRefuses(candles: seq<Candle>, session: Session, tol: SweepDedup.Tolerance) {
    || session.scan.buffer < 0.0 || session.scan.window < 0
    || ((tol.minutes < 0 || tol.fraction < 0.0) && session.levels != []
        && exists i :: 0 <= i < |candles| && InKillzone(session.scan, candles[i]))
  }

  /** A killzone with a bias in which some detector raises `ValueError`. */
  ghost predicate SessionFails(cfg: Settings, candles: seq<Candle>, tol: SweepDedup.Tolerance, session: Session) {
    session.bias.Some?
    && (DetectorRefuses(candles, session, tol)
        || exists sweep ::
              sweep in Aligned(Reported(candles, tol, session), session.bias.value) && Refuses(cfg, candles, sweep))
  }

  /** One killzone of the outer loop: detect, align, judge. */
  method RunSession(cfg: Settings, candles: seq<Candle>, session: Session, tol: SweepDedup.Tolerance)
    returns (setups: seq<Setup>, rejected: seq<Verdict>, error: Option<string>)
    ensures error.Some? <==> SessionFails(cfg, candles, tol, session)
    ensures error.None? ==> setups == SetupsOf(SessionVerdicts(cfg, candles, tol, session))
                            && rejected == RejectionsOf(SessionVerdicts(cfg, candles, tol, session))
  {
    if session.bias.None? {
      return [], [], None;
    }
    var found := DetectSweeps(candles, session.levels, session.scan, true, tol);
    if found.Err? {
      return [], [], Some(found.error);
    }
    ghost var aligned := Aligned(found.value, session.bias.value);
    setups, rejected, error :=
        JudgeSweeps(cfg, candles, session, session.bias.value, Aligned(found.value, session.bias.value));
    assert (exists i :: 0 <= i < |aligned| && Refuses(cfg, candles, aligned[i]))
           <==> exists sweep :: sweep in aligned && Refuses(cfg, candles, sweep);
  }

  /** The first `n` killzones succeeded; `setups` and `rejected` split their verdicts. */
  ghost predicate DayUpTo(cfg: Settings, candles: seq<Candle>, tol: SweepDedup.Tolerance, sessions: seq<Session>,
                          n: nat,
                          setups: seq<Setup>, rejected: seq<Verdict>) {
    && n <= |sessions| && (forall j :: 0 <= j < n ==> !SessionFails(cfg, candles, tol, sessions[j]))
    && setups == SetupsOf(Gather(Rounds(cfg, candles, tol, sessions), n))
    && rejected == RejectionsOf(Gather(Rounds(cfg, candles, tol, sessions), n))
  }

  ghost predicate DayFails(cfg: Settings, candles: seq<Candle>, tol: SweepDedup.Tolerance, sessions: seq<Session>) {
    exists i :: 0 <= i < |sessions| && SessionFails(cfg, candles, tol, sessions[i])
  }

  /** No killzone fails; the day's setups and rejections, each in the order of the verdicts. */
  ghost predicate SplitsDay(cfg: Settings, candles: seq<Candle>, tol: SweepDedup.Tolerance, sessions: seq<Session>,
                            setups: seq<Setup>, rejected: seq<Verdict>) {
    && !DayFails(cfg, candles, tol, sessions)
    && setups == SetupsOf(DayVerdicts(cfg, candles, tol, sessions))
    && rejected == RejectionsOf(DayVerdicts(cfg, candles, tol, sessions))
  }

  lemma DayBegins(cfg: Settings, candles: seq<Candle>, tol: SweepDedup.Tolerance, sessions: seq<Session>)
    ensures DayUpTo(cfg, candles, tol, sessions, 0, [], [])
  {
  }

  lemma DayIsDone(cfg: Settings, candles: seq<Candle>, tol: SweepDedup.Tolerance, sessions: seq<Session>,
                  setups: seq<Setup>, rejected: seq<Verdict>)
    requires DayUpTo(cfg, candles, tol, sessions, |sessions|, setups, rejected)
    ensures SplitsDay(cfg, candles, tol, sessions, setups, rejected)
  {
  }

  lemma DayStep(cfg: Settings, candles: seq<Candle>, tol: SweepDedup.Tolerance, sessions: seq<Session>, n: nat,
                setups: seq<Setup>, rejected: seq<Verdict>, more: seq<Setup>, less: seq<Verdict>)
    requires n < |sessions| && DayUpTo(cfg, candles, tol, sessions, n, setups, rejected)
    requires !SessionFails(cfg, candles, tol, sessions[n])
    requires more == SetupsOf(SessionVerdicts(cfg, candles, tol, sessions[n]))
    requires less == RejectionsOf(SessionVerdicts(cfg, candles, tol, sessions[n]))
    ensures DayUpTo(cfg, candles, tol, sessions, n + 1, setups + more, rejected + less)
  {
    var f := Rounds(cfg, candles, tol, sessions);
    SplitAppend(Gather(f, n), f(n));
  }

  /**
    `build_setup_candidates`, given each killzone's bias and levels.  A day either fails in a
    detector or sorts every bias-aligned sweep into the setups or the rejections.
  */
  method BuildSetupCandidates(cfg: Settings, candles: seq<Candle>, sessions: seq<Session>, tol: SweepDedup.Tolerance)
    returns (setups: seq<Setup>, rejected: seq<Verdict>, error: Option<string>)
    ensures error.Some? ==> DayFails(cfg, candles, tol, sessions)
    ensures error.None? ==> SplitsDay(cfg, candles, tol, sessions, setups, rejected)
  {
    setups, rejected, error := [], [], None;
    DayBegins(cfg, candles, tol, sessions);
    for i := 0 to |sessions|
      invariant error.None? && DayUpTo(cfg, candles, tol, sessions, i, setups, rejected)
    {
      setups, rejected, error := AddSession(cfg, candles, tol, sessions, i, setups, rejected);
      if error.Some? {
        return;
      }
    }
    DayIsDone(cfg, candles, tol, sessions, setups, rejected);
  }

  /** One iteration: extend the day by the killzone `n`. */
  method AddSession(cfg: Settings, candles: seq<Candle>, tol: SweepDedup.Tolerance, sessions: seq<Session>, n: nat,
                    setups: seq<Setup>, rejected: seq<Verdict>)
    returns (setups': seq<Setup>, rejected': seq<Verdict>, error: Option<string>)
    requires n < |sessions| && DayUpTo(cfg, candles, tol, sessions, n, setups, rejected)
    ensures error.Some? ==> DayFails(cfg, candles, tol, sessions)
    ensures error.None? ==> DayUpTo(cfg, candles, tol, sessions, n + 1, setups', rejected')
  {
    var more, less, failure := RunSession(cfg, candles, sessions[n], tol);
    if failure.Some? {
      return setups, rejected, failure;
    }
    DayStep(cfg, candles, tol, sessions, n, setups, rejected, more, less);
    return setups + more, rejected + less, None;
  }

  // ---- what the day's bookkeeping guarantees ------------------------------------------------------------------

  /** The sweep a verdict is about. */
  function SweepOf(v: Verdict): Sweep { if v.Accepted? then v.setup.sweep else v.sweep }

  function SweepOfSetup(s: Setup): Sweep { s.sweep }

  lemma PlannedForItsSweep(cfg: Settings, sweep: Sweep, bias: Trend, kz: Killzone, levels: seq<MarkedLevel>, mss: Mss,
                           poi: Poi)
    ensures SweepOf(PlanTrade(cfg, sweep, bias, kz, levels, mss, poi)) == sweep
  {
  }

  lemma JudgedForItsSweep(cfg: Settings, candles: seq<Candle>, session: Session, bias: Trend, sweep: Sweep)
    ensures SweepOf(JudgeOne(cfg, candles, session, bias, sweep)) == sweep
  {
    if Sane(cfg) && candles != [] && Shift(candles, cfg.mss, sweep).Some? {
      var mss := Shift(candles, cfg.mss, sweep).value;
      var poi := ChoosePoi(Fvgs(candles, GapScan(cfg, mss)), OrderBlockFor(candles, mss, ORDER_BLOCK_LOOKBACK));
      if poi.Some? {
        PlannedForItsSweep(cfg, sweep, bias, session.killzone, session.levels, mss, poi.value);
      }
    }
  }

  lemma {:induction false} VerdictsCarrySweeps(cfg: Settings, candles: seq<Candle>, session: Session, bias: Trend,
                                               sweeps: seq<Sweep>)
    ensures Each(SweepOf, Verdicts(cfg, candles, session, bias, sweeps)) == sweeps
    decreases |sweeps|
  {
    if sweeps != [] {
      var init, last := sweeps[..|sweeps| - 1], sweeps[|sweeps| - 1];
      var before, v := Verdicts(cfg, candles, session, bias, init), JudgeOne(cfg, candles, session, bias, last);
      VerdictsCarrySweeps(cfg, candles, session, bias, init);
      JudgedForItsSweep(cfg, candles, session, bias, last);
      VerdictsAppend(cfg, candles, session, bias, sweeps, before, v);
      EachAppend(SweepOf, before, [v]);
      assert sweeps == init + [last] && Each(SweepOf, [v]) == [last];
    }
  }

  /** The bias-aligned sweeps of each killzone. */
  ghost function AlignedIn(candles: seq<Candle>, tol: SweepDedup.Tolerance,
                           sessions: seq<Session>): (nat -> seq<Sweep>) {
    (i: nat) =>
      if i < |sessions| && sessions[i].bias.Some?
      then Aligned(Reported(candles, tol, sessions[i]), sessions[i].bias.value)
      else []
  }

  /** The bias-aligned sweeps of the day, killzone by killzone. */
  ghost function AlignedSweeps(candles: seq<Candle>, tol: SweepDedup.Tolerance, sessions: seq<Session>): seq<Sweep> {
    Gather(AlignedIn(candles, tol, sessions), |sessions|)
  }

  /** Splitting the verdicts loses none and duplicates none. */
  lemma {:induction false} SplitIsPartition(vs: seq<Verdict>)
    ensures multiset(Each(SweepOfSetup, SetupsOf(vs))) + multiset(Each(SweepOf, RejectionsOf(vs)))
            == multiset(Each(SweepOf, vs))
    ensures forall v :: v in RejectionsOf(vs) ==> v.Rejected?
  {
    if vs != [] {
      var init, last := vs[..|vs| - 1], vs[|vs| - 1];
      SplitIsPartition(init);
      assert vs == init + [last];
      EachAppend(SweepOf, init, [last]);
      var one := [SweepOf(last)];
      assert Each(SweepOf, vs) == Each(SweepOf, init) + one;
      if last.Accepted? {
        EachAppend(SweepOfSetup, SetupsOf(init), [last.setup]);
        assert RejectionsOf(vs) == RejectionsOf(init) && SetupsOf(vs) == SetupsOf(init) + [last.setup];
        assert Each(SweepOfSetup, SetupsOf(vs)) == Each(SweepOfSetup, SetupsOf(init)) + one;
      } else {
        EachAppend(SweepOf, RejectionsOf(init), [last]);
        assert SetupsOf(vs) == SetupsOf(init) && RejectionsOf(vs) == RejectionsOf(init) + [last];
        assert Each(SweepOf, RejectionsOf(vs)) == Each(SweepOf, RejectionsOf(init)) + one;
      }
    }
  }

  /** The day's verdicts are about its bias-aligned sweeps, one each and in order. */
  lemma DayVerdictsCarrySweeps(cfg: Settings, candles: seq<Candle>, tol: SweepDedup.Tolerance, sessions: seq<Session>)
    ensures Each(SweepOf, DayVerdicts(cfg, candles, tol, sessions)) == AlignedSweeps(candles, tol, sessions)
  {
    var f, g := Rounds(cfg, candles, tol, sessions), AlignedIn(candles, tol, sessions);
    forall i: nat | i < |sessions| ensures g(i) == Each(SweepOf, f(i)) {
      if sessions[i].bias.Some? {
        VerdictsCarrySweeps(cfg, candles, sessions[i], sessions[i].bias.value, g(i));
      }
    }
    GatherEach(SweepOf, f, g, |sessions|);
  }

  /**
    Every bias-aligned sweep of the day ends as exactly one setup or one rejection: verdict `k` is about
    aligned sweep `k`, and the sweeps of the setups and of the rejections together are the aligned ones.
  */
  lemma EveryAlignedSweepIsJudgedOnce(cfg: Settings, candles: seq<Candle>, tol: SweepDedup.Tolerance,
                                      sessions: seq<Session>)
    ensures var vs, sweeps := DayVerdicts(cfg, candles, tol, sessions), AlignedSweeps(candles, tol, sessions);
            && |vs| == |sweeps| && (forall k :: 0 <= k < |vs| ==> SweepOf(vs[k]) == sweeps[k])
            && multiset(Each(SweepOfSetup, SetupsOf(vs))) + multiset(Each(SweepOf, RejectionsOf(vs)))
                == multiset(sweeps)
  {
    var vs := DayVerdicts(cfg, candles, tol, sessions);
    DayVerdictsCarrySweeps(cfg, candles, tol, sessions);
    SplitIsPartition(vs);
    forall k | 0 <= k < |vs| ensures SweepOf(vs[k]) == AlignedSweeps(candles, tol, sessions)[k] {
      assert Each(SweepOf, vs)[k] == SweepOf(vs[k]);
    }
  }

  /** The plan of an accepted setup: direction by bias, nearest target, partial target on the way to it. */
  ghost predicate SoundPlan(cfg: Settings, session: Session, bias: Trend, s: Setup) {
    var p := s.plan;
    var risk := Abs(p.entry - p.stop);
    && risk > 0.0
    && (p.direction.Long? <==> bias.Bullish?)
    && p.stop == StopFor(p.direction, s.sweep.extreme, cfg.stopBuffer)
    && NearestTarget(p.direction, p.entry, risk, session.levels, s.sweep, cfg.minRR,
                     Target(p.tpRunner, s.targetName, p.tpRunnerRR))
    && p.tpRunnerRR >= cfg.minRR
    && p.tp1RR == Min(p.tpRunnerRR, cfg.partialTarget)
    && Gain(p.direction, p.entry, p.tp1) == Mul(p.tp1RR, risk)
    && Gain(p.direction, p.entry, p.tp1) <= Gain(p.direction, p.entry, p.tpRunner)
    && (Gain(p.direction, p.entry, p.tp1) > 0.0 <==> cfg.partialTarget > 0.0)
  }

  lemma PlanIsSound(cfg: Settings, session: Session, sweep: Sweep, bias: Trend, mss: Mss, poi: Poi)
    requires mss.direction == sweep.direction == bias
    ensures var v := PlanTrade(cfg, sweep, bias, session.killzone, session.levels, mss, poi);
            v.Accepted? ==> SoundPlan(cfg, session, bias, v.setup) && v.setup.sweep == sweep && v.setup.mss == mss
                            && v.setup.plan.timestamp == mss.confirmTime && v.setup.bias == bias
  {
    var v := PlanTrade(cfg, sweep, bias, session.killzone, session.levels, mss, poi);
    if v.Accepted? {
      var p := v.setup.plan;
      var risk := Abs(p.entry - p.stop);
      TakeProfitIsNearest(p.direction, p.entry, risk, session.levels, sweep, cfg.minRR);
      var t := TakeProfit(p.direction, p.entry, risk, session.levels, sweep, cfg.minRR).value;
      assert NearestTarget(p.direction, p.entry, risk, session.levels, sweep, cfg.minRR, t);
      PartialTargetBetween(p.direction, p.entry, risk, t, cfg.partialTarget);
    }
  }

  /** Accepted for `sweep`: a sound plan, confirmed after the sweep returned and no later than the killzone's end. */
  lemma AcceptedIsSound(cfg: Settings, candles: seq<Candle>, session: Session, bias: Trend, sweep: Sweep)
    requires sweep.direction == bias
    ensures var v := JudgeOne(cfg, candles, session, bias, sweep);
            v.Accepted? ==> SoundPlan(cfg, session, bias, v.setup) && v.setup.sweep == sweep
                            && sweep.returnTime < v.setup.plan.timestamp <= session.scan.end
  {
    var v := JudgeOne(cfg, candles, session, bias, sweep);
    if v.Accepted? {
      var mss := Shift(candles, cfg.mss, sweep).value;
      var poi := ChoosePoi(Fvgs(candles, GapScan(cfg, mss)), OrderBlockFor(candles, mss, ORDER_BLOCK_LOOKBACK)).value;
      var swings := SwingsOf(candles, cfg.mss.swing);
      var i := ConfirmingCandle(candles, swings, cfg.mss, sweep, 0).value;
      var k, d := ShiftIsGenuine(candles, swings, cfg.mss, sweep, i);
      PlanIsSound(cfg, session, sweep, bias, mss, poi);
    }
  }

  lemma RawSweepIsTimely(candles: seq<Candle>, levels: seq<MarkedLevel>, scan: Scan, sweep: Sweep)
    requires StrictlyAscending(candles) && sweep in RawSweeps(candles, levels, scan)
    ensures scan.start <= sweep.time <= scan.end && sweep.time <= sweep.returnTime
  {
    SweepsAreSoundAndComplete(candles, levels, scan, sweep);
    var i: nat, l: nat, k: nat :| IsSweep(candles, levels, scan, sweep, i, l, k);
    assert i < k ==> candles[i].time < candles[k].time;
  }

  /** A sweep the detector reports starts inside the killzone and does not return before it started. */
  lemma ReportedSweepIsTimely(candles: seq<Candle>, tol: SweepDedup.Tolerance, session: Session, sweep: Sweep)
    requires StrictlyAscending(candles) && sweep in Reported(candles, tol, session)
    ensures session.scan.start <= sweep.time <= session.scan.end && sweep.time <= sweep.returnTime
  {
    SweepDedup.DedupKeepsInputs(tol, RawSweeps(candles, session.levels, session.scan), sweep);
    RawSweepIsTimely(candles, session.levels, session.scan, sweep);
  }

  /** The setup was accepted in this killzone, from a reported sweep along its bias. */
  ghost predicate AcceptedIn(cfg: Settings, candles: seq<Candle>, tol: SweepDedup.Tolerance, session: Session,
                             s: Setup) {
    && session.bias.Some? && SoundPlan(cfg, session, session.bias.value, s)
    && s.sweep in Reported(candles, tol, session) && s.sweep.direction == session.bias.value
    && session.scan.start < s.plan.timestamp <= session.scan.end
  }

  lemma {:induction false} AlignedAre(sweeps: seq<Sweep>, bias: Trend, sweep: Sweep)
    ensures sweep in Aligned(sweeps, bias) <==> sweep in sweeps && sweep.direction == bias
    decreases |sweeps|
  {
    if sweeps != [] {
      AlignedAre(sweeps[..|sweeps| - 1], bias, sweep);
    }
  }

  /** An accepted verdict of the list comes from one of its sweeps. */
  lemma {:induction false} VerdictsOrigin(cfg: Settings, candles: seq<Candle>, session: Session, bias: Trend,
                                          sweeps: seq<Sweep>, v: Verdict)
    requires v in Verdicts(cfg, candles, session, bias, sweeps)
    ensures exists sweep :: sweep in sweeps && v == JudgeOne(cfg, candles, session, bias, sweep)
    decreases |sweeps|
  {
    if v != JudgeOne(cfg, candles, session, bias, sweeps[|sweeps| - 1]) {
      VerdictsOrigin(cfg, candles, session, bias, sweeps[..|sweeps| - 1], v);
    }
  }

  lemma SessionVerdictIsSound(cfg: Settings, candles: seq<Candle>, tol: SweepDedup.Tolerance, session: Session,
                              v: Verdict)
    requires StrictlyAscending(candles) && v in SessionVerdicts(cfg, candles, tol, session) && v.Accepted?
    ensures AcceptedIn(cfg, candles, tol, session, v.setup)
  {
    var bias := session.bias.value;
    var found := Reported(candles, tol, session);
    VerdictsOrigin(cfg, candles, session, bias, Aligned(found, bias), v);
    var sweep :| sweep in Aligned(found, bias) && v == JudgeOne(cfg, candles, session, bias, sweep);
    AlignedAre(found, bias, sweep);
    ReportedSweepIsTimely(candles, tol, session, sweep);
    AcceptedIsSound(cfg, candles, session, bias, sweep);
  }

  lemma {:induction false} SetupsAreAccepted(vs: seq<Verdict>, s: Setup)
    requires s in SetupsOf(vs)
    ensures Accepted(s) in vs
    decreases |vs|
  {
    if s !in SetupsOf(vs[..|vs| - 1]) {
      assert vs[|vs| - 1] == Accepted(s);
    } else {
      SetupsAreAccepted(vs[..|vs| - 1], s);
    }
  }

  /**
    From raw candles to the setups of a day: each was accepted in one of the killzones, for a sweep
    the detector reported along the bias, confirmed strictly after the killzone's start and no later
    than its end, with a sound plan.
  */
  lemma DaySetupsAreSound(cfg: Settings, candles: seq<Candle>, tol: SweepDedup.Tolerance, sessions: seq<Session>,
                          s: Setup)
    requires StrictlyAscending(candles) && s in SetupsOf(DayVerdicts(cfg, candles, tol, sessions))
    ensures exists i :: 0 <= i < |sessions| && AcceptedIn(cfg, candles, tol, sessions[i], s)
  {
    SetupsAreAccepted(DayVerdicts(cfg, candles, tol, sessions), s);
    GatherIff(Rounds(cfg, candles, tol, sessions), |sessions|, Accepted(s));
    var i: nat :| i < |sessions| && Accepted(s) in Rounds(cfg, candles, tol, sessions)(i);
    SessionVerdictIsSound(cfg, candles, tol, sessions[i], Accepted(s));
  }
}
