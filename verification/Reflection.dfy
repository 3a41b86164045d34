/** Buying and selling are the same strategy seen in a mirror: entry zones, targets, verdicts and outcomes. */
module Reflection {
  import opened Foundations
  import opened SweepTypes
  import opened Gathering
  import opened Sorting
  import SweepDedup
  import opened SweepDetection
  import opened Swings
  import opened StructureShift
  import opened PointsOfInterest
  import opened Simulator
  import opened SetupBuilder
  import opened Mirror

  // ---- the mirror images --------------------------------------------------------------------------------

  function MirrorFvg(g: Fvg): Fvg {
    Fvg(Flip(g.direction), -g.proximal, -g.distal, g.time1, g.time2, g.time3, g.size, g.sizeRatio)
  }

  function MirrorBlock(b: OrderBlock): OrderBlock { OrderBlock(Flip(b.direction), -b.proximal, -b.distal, b.time) }

  function MirrorScan(scan: FvgScan): FvgScan {
    FvgScan(Flip(scan.direction), scan.start, scan.end, scan.minSize, scan.period)
  }

  function MirrorZone(z: Zone): Zone { Zone(-z.proximal, -z.distal) }

  function MirrorPoi(p: Poi): Poi {
    if p.GapPoi? then GapPoi(MirrorFvg(p.fvg)) else BlockPoi(MirrorBlock(p.block))
  }

  function Reverse(d: Direction): Direction { if d.Long? then Short else Long }

  function MirrorTarget(t: Target): Target { Target(-t.price, t.name, t.rr) }

  function MirrorPlan(p: Plan): Plan {
    Plan(p.timestamp, Reverse(p.direction), -p.entry, -p.stop, -p.tp1, -p.tpRunner, p.tp1RR, p.tpRunnerRR)
  }

  function MirrorSetup(s: Setup): Setup {
    Setup(MirrorPlan(s.plan), Flip(s.bias), s.killzone, MirrorSweep(s.sweep), MirrorMss(s.mss), MirrorPoi(s.poi),
          s.targetName, s.quality)
  }

  function MirrorVerdict(v: Verdict): Verdict {
    if v.Accepted? then Accepted(MirrorSetup(v.setup)) else Rejected(v.timestamp, v.reason, MirrorSweep(v.sweep))
  }

  function MirrorSession(s: Session): Session {
    Session(s.killzone, s.scan, Maybe(Flip, s.bias), Each(MirrorLevel, s.levels))
  }

  // ---- entry zones ----------------------------------------------------------------------------------------

  lemma GapMirrors(candles: seq<Candle>, d: Trend, j: nat, atr: real)
    requires 1 <= j < |candles| - 1 && atr != 0.0
    ensures GapAt(MirrorFrame(candles), Flip(d), j) <==> GapAt(candles, d, j)
    ensures Gap(MirrorFrame(candles), Flip(d), j, atr) == MirrorFvg(Gap(candles, d, j, atr))
  {
    var m := MirrorFrame(candles);
    assert m[j - 1].low - m[j + 1].high == candles[j + 1].low - candles[j - 1].high;
    assert m[j + 1].low - m[j - 1].high == candles[j - 1].low - candles[j + 1].high;
  }

  lemma FvgAtMirrors(candles: seq<Candle>, scan: FvgScan, j: nat)
    requires 1 <= j < |candles| - 1 && scan.period >= 1
    ensures FvgAt(MirrorFrame(candles), MirrorScan(scan), j) == Maybe(MirrorFvg, FvgAt(candles, scan, j))
  {
    AtrMirrors(candles, scan.period, j);
    var atr := AtrAt(candles, scan.period, j);
    GapMirrors(candles, scan.direction, j, if atr.Some? && atr.value > 0.0 then atr.value else 1.0);
  }

  lemma {:induction false} FvgsBeforeMirror(candles: seq<Candle>, scan: FvgScan, j: nat)
    requires (j <= 1 || j < |candles|) && scan.period >= 1
    ensures FvgsBefore(MirrorFrame(candles), MirrorScan(scan), j) == Each(MirrorFvg, FvgsBefore(candles, scan, j))
  {
    if j > 1 {
      FvgsBeforeMirror(candles, scan, j - 1);
      FvgAtMirrors(candles, scan, j - 1);
    }
  }

  lemma FvgsMirror(candles: seq<Candle>, scan: FvgScan)
    requires scan.period >= 1
    ensures Fvgs(MirrorFrame(candles), MirrorScan(scan)) == Each(MirrorFvg, Fvgs(candles, scan))
  {
    if |candles| >= 3 {
      FvgsBeforeMirror(candles, scan, |candles| - 1);
    }
  }

  lemma {:induction false} FirstAtTimeMirrors(candles: seq<Candle>, t: int, i: nat)
    requires i <= |candles|
    ensures FirstAtTime(MirrorFrame(candles), t, i) == FirstAtTime(candles, t, i)
    decreases |candles| - i
  {
    if i < |candles| {
      FirstAtTimeMirrors(candles, t, i + 1);
    }
  }

  lemma {:induction false} LatestOppositeMirrors(candles: seq<Candle>, d: Trend, k: int, earliest: int)
    requires k < |candles| && 0 <= earliest
    ensures LatestOpposite(MirrorFrame(candles), Flip(d), k, earliest)
            == Maybe(MirrorBlock, LatestOpposite(candles, d, k, earliest))
    decreases k - earliest
  {
    if k >= earliest {
      LatestOppositeMirrors(candles, d, k - 1, earliest);
    }
  }

  lemma OrderBlockMirrors(candles: seq<Candle>, mss: Mss, lookback: int)
    ensures OrderBlockFor(MirrorFrame(candles), MirrorMss(mss), lookback)
            == Maybe(MirrorBlock, OrderBlockFor(candles, mss, lookback))
  {
    FirstAtTimeMirrors(candles, mss.displacementTime, 0);
    var i := FirstAtTime(candles, mss.displacementTime, 0);
    if i.Some? {
      LatestOppositeMirrors(candles, mss.direction, i.value as int - 1, Earliest(i.value, lookback));
    }
  }

  /** The 62-79 % band is the same band from either side. */
  lemma OteMirrors(poi: Zone, extreme: real, broken: real)
    ensures OteOverlaps(MirrorZone(poi), -extreme, -broken) == OteOverlaps(poi, extreme, broken)
  {
  }

  // ---- targets --------------------------------------------------------------------------------------------

  lemma {:induction false} OpposingMirrors(d: Direction, entry: real, levels: seq<MarkedLevel>)
    ensures OpposingLevels(Reverse(d), -entry, Each(MirrorLevel, levels))
            == Each(MirrorLevel, OpposingLevels(d, entry, levels))
  {
    if levels != [] {
      OpposingMirrors(d, entry, levels[1..]);
      assert Each(MirrorLevel, levels)[1..] == Each(MirrorLevel, levels[1..]);
      assert Opposing(Reverse(d), -entry, MirrorLevel(levels[0])) <==> Opposing(d, entry, levels[0]);
    }
  }

  lemma ReachesMirrors(entry: real, risk: real, minRR: real, sweep: Sweep, lv: MarkedLevel)
    requires risk != 0.0
    ensures RewardRisk(-entry, risk, MirrorLevel(lv)) == RewardRisk(entry, risk, lv)
    ensures Reaches(-entry, risk, minRR, MirrorSweep(sweep), MirrorLevel(lv))
            <==> Reaches(entry, risk, minRR, sweep, lv)
  {
    assert Abs(-lv.price + entry) == Abs(lv.price - entry);
  }

  lemma {:induction false} FirstReachingMirrors(entry: real, risk: real, minRR: real, sweep: Sweep,
                                                levels: seq<MarkedLevel>)
    requires risk != 0.0
    ensures FirstReaching(-entry, risk, minRR, MirrorSweep(sweep), Each(MirrorLevel, levels))
            == Maybe(MirrorTarget, FirstReaching(entry, risk, minRR, sweep, levels))
  {
    if levels != [] {
      FirstReachingMirrors(entry, risk, minRR, sweep, levels[1..]);
      assert Each(MirrorLevel, levels)[1..] == Each(MirrorLevel, levels[1..]);
      ReachesMirrors(entry, risk, minRR, sweep, levels[0]);
    }
  }

  /** The target of the mirrored trade is the mirrored target, whatever ties the sort had to break. */
  lemma TakeProfitMirrors(d: Direction, entry: real, risk: real, levels: seq<MarkedLevel>, sweep: Sweep, minRR: real)
    requires risk != 0.0
    ensures TakeProfit(Reverse(d), -entry, risk, Each(MirrorLevel, levels), MirrorSweep(sweep), minRR)
            == Maybe(MirrorTarget, TakeProfit(d, entry, risk, levels, sweep, minRR))
  {
    var opposing := OpposingLevels(d, entry, levels);
    OpposingMirrors(d, entry, levels);
    SortEach(MirrorLevel, opposing, Distance(d, entry), Distance(Reverse(d), -entry));
    FirstReachingMirrors(entry, risk, minRR, sweep, StableSort(opposing, Distance(d, entry)));
  }

  lemma WhyNoTargetMirrors(d: Direction, entry: real, levels: seq<MarkedLevel>, sweep: Sweep)
    ensures WhyNoTarget(Reverse(d), -entry, Each(MirrorLevel, levels), MirrorSweep(sweep))
            == WhyNoTarget(d, entry, levels, sweep)
  {
    var m := Each(MirrorLevel, levels);
    forall i | 0 <= i < |levels|
      ensures Opposing(Reverse(d), -entry, m[i]) && !JustSwept(MirrorSweep(sweep), m[i])
              <==> Opposing(d, entry, levels[i]) && !JustSwept(sweep, levels[i])
    {
    }
  }

  lemma PartialTargetMirrors(d: Direction, entry: real, risk: real, runner: Target, cap: real)
    ensures var (price, rr) := PartialTarget(d, entry, risk, runner, cap);
            PartialTarget(Reverse(d), -entry, risk, MirrorTarget(runner), cap) == (-price, rr)
  {
  }

  // ---- the verdict -----------------------------------------------------------------------------------------

  lemma GradeMirrors(cfg: Settings, strength: Strength, poi: Poi, rr: real, bodyRatio: real, ote: bool)
    ensures GradeSetup(cfg, strength, MirrorPoi(poi), rr, bodyRatio, ote)
            == GradeSetup(cfg, strength, poi, rr, bodyRatio, ote)
  {
    assert HasWeakness(cfg, MirrorPoi(poi), rr, bodyRatio) == HasWeakness(cfg, poi, rr, bodyRatio);
  }

  lemma EntryMirrors(poi: Poi, d: Direction, extreme: real, buffer: real)
    ensures MirrorPoi(poi).Proximal() == -poi.Proximal() && MirrorPoi(poi).AsZone() == MirrorZone(poi.AsZone())
    ensures StopFor(Reverse(d), -extreme, buffer) == -StopFor(d, extreme, buffer)
    ensures Abs(-poi.Proximal() + StopFor(d, extreme, buffer)) == Abs(poi.Proximal() - StopFor(d, extreme, buffer))
  {
  }

  lemma PlanForMirrors(cfg: Settings, sweep: Sweep, mss: Mss, poi: Poi, target: Target)
    ensures PlanFor(cfg, MirrorSweep(sweep), MirrorMss(mss), MirrorPoi(poi), MirrorTarget(target))
            == MirrorPlan(PlanFor(cfg, sweep, mss, poi, target))
  {
    var d := DirectionOf(mss.direction);
    EntryMirrors(poi, d, sweep.extreme, cfg.stopBuffer);
    PartialTargetMirrors(d, poi.Proximal(), Abs(poi.Proximal() - StopOf(cfg, sweep, mss)), target, cfg.partialTarget);
  }

  lemma AcceptMirrors(plan: Plan, bias: Trend, kz: Killzone, sweep: Sweep, mss: Mss, poi: Poi, name: string,
                      grade: Grade)
    ensures Accepted(Setup(MirrorPlan(plan), Flip(bias), kz, MirrorSweep(sweep), MirrorMss(mss), MirrorPoi(poi), name,
                           grade))
            == MirrorVerdict(Accepted(Setup(plan, bias, kz, sweep, mss, poi, name, grade)))
  {
  }

  /** The grade a plan toward `rr` would get. */
  function GradeOf(cfg: Settings, sweep: Sweep, mss: Mss, poi: Poi, rr: real): Option<Grade> {
    GradeSetup(cfg, sweep.levelStrength, poi, rr, mss.bodyRatio,
               OteOverlaps(poi.AsZone(), sweep.extreme, mss.brokenPrice))
  }

  lemma GradeOfMirrors(cfg: Settings, sweep: Sweep, mss: Mss, poi: Poi, rr: real)
    ensures GradeOf(cfg, MirrorSweep(sweep), MirrorMss(mss), MirrorPoi(poi), rr) == GradeOf(cfg, sweep, mss, poi, rr)
  {
    assert MirrorPoi(poi).AsZone() == MirrorZone(poi.AsZone());
    OteMirrors(poi.AsZone(), sweep.extreme, mss.brokenPrice);
    GradeMirrors(cfg, sweep.levelStrength, poi, rr, mss.bodyRatio,
                 OteOverlaps(poi.AsZone(), sweep.extreme, mss.brokenPrice));
  }

  lemma PlanTowardByGrade(cfg: Settings, sweep: Sweep, bias: Trend, kz: Killzone, mss: Mss, poi: Poi, target: Target,
                          grade: Option<Grade>, plan: Plan)
    requires grade == GradeOf(cfg, sweep, mss, poi, target.rr) && plan == PlanFor(cfg, sweep, mss, poi, target)
    ensures PlanToward(cfg, sweep, bias, kz, mss, poi, target)
            == if grade.None? then Reject(sweep, GradeRejected)
                else Accepted(Setup(plan, bias, kz, sweep, mss, poi, target.name, grade.value))
  {
  }

  lemma PlanTowardMirrors(cfg: Settings, sweep: Sweep, bias: Trend, kz: Killzone, mss: Mss, poi: Poi, target: Target)
    ensures PlanToward(cfg, MirrorSweep(sweep), Flip(bias), kz, MirrorMss(mss), MirrorPoi(poi), MirrorTarget(target))
            == MirrorVerdict(PlanToward(cfg, sweep, bias, kz, mss, poi, target))
  {
    var grade, plan := GradeOf(cfg, sweep, mss, poi, target.rr), PlanFor(cfg, sweep, mss, poi, target);
    GradeOfMirrors(cfg, sweep, mss, poi, target.rr);
    PlanForMirrors(cfg, sweep, mss, poi, target);
    PlanTowardByGrade(cfg, sweep, bias, kz, mss, poi, target, grade, plan);
    PlanTowardByGrade(cfg, MirrorSweep(sweep), Flip(bias), kz, MirrorMss(mss), MirrorPoi(poi), MirrorTarget(target),
                      grade, MirrorPlan(plan));
    if grade.None? {
      RejectMirrors(sweep, GradeRejected);
    } else {
      AcceptMirrors(plan, bias, kz, sweep, mss, poi, target.name, grade.value);
    }
  }

  lemma RejectMirrors(sweep: Sweep, why: Reason)
    ensures Reject(MirrorSweep(sweep), why) == MirrorVerdict(Reject(sweep, why))
  {
  }

  lemma SidesMirror(cfg: Settings, sweep: Sweep, mss: Mss, poi: Poi)
    ensures DirectionOf(MirrorMss(mss).direction) == Reverse(DirectionOf(mss.direction))
    ensures MirrorPoi(poi).Proximal() == -poi.Proximal()
    ensures StopOf(cfg, MirrorSweep(sweep), MirrorMss(mss)) == -StopOf(cfg, sweep, mss)
    ensures Abs(MirrorPoi(poi).Proximal() - StopOf(cfg, MirrorSweep(sweep), MirrorMss(mss)))
            == Abs(poi.Proximal() - StopOf(cfg, sweep, mss))
  {
  }

  lemma PlanAtMirrors(cfg: Settings, sweep: Sweep, bias: Trend, kz: Killzone, levels: seq<MarkedLevel>, mss: Mss,
                      poi: Poi,
                      d: Direction, entry: real, risk: real)
    requires risk > 0.0
    ensures PlanAt(cfg, MirrorSweep(sweep), Flip(bias), kz, Each(MirrorLevel, levels), MirrorMss(mss), MirrorPoi(poi),
                   Reverse(d), -entry, risk)
            == MirrorVerdict(PlanAt(cfg, sweep, bias, kz, levels, mss, poi, d, entry, risk))
  {
    TakeProfitMirrors(d, entry, risk, levels, sweep, cfg.minRR);
    var target := TakeProfit(d, entry, risk, levels, sweep, cfg.minRR);
    if target.None? {
      WhyNoTargetMirrors(d, entry, levels, sweep);
      RejectMirrors(sweep, WhyNoTarget(d, entry, levels, sweep));
    } else {
      PlanTowardMirrors(cfg, sweep, bias, kz, mss, poi, target.value);
    }
  }

  lemma PlanTradeByRisk(cfg: Settings, sweep: Sweep, bias: Trend, kz: Killzone, levels: seq<MarkedLevel>, mss: Mss,
                        poi: Poi,
                        d: Direction, entry: real, risk: real)
    requires d == DirectionOf(mss.direction) && entry == poi.Proximal() && risk == Abs(entry - StopOf(cfg, sweep, mss))
    ensures PlanTrade(cfg, sweep, bias, kz, levels, mss, poi)
            == if risk <= 0.0 then Reject(sweep, InvalidRisk)
                else PlanAt(cfg, sweep, bias, kz, levels, mss, poi, d, entry, risk)
  {
  }

  lemma PlanTradeMirrors(cfg: Settings, sweep: Sweep, bias: Trend, kz: Killzone, levels: seq<MarkedLevel>, mss: Mss,
                         poi: Poi)
    ensures PlanTrade(cfg, MirrorSweep(sweep), Flip(bias), kz, Each(MirrorLevel, levels), MirrorMss(mss),
                      MirrorPoi(poi))
            == MirrorVerdict(PlanTrade(cfg, sweep, bias, kz, levels, mss, poi))
  {
    var d, entry := DirectionOf(mss.direction), poi.Proximal();
    var risk := Abs(entry - StopOf(cfg, sweep, mss));
    SidesMirror(cfg, sweep, mss, poi);
    PlanTradeByRisk(cfg, sweep, bias, kz, levels, mss, poi, d, entry, risk);
    PlanTradeByRisk(cfg, MirrorSweep(sweep), Flip(bias), kz, Each(MirrorLevel, levels), MirrorMss(mss), MirrorPoi(poi),
                    Reverse(d), -entry, risk);
    if risk <= 0.0 {
      RejectMirrors(sweep, InvalidRisk);
    } else {
      PlanAtMirrors(cfg, sweep, bias, kz, levels, mss, poi, d, entry, risk);
    }
  }

  lemma ChoosePoiMirrors(fvgs: seq<Fvg>, block: Option<OrderBlock>)
    ensures ChoosePoi(Each(MirrorFvg, fvgs), Maybe(MirrorBlock, block)) == Maybe(MirrorPoi, ChoosePoi(fvgs, block))
  {
  }

  lemma GapScanMirrors(cfg: Settings, mss: Mss)
    ensures GapScan(cfg, MirrorMss(mss)) == MirrorScan(GapScan(cfg, mss))
  {
  }

  lemma DecideAfterMirrors(cfg: Settings, candles: seq<Candle>, sweep: Sweep, bias: Trend, kz: Killzone,
                           levels: seq<MarkedLevel>, mss: Mss)
    requires cfg.fvgPeriod >= 1
    ensures DecideAfter(cfg, MirrorFrame(candles), MirrorSweep(sweep), Flip(bias), kz, Each(MirrorLevel, levels),
                        MirrorMss(mss))
            == MirrorVerdict(DecideAfter(cfg, candles, sweep, bias, kz, levels, mss))
  {
    var fvgs, block := Fvgs(candles, GapScan(cfg, mss)), OrderBlockFor(candles, mss, ORDER_BLOCK_LOOKBACK);
    GapScanMirrors(cfg, mss);
    FvgsMirror(candles, GapScan(cfg, mss));
    OrderBlockMirrors(candles, mss, ORDER_BLOCK_LOOKBACK);
    ChoosePoiMirrors(fvgs, block);
    var poi := ChoosePoi(fvgs, block);
    if poi.Some? {
      PlanTradeMirrors(cfg, sweep, bias, kz, levels, mss, poi.value);
    }
  }

  lemma DecideMirrors(cfg: Settings, candles: seq<Candle>, sweep: Sweep, bias: Trend, kz: Killzone,
                      levels: seq<MarkedLevel>)
    requires Sane(cfg) ==> Unambiguous(candles, cfg.mss.swing.lookback)
    ensures Decide(cfg, MirrorFrame(candles), MirrorSweep(sweep), Flip(bias), kz, Each(MirrorLevel, levels))
            == MirrorVerdict(Decide(cfg, candles, sweep, bias, kz, levels))
  {
    if Sane(cfg) && candles != [] {
      ShiftMirrors(candles, cfg.mss, sweep);
      var shift := Shift(candles, cfg.mss, sweep);
      if shift.Some? {
        DecideAfterMirrors(cfg, candles, sweep, bias, kz, levels, shift.value);
      }
    }
  }

  /**
    From raw candles to the trade plan, the strategy has no long or short preference: turning the
    prices upside down turns every verdict upside down, unless some bar is both a fractal high and a
    fractal low.
  */
  lemma VerdictMirrors(cfg: Settings, candles: seq<Candle>, session: Session, bias: Trend, sweep: Sweep)
    requires Sane(cfg) ==> Unambiguous(candles, cfg.mss.swing.lookback)
    ensures JudgeOne(cfg, MirrorFrame(candles), MirrorSession(session), Flip(bias), MirrorSweep(sweep))
            == MirrorVerdict(JudgeOne(cfg, candles, session, bias, sweep))
  {
    DecideMirrors(cfg, candles, sweep, bias, session.killzone, session.levels);
  }

  lemma {:induction false} AlignedMirrors(sweeps: seq<Sweep>, bias: Trend)
    ensures Aligned(Each(MirrorSweep, sweeps), Flip(bias)) == Each(MirrorSweep, Aligned(sweeps, bias))
    decreases |sweeps|
  {
    if sweeps != [] {
      AlignedMirrors(sweeps[..|sweeps| - 1], bias);
      assert Each(MirrorSweep, sweeps)[..|sweeps| - 1] == Each(MirrorSweep, sweeps[..|sweeps| - 1]);
    }
  }

  lemma {:induction false} VerdictsMirror(cfg: Settings, candles: seq<Candle>, session: Session, bias: Trend,
                                          sweeps: seq<Sweep>)
    requires Sane(cfg) ==> Unambiguous(candles, cfg.mss.swing.lookback)
    ensures Verdicts(cfg, MirrorFrame(candles), MirrorSession(session), Flip(bias), Each(MirrorSweep, sweeps))
            == Each(MirrorVerdict, Verdicts(cfg, candles, session, bias, sweeps))
    decreases |sweeps|
  {
    if sweeps != [] {
      var init, last := sweeps[..|sweeps| - 1], sweeps[|sweeps| - 1];
      var before, v := Verdicts(cfg, candles, session, bias, init), JudgeOne(cfg, candles, session, bias, last);
      VerdictsMirror(cfg, candles, session, bias, init);
      VerdictMirrors(cfg, candles, session, bias, last);
      assert Each(MirrorSweep, sweeps)[..|sweeps| - 1] == Each(MirrorSweep, init);
      VerdictsAppend(cfg, candles, session, bias, sweeps, before, v);
      VerdictsAppend(cfg, MirrorFrame(candles), MirrorSession(session), Flip(bias), Each(MirrorSweep, sweeps),
                     Each(MirrorVerdict, before), MirrorVerdict(v));
    }
  }

  lemma SessionMirrors(cfg: Settings, candles: seq<Candle>, tol: SweepDedup.Tolerance, session: Session)
    requires Sane(cfg) ==> Unambiguous(candles, cfg.mss.swing.lookback)
    ensures SessionVerdicts(cfg, MirrorFrame(candles), tol, MirrorSession(session))
            == Each(MirrorVerdict, SessionVerdicts(cfg, candles, tol, session))
  {
    if session.bias.Some? {
      var bias, raw := session.bias.value, RawSweeps(candles, session.levels, session.scan);
      RawSweepsMirror(candles, session.levels, session.scan);
      DedupMirrors(tol, raw);
      AlignedMirrors(SweepDedup.Dedup(tol, raw), bias);
      VerdictsMirror(cfg, candles, session, bias, Aligned(SweepDedup.Dedup(tol, raw), bias));
    }
  }

  /**
    A whole day, from raw candles to setups and rejections: on the mirrored market with the mirrored
    bias and levels the pipeline reaches the mirrored verdicts, in the same order, unless some bar is
    both a fractal high and a fractal low.
  */
  lemma DayMirrors(cfg: Settings, candles: seq<Candle>, tol: SweepDedup.Tolerance, sessions: seq<Session>)
    requires Sane(cfg) ==> Unambiguous(candles, cfg.mss.swing.lookback)
    ensures DayVerdicts(cfg, MirrorFrame(candles), tol, Each(MirrorSession, sessions))
            == Each(MirrorVerdict, DayVerdicts(cfg, candles, tol, sessions))
  {
    var f, g := Rounds(cfg, candles, tol, sessions),
        Rounds(cfg, MirrorFrame(candles), tol, Each(MirrorSession, sessions));
    forall i: nat | i < |sessions| ensures g(i) == Each(MirrorVerdict, f(i)) {
      SessionMirrors(cfg, candles, tol, sessions[i]);
    }
    GatherEach(MirrorVerdict, f, g, |sessions|);
  }

  // ---- the outcome -----------------------------------------------------------------------------------------

  lemma TickMirrors(p: Plan, phase: Phase, c: Candle)
    ensures Tick(MirrorPlan(p), phase, MirrorCandle(c)) == Tick(p, phase, c)
  {
    assert SameTargets(MirrorPlan(p)) <==> SameTargets(p);
  }

  lemma {:induction false} PlayMirrors(p: Plan, phase: Phase, candles: seq<Candle>)
    ensures Play(MirrorPlan(p), phase, MirrorFrame(candles)) == Play(p, phase, candles)
    decreases |candles|
  {
    if candles != [] {
      TickMirrors(p, phase, candles[0]);
      PlayMirrors(p, Tick(p, phase, candles[0]), candles[1..]);
      assert MirrorFrame(candles)[1..] == MirrorFrame(candles[1..]);
    }
  }

  lemma {:induction false} InHorizonMirrors(p: Plan, candles: seq<Candle>)
    ensures InHorizon(MirrorPlan(p), MirrorFrame(candles)) == MirrorFrame(InHorizon(p, candles))
  {
    if candles != [] {
      InHorizonMirrors(p, candles[1..]);
      assert MirrorFrame(candles)[1..] == MirrorFrame(candles[1..]);
    }
  }

  /** The mirrored trade on mirrored candles earns the same R at the same times, field by field. */
  lemma OutcomeMirrors(p: Plan, candles: seq<Candle>)
    ensures Simulated(MirrorPlan(p), MirrorFrame(candles)) == Simulated(p, candles)
  {
    InHorizonMirrors(p, candles);
    PlayMirrors(p, Waiting, InHorizon(p, candles));
  }
}
