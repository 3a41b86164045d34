/** When two trade plans simulate alike on every frame: a condition on their prices. */
module PlanIdentity {
  import opened Foundations
  import opened Simulator
  import opened SetupBuilder
  import opened Mirror
  import opened Reflection

  // ---- plans as the pipeline builds them ------------------------------------------------------------

  function RiskOf(p: Plan): real { Abs(p.entry - p.stop) }

  function RunnerOf(p: Plan): Target { Target(p.tpRunner, "", p.tpRunnerRR) }

  /** How `_select_take_profit` and `_compute_tp1` fill the targets and the R:R fields, for one partial target. */
  ghost predicate BuiltWith(p: Plan, partial: real) {
    && RiskOf(p) > 0.0
    && Gain(p.direction, p.entry, p.tpRunner) > 0.0
    && p.tpRunnerRR == Quotient(Abs(p.tpRunner - p.entry), RiskOf(p))
    && (p.tp1, p.tp1RR) == PartialTarget(p.direction, p.entry, RiskOf(p), RunnerOf(p), partial)
  }

  /** Every accepted setup is built this way. */
  lemma SoundPlansAreBuilt(cfg: Settings, session: Session, bias: Trend, s: Setup)
    requires SoundPlan(cfg, session, bias, s)
    ensures BuiltWith(s.plan, cfg.partialTarget)
  {
    var p := s.plan;
    MulQuotient(Gain(p.direction, p.entry, p.tpRunner), RiskOf(p));
  }

  /** The built plan is determined by its direction, time, entry, stop and runner. */
  lemma BuiltPlanIsUnique(p: Plan, q: Plan, partial: real)
    requires BuiltWith(p, partial) && BuiltWith(q, partial)
    requires p.timestamp == q.timestamp && p.direction == q.direction
    requires p.entry == q.entry && p.stop == q.stop && p.tpRunner == q.tpRunner
    ensures p == q
  {
  }

  // ---- the condition --------------------------------------------------------------------------------

  /** The stop lies where a loss is taken; nothing checks this, because risk is an absolute value. */
  predicate StopOnLossSide(p: Plan) {
    Gain(p.direction, p.entry, p.stop) < 0.0
  }

  /** The same plan, or two that are stopped on whatever candle fills them, at the same entry. */
  predicate SameTrade(p: Plan, q: Plan) {
    p == q || (p.entry == q.entry && !StopOnLossSide(p) && !StopOnLossSide(q))
  }

  // ---- alike ----------------------------------------------------------------------------------------

  lemma {:induction false} DoomedPlaysAlike(p: Plan, q: Plan, candles: seq<Candle>)
    requires p.direction == q.direction && p.entry == q.entry && !StopOnLossSide(p) && !StopOnLossSide(q)
    ensures Play(p, Waiting, candles) == Play(q, Waiting, candles)
    ensures var end := Play(p, Waiting, candles); end.Waiting? || (end.Done? && end.outcome.SlBeforeEntry?)
    decreases |candles|
  {
    if candles != [] {
      if EntryTouched(p, candles[0]) {
        DoneIsFinal(p, Tick(p, Waiting, candles[0]), candles[1..]);
        DoneIsFinal(q, Tick(q, Waiting, candles[0]), candles[1..]);
      } else {
        DoomedPlaysAlike(p, q, candles[1..]);
      }
    }
  }

  lemma {:induction false} SameHorizon(p: Plan, q: Plan, candles: seq<Candle>)
    requires p.timestamp == q.timestamp
    ensures InHorizon(p, candles) == InHorizon(q, candles)
  {
    if candles != [] {
      SameHorizon(p, q, candles[1..]);
    }
  }

  lemma SameTradesEndAlike(p: Plan, q: Plan, candles: seq<Candle>)
    requires p.timestamp == q.timestamp && p.direction == q.direction && SameTrade(p, q)
    ensures Simulated(p, candles) == Simulated(q, candles)
  {
    if p != q {
      SameHorizon(p, q, candles);
      DoomedPlaysAlike(p, q, InHorizon(p, candles));
    }
  }

  // ---- apart: long plans ----------------------------------------------------------------------------

  lemma OneCandle(p: Plan, c: Candle)
    requires c.time == p.timestamp
    ensures Simulated(p, [c]) == Read(p, Tick(p, Waiting, c))
  {
    assert [c][1..] == [];
    assert InHorizon(p, [c]) == [c];
    assert Play(p, Waiting, [c]) == Play(p, Tick(p, Waiting, c), []);
  }

  lemma TwoCandles(p: Plan, c: Candle, d: Candle)
    requires c.time == p.timestamp && d.time == p.timestamp + 1
    ensures Simulated(p, [c, d]) == Read(p, Tick(p, Tick(p, Waiting, c), d))
  {
    assert [c, d][1..] == [d] && [d][1..] == [];
    assert InHorizon(p, [d]) == [d];
    assert InHorizon(p, [c, d]) == [c, d];
    var first := Tick(p, Waiting, c);
    assert Play(p, Waiting, [c, d]) == Play(p, first, [d]);
    assert Play(p, first, [d]) == Play(p, Tick(p, first, d), []);
  }

  /** The candle that just reaches the higher entry fills only one of them. */
  lemma EntriesApart(p: Plan, q: Plan) returns (candles: seq<Candle>)
    requires p.direction.Long? && q.direction.Long? && p.timestamp == q.timestamp && p.entry < q.entry
    ensures Plausible(candles) && Simulated(p, candles) != Simulated(q, candles)
  {
    var c := Spike(p.timestamp, q.entry, q.entry);
    OneCandle(p, c);
    OneCandle(q, c);
    candles := [c];
  }

  /** The candle that just reaches the higher stop, or the entry below it, stops only one of them. */
  lemma StopsApart(p: Plan, q: Plan) returns (candles: seq<Candle>)
    requires p.direction.Long? && q.direction.Long? && p.timestamp == q.timestamp && p.entry == q.entry
    requires p.stop < q.stop && StopOnLossSide(p)
    ensures Plausible(candles) && Simulated(p, candles) != Simulated(q, candles)
  {
    var c := Spike(p.timestamp, Min(q.stop, q.entry), Min(q.stop, q.entry));
    OneCandle(p, c);
    OneCandle(q, c);
    candles := [c];
  }

  /** A finished trade's R is that of its outcome. */
  lemma ReadR(p: Plan, phase: Phase)
    ensures Read(p, phase).strictR == StrictR(p, Read(p, phase).outcome)
  {
  }

  /** Candles that carry the nearer runner's plan to the end: the other one ends otherwise, or with more R. */
  lemma RunnersApart(p: Plan, q: Plan, partial: real) returns (candles: seq<Candle>)
    requires BuiltWith(p, partial) && BuiltWith(q, partial)
    requires p.direction.Long? && q.direction.Long? && p.timestamp == q.timestamp && p.entry == q.entry
    requires p.stop == q.stop && StopOnLossSide(p) && p.tpRunner < q.tpRunner
    ensures Plausible(candles) && Simulated(p, candles) != Simulated(q, candles)
  {
    var c := Spike(p.timestamp, p.entry, Max(p.tp1, p.entry));
    var d := Spike(p.timestamp + 1, p.entry, p.tpRunner);
    TwoCandles(p, c, d);
    TwoCandles(q, c, d);
    QuotientMonotone(p.tpRunner - p.entry, q.tpRunner - q.entry, RiskOf(p));
    ReadR(q, Tick(q, Tick(q, Waiting, c), d));
    assert Simulated(p, [c, d]).outcome == TpRunnerHit;
    candles := [c, d];
  }

  lemma LongsApart(p: Plan, q: Plan, partial: real) returns (candles: seq<Candle>)
    requires BuiltWith(p, partial) && BuiltWith(q, partial)
    requires p.direction.Long? && q.direction.Long? && p.timestamp == q.timestamp && !SameTrade(p, q)
    ensures Plausible(candles) && Simulated(p, candles) != Simulated(q, candles)
  {
    if p.entry < q.entry {
      candles := EntriesApart(p, q);
    } else if q.entry < p.entry {
      candles := EntriesApart(q, p);
    } else if p.stop < q.stop {
      candles := StopsApart(p, q);
    } else if q.stop < p.stop {
      candles := StopsApart(q, p);
    } else {
      if p.tpRunner == q.tpRunner {
        BuiltPlanIsUnique(p, q, partial);
      }
      if p.tpRunner < q.tpRunner {
        candles := RunnersApart(p, q, partial);
      } else {
        candles := RunnersApart(q, p, partial);
      }
    }
  }

  // ---- apart: both directions -----------------------------------------------------------------------

  lemma MirrorTwice(p: Plan)
    ensures MirrorPlan(MirrorPlan(p)) == p
  {
  }

  lemma BuiltMirrors(p: Plan, partial: real)
    requires BuiltWith(p, partial)
    ensures BuiltWith(MirrorPlan(p), partial)
  {
    PartialTargetMirrors(p.direction, p.entry, RiskOf(p), RunnerOf(p), partial);
    assert RiskOf(MirrorPlan(p)) == RiskOf(p);
    assert RunnerOf(MirrorPlan(p)) == MirrorTarget(RunnerOf(p));
  }

  lemma PlausibleMirrors(candles: seq<Candle>)
    requires Plausible(candles)
    ensures Plausible(MirrorFrame(candles))
  {
    var m := MirrorFrame(candles);
    forall c | c in m ensures c.low <= c.open <= c.high && c.low <= c.close <= c.high {
      var i :| 0 <= i < |m| && m[i] == c;
      assert candles[i] in candles;
    }
  }

  lemma PlansApart(p: Plan, q: Plan, partial: real) returns (candles: seq<Candle>)
    requires BuiltWith(p, partial) && BuiltWith(q, partial)
    requires p.direction == q.direction && p.timestamp == q.timestamp && !SameTrade(p, q)
    ensures Plausible(candles) && Simulated(p, candles) != Simulated(q, candles)
  {
    if p.direction.Long? {
      candles := LongsApart(p, q, partial);
    } else {
      BuiltMirrors(p, partial);
      BuiltMirrors(q, partial);
      MirrorTwice(p);
      MirrorTwice(q);
      var mirrored := LongsApart(MirrorPlan(p), MirrorPlan(q), partial);
      OutcomeMirrors(MirrorPlan(p), mirrored);
      OutcomeMirrors(MirrorPlan(q), mirrored);
      PlausibleMirrors(mirrored);
      candles := MirrorFrame(mirrored);
    }
  }

  /** No frame tells the two plans apart. */
  ghost predicate AlwaysAlike(p: Plan, q: Plan) {
    forall candles :: Plausible(candles) ==> Simulated(p, candles) == Simulated(q, candles)
  }

  /**
    Two plans of one time and direction end alike on every frame exactly when they are the same plan,
    or share the entry and both have their stop beyond it, so that the fill itself stops them.
  */
  lemma AlikeIff(p: Plan, q: Plan, partial: real)
    requires BuiltWith(p, partial) && BuiltWith(q, partial)
    requires p.direction == q.direction && p.timestamp == q.timestamp
    ensures AlwaysAlike(p, q) <==> SameTrade(p, q)
  {
    if SameTrade(p, q) {
      forall candles | Plausible(candles) ensures Simulated(p, candles) == Simulated(q, candles) {
        SameTradesEndAlike(p, q, candles);
      }
    } else {
      var candles := PlansApart(p, q, partial);
    }
  }
}
