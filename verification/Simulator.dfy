/** The trade simulators of the backtests: three index loops, against a one-pass automaton. */
module Simulator {
  import opened Foundations

  datatype Direction = Long | Short

  /** The trade-plan fields of a setup that the simulators read. */
  datatype Plan = Plan(
    timestamp: int,
    direction: Direction,
    entry: real,
    stop: real,
    tp1: real,
    tpRunner: real,
    tp1RR: real,
    tpRunnerRR: real)

  datatype Outcome = EntryNotHit | SlBeforeEntry | SlHit | Tp1HitOnly | TpRunnerHit | OpenAtHorizon

  /** Times are minutes after the setup's timestamp where the names say so. */
  datatype TradeResult = TradeResult(
    outcome: Outcome,
    entryTime: Option<int>,
    resolutionTime: Option<int>,
    strictR: real,
    realisticR: real,
    minutesToEntry: Option<real>,
    minutesToResolution: Option<real>)

  const HORIZON := 24 * 60 * MINUTE

  // ---- touches ------------------------------------------------------------------------------------

  predicate EntryTouched(p: Plan, c: Candle) {
    if p.direction.Long? then c.low <= p.entry else c.high >= p.entry
  }

  predicate StopTouched(p: Plan, c: Candle) {
    if p.direction.Long? then c.low <= p.stop else c.high >= p.stop
  }

  predicate TargetTouched(p: Plan, c: Candle, target: real) {
    if p.direction.Long? then c.high >= target else c.low <= target
  }

  predicate SameTargets(p: Plan) {
    Abs(p.tp1 - p.tpRunner) < 0.000000001
  }

  function Minutes(p: Plan, t: int): real {
    (t - p.timestamp) as real / MINUTE as real
  }

  function Half(x: real): real { x / 2.0 }

  /** Half the position at each target. */
  function BlendedR(p: Plan): real { 0.5 * p.tp1RR + 0.5 * p.tpRunnerRR }

  // ---- the automaton --------------------------------------------------------------------------------

  datatype Phase =
    | Waiting
    | InTrade(entryTime: int)
    | HalfClosed(entryTime: int, tp1Time: int)
    | Done(outcome: Outcome, entryTime: int, resolution: int)

  /** After the entry candle's or a later candle's stop was not touched: is TP1? */
  function AtTp1(p: Plan, c: Candle, entryTime: int): Phase {
    if !TargetTouched(p, c, p.tp1) then InTrade(entryTime)
    else if SameTargets(p) then Done(TpRunnerHit, entryTime, c.time)
    else HalfClosed(entryTime, c.time)
  }

  /** One candle; the stop wins a candle that also touches a target. */
  function Tick(p: Plan, phase: Phase, c: Candle): Phase {
    match phase
    case Waiting =>
      if !EntryTouched(p, c) then Waiting
      else if StopTouched(p, c) then Done(SlBeforeEntry, c.time, c.time)
      else AtTp1(p, c, c.time)
    case InTrade(entryTime) =>
      if StopTouched(p, c) then Done(SlHit, entryTime, c.time) else AtTp1(p, c, entryTime)
    case HalfClosed(entryTime, tp1Time) =>
      if StopTouched(p, c) then Done(Tp1HitOnly, entryTime, c.time)
      else if TargetTouched(p, c, p.tpRunner) then Done(TpRunnerHit, entryTime, c.time)
      else phase
    case Done(_, _, _) => phase
  }

  function Play(p: Plan, phase: Phase, candles: seq<Candle>): Phase
    decreases |candles|
  {
    if candles == [] then phase else Play(p, Tick(p, phase, candles[0]), candles[1..])
  }

  // ---- reading the result off the final phase --------------------------------------------------------

  function StrictR(p: Plan, o: Outcome): real {
    match o
    case SlBeforeEntry => -1.0
    case SlHit => -1.0
    case Tp1HitOnly => Half(p.tp1RR - 1.0)
    case TpRunnerHit => BlendedR(p)
    case _ => 0.0
  }

  function RealisticR(p: Plan, o: Outcome): real {
    if o.SlBeforeEntry? then 0.0 else StrictR(p, o)
  }

  function MakeResult(p: Plan, o: Outcome, entry: Option<int>, resolution: Option<int>): TradeResult {
    TradeResult(o, entry, resolution, StrictR(p, o), RealisticR(p, o),
           if entry.Some? then Some(Minutes(p, entry.value)) else None,
           if resolution.Some? then Some(Minutes(p, resolution.value)) else None)
  }

  function Read(p: Plan, phase: Phase): TradeResult {
    match phase
    case Waiting => MakeResult(p, EntryNotHit, None, None)
    case InTrade(entryTime) => MakeResult(p, OpenAtHorizon, Some(entryTime), None)
    case HalfClosed(entryTime, tp1Time) => MakeResult(p, Tp1HitOnly, Some(entryTime), Some(tp1Time))
    case Done(outcome, entryTime, resolution) => MakeResult(p, outcome, Some(entryTime), Some(resolution))
  }

  /** Rows from the setup's timestamp to the horizon, both inclusive. */
  function InHorizon(p: Plan, candles: seq<Candle>): seq<Candle> {
    if candles == [] then []
    else
      var rest := InHorizon(p, candles[1..]);
      if p.timestamp <= candles[0].time <= p.timestamp + HORIZON then [candles[0]] + rest else rest
  }

  const NO_DATA := TradeResult(OpenAtHorizon, None, None, 0.0, 0.0, None, None)

  /** What the simulator computes: the automaton over the rows in the horizon. */
  function Simulated(p: Plan, candles: seq<Candle>): TradeResult {
    var rows := InHorizon(p, candles);
    if rows == [] then NO_DATA else Read(p, Play(p, Waiting, rows))
  }

  // ---- lemmas about runs -------------------------------------------------------------------------------

  lemma {:induction false} DoneIsFinal(p: Plan, phase: Phase, candles: seq<Candle>)
    requires phase.Done?
    ensures Play(p, phase, candles) == phase
    decreases |candles|
  {
    if candles != [] {
      DoneIsFinal(p, phase, candles[1..]);
    }
  }

  lemma {:induction false} PlayAppend(p: Plan, phase: Phase, a: seq<Candle>, b: seq<Candle>)
    ensures Play(p, phase, a + b) == Play(p, Play(p, phase, a), b)
    decreases |a|
  {
    if a == [] {
      assert a + b == b;
    } else {
      assert (a + b)[1..] == a[1..] + b;
      PlayAppend(p, Tick(p, phase, a[0]), a[1..], b);
    }
  }

  /** Candles that leave the phase alone can be skipped. */
  lemma {:induction false} PlayIdle(p: Plan, phase: Phase, rows: seq<Candle>, from: nat, to: nat)
    requires from <= to <= |rows| && forall k :: from <= k < to ==> Tick(p, phase, rows[k]) == phase
    ensures Play(p, phase, rows[from..]) == Play(p, phase, rows[to..])
    decreases |rows| - from
  {
    if from < to {
      assert rows[from..][0] == rows[from] && rows[from..][1..] == rows[from + 1..];
      PlayIdle(p, phase, rows, from + 1, to);
    }
  }

  /** One decisive candle after a quiet stretch. */
  lemma PlayDecides(p: Plan, phase: Phase, rows: seq<Candle>, from: nat, at: nat)
    requires from <= at < |rows| && forall k :: from <= k < at ==> Tick(p, phase, rows[k]) == phase
    ensures Play(p, phase, rows[from..]) == Play(p, Tick(p, phase, rows[at]), rows[at + 1..])
  {
    PlayIdle(p, phase, rows, from, at);
    assert rows[at..][0] == rows[at] && rows[at..][1..] == rows[at + 1..];
  }

  // ---- the simulator of the full backtest ---------------------------------------------------------------

  /** Phase 1: the first row that touches the entry. */
  method FindEntry(p: Plan, rows: seq<Candle>) returns (entry: Option<nat>)
    ensures entry.None? ==> Play(p, Waiting, rows) == Waiting
    ensures entry.Some? ==> entry.value < |rows| && EntryTouched(p, rows[entry.value])
                            && Play(p, Waiting, rows)
                                == Play(p, Tick(p, Waiting, rows[entry.value]), rows[entry.value + 1..])
  {
    assert rows[0..] == rows && rows[|rows|..] == [];
    for i := 0 to |rows|
      invariant forall k :: 0 <= k < i ==> !EntryTouched(p, rows[k])
    {
      if EntryTouched(p, rows[i]) {
        PlayDecides(p, Waiting, rows, 0, i);
        return Some(i);
      }
    }
    PlayIdle(p, Waiting, rows, 0, |rows|);
    entry := None;
  }

  /** Phase 2: the race of the stop against TP1, from the entry candle on. */
  method RaceTp1(p: Plan, rows: seq<Candle>, e: nat) returns (stopped: Option<nat>, tp1: Option<nat>)
    requires e < |rows|
    ensures stopped.None? || tp1.None?
    ensures stopped.Some? ==> stopped.value < |rows|
                              && Play(p, InTrade(rows[e].time), rows[e..])
                                  == Done(SlHit, rows[e].time, rows[stopped.value].time)
    ensures tp1.Some? ==> tp1.value < |rows|
                          && Play(p, InTrade(rows[e].time), rows[e..])
                             == Play(p, if SameTargets(p) then Done(TpRunnerHit, rows[e].time, rows[tp1.value].time)
                                        else HalfClosed(rows[e].time, rows[tp1.value].time), rows[tp1.value + 1..])
    ensures stopped.None? && tp1.None? ==> Play(p, InTrade(rows[e].time), rows[e..]) == InTrade(rows[e].time)
  {
    var trade := InTrade(rows[e].time);
    for i := e to |rows|
      invariant forall k :: e <= k < i ==> Tick(p, trade, rows[k]) == trade
    {
      if StopTouched(p, rows[i]) {
        PlayDecides(p, trade, rows, e, i);
        DoneIsFinal(p, Done(SlHit, rows[e].time, rows[i].time), rows[i + 1..]);
        return Some(i), None;
      }
      if TargetTouched(p, rows[i], p.tp1) {
        PlayDecides(p, trade, rows, e, i);
        return None, Some(i);
      }
    }
    PlayIdle(p, trade, rows, e, |rows|);
    return None, None;
  }

  /** Phase 3: the race of the stop against the runner, after the TP1 candle. */
  method RaceRunner(p: Plan, rows: seq<Candle>, entryTime: int, t: nat) returns (end: Option<nat>, outcome: Outcome)
    requires t < |rows|
    ensures var final := Play(p, HalfClosed(entryTime, rows[t].time), rows[t + 1..]);
            if end.None? then outcome == Tp1HitOnly && final == HalfClosed(entryTime, rows[t].time)
            else end.value < |rows| && final == Done(outcome, entryTime, rows[end.value].time)
  {
    var half := HalfClosed(entryTime, rows[t].time);
    for j := t + 1 to |rows|
      invariant forall k :: t + 1 <= k < j ==> Tick(p, half, rows[k]) == half
    {
      if StopTouched(p, rows[j]) {
        PlayDecides(p, half, rows, t + 1, j);
        DoneIsFinal(p, Done(Tp1HitOnly, entryTime, rows[j].time), rows[j + 1..]);
        return Some(j), Tp1HitOnly;
      }
      if TargetTouched(p, rows[j], p.tpRunner) {
        PlayDecides(p, half, rows, t + 1, j);
        DoneIsFinal(p, Done(TpRunnerHit, entryTime, rows[j].time), rows[j + 1..]);
        return Some(j), TpRunnerHit;
      }
    }
    PlayIdle(p, half, rows, t + 1, |rows|);
    return None, Tp1HitOnly;
  }

  /** On a candle that enters without touching the stop, entering and then ticking is ticking in the trade. */
  lemma EntryTick(p: Plan, rows: seq<Candle>, e: nat)
    requires e < |rows| && EntryTouched(p, rows[e]) && !StopTouched(p, rows[e])
    ensures Play(p, Tick(p, Waiting, rows[e]), rows[e + 1..]) == Play(p, InTrade(rows[e].time), rows[e..])
  {
    assert rows[e..][0] == rows[e] && rows[e..][1..] == rows[e + 1..];
  }

  /** `_simulate_outcome` of the full backtest. */
  method SimulateOutcome(p: Plan, candles: seq<Candle>) returns (r: TradeResult)
    ensures r == Simulated(p, candles)
  {
    var rows := InHorizon(p, candles);
    if |rows| == 0 {
      return NO_DATA;
    }
    var entry := FindEntry(p, rows);
    if entry.None? {
      return MakeResult(p, EntryNotHit, None, None);
    }
    var e := entry.value;
    var entryTime := rows[e].time;
    if StopTouched(p, rows[e]) {
      DoneIsFinal(p, Done(SlBeforeEntry, entryTime, entryTime), rows[e + 1..]);
      return MakeResult(p, SlBeforeEntry, Some(entryTime), Some(entryTime));
    }
    EntryTick(p, rows, e);
    var stopped, tp1 := RaceTp1(p, rows, e);
    if stopped.Some? {
      return MakeResult(p, SlHit, Some(entryTime), Some(rows[stopped.value].time));
    }
    if tp1.None? {
      return MakeResult(p, OpenAtHorizon, Some(entryTime), None);
    }
    var tp1Time := rows[tp1.value].time;
    if SameTargets(p) {
      DoneIsFinal(p, Done(TpRunnerHit, entryTime, tp1Time), rows[tp1.value + 1..]);
      return MakeResult(p, TpRunnerHit, Some(entryTime), Some(tp1Time));
    }
    var end, outcome := RaceRunner(p, rows, entryTime, tp1.value);
    r := MakeResult(p, outcome, Some(entryTime), Some(if end.None? then tp1Time else rows[end.value].time));
  }

  // ---- the simulator of the setup-outcome backtest ------------------------------------------------------

  /** Its result has a single R. */
  datatype SetupResult = SetupResult(
    outcome: Outcome,
    entryTime: Option<int>,
    resolutionTime: Option<int>,
    realizedR: real,
    minutesToEntry: Option<real>,
    minutesToResolution: Option<real>)

  function MakeSetupResult(p: Plan, o: Outcome, r: real, entry: Option<int>, resolution: Option<int>): SetupResult {
    SetupResult(o, entry, resolution, r,
                if entry.Some? then Some(Minutes(p, entry.value)) else None,
                if resolution.Some? then Some(Minutes(p, resolution.value)) else None)
  }

  /** The fields the two simulators share, the single R being the strict one. */
  function Shared(r: TradeResult): SetupResult {
    SetupResult(r.outcome, r.entryTime, r.resolutionTime, r.strictR, r.minutesToEntry, r.minutesToResolution)
  }

  /** Candles `a` up to `b` touch neither the stop nor the target. */
  predicate Untouched(p: Plan, rows: seq<Candle>, target: real, a: nat, b: nat) {
    b <= |rows| && forall k :: a <= k < b ==> !StopTouched(p, rows[k]) && !TargetTouched(p, rows[k], target)
  }

  /** Phase 2 as this copy writes it: a candle touching both is tested before the stop alone. */
  method RaceTp1Explicit(p: Plan, rows: seq<Candle>, e: nat) returns (stopped: Option<nat>, tp1: Option<nat>)
    requires e < |rows|
    ensures stopped.None? || tp1.None?
    ensures stopped.Some? ==>
              && e <= stopped.value < |rows| && StopTouched(p, rows[stopped.value])
              && Untouched(p, rows, p.tp1, e, stopped.value)
    ensures tp1.Some? ==>
              && e <= tp1.value < |rows| && Untouched(p, rows, p.tp1, e, tp1.value)
              && !StopTouched(p, rows[tp1.value]) && TargetTouched(p, rows[tp1.value], p.tp1)
    ensures stopped.None? && tp1.None? ==> Untouched(p, rows, p.tp1, e, |rows|)
  {
    for i := e to |rows|
      invariant Untouched(p, rows, p.tp1, e, i)
    {
      var slNow, tp1Now := StopTouched(p, rows[i]), TargetTouched(p, rows[i], p.tp1);
      if slNow && tp1Now {
        return Some(i), None;
      }
      if slNow {
        return Some(i), None;
      }
      if tp1Now {
        return None, Some(i);
      }
    }
    return None, None;
  }

  /** Phase 3 as this copy writes it. */
  method RaceRunnerExplicit(p: Plan, rows: seq<Candle>, t: nat) returns (stopped: Option<nat>, runner: Option<nat>)
    requires t < |rows|
    ensures stopped.None? || runner.None?
    ensures stopped.Some? ==>
              && t < stopped.value < |rows| && StopTouched(p, rows[stopped.value])
              && Untouched(p, rows, p.tpRunner, t + 1, stopped.value)
    ensures runner.Some? ==>
              && t < runner.value < |rows| && Untouched(p, rows, p.tpRunner, t + 1, runner.value)
              && !StopTouched(p, rows[runner.value]) && TargetTouched(p, rows[runner.value], p.tpRunner)
    ensures stopped.None? && runner.None? ==> Untouched(p, rows, p.tpRunner, t + 1, |rows|)
  {
    for j := t + 1 to |rows|
      invariant Untouched(p, rows, p.tpRunner, t + 1, j)
    {
      var slNow, runnerNow := StopTouched(p, rows[j]), TargetTouched(p, rows[j], p.tpRunner);
      if slNow && runnerNow {
        return Some(j), None;
      }
      if slNow {
        return Some(j), None;
      }
      if runnerNow {
        return None, Some(j);
      }
    }
    return None, None;
  }

  /** `_simulate_outcome` of the setup-outcome backtest agrees with the other copy on every shared field. */
  method SimulateSetupOutcome(p: Plan, candles: seq<Candle>) returns (r: SetupResult)
    ensures r == Shared(Simulated(p, candles))
  {
    var rows := InHorizon(p, candles);
    if |rows| == 0 {
      return SetupResult(OpenAtHorizon, None, None, 0.0, None, None);
    }
    var entry := FindEntry(p, rows);
    if entry.None? {
      return MakeSetupResult(p, EntryNotHit, 0.0, None, None);
    }
    var e := entry.value;
    var entryTime := rows[e].time;
    if StopTouched(p, rows[e]) {
      DoneIsFinal(p, Done(SlBeforeEntry, entryTime, entryTime), rows[e + 1..]);
      return MakeSetupResult(p, SlBeforeEntry, -1.0, Some(entryTime), Some(entryTime));
    }
    EntryTick(p, rows, e);
    r := AfterEntry(p, rows, e);
  }

  method AfterEntry(p: Plan, rows: seq<Candle>, e: nat) returns (r: SetupResult)
    requires e < |rows|
    ensures r == Shared(Read(p, Play(p, InTrade(rows[e].time), rows[e..])))
  {
    var entryTime := rows[e].time;
    var stopped, tp1 := RaceTp1Explicit(p, rows, e);
    var trade := InTrade(entryTime);
    if stopped.Some? {
      var t := rows[stopped.value].time;
      PlayDecides(p, trade, rows, e, stopped.value);
      DoneIsFinal(p, Done(SlHit, entryTime, t), rows[stopped.value + 1..]);
      return MakeSetupResult(p, SlHit, -1.0, Some(entryTime), Some(t));
    }
    if tp1.None? {
      PlayIdle(p, trade, rows, e, |rows|);
      return MakeSetupResult(p, OpenAtHorizon, 0.0, Some(entryTime), None);
    }
    PlayDecides(p, trade, rows, e, tp1.value);
    r := AfterTp1(p, rows, entryTime, tp1.value);
  }

  method AfterTp1(p: Plan, rows: seq<Candle>, entryTime: int, t: nat) returns (r: SetupResult)
    requires t < |rows|
    ensures r == Shared(Read(p, Play(p, if SameTargets(p) then Done(TpRunnerHit, entryTime, rows[t].time)
                                        else HalfClosed(entryTime, rows[t].time), rows[t + 1..])))
  {
    var tp1Time := rows[t].time;
    if SameTargets(p) {
      DoneIsFinal(p, Done(TpRunnerHit, entryTime, tp1Time), rows[t + 1..]);
      return MakeSetupResult(p, TpRunnerHit, BlendedR(p), Some(entryTime), Some(tp1Time));
    }
    var stopped, runner := RaceRunnerExplicit(p, rows, t);
    var half := HalfClosed(entryTime, tp1Time);
    if stopped.Some? {
      var u := rows[stopped.value].time;
      PlayDecides(p, half, rows, t + 1, stopped.value);
      DoneIsFinal(p, Done(Tp1HitOnly, entryTime, u), rows[stopped.value + 1..]);
      return MakeSetupResult(p, Tp1HitOnly, Half(p.tp1RR - 1.0), Some(entryTime), Some(u));
    }
    if runner.Some? {
      var u := rows[runner.value].time;
      PlayDecides(p, half, rows, t + 1, runner.value);
      DoneIsFinal(p, Done(TpRunnerHit, entryTime, u), rows[runner.value + 1..]);
      return MakeSetupResult(p, TpRunnerHit, BlendedR(p), Some(entryTime), Some(u));
    }
    PlayIdle(p, half, rows, t + 1, |rows|);
    r := MakeSetupResult(p, Tp1HitOnly, Half(p.tp1RR - 1.0), Some(entryTime), Some(tp1Time));
  }

  // ---- what the outcomes mean ---------------------------------------------------------------------------

  lemma {:induction false} InHorizonAppend(p: Plan, a: seq<Candle>, b: seq<Candle>)
    ensures InHorizon(p, a + b) == InHorizon(p, a) + InHorizon(p, b)
    decreases |a|
  {
    if a == [] {
      assert a + b == b;
    } else {
      assert (a + b)[1..] == a[1..] + b;
      InHorizonAppend(p, a[1..], b);
    }
  }

  /** The trade was ended by a touch of the stop or of the runner, not by the end of the data. */
  predicate Settled(p: Plan, candles: seq<Candle>) {
    Play(p, Waiting, InHorizon(p, candles)).Done?
  }

  /** A settled outcome does not change when more candles arrive. */
  lemma SettledIsStable(p: Plan, candles: seq<Candle>, more: seq<Candle>)
    requires Settled(p, candles)
    ensures Settled(p, candles + more) && Simulated(p, candles + more) == Simulated(p, candles)
  {
    var a, b := InHorizon(p, candles), InHorizon(p, more);
    InHorizonAppend(p, candles, more);
    PlayAppend(p, Waiting, a, b);
    DoneIsFinal(p, Play(p, Waiting, a), b);
  }

  /** Phases reachable from the start, with the outcome a finished trade may show. */
  ghost predicate Proper(p: Plan, phase: Phase) {
    phase.Done? ==> !phase.outcome.EntryNotHit? && !phase.outcome.OpenAtHorizon?
  }

  lemma {:induction false} PlayStaysProper(p: Plan, phase: Phase, candles: seq<Candle>)
    requires Proper(p, phase)
    ensures Proper(p, Play(p, phase, candles))
    decreases |candles|
  {
    if candles != [] {
      PlayStaysProper(p, Tick(p, phase, candles[0]), candles[1..]);
    }
  }

  /** Only a settled trade is reported as stopped or as a full win; the rest may still change. */
  lemma UnsettledOutcomes(p: Plan, candles: seq<Candle>)
    ensures var r := Simulated(p, candles);
            && (!Settled(p, candles) ==> r.outcome.EntryNotHit? || r.outcome.OpenAtHorizon? || r.outcome.Tp1HitOnly?)
            && (r.outcome.SlBeforeEntry? || r.outcome.SlHit? || r.outcome.TpRunnerHit? ==> Settled(p, candles))
  {
    PlayStaysProper(p, Waiting, InHorizon(p, candles));
  }

  /** Strict R never exceeds realistic R; they differ exactly when the stop preceded the fill. */
  lemma StrictAtMostRealistic(p: Plan, candles: seq<Candle>)
    ensures var r := Simulated(p, candles);
            r.strictR <= r.realisticR && (r.strictR < r.realisticR <==> r.outcome == SlBeforeEntry)
  {
    PlayStaysProper(p, Waiting, InHorizon(p, candles));
  }
}
