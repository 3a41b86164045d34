/** What a simulated trade reports, told by the candles of its first 24 hours. */
module TradeStory {
  import opened Foundations
  import opened Simulator

  // ---- the candles that count -----------------------------------------------------------------------

  /** At or after the setup's timestamp and at most 24 hours later. */
  predicate InDay(p: Plan, c: Candle) {
    p.timestamp <= c.time <= p.timestamp + 24 * 60 * 60_000_000
  }

  /** The positions of exactly the candles that count, in order. */
  ghost predicate Positions(p: Plan, candles: seq<Candle>, at: seq<nat>) {
    && (forall a, b :: 0 <= a < b < |at| ==> at[a] < at[b])
    && (forall a :: 0 <= a < |at| ==> at[a] < |candles| && InDay(p, candles[at[a]]))
    && (forall i: nat :: i < |candles| && InDay(p, candles[i]) ==> i in at)
  }

  function PickAt(candles: seq<Candle>, at: seq<nat>): (rows: seq<Candle>)
    requires forall a :: 0 <= a < |at| ==> at[a] < |candles|
    ensures |rows| == |at| && forall a :: 0 <= a < |at| ==> rows[a] == candles[at[a]]
  {
    seq(|at|, a requires 0 <= a < |at| => candles[at[a]])
  }

  lemma {:induction false} IndicesBelow(at: seq<nat>, n: nat)
    requires forall a, b :: 0 <= a < b < |at| ==> at[a] < at[b]
    requires forall a :: 0 <= a < |at| ==> at[a] < n
    ensures |at| <= n
    decreases n
  {
    if at != [] {
      IndicesBelow(at[..|at| - 1], at[|at| - 1]);
    }
  }

  lemma HorizonOfOne(p: Plan, c: Candle)
    ensures InHorizon(p, [c]) == if InDay(p, c) then [c] else []
  {
    assert [c][1..] == [];
  }

  lemma {:induction false} HorizonIs(p: Plan, candles: seq<Candle>, at: seq<nat>)
    requires Positions(p, candles, at)
    ensures InHorizon(p, candles) == PickAt(candles, at)
    decreases |candles|
  {
    IndicesBelow(at, |candles|);
    if candles != [] {
      var n := |candles| - 1;
      var init, last := candles[..n], candles[n];
      assert candles == init + [last];
      InHorizonAppend(p, init, [last]);
      HorizonOfOne(p, last);
      var before := WithoutLast(p, candles, at);
      HorizonIs(p, init, before);
      assert PickAt(candles, at) == PickAt(init, before) + (if InDay(p, last) then [last] else []);
    }
  }

  lemma WithoutLast(p: Plan, candles: seq<Candle>, at: seq<nat>) returns (before: seq<nat>)
    requires candles != [] && Positions(p, candles, at)
    ensures Positions(p, candles[..|candles| - 1], before)
    ensures at == before + if InDay(p, candles[|candles| - 1]) then [|candles| - 1] else []
  {
    var n := |candles| - 1;
    if InDay(p, candles[n]) {
      var a :| 0 <= a < |at| && at[a] == n;
      assert at[a] <= at[|at| - 1];
      assert a == |at| - 1;
      before := at[..a];
    } else {
      before := at;
    }
    forall i: nat | i < n && InDay(p, candles[i]) ensures i in before {
      assert i in at;
    }
  }

  /** A candle before the timestamp or more than 24 hours after it never matters, wherever it stands. */
  lemma OutsideIsIrrelevant(p: Plan, a: seq<Candle>, c: Candle, b: seq<Candle>)
    requires !InDay(p, c)
    ensures Simulated(p, a + [c] + b) == Simulated(p, a + b)
  {
    HorizonOfOne(p, c);
    InHorizonAppend(p, a + [c], b);
    InHorizonAppend(p, a, [c]);
    InHorizonAppend(p, a, b);
    assert InHorizon(p, a) + [] == InHorizon(p, a);
  }

  // ---- prices -----------------------------------------------------------------------------------------

  /** The candle trades at `x` or on its losing side. */
  predicate Against(p: Plan, c: Candle, x: real) {
    if p.direction.Long? then c.low <= x else c.high >= x
  }

  /** The candle trades at `x` or on its winning side. */
  predicate Along(p: Plan, c: Candle, x: real) {
    if p.direction.Long? then c.high >= x else c.low <= x
  }

  /** Candles `a` up to `b` reach neither the stop nor the target. */
  ghost predicate Calm(p: Plan, rows: seq<Candle>, a: nat, b: nat, target: real) {
    b <= |rows| && forall k :: a <= k < b ==> !Against(p, rows[k], p.stop) && !Along(p, rows[k], target)
  }

  /** Candle `t` is the first from `a` on to reach the stop or the target. */
  ghost predicate Decides(p: Plan, rows: seq<Candle>, a: nat, t: nat, target: real) {
    && a <= t < |rows| && Calm(p, rows, a, t, target)
    && (Against(p, rows[t], p.stop) || Along(p, rows[t], target))
  }

  /** Candle `e` is the first to reach the entry. */
  ghost predicate Enters(p: Plan, rows: seq<Candle>, e: nat) {
    e < |rows| && Against(p, rows[e], p.entry) && forall k :: 0 <= k < e ==> !Against(p, rows[k], p.entry)
  }

  // ---- the story ---------------------------------------------------------------------------------------

  function MinutesTo(p: Plan, t: Option<int>): Option<real> {
    if t.None? then None else Some((t.value - p.timestamp) as real / 60000000.0)
  }

  /** A result with these times and R values. */
  function Reports(p: Plan, o: Outcome, entry: Option<int>, end: Option<int>, strict: real,
                   realistic: real): TradeResult {
    TradeResult(o, entry, end, strict, realistic, MinutesTo(p, entry), MinutesTo(p, end))
  }

  /** After TP1 at candle `t`: half the position is out, the rest races the stop against the runner. */
  ghost predicate AfterTp1(p: Plan, rows: seq<Candle>, entry: int, t: nat, r: TradeResult)
    requires t < |rows|
  {
    var stopped, full := (p.tp1RR - 1.0) / 2.0, 0.5 * p.tp1RR + 0.5 * p.tpRunnerRR;
    if Abs(p.tp1 - p.tpRunner) < 0.000000001 then
      r == Reports(p, TpRunnerHit, Some(entry), Some(rows[t].time), full, full)
    else if Calm(p, rows, t + 1, |rows|, p.tpRunner) then
      r == Reports(p, Tp1HitOnly, Some(entry), Some(rows[t].time), stopped, stopped)
    else
      exists u: nat :: Decides(p, rows, t + 1, u, p.tpRunner)
        && r == if Against(p, rows[u], p.stop)
                then Reports(p, Tp1HitOnly, Some(entry), Some(rows[u].time), stopped, stopped)
                else Reports(p, TpRunnerHit, Some(entry), Some(rows[u].time), full, full)
  }

  /**
    After the entry at candle `e`: lost at once, or a race of the stop against TP1 that the stop wins
    on one candle.
  */
  ghost predicate AfterEntry(p: Plan, rows: seq<Candle>, e: nat, r: TradeResult)
    requires e < |rows|
  {
    var entry := rows[e].time;
    if Against(p, rows[e], p.stop) then r == Reports(p, SlBeforeEntry, Some(entry), Some(entry), -1.0, 0.0)
    else if Calm(p, rows, e, |rows|, p.tp1) then r == Reports(p, OpenAtHorizon, Some(entry), None, 0.0, 0.0)
    else
      exists t: nat :: Decides(p, rows, e, t, p.tp1)
        && if Against(p, rows[t], p.stop) then r == Reports(p, SlHit, Some(entry), Some(rows[t].time), -1.0, -1.0)
           else AfterTp1(p, rows, entry, t, r)
  }

  /** What the trade reports over the candles that count. */
  ghost predicate Story(p: Plan, rows: seq<Candle>, r: TradeResult) {
    if rows == [] then r == Reports(p, OpenAtHorizon, None, None, 0.0, 0.0)
    else if forall k :: 0 <= k < |rows| ==> !Against(p, rows[k], p.entry) then
      r == Reports(p, EntryNotHit, None, None, 0.0, 0.0)
    else exists e: nat :: Enters(p, rows, e) && AfterEntry(p, rows, e, r)
  }

  // ---- the simulator tells it ----------------------------------------------------------------------------

  lemma ReportsIs(p: Plan, o: Outcome, entry: Option<int>, end: Option<int>)
    ensures MakeResult(p, o, entry, end) == Reports(p, o, entry, end, StrictR(p, o), RealisticR(p, o))
    ensures StrictR(p, Tp1HitOnly) == (p.tp1RR - 1.0) / 2.0
  {
  }

  lemma {:induction false} FirstDecision(p: Plan, rows: seq<Candle>, a: nat, target: real) returns (t: nat)
    requires a <= |rows| && !Calm(p, rows, a, |rows|, target)
    ensures Decides(p, rows, a, t, target)
    decreases |rows| - a
  {
    if Against(p, rows[a], p.stop) || Along(p, rows[a], target) {
      t := a;
    } else {
      t := FirstDecision(p, rows, a + 1, target);
    }
  }

  lemma HalfClosedTells(p: Plan, rows: seq<Candle>, entry: int, t: nat)
    requires t < |rows| && !SameTargets(p)
    ensures AfterTp1(p, rows, entry, t, Read(p, Play(p, HalfClosed(entry, rows[t].time), rows[t + 1..])))
  {
    var half := HalfClosed(entry, rows[t].time);
    if Calm(p, rows, t + 1, |rows|, p.tpRunner) {
      PlayIdle(p, half, rows, t + 1, |rows|);
      ReportsIs(p, Tp1HitOnly, Some(entry), Some(rows[t].time));
    } else {
      var u := FirstDecision(p, rows, t + 1, p.tpRunner);
      PlayDecides(p, half, rows, t + 1, u);
      DoneIsFinal(p, Tick(p, half, rows[u]), rows[u + 1..]);
      ReportsIs(p, if Against(p, rows[u], p.stop) then Tp1HitOnly else TpRunnerHit, Some(entry), Some(rows[u].time));
    }
  }

  lemma Tp1Tells(p: Plan, rows: seq<Candle>, entry: int, t: nat)
    requires t < |rows| && !Against(p, rows[t], p.stop) && Along(p, rows[t], p.tp1)
    ensures AfterTp1(p, rows, entry, t, Read(p, Play(p, Tick(p, InTrade(entry), rows[t]), rows[t + 1..])))
  {
    if SameTargets(p) {
      DoneIsFinal(p, Tick(p, InTrade(entry), rows[t]), rows[t + 1..]);
      ReportsIs(p, TpRunnerHit, Some(entry), Some(rows[t].time));
    } else {
      HalfClosedTells(p, rows, entry, t);
    }
  }

  lemma InTradeTells(p: Plan, rows: seq<Candle>, e: nat)
    requires e < |rows| && !Against(p, rows[e], p.stop)
    ensures AfterEntry(p, rows, e, Read(p, Play(p, InTrade(rows[e].time), rows[e..])))
  {
    var trade := InTrade(rows[e].time);
    if Calm(p, rows, e, |rows|, p.tp1) {
      PlayIdle(p, trade, rows, e, |rows|);
      ReportsIs(p, OpenAtHorizon, Some(rows[e].time), None);
    } else {
      var t := FirstDecision(p, rows, e, p.tp1);
      PlayDecides(p, trade, rows, e, t);
      if Against(p, rows[t], p.stop) {
        DoneIsFinal(p, Tick(p, trade, rows[t]), rows[t + 1..]);
        ReportsIs(p, SlHit, Some(rows[e].time), Some(rows[t].time));
      } else {
        Tp1Tells(p, rows, rows[e].time, t);
      }
    }
  }

  lemma EntryTells(p: Plan, rows: seq<Candle>, e: nat)
    requires Enters(p, rows, e)
    ensures AfterEntry(p, rows, e, Read(p, Play(p, Waiting, rows)))
  {
    assert rows[0..] == rows;
    PlayDecides(p, Waiting, rows, 0, e);
    if Against(p, rows[e], p.stop) {
      DoneIsFinal(p, Tick(p, Waiting, rows[e]), rows[e + 1..]);
      ReportsIs(p, SlBeforeEntry, Some(rows[e].time), Some(rows[e].time));
    } else {
      EntryTick(p, rows, e);
      InTradeTells(p, rows, e);
    }
  }

  lemma {:induction false} FirstEntry(p: Plan, rows: seq<Candle>, n: nat) returns (e: nat)
    requires n <= |rows| && exists k :: 0 <= k < n && Against(p, rows[k], p.entry)
    ensures Enters(p, rows, e)
  {
    if k :| 0 <= k < n - 1 && Against(p, rows[k], p.entry) {
      e := FirstEntry(p, rows, n - 1);
    } else {
      e := n - 1;
    }
  }

  /** The simulator reports what happened to the trade on the candles that count. */
  lemma SimulatedTells(p: Plan, candles: seq<Candle>, at: seq<nat>)
    requires Positions(p, candles, at)
    ensures Story(p, PickAt(candles, at), Simulated(p, candles))
  {
    var rows := PickAt(candles, at);
    HorizonIs(p, candles, at);
    if rows != [] {
      if forall k :: 0 <= k < |rows| ==> !Against(p, rows[k], p.entry) {
        assert rows[0..] == rows;
        PlayIdle(p, Waiting, rows, 0, |rows|);
        ReportsIs(p, EntryNotHit, None, None);
      } else {
        var e := FirstEntry(p, rows, |rows|);
        EntryTells(p, rows, e);
      }
    }
  }

  // ---- it has only one ending ------------------------------------------------------------------------------

  lemma Tp1Unique(p: Plan, rows: seq<Candle>, entry: int, t: nat, r: TradeResult, r': TradeResult)
    requires t < |rows| && AfterTp1(p, rows, entry, t, r) && AfterTp1(p, rows, entry, t, r')
    ensures r == r'
  {
    if !(Abs(p.tp1 - p.tpRunner) < 0.000000001) && !Calm(p, rows, t + 1, |rows|, p.tpRunner) {
      var from := t + 1;
      var u := FirstDecision(p, rows, from, p.tpRunner);
      forall v: nat | Decides(p, rows, from, v, p.tpRunner) ensures v == u {
      }
    }
  }

  lemma EntryUnique(p: Plan, rows: seq<Candle>, e: nat, r: TradeResult, r': TradeResult)
    requires e < |rows| && AfterEntry(p, rows, e, r) && AfterEntry(p, rows, e, r')
    ensures r == r'
  {
    if !Against(p, rows[e], p.stop) && !Calm(p, rows, e, |rows|, p.tp1) {
      var t := FirstDecision(p, rows, e, p.tp1);
      forall v: nat | Decides(p, rows, e, v, p.tp1) ensures v == t {
      }
      if !Against(p, rows[t], p.stop) {
        Tp1Unique(p, rows, rows[e].time, t, r, r');
      }
    }
  }

  /** The story determines the result, so the result is exactly what it tells. */
  lemma SimulatedIff(p: Plan, candles: seq<Candle>, at: seq<nat>, r: TradeResult)
    requires Positions(p, candles, at)
    ensures r == Simulated(p, candles) <==> Story(p, PickAt(candles, at), r)
  {
    var rows := PickAt(candles, at);
    SimulatedTells(p, candles, at);
    if Story(p, rows, r) && rows != [] && exists k :: 0 <= k < |rows| && Against(p, rows[k], p.entry) {
      var e := FirstEntry(p, rows, |rows|);
      forall f: nat | Enters(p, rows, f) ensures f == e {
      }
      EntryUnique(p, rows, e, r, Simulated(p, candles));
    }
  }

  // ---- times --------------------------------------------------------------------------------------------------

  /** Phases whose times lie within the 24 hours. */
  ghost predicate Timely(p: Plan, phase: Phase) {
    var end := p.timestamp + 24 * 60 * 60_000_000;
    match phase
    case Waiting => true
    case InTrade(entry) => p.timestamp <= entry <= end
    case HalfClosed(entry, tp1) => p.timestamp <= entry <= end && p.timestamp <= tp1 <= end
    case Done(_, entry, resolution) => p.timestamp <= entry <= end && p.timestamp <= resolution <= end
  }

  lemma {:induction false} PlayIsTimely(p: Plan, phase: Phase, rows: seq<Candle>)
    requires Timely(p, phase) && forall c :: c in rows ==> InDay(p, c)
    ensures Timely(p, Play(p, phase, rows))
    decreases |rows|
  {
    if rows != [] {
      assert rows[0] in rows && forall c :: c in rows[1..] ==> c in rows;
      PlayIsTimely(p, Tick(p, phase, rows[0]), rows[1..]);
    }
  }

  lemma {:induction false} HorizonIsInDay(p: Plan, candles: seq<Candle>)
    ensures forall c :: c in InHorizon(p, candles) ==> InDay(p, c)
  {
    if candles != [] {
      HorizonIsInDay(p, candles[1..]);
    }
  }

  /** Every reported time lies in the 24 hours from the timestamp on, both ends included. */
  lemma TimesAreInDay(p: Plan, candles: seq<Candle>)
    ensures var r, end := Simulated(p, candles), p.timestamp + 24 * 60 * 60_000_000;
            && (r.entryTime.Some? ==> p.timestamp <= r.entryTime.value <= end)
            && (r.resolutionTime.Some? ==> p.timestamp <= r.resolutionTime.value <= end)
  {
    HorizonIsInDay(p, candles);
    PlayIsTimely(p, Waiting, InHorizon(p, candles));
  }
}
