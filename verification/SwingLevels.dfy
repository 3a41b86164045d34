/** Multi-timeframe swing levels as of a cutoff, and how far past the cutoff they look. */
module SwingLevels {
  import opened Foundations
  import opened Gathering
  import opened Sorting
  import opened Swings
  import opened Matching

  // ---- the significant swings of one frame ----------------------------------------------------------

  /** The swing at bar `i`, unless its bar is later than the cutoff. */
  function MarkAt(candle: Candle, swing: Option<Pivot>, asOf: int): seq<Point> {
    if swing.None? || candle.time > asOf then [] else [Point(swing.value.side, candle.time, swing.value.price)]
  }

  ghost function Marks(candles: seq<Candle>, p: SwingParams, asOf: int): (nat -> seq<Point>)
    requires p.lookback >= 1 && p.period >= 1
  {
    (i: nat) => if i < |candles| then MarkAt(candles[i], SwingAt(candles, p, i), asOf) else []
  }

  /** The significant swings up to the cutoff, in order of time. */
  ghost function SwingsBy(candles: seq<Candle>, p: SwingParams, asOf: int): seq<Point>
    requires Accepted(candles, p)
  {
    if candles == [] then [] else Gather(Marks(candles, p, asOf), |candles|)
  }

  /** `find_swings`, then `_significant_swings_with_time`. */
  method ReadSwings(candles: seq<Candle>, p: SwingParams, asOf: int) returns (r: Result<seq<Point>>)
    ensures r.Ok? <==> Accepted(candles, p)
    ensures r.Ok? ==> r.value == SwingsBy(candles, p, asOf)
  {
    var found := FindSwings(candles, p);
    if found.Err? {
      return Err(found.error);
    }
    var swings := found.value[..];
    var out: seq<Point> := [];
    for i := 0 to |candles|
      invariant candles != [] ==> out == Gather(Marks(candles, p, asOf), i)
      invariant candles == [] ==> out == []
    {
      assert swings[i] == SwingAt(candles, p, i);
      if swings[i].Some? && candles[i].time <= asOf {
        out := out + [Point(swings[i].value.side, candles[i].time, swings[i].value.price)];
      }
    }
    r := Ok(out);
  }

  // ---- the levels -----------------------------------------------------------------------------------

  /** How the two frames are read and matched. */
  datatype Confluence = Confluence(h4: SwingParams, h1: SwingParams, swings: int, candles: int, fraction: real)

  /** The latest first; levels of one instant keep their order. */
  function TimeOf(): (SwingLevel -> int) { (l: SwingLevel) => l.time }

  /** The levels of the greedy pairing, before they are sorted. */
  function PairedLevels(c: Confluence, h4: seq<Point>, h1: seq<Point>): seq<SwingLevel> {
    var recent := Suffix(h4, c.swings);
    var a := Greedy(Window(4 * c.candles * HOUR, c.fraction), recent, h1);
    H4Levels(recent, a) + MinorLevels(h1, Used(a), |h1| - c.swings * 2, |h1|)
  }

  ghost function SwingLevelsOf(c: Confluence, h4: seq<Candle>, h1: seq<Candle>, asOf: int): seq<SwingLevel>
    requires Accepted(h4, c.h4) && Accepted(h1, c.h1)
  {
    StableSort(PairedLevels(c, SwingsBy(h4, c.h4, asOf), SwingsBy(h1, c.h1, asOf)), LatestFirst(TimeOf()))
  }

  /** `mark_swing_levels`. */
  method MarkSwingLevels(c: Confluence, h4: seq<Candle>, h1: seq<Candle>, asOf: int)
    returns (r: Result<seq<SwingLevel>>)
    ensures r.Ok? <==> c.h4.lookback >= 1 && c.h4.amplitude >= 0.0 && (h4 == [] || c.h4.period >= 1)
                       && c.h1.lookback >= 1 && c.h1.amplitude >= 0.0 && (h1 == [] || c.h1.period >= 1)
    ensures r.Ok? ==> r.value == SwingLevelsOf(c, h4, h1, asOf)
  {
    var h4Swings := ReadSwings(h4, c.h4, asOf);
    if h4Swings.Err? {
      return Err(h4Swings.error);
    }
    var h1Swings := ReadSwings(h1, c.h1, asOf);
    if h1Swings.Err? {
      return Err(h1Swings.error);
    }
    var levels := MatchLevels(h4Swings.value, h1Swings.value, c.swings, c.candles, c.fraction);
    r := Ok(StableSort(levels, LatestFirst(TimeOf())));
  }

  /** The levels come latest first. */
  lemma LevelsAreLatestFirst(c: Confluence, h4: seq<Candle>, h1: seq<Candle>, asOf: int)
    requires Accepted(h4, c.h4) && Accepted(h1, c.h1)
    ensures var levels := SwingLevelsOf(c, h4, h1, asOf);
            forall i, j :: 0 <= i < j < |levels| ==> levels[j].time <= levels[i].time
  {
    var paired, levels :=
        PairedLevels(c, SwingsBy(h4, c.h4, asOf), SwingsBy(h1, c.h1, asOf)), SwingLevelsOf(c, h4, h1, asOf);
    StableSortSorts(paired, LatestFirst(TimeOf()));
    forall i, j | 0 <= i < j < |levels| ensures levels[j].time <= levels[i].time {
      assert LatestFirst(TimeOf())(levels[i]) <= LatestFirst(TimeOf())(levels[j]);
    }
  }

  // ---- the cutoff -----------------------------------------------------------------------------------

  /** Exactly the first `k` candles are not later than the cutoff. */
  ghost predicate CutAt(candles: seq<Candle>, asOf: int, k: nat) {
    k <= |candles| && forall i :: 0 <= i < |candles| ==> (candles[i].time <= asOf <==> i < k)
  }

  /** The swings as of the cutoff are fixed by the candles up to `lookback` bars past it. */
  lemma CutoffReadsLookback(candles: seq<Candle>, p: SwingParams, asOf: int, k: nat, m: nat)
    requires Accepted(candles, p) && p.period >= 1 && CutAt(candles, asOf, k) && k + p.lookback <= m <= |candles|
    ensures SwingsBy(candles[..m], p, asOf) == SwingsBy(candles, p, asOf)
  {
    var f, g := Marks(candles, p, asOf), Marks(candles[..m], p, asOf);
    forall i: nat | i < m ensures g(i) == f(i) {
      if i < k {
        SwingOfPrefix(candles, p, m, i);
      }
    }
    GatherSame(g, f, m);
    GatherNothing(f, m, |candles|);
  }

  /** A bar near the end of a frame has no confirmed swing. */
  lemma UnconfirmedAtTheEnd(candles: seq<Candle>, p: SwingParams, i: nat)
    requires p.lookback >= 1 && p.period >= 1 && i < |candles| <= i + p.lookback
    ensures SwingAt(candles, p, i) == None
  {
  }

  /** Some swing up to the cutoff is confirmed only by candles after it. */
  ghost predicate LateConfirmation(candles: seq<Candle>, p: SwingParams, k: nat)
    requires k <= |candles| && p.lookback >= 1 && p.period >= 1
  {
    exists i: nat :: i < k <= i + p.lookback && SwingAt(candles, p, i).Some?
  }

  lemma CutFrame(candles: seq<Candle>, p: SwingParams, asOf: int, k: nat, confirmed: nat)
    requires Accepted(candles, p) && p.period >= 1 && CutAt(candles, asOf, k) && k > 0
    requires confirmed == if k > p.lookback then k - p.lookback else 0
    ensures SwingsBy(candles[..k], p, asOf) == Gather(Marks(candles, p, asOf), confirmed)
  {
    var f, g := Marks(candles, p, asOf), Marks(candles[..k], p, asOf);
    forall i: nat | i < confirmed ensures g(i) == f(i) {
      SwingOfPrefix(candles, p, k, i);
    }
    forall i: nat | confirmed <= i < k ensures g(i) == [] {
      UnconfirmedAtTheEnd(candles[..k], p, i);
    }
    GatherSame(g, f, confirmed);
    GatherNothing(g, confirmed, k);
  }

  /**
    Dropping the swings after the cutoff does not by itself keep the future out: the frame cut at the
    cutoff gives the same swings exactly when none of them is confirmed later.
  */
  lemma CutoffIsCausalIff(candles: seq<Candle>, p: SwingParams, asOf: int, k: nat)
    requires Accepted(candles, p) && p.period >= 1 && CutAt(candles, asOf, k) && k > 0
    ensures SwingsBy(candles[..k], p, asOf) == SwingsBy(candles, p, asOf) <==> !LateConfirmation(candles, p, k)
  {
    var f := Marks(candles, p, asOf);
    var confirmed := if k > p.lookback then k - p.lookback else 0;
    CutFrame(candles, p, asOf, k, confirmed);
    GatherNothing(f, k, |candles|);
    GatherSettledIff(f, confirmed, k);
    assert forall i: nat :: confirmed <= i < k ==> (f(i) == [] <==> SwingAt(candles, p, i).None?);
  }

  /** The cutoff falls on the peak: the candles after it decide that it is one. */
  lemma CutoffSeesTheFuture(candles: seq<Candle>, p: SwingParams)
    requires candles == [Candle(0, 1.5, 2.0, 1.0, 1.5), Candle(1, 1.5, 3.0, 1.5, 1.5), Candle(2, 1.5, 2.0, 1.0, 1.5)]
    requires p.lookback == 1 && p.period >= 1 && p.amplitude >= 0.0
    ensures SwingsBy(candles, p, 1) != SwingsBy(candles[..2], p, 1)
  {
    assert RawAt(candles, 1, 0) == None && RawAt(candles, 1, 1) == Some(Pivot(High, 3.0));
    assert MemoryBefore(candles, p, 0) == MemoryBefore(candles, p, 1);
    assert SwingAt(candles, p, 1).Some?;
    assert LateConfirmation(candles, p, 2);
    CutoffIsCausalIff(candles, p, 1, 2);
  }
}
