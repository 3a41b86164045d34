/** Every liquidity sweep inside a killzone: a wick through a level whose close returns in time. */
module SweepDetection {
  import opened Foundations
  import opened SweepTypes
  import opened Gathering
  import opened Sorting
  import opened SweepDedup

  /** `buffer` and `window` with the killzone `[start, end]`. */
  datatype Scan = Scan(buffer: real, window: int, start: int, end: int)

  // ---- one candle against one level ---------------------------------------------------------------

  predicate Pierces(level: MarkedLevel, candle: Candle, buffer: real) {
    if level.side.Low? then candle.low <= level.price - buffer else candle.high >= level.price + buffer
  }

  predicate Returned(level: MarkedLevel, close: real) {
    if level.side.Low? then close >= level.price else close <= level.price
  }

  predicate InKillzone(scan: Scan, candle: Candle) {
    scan.start <= candle.time <= scan.end
  }

  /** The first candle in `[k, last)` that closes back across the level. */
  function FirstReturn(candles: seq<Candle>, level: MarkedLevel, k: nat, last: int): (r: Option<nat>)
    requires last <= |candles|
    ensures r.Some? ==> k <= r.value < last
    decreases last - k
  {
    if k >= last then None
    else if Returned(level, candles[k].close) then Some(k)
    else FirstReturn(candles, level, k + 1, last)
  }

  function LastReturn(n: nat, i: nat, window: int): (last: int)
    ensures last <= n && last <= i + window + 1
  {
    if i + window + 1 < n then i + window + 1 else n
  }

  function MakeSweep(level: MarkedLevel, candle: Candle, returnTime: int): Sweep {
    if level.side.Low? then
      Sweep(Bullish, level.price, level.name, level.strength, candle.time, candle.low, returnTime,
            level.price - candle.low)
    else
      Sweep(Bearish, level.price, level.name, level.strength, candle.time, candle.high, returnTime,
            candle.high - level.price)
  }

  /** A detected sweep and the position of its return candle. */
  datatype Hit = Hit(sweep: Sweep, returnIndex: nat)

  function HitAt(candles: seq<Candle>, level: MarkedLevel, scan: Scan, i: nat): Option<Hit>
    requires i < |candles|
  {
    if InKillzone(scan, candles[i]) && Pierces(level, candles[i], scan.buffer) then
      match FirstReturn(candles, level, i, LastReturn(|candles|, i, scan.window))
      case None => None
      case Some(k) => Some(Hit(MakeSweep(level, candles[i], candles[k].time), k))
    else None
  }

  function AsSeq<T>(o: Option<T>): seq<T> {
    if o.None? then [] else [o.value]
  }

  function LevelHits(candles: seq<Candle>, levels: seq<MarkedLevel>, scan: Scan, i: nat): (nat -> seq<Hit>)
    requires i < |candles|
  {
    (l: nat) => if l < |levels| then AsSeq(HitAt(candles, levels[l], scan, i)) else []
  }

  /** The hits of candle `i` against the first `l` levels. */
  function HitsOf(candles: seq<Candle>, levels: seq<MarkedLevel>, scan: Scan, i: nat, l: nat): seq<Hit>
    requires i < |candles|
  {
    Gather(LevelHits(candles, levels, scan, i), l)
  }

  function CandleHits(candles: seq<Candle>, levels: seq<MarkedLevel>, scan: Scan): (nat -> seq<Hit>) {
    (i: nat) => if i < |candles| then HitsOf(candles, levels, scan, i, |levels|) else []
  }

  /** The hits of the first `i` candles, in the order the loops find them. */
  function Hits(candles: seq<Candle>, levels: seq<MarkedLevel>, scan: Scan, i: nat): seq<Hit> {
    Gather(CandleHits(candles, levels, scan), i)
  }

  function SweepsOf(hits: seq<Hit>): (r: seq<Sweep>)
    ensures |r| == |hits| && forall i :: 0 <= i < |hits| ==> r[i] == hits[i].sweep
  {
    seq(|hits|, i requires 0 <= i < |hits| => hits[i].sweep)
  }

  function ByTime(): (Sweep -> real) {
    (s: Sweep) => s.time as real
  }

  /** All sweeps, sorted by sweep-candle time. */
  function RawSweeps(candles: seq<Candle>, levels: seq<MarkedLevel>, scan: Scan): seq<Sweep> {
    StableSort(SweepsOf(Hits(candles, levels, scan, |candles|)), ByTime())
  }

  // ---- the loops ----------------------------------------------------------------------------------

  /** `_find_return`. */
  method FindReturn(candles: seq<Candle>, level: MarkedLevel, i: nat, window: int) returns (r: Option<nat>)
    requires i < |candles|
    ensures r == FirstReturn(candles, level, i, LastReturn(|candles|, i, window))
  {
    var last := LastReturn(|candles|, i, window);
    var k := i;
    while k < last
      invariant FirstReturn(candles, level, k, last) == FirstReturn(candles, level, i, last)
    {
      if Returned(level, candles[k].close) {
        return Some(k);
      }
      k := k + 1;
    }
    r := None;
  }

  method ScanLevels(candles: seq<Candle>, levels: seq<MarkedLevel>, scan: Scan, i: nat) returns (hits: seq<Hit>)
    requires i < |candles|
    ensures hits == HitsOf(candles, levels, scan, i, |levels|)
  {
    hits := [];
    for l := 0 to |levels|
      invariant hits == HitsOf(candles, levels, scan, i, l)
    {
      if InKillzone(scan, candles[i]) && Pierces(levels[l], candles[i], scan.buffer) {
        var k := FindReturn(candles, levels[l], i, scan.window);
        if k.Some? {
          hits := hits + [Hit(MakeSweep(levels[l], candles[i], candles[k.value].time), k.value)];
        }
      }
    }
  }

  /** `detect_sweeps`; an empty frame or an empty list of levels is answered before the tolerances are looked at. */
  method DetectSweeps(candles: seq<Candle>, levels: seq<MarkedLevel>, scan: Scan, dedupe: bool, tol: Tolerance)
    returns (r: Result<seq<Sweep>>)
    ensures r.Ok? && !dedupe ==> r.value == RawSweeps(candles, levels, scan)
    ensures r.Ok? && dedupe ==> r.value == Dedup(tol, RawSweeps(candles, levels, scan))
    ensures r.Err? <==> scan.buffer < 0.0 || scan.window < 0
                        || (dedupe && (tol.minutes < 0 || tol.fraction < 0.0) && levels != [] && exists i ::
                            0 <= i < |candles| && InKillzone(scan, candles[i]))
  {
    if scan.buffer < 0.0 {
      return Err("sweep_buffer");
    }
    if scan.window < 0 {
      return Err("return_window_candles");
    }
    if |candles| == 0 || |levels| == 0 || (forall i :: 0 <= i < |candles| ==> !InKillzone(scan, candles[i])) {
      NothingToFind(candles, levels, scan);
      ShortListsKeepAll(tol, []);
      return Ok([]);
    }
    var hits: seq<Hit> := [];
    for i := 0 to |candles|
      invariant hits == Hits(candles, levels, scan, i)
    {
      var more := ScanLevels(candles, levels, scan, i);
      hits := hits + more;
    }
    var sweeps := StableSort(SweepsOf(hits), ByTime());
    if dedupe {
      r := DeduplicateSweeps(sweeps, tol);
    } else {
      r := Ok(sweeps);
    }
  }

  lemma NothingToFind(candles: seq<Candle>, levels: seq<MarkedLevel>, scan: Scan)
    requires levels == [] || forall j :: 0 <= j < |candles| ==> !InKillzone(scan, candles[j])
    ensures Hits(candles, levels, scan, |candles|) == []
  {
    forall i: nat | i < |candles| ensures CandleHits(candles, levels, scan)(i) == [] {
      GatherNothing(LevelHits(candles, levels, scan, i), 0, |levels|);
    }
    GatherNothing(CandleHits(candles, levels, scan), 0, |candles|);
  }

  // ---- sound and complete -------------------------------------------------------------------------

  /** Candle `i` sweeps level `l` and `k` is the first candle of its return window to close back across it. */
  ghost predicate SweptAt(candles: seq<Candle>, levels: seq<MarkedLevel>, scan: Scan, i: nat, l: nat, k: nat) {
    && i < |candles| && l < |levels| && InKillzone(scan, candles[i]) && Pierces(levels[l], candles[i], scan.buffer)
    && i <= k <= i + scan.window && k < |candles| && Returned(levels[l], candles[k].close)
    && forall j :: i <= j < k ==> !Returned(levels[l], candles[j].close)
  }

  lemma {:induction false} FirstReturnIsFirst(candles: seq<Candle>, level: MarkedLevel, k: nat, last: int)
    requires last <= |candles|
    ensures var r := FirstReturn(candles, level, k, last);
            && (r.Some? ==> Returned(level, candles[r.value].close) && forall j ::
                k <= j < r.value ==> !Returned(level, candles[j].close))
            && (r.None? ==> forall j :: k <= j < last ==> !Returned(level, candles[j].close))
    decreases last - k
  {
    if k < last {
      FirstReturnIsFirst(candles, level, k + 1, last);
    }
  }

  lemma HitAtIff(candles: seq<Candle>, levels: seq<MarkedLevel>, scan: Scan, i: nat, l: nat, h: Hit)
    requires i < |candles| && l < |levels|
    ensures HitAt(candles, levels[l], scan, i) == Some(h)
            <==> (SweptAt(candles, levels, scan, i, l, h.returnIndex)
                  && h.sweep == MakeSweep(levels[l], candles[i], candles[h.returnIndex].time))
  {
    FirstReturnIsFirst(candles, levels[l], i, LastReturn(|candles|, i, scan.window));
  }

  lemma HitMeansSwept(candles: seq<Candle>, levels: seq<MarkedLevel>, scan: Scan, h: Hit)
    requires h in Hits(candles, levels, scan, |candles|)
    ensures exists i: nat, l: nat :: SweptAt(candles, levels, scan, i, l, h.returnIndex)
                                     && h.sweep == MakeSweep(levels[l], candles[i], candles[h.returnIndex].time)
  {
    GatherIff(CandleHits(candles, levels, scan), |candles|, h);
    var i: nat :| i < |candles| && h in CandleHits(candles, levels, scan)(i);
    GatherIff(LevelHits(candles, levels, scan, i), |levels|, h);
    var l: nat :| l < |levels| && h in LevelHits(candles, levels, scan, i)(l);
    HitAtIff(candles, levels, scan, i, l, h);
  }

  lemma SweptMeansHit(candles: seq<Candle>, levels: seq<MarkedLevel>, scan: Scan, i: nat, l: nat, k: nat)
    requires SweptAt(candles, levels, scan, i, l, k)
    ensures Hit(MakeSweep(levels[l], candles[i], candles[k].time), k) in Hits(candles, levels, scan, |candles|)
  {
    var h := Hit(MakeSweep(levels[l], candles[i], candles[k].time), k);
    HitAtIff(candles, levels, scan, i, l, h);
    assert h in LevelHits(candles, levels, scan, i)(l);
    GatherIff(LevelHits(candles, levels, scan, i), |levels|, h);
    assert h in CandleHits(candles, levels, scan)(i);
    GatherIff(CandleHits(candles, levels, scan), |candles|, h);
  }

  /**
    Sweep `s` is candle `i` through level `l` with candle `k` returning: the wick goes at least the
    buffer beyond the level, the extreme is its end, and `k` is the first candle, at most `window`
    after `i`, to close back at or across the level.
  */
  ghost predicate IsSweep(candles: seq<Candle>, levels: seq<MarkedLevel>, scan: Scan, s: Sweep, i: nat, l: nat,
                          k: nat) {
    && i <= k < |candles| && k - i <= scan.window && l < |levels| && scan.start <= candles[i].time <= scan.end
    && s.time == candles[i].time && s.returnTime == candles[k].time
    && s.levelPrice == levels[l].price && s.levelName == levels[l].name && s.levelStrength == levels[l].strength
    && match levels[l].side
       case Low =>
         && s.direction == Bullish && s.extreme == candles[i].low && s.excursion == s.levelPrice - s.extreme
         && s.excursion >= scan.buffer && candles[k].close >= s.levelPrice
         && forall j :: i <= j < k ==> candles[j].close < s.levelPrice
       case High =>
         && s.direction == Bearish && s.extreme == candles[i].high && s.excursion == s.extreme - s.levelPrice
         && s.excursion >= scan.buffer && candles[k].close <= s.levelPrice
         && forall j :: i <= j < k ==> candles[j].close > s.levelPrice
  }

  lemma IsSweepIff(candles: seq<Candle>, levels: seq<MarkedLevel>, scan: Scan, s: Sweep, i: nat, l: nat, k: nat)
    ensures IsSweep(candles, levels, scan, s, i, l, k)
            <==> SweptAt(candles, levels, scan, i, l, k) && s == MakeSweep(levels[l], candles[i], candles[k].time)
  {
  }

  /** The detector reports a sweep exactly when some candle sweeps some level and returns in time. */
  lemma SweepsAreSoundAndComplete(candles: seq<Candle>, levels: seq<MarkedLevel>, scan: Scan, s: Sweep)
    ensures s in RawSweeps(candles, levels, scan)
            <==> exists i: nat, l: nat, k: nat :: IsSweep(candles, levels, scan, s, i, l, k)
  {
    var hits := Hits(candles, levels, scan, |candles|);
    StableSortMembers(SweepsOf(hits), ByTime());
    if s in RawSweeps(candles, levels, scan) {
      var a :| 0 <= a < |hits| && SweepsOf(hits)[a] == s;
      HitMeansSwept(candles, levels, scan, hits[a]);
      var i: nat, l: nat :| SweptAt(candles, levels, scan, i, l, hits[a].returnIndex)
          && s == MakeSweep(levels[l], candles[i], candles[hits[a].returnIndex].time);
      IsSweepIff(candles, levels, scan, s, i, l, hits[a].returnIndex);
    }
    if i: nat, l: nat, k: nat :| IsSweep(candles, levels, scan, s, i, l, k) {
      IsSweepIff(candles, levels, scan, s, i, l, k);
      SweptMeansHit(candles, levels, scan, i, l, k);
      var a :| 0 <= a < |hits| && hits[a] == Hit(s, k);
      assert SweepsOf(hits)[a] == s;
    }
  }

  // ---- causality ----------------------------------------------------------------------------------

  function Returning(hits: seq<Hit>, m: nat): seq<Hit> {
    if hits == [] then []
    else if hits[|hits| - 1].returnIndex < m then Returning(hits[..|hits| - 1], m) + [hits[|hits| - 1]]
    else Returning(hits[..|hits| - 1], m)
  }

  lemma {:induction false} ReturningAppend(a: seq<Hit>, b: seq<Hit>, m: nat)
    ensures Returning(a + b, m) == Returning(a, m) + Returning(b, m)
    decreases |b|
  {
    if b == [] {
      assert a + b == a;
    } else {
      assert (a + b)[..|a + b| - 1] == a + b[..|b| - 1];
      ReturningAppend(a, b[..|b| - 1], m);
    }
  }

  lemma {:induction false} FirstReturnOfPrefix(candles: seq<Candle>, level: MarkedLevel, m: nat, k: nat, last: int)
    requires m <= |candles| && last <= |candles|
    ensures var full := FirstReturn(candles, level, k, last);
            FirstReturn(candles[..m], level, k, if last < m then last else m) == if full.Some? && full.value < m then
                full else None
    decreases last - k
  {
    if k < last && k < m {
      FirstReturnOfPrefix(candles, level, m, k + 1, last);
    }
  }

  lemma HitAtOfPrefix(candles: seq<Candle>, level: MarkedLevel, scan: Scan, m: nat, i: nat)
    requires i < |candles| && m <= |candles|
    ensures Returning(AsSeq(HitAt(candles, level, scan, i)), m) == if i < m then
            AsSeq(HitAt(candles[..m], level, scan, i)) else []
  {
    if i < m {
      FirstReturnOfPrefix(candles, level, m, i, LastReturn(|candles|, i, scan.window));
      assert LastReturn(m, i, scan.window) == if LastReturn(|candles|, i, scan.window) < m then
          LastReturn(|candles|, i, scan.window) else m;
    }
  }

  lemma {:induction false} GatherReturning(f: nat -> seq<Hit>, g: nat -> seq<Hit>, m: nat, n: nat)
    requires forall i: nat :: i < n ==> Returning(f(i), m) == g(i)
    ensures Returning(Gather(f, n), m) == Gather(g, n)
  {
    if n > 0 {
      GatherReturning(f, g, m, n - 1);
      ReturningAppend(Gather(f, n - 1), f(n - 1), m);
    }
  }

  lemma HitsOfPrefixAt(candles: seq<Candle>, levels: seq<MarkedLevel>, scan: Scan, m: nat, i: nat)
    requires i < |candles| && m <= |candles|
    ensures Returning(CandleHits(candles, levels, scan)(i), m) == CandleHits(candles[..m], levels, scan)(i)
  {
    var f := LevelHits(candles, levels, scan, i);
    var g: nat -> seq<Hit> := if i < m then LevelHits(candles[..m], levels, scan, i) else (l: nat) => [];
    forall l: nat | l < |levels| ensures Returning(f(l), m) == g(l) {
      HitAtOfPrefix(candles, levels[l], scan, m, i);
    }
    GatherReturning(f, g, m, |levels|);
    if i >= m {
      GatherNothing(g, 0, |levels|);
    }
  }

  /** On a prefix of length `m` the loops find exactly the full run's hits whose return candle lies in the prefix. */
  lemma HitsOfPrefix(candles: seq<Candle>, levels: seq<MarkedLevel>, scan: Scan, m: nat)
    requires m <= |candles|
    ensures Hits(candles[..m], levels, scan, m) == Returning(Hits(candles, levels, scan, |candles|), m)
  {
    var f, g := CandleHits(candles, levels, scan), CandleHits(candles[..m], levels, scan);
    forall i: nat | i < |candles| ensures Returning(f(i), m) == g(i) {
      HitsOfPrefixAt(candles, levels, scan, m, i);
    }
    GatherReturning(f, g, m, |candles|);
    GatherNothing(g, m, |candles|);
  }

  // ---- what the caller sees of a prefix -----------------------------------------------------------

  function ReturnedBy(sweeps: seq<Sweep>, t: int): seq<Sweep> {
    if sweeps == [] then []
    else if sweeps[|sweeps| - 1].returnTime <= t then ReturnedBy(sweeps[..|sweeps| - 1], t) + [sweeps[|sweeps| - 1]]
    else ReturnedBy(sweeps[..|sweeps| - 1], t)
  }

  /** A hit carries the time of its return candle and the loops find hits in candle order. */
  ghost predicate InOrder(candles: seq<Candle>, hits: seq<Hit>, end: int) {
    && (forall a, b :: 0 <= a < b < |hits| ==> hits[a].sweep.time <= hits[b].sweep.time)
    && (forall a :: 0 <= a < |hits| ==>
         hits[a].sweep.time <= end && hits[a].returnIndex < |candles|
             && hits[a].sweep.returnTime == candles[hits[a].returnIndex].time)
  }

  lemma HitsHaveTime(candles: seq<Candle>, levels: seq<MarkedLevel>, scan: Scan, i: nat, h: Hit)
    requires i < |candles| && h in CandleHits(candles, levels, scan)(i)
    ensures h.sweep.time == candles[i].time && h.returnIndex < |candles|
            && h.sweep.returnTime == candles[h.returnIndex].time
  {
    GatherIff(LevelHits(candles, levels, scan, i), |levels|, h);
    var l: nat :| l < |levels| && h in LevelHits(candles, levels, scan, i)(l);
    assert HitAt(candles, levels[l], scan, i) == Some(h);
  }

  /** Rounds with ascending times gather hits in order. */
  lemma {:induction false} GatherInOrder(candles: seq<Candle>, f: nat -> seq<Hit>, i: nat)
    requires i <= |candles| && StrictlyAscending(candles)
    requires forall j: nat, h :: j < |candles| && h in f(j) ==>
               h.sweep.time == candles[j].time && h.returnIndex < |candles|
                   && h.sweep.returnTime == candles[h.returnIndex].time
    ensures forall t :: (i > 0 ==> candles[i - 1].time <= t) ==> InOrder(candles, Gather(f, i), t)
  {
    if i > 0 {
      GatherInOrder(candles, f, i - 1);
      var before, here := Gather(f, i - 1), f(i - 1);
      assert InOrder(candles, before, candles[i - 1].time);
      assert forall a :: 0 <= a < |here| ==> here[a] in here;
    }
  }

  lemma HitsInOrder(candles: seq<Candle>, levels: seq<MarkedLevel>, scan: Scan)
    requires StrictlyAscending(candles)
    ensures forall t ::
              (candles != [] ==> candles[|candles| - 1].time <= t) ==>
              InOrder(candles, Hits(candles, levels, scan, |candles|), t)
  {
    var f := CandleHits(candles, levels, scan);
    forall j: nat, h | j < |candles| && h in f(j)
      ensures h.sweep.time == candles[j].time && h.returnIndex < |candles|
              && h.sweep.returnTime == candles[h.returnIndex].time
    {
      HitsHaveTime(candles, levels, scan, j, h);
    }
    GatherInOrder(candles, f, |candles|);
  }

  /** With ascending candles the raw list is already sorted, so sorting leaves it as it is. */
  lemma RawSweepsUnsorted(candles: seq<Candle>, levels: seq<MarkedLevel>, scan: Scan)
    requires StrictlyAscending(candles)
    ensures RawSweeps(candles, levels, scan) == SweepsOf(Hits(candles, levels, scan, |candles|))
  {
    HitsInOrder(candles, levels, scan);
    var hits := Hits(candles, levels, scan, |candles|);
    if candles != [] {
      assert InOrder(candles, hits, candles[|candles| - 1].time);
    }
    SortedIsFixed(SweepsOf(hits), ByTime());
  }

  lemma {:induction false} ReturningIsReturnedBy(candles: seq<Candle>, hits: seq<Hit>, m: nat)
    requires StrictlyAscending(candles) && 0 < m <= |candles|
    requires forall a :: 0 <= a < |hits| ==>
      hits[a].returnIndex < |candles| && hits[a].sweep.returnTime == candles[hits[a].returnIndex].time
    ensures SweepsOf(Returning(hits, m)) == ReturnedBy(SweepsOf(hits), candles[m - 1].time)
    decreases |hits|
  {
    if hits != [] {
      var init, last := hits[..|hits| - 1], hits[|hits| - 1];
      ReturningIsReturnedBy(candles, init, m);
      assert SweepsOf(hits)[..|hits| - 1] == SweepsOf(init);
      assert last.returnIndex < m <==> last.sweep.returnTime <= candles[m - 1].time;
      assert SweepsOf(Returning(init, m) + [last]) == SweepsOf(Returning(init, m)) + [last.sweep];
    }
  }

  /**
    No lookahead: on the first `m` candles the detector reports exactly those sweeps of the full
    frame that have returned by the close of candle `m - 1`, in the same order.
  */
  lemma SweepsOfPrefix(candles: seq<Candle>, levels: seq<MarkedLevel>, scan: Scan, m: nat)
    requires StrictlyAscending(candles) && 0 < m <= |candles|
    ensures RawSweeps(candles[..m], levels, scan) == ReturnedBy(RawSweeps(candles, levels, scan), candles[m - 1].time)
  {
    var hits := Hits(candles, levels, scan, |candles|);
    RawSweepsUnsorted(candles, levels, scan);
    RawSweepsUnsorted(candles[..m], levels, scan);
    HitsOfPrefix(candles, levels, scan, m);
    HitsInOrder(candles, levels, scan);
    assert InOrder(candles, hits, candles[|candles| - 1].time);
    ReturningIsReturnedBy(candles, hits, m);
  }
}
