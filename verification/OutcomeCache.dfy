/** The grid search's shared outcome cache: rounded prices as the key, no R:R field in it. */
module OutcomeCache {
  import opened Foundations
  import opened Simulator
  import opened SetupBuilder
  import opened PlanIdentity
  import Matching
  import opened EqualLevels

  // ---- rounding to six decimals -----------------------------------------------------------------

  const GRID: real := 1000000.0

  /** Python's `round(x, 6)`. */
  function Round6(x: real): real {
    Nearest(x * GRID) as real / GRID
  }

  /** The price is a multiple of 1e-6. */
  predicate OnGrid(x: real) {
    Round6(x) == x
  }

  /** Rounding leaves exactly the whole multiples of 1e-6 alone. */
  lemma OnGridIff(x: real)
    ensures OnGrid(x) <==> (x * GRID).Floor as real == x * GRID
  {
    if OnGrid(x) {
      assert x * GRID == Nearest(x * GRID) as real;
    }
  }

  // ---- the key ------------------------------------------------------------------------------------

  datatype Key = Key(instrument: string, timestamp: int, direction: Direction, entry: real, stop: real, tp1: real,
                     tpRunner: real)

  /** `_outcome_cache_key`. */
  function KeyOf(instrument: string, p: Plan): Key {
    Key(instrument, p.timestamp, p.direction, Round6(p.entry), Round6(p.stop), Round6(p.tp1), Round6(p.tpRunner))
  }

  /** `n` millionths is nearest to the price, the even number of two. */
  predicate Rounds(x: real, n: int) {
    var gap := Abs(x * 1000000.0 - n as real);
    gap < 0.5 || (gap == 0.5 && n % 2 == 0)
  }

  /** The prices round to the same number of millionths. */
  ghost predicate RoundAlike(x: real, y: real) {
    exists n :: Rounds(x, n) && Rounds(y, n)
  }

  lemma RoundsIff(x: real, n: int)
    ensures Rounds(x, n) <==> n == Nearest(x * GRID)
  {
  }

  lemma Round6Iff(x: real, y: real)
    ensures Round6(x) == Round6(y) <==> RoundAlike(x, y)
  {
    RoundsIff(x, Nearest(x * GRID));
    if Round6(x) == Round6(y) {
      assert Nearest(x * GRID) == Nearest(y * GRID);
      RoundsIff(y, Nearest(x * GRID));
    }
    if n :| Rounds(x, n) && Rounds(y, n) {
      RoundsIff(x, n);
      RoundsIff(y, n);
    }
  }

  /** Two keys are equal exactly when instrument, time and direction are and all four prices round alike. */
  lemma KeysEqualIff(a: string, p: Plan, b: string, q: Plan)
    ensures KeyOf(a, p) == KeyOf(b, q)
            <==> a == b && p.timestamp == q.timestamp && p.direction == q.direction
                 && RoundAlike(p.entry, q.entry) && RoundAlike(p.stop, q.stop) && RoundAlike(p.tp1, q.tp1)
                 && RoundAlike(p.tpRunner, q.tpRunner)
  {
    Round6Iff(p.entry, q.entry);
    Round6Iff(p.stop, q.stop);
    Round6Iff(p.tp1, q.tp1);
    Round6Iff(p.tpRunner, q.tpRunner);
  }

  // ---- cached against fresh simulation --------------------------------------------------------------

  /** Every setup simulated anew. */
  function Fresh(plans: seq<Plan>, candles: seq<Candle>): (r: seq<TradeResult>)
    ensures |r| == |plans| && forall i :: 0 <= i < |r| ==> r[i] == Simulated(plans[i], candles)
  {
    seq(|plans|, i requires 0 <= i < |plans| => Simulated(plans[i], candles))
  }

  type Cache = map<Key, TradeResult>

  /** The lookup loop, one setup after the other. */
  function Lookup(instrument: string, plans: seq<Plan>, candles: seq<Candle>, cache: Cache): (Cache, seq<TradeResult>)
    decreases |plans|
  {
    if plans == [] then (cache, [])
    else
      var (before, rows) := Lookup(instrument, plans[..|plans| - 1], candles, cache);
      var p := plans[|plans| - 1];
      var key := KeyOf(instrument, p);
      var after := if key in before then before else before[key := Simulated(p, candles)];
      (after, rows + [after[key]])
  }

  /** The row loop of `_aggregate_combo`; the cache is filled in place. */
  class SharedCache {
    var cache: Cache

    constructor ()
      ensures cache == map[]
    {
      cache := map[];
    }

    method Outcomes(instrument: string, plans: seq<Plan>, candles: seq<Candle>) returns (rows: seq<TradeResult>)
      modifies this
      ensures (cache, rows) == Lookup(instrument, plans, candles, old(cache))
    {
      rows := [];
      for i := 0 to |plans|
        invariant (cache, rows) == Lookup(instrument, plans[..i], candles, old(cache))
      {
        assert plans[..i + 1][..i] == plans[..i];
        var key := KeyOf(instrument, plans[i]);
        if key !in cache {
          var outcome := SimulateOutcome(plans[i], candles);
          cache := cache[key := outcome];
        }
        rows := rows + [cache[key]];
      }
      assert plans[..|plans|] == plans;
    }
  }

  // ---- when the cache is transparent ----------------------------------------------------------------

  /** What the cache holds was simulated from setups like these. */
  ghost predicate Faithful(instrument: string, candles: seq<Candle>, cache: Cache, known: set<Plan>) {
    forall p :: p in known && KeyOf(instrument, p) in cache ==> cache[KeyOf(instrument, p)] == Simulated(p, candles)
  }

  /** Setups with equal keys simulate equally. */
  ghost predicate KeyDetermines(instrument: string, candles: seq<Candle>, known: set<Plan>) {
    forall p, q ::
          p in known && q in known && KeyOf(instrument, p) == KeyOf(instrument, q) ==>
          Simulated(p, candles) == Simulated(q, candles)
  }

  lemma {:induction false} LookupIsFresh(instrument: string, plans: seq<Plan>, candles: seq<Candle>, cache: Cache,
                                         known: set<Plan>)
    requires forall i :: 0 <= i < |plans| ==> plans[i] in known
    requires KeyDetermines(instrument, candles, known) && Faithful(instrument, candles, cache, known)
    ensures Lookup(instrument, plans, candles, cache).1 == Fresh(plans, candles)
    ensures Faithful(instrument, candles, Lookup(instrument, plans, candles, cache).0, known)
    decreases |plans|
  {
    if plans != [] {
      var init, p := plans[..|plans| - 1], plans[|plans| - 1];
      LookupIsFresh(instrument, init, candles, cache, known);
      assert p in known;
      FreshGrows(plans, candles);
      LookupStep(instrument, candles, Lookup(instrument, init, candles, cache).0, known, p);
    }
  }

  lemma FreshGrows(plans: seq<Plan>, candles: seq<Candle>)
    requires plans != []
    ensures Fresh(plans, candles) == Fresh(plans[..|plans| - 1], candles) + [Simulated(plans[|plans| - 1], candles)]
  {
  }

  /** Looking one known setup up keeps the cache faithful. */
  lemma LookupStep(instrument: string, candles: seq<Candle>, before: Cache, known: set<Plan>, p: Plan)
    requires KeyDetermines(instrument, candles, known) && Faithful(instrument, candles, before, known) && p in known
    ensures var key := KeyOf(instrument, p);
            var after := if key in before then before else before[key := Simulated(p, candles)];
            after[key] == Simulated(p, candles) && Faithful(instrument, candles, after, known)
  {
  }

  lemma {:induction false} LookupFills(instrument: string, plans: seq<Plan>, candles: seq<Candle>, cache: Cache)
    ensures var (after, rows) := Lookup(instrument, plans, candles, cache);
            && |rows| == |plans|
            && (forall k :: k in cache ==> k in after && after[k] == cache[k])
            && (forall i ::
                0 <= i < |plans| ==>
                KeyOf(instrument, plans[i]) in after && rows[i] == after[KeyOf(instrument, plans[i])])
    decreases |plans|
  {
    if plans != [] {
      LookupFills(instrument, plans[..|plans| - 1], candles, cache);
    }
  }

  lemma PairTells(instrument: string, candles: seq<Candle>, p: Plan, q: Plan)
    requires KeyOf(instrument, p) == KeyOf(instrument, q)
    requires Lookup(instrument, [p, q], candles, map[]).1 == Fresh([p, q], candles)
    ensures Simulated(p, candles) == Simulated(q, candles)
  {
    LookupFills(instrument, [p, q], candles, map[]);
    assert [p, q][0] == p && [p, q][1] == q;
    assert Fresh([p, q], candles)[0] == Simulated(p, candles) && Fresh([p, q], candles)[1] == Simulated(q, candles);
  }

  // ---- setups built by the pipeline -------------------------------------------------------------------

  /** The combinations of one instrument share a cache; `done` lists those already aggregated. */
  ghost function CacheAfter(instrument: string, done: seq<seq<Plan>>, candles: seq<Candle>): Cache {
    if done == [] then map[]
    else Lookup(instrument, done[|done| - 1], candles, CacheAfter(instrument, done[..|done| - 1], candles)).0
  }

  ghost predicate AllBuilt(known: set<Plan>, partial: real) {
    forall p :: p in known ==> BuiltWith(p, partial)
  }

  /** Plans whose prices round to the same key are the same trade. */
  ghost predicate NoCollision(instrument: string, known: set<Plan>) {
    forall p, q :: p in known && q in known && KeyOf(instrument, p) == KeyOf(instrument, q) ==> SameTrade(p, q)
  }

  /** The combinations list known setups only. */
  ghost predicate Within(plans: seq<Plan>, known: set<Plan>) {
    forall i :: 0 <= i < |plans| ==> plans[i] in known
  }

  ghost predicate AllWithin(done: seq<seq<Plan>>, known: set<Plan>) {
    forall c :: 0 <= c < |done| ==> Within(done[c], known)
  }

  lemma NoCollisionDetermines(instrument: string, candles: seq<Candle>, known: set<Plan>)
    requires NoCollision(instrument, known)
    ensures KeyDetermines(instrument, candles, known)
  {
    forall p, q | p in known && q in known && KeyOf(instrument, p) == KeyOf(instrument, q)
      ensures Simulated(p, candles) == Simulated(q, candles)
    {
      SameTradesEndAlike(p, q, candles);
    }
  }

  lemma {:induction false} CacheStaysFaithful(instrument: string, done: seq<seq<Plan>>, candles: seq<Candle>,
                                              known: set<Plan>)
    requires KeyDetermines(instrument, candles, known) && AllWithin(done, known)
    ensures Faithful(instrument, candles, CacheAfter(instrument, done, candles), known)
    decreases |done|
  {
    if done != [] {
      var init, last := done[..|done| - 1], done[|done| - 1];
      CacheStaysFaithful(instrument, init, candles, known);
      assert Within(last, known);
      LookupIsFresh(instrument, last, candles, CacheAfter(instrument, init, candles), known);
    }
  }

  /** Combination `next`, aggregated after `done`, sees what simulating its setups again would give. */
  ghost predicate RunIsTransparent(instrument: string, done: seq<seq<Plan>>, next: seq<Plan>, candles: seq<Candle>) {
    Lookup(instrument, next, candles, CacheAfter(instrument, done, candles)).1 == Fresh(next, candles)
  }

  /**
    Without collisions the shared cache returns, for each setup and across any sequence of grid
    combinations of one instrument, exactly what simulating it again would, on any frame.
  */
  lemma CacheIsTransparent(instrument: string, done: seq<seq<Plan>>, next: seq<Plan>, candles: seq<Candle>,
                           known: set<Plan>)
    requires NoCollision(instrument, known) && AllWithin(done, known) && Within(next, known)
    ensures RunIsTransparent(instrument, done, next, candles)
  {
    NoCollisionDetermines(instrument, candles, known);
    CacheStaysFaithful(instrument, done, candles, known);
    LookupIsFresh(instrument, next, candles, CacheAfter(instrument, done, candles), known);
  }

  /** Every sequence of combinations of the known setups, on every frame the market could produce. */
  ghost predicate TransparentOnAllFrames(instrument: string, known: set<Plan>) {
    forall done: seq<seq<Plan>>, next: seq<Plan>, candles: seq<Candle> ::
      AllWithin(done, known) && Within(next, known) && Plausible(candles) ==>
            RunIsTransparent(instrument, done, next, candles)
  }

  /** A collision shows on some frame already when its two setups are the first combination. */
  lemma CollisionShows(instrument: string, p: Plan, q: Plan, partial: real) returns (candles: seq<Candle>)
    requires BuiltWith(p, partial) && BuiltWith(q, partial)
    requires KeyOf(instrument, p) == KeyOf(instrument, q) && !SameTrade(p, q)
    ensures Plausible(candles) && !RunIsTransparent(instrument, [], [p, q], candles)
  {
    candles := PlansApart(p, q, partial);
    if RunIsTransparent(instrument, [], [p, q], candles) {
      PairTells(instrument, candles, p, q);
    }
  }

  /**
    For setups built with one partial target the shared cache is transparent exactly when no two of
    them with one key are different trades: a comparison of their entry, stop and runner prices.
  */
  lemma TransparentOnAllFramesIff(instrument: string, known: set<Plan>, partial: real)
    requires AllBuilt(known, partial)
    ensures TransparentOnAllFrames(instrument, known) <==> NoCollision(instrument, known)
  {
    if NoCollision(instrument, known) {
      forall done: seq<seq<Plan>>, next: seq<Plan>, candles: seq<Candle> |
        AllWithin(done, known) && Within(next, known) && Plausible(candles)
        ensures RunIsTransparent(instrument, done, next, candles)
      {
        CacheIsTransparent(instrument, done, next, candles, known);
      }
    }
    if TransparentOnAllFrames(instrument, known) {
      forall p, q | p in known && q in known && KeyOf(instrument, p) == KeyOf(instrument, q) ensures SameTrade(p, q) {
        if !SameTrade(p, q) {
          var candles := CollisionShows(instrument, p, q, partial);
          assert AllWithin([], known) && Within([p, q], known);
        }
      }
    }
  }

  // ---- prices on a tick ---------------------------------------------------------------------------------

  function Ticks(n: int, tick: real): real { Mul(n as real, tick) }

  /** A price the market quotes. */
  ghost predicate OnTick(x: real, tick: real) {
    exists n :: x == Ticks(n, tick)
  }

  /** Entry and runner are quoted prices; the stop is one moved by the buffer. */
  ghost predicate PricesOnTick(p: Plan, tick: real, buffer: real) {
    && OnTick(p.entry, tick) && OnTick(p.tpRunner, tick)
    && exists n :: p.stop == StopFor(p.direction, Ticks(n, tick), buffer)
  }

  /** Ticks coarser than 1e-6 survive rounding under any buffer; ticks of 1e-6 do if the buffer is on that grid. */
  predicate TickSurvives(tick: real, buffer: real) {
    tick * GRID > 1.0 || (tick * GRID == 1.0 && OnGrid(buffer))
  }

  lemma ApartByTicks(m: int, n: int, tick: real)
    requires m != n && tick > 0.0
    ensures Abs(Ticks(m, tick) - Ticks(n, tick)) >= tick
  {
    var k := (m - n) as real;
    assert Ticks(m, tick) - Ticks(n, tick) == k * tick;
    if m > n {
      assert (k - 1.0) * tick >= 0.0;
    } else {
      assert (k + 1.0) * tick <= 0.0;
    }
  }

  lemma RoundedAlikeAreClose(x: real, y: real)
    requires Round6(x) == Round6(y)
    ensures Abs(x - y) * GRID <= 1.0
  {
    assert Nearest(x * GRID) == Nearest(y * GRID);
  }

  lemma WholeIsOnGrid(x: real, n: int)
    requires x * GRID == n as real
    ensures OnGrid(x)
  {
  }

  lemma FineTicksAreOnGrid(n: int, tick: real, offset: real)
    requires tick * GRID == 1.0 && OnGrid(offset)
    ensures OnGrid(Ticks(n, tick) + offset)
  {
    OnGridIff(offset);
    assert tick == 0.000001;
    WholeIsOnGrid(Ticks(n, tick) + offset, n + (offset * GRID).Floor);
  }

  /** Two prices a common offset from the tick that round alike are equal. */
  lemma TicksRoundApart(m: int, n: int, tick: real, offset: real)
    requires TickSurvives(tick, offset) && Round6(Ticks(m, tick) + offset) == Round6(Ticks(n, tick) + offset)
    ensures Ticks(m, tick) == Ticks(n, tick)
  {
    if tick * GRID == 1.0 {
      FineTicksAreOnGrid(m, tick, offset);
      FineTicksAreOnGrid(n, tick, offset);
    } else if m != n {
      ApartByTicks(m, n, tick);
      RoundedAlikeAreClose(Ticks(m, tick) + offset, Ticks(n, tick) + offset);
    }
  }

  lemma QuotesRoundApart(x: real, y: real, tick: real, buffer: real)
    requires OnTick(x, tick) && OnTick(y, tick) && TickSurvives(tick, buffer) && Round6(x) == Round6(y)
    ensures x == y
  {
    var m :| x == Ticks(m, tick);
    var n :| y == Ticks(n, tick);
    WholeIsOnGrid(0.0, 0);
    TicksRoundApart(m, n, tick, 0.0);
  }

  lemma NegatedIsOnGrid(x: real)
    requires OnGrid(x)
    ensures OnGrid(-x)
  {
    OnGridIff(x);
    WholeIsOnGrid(-x, -(x * GRID).Floor);
  }

  /** The prices that the key rounds are those the plan is built from. */
  lemma TickPlansApart(instrument: string, p: Plan, q: Plan, tick: real, buffer: real)
    requires PricesOnTick(p, tick, buffer) && PricesOnTick(q, tick, buffer) && TickSurvives(tick, buffer)
    requires KeyOf(instrument, p) == KeyOf(instrument, q)
    ensures p.entry == q.entry && p.stop == q.stop && p.tpRunner == q.tpRunner
  {
    QuotesRoundApart(p.entry, q.entry, tick, buffer);
    QuotesRoundApart(p.tpRunner, q.tpRunner, tick, buffer);
    var m :| p.stop == StopFor(p.direction, Ticks(m, tick), buffer);
    var n :| q.stop == StopFor(q.direction, Ticks(n, tick), buffer);
    if p.direction.Long? {
      if OnGrid(buffer) {
        NegatedIsOnGrid(buffer);
      }
      TicksRoundApart(m, n, tick, -buffer);
    } else {
      TicksRoundApart(m, n, tick, buffer);
    }
  }

  /**
    Setups whose entry and runner are quoted prices and whose stops are quoted prices moved by one
    buffer, rounded or not, never collide, wherever TP1 lies.
  */
  lemma TickPricesNeverCollide(instrument: string, known: set<Plan>, partial: real, tick: real, buffer: real)
    requires AllBuilt(known, partial) && TickSurvives(tick, buffer)
    requires forall p :: p in known ==> PricesOnTick(p, tick, buffer)
    ensures NoCollision(instrument, known)
  {
    forall p, q | p in known && q in known && KeyOf(instrument, p) == KeyOf(instrument, q) ensures SameTrade(p, q) {
      TickPlansApart(instrument, p, q, tick, buffer);
      BuiltPlanIsUnique(p, q, partial);
    }
  }

  // ---- averaged targets ---------------------------------------------------------------------------------

  /** `n` swing highs at 1.1 and one a tick of 1e-5 above them. */
  function Highs(n: nat): seq<Matching.SwingLevel> {
    seq(n, _ => Matching.H4Level(Matching.Point(High, 0, 1.1), false))
        + [Matching.H4Level(Matching.Point(High, 0, 1.10001), false)]
  }

  lemma {:induction false} SumOfEqual(ms: seq<Matching.SwingLevel>, price: real)
    requires forall i :: 0 <= i < |ms| ==> ms[i].price == price
    ensures SumPrice(ms) == Mul(|ms| as real, price)
    decreases |ms|
  {
    if ms != [] {
      SumOfEqual(ms[..|ms| - 1], price);
      MulSum((|ms| - 1) as real, 1.0, price);
      assert Mul(1.0, price) == price;
    } else {
      assert Mul(0.0, price) == 0.0;
    }
  }

  /** The equal-highs target of such a cluster. */
  lemma AverageOfHighs(n: nat)
    ensures Build(High, Highs(n)).average == (n as real * 1.1 + 1.10001) / (n + 1) as real
  {
    var ms := Highs(n);
    SumOfEqual(ms[..n], 1.1);
    assert |ms| == n + 1 && ms[n].price == 1.10001;
  }

  function LongTo(runner: real): Plan {
    Plan(0, Long, 1.09, 1.089, 1.092, runner, 2.0, Quotient(Abs(runner - 1.09), 0.001))
  }

  lemma LongToIsBuilt(runner: real)
    requires runner > 1.093
    ensures BuiltWith(LongTo(runner), 2.0) && StopOnLossSide(LongTo(runner))
  {
    MulQuotient(runner - 1.09, 0.001);
    assert Quotient(runner - 1.09, 0.001) == (runner - 1.09) * 1000.0;
    assert Mul(2.0, 0.001) == 0.002;
  }

  lemma RoundsTo(x: real)
    requires 1.1000015 < x < 1.1000025
    ensures Round6(x) == 1.100002
  {
    assert Nearest(x * GRID) == 1100002;
  }

  /**
    Averaged targets are off every tick: the averages of two equal-highs clusters that differ in one
    swing make two setups share a key and still be different trades.
  */
  lemma OffTickCollision(instrument: string) returns (p: Plan, q: Plan)
    ensures BuiltWith(p, 2.0) && BuiltWith(q, 2.0) && p.entry == q.entry && p.stop == q.stop
    ensures p.tpRunner == Build(High, Highs(4)).average && q.tpRunner == Build(High, Highs(5)).average
    ensures KeyOf(instrument, p) == KeyOf(instrument, q) && !SameTrade(p, q)
    ensures !TransparentOnAllFrames(instrument, {p, q})
  {
    var a, b := Build(High, Highs(4)).average, Build(High, Highs(5)).average;
    AverageOfHighs(4);
    AverageOfHighs(5);
    RoundsTo(a);
    RoundsTo(b);
    LongToIsBuilt(a);
    LongToIsBuilt(b);
    p, q := LongTo(a), LongTo(b);
    assert AllBuilt({p, q}, 2.0);
    TransparentOnAllFramesIff(instrument, {p, q}, 2.0);
  }
}
