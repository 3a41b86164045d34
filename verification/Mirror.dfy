/** The price axis upside down: what it does to candles, levels, sweeps, swings and structure shifts. */
module Mirror {
  import opened Foundations
  import opened SweepTypes
  import opened Components
  import opened Gathering
  import opened Sorting
  import opened SweepDedup
  import opened SweepDetection
  import opened Swings
  import opened StructureShift

  function Maybe<A, B>(f: A -> B, o: Option<A>): Option<B> {
    if o.None? then None else Some(f(o.value))
  }

  function Flip(t: Trend): Trend { if t.Bullish? then Bearish else Bullish }

  function MirrorCandle(c: Candle): Candle { Candle(c.time, -c.open, -c.low, -c.high, -c.close) }

  function MirrorFrame(candles: seq<Candle>): (r: seq<Candle>)
    ensures |r| == |candles|
    ensures forall i :: 0 <= i < |candles| ==> r[i] == MirrorCandle(candles[i])
  {
    Each(MirrorCandle, candles)
  }

  function MirrorLevel(l: MarkedLevel): MarkedLevel { MarkedLevel(-l.price, l.side.Opposite(), l.name, l.strength) }

  function MirrorSweep(s: Sweep): Sweep {
    Sweep(Flip(s.direction), -s.levelPrice, s.levelName, s.levelStrength, s.time, -s.extreme, s.returnTime, s.excursion)
  }

  function MirrorPivot(p: Pivot): Pivot { Pivot(p.side.Opposite(), -p.price) }

  function MirrorMss(m: Mss): Mss {
    Mss(Flip(m.direction), MirrorSweep(m.sweep), m.brokenTime, -m.brokenPrice, m.confirmTime, -m.confirmClose,
        m.bodyRatio, m.displacementTime)
  }

  // ---- swings ---------------------------------------------------------------------------------------

  lemma TrueRangeMirrors(candles: seq<Candle>, i: nat)
    requires i < |candles|
    ensures TrueRange(MirrorFrame(candles), i) == TrueRange(candles, i)
  {
  }

  lemma {:induction false} SumTrueRangeMirrors(candles: seq<Candle>, n: nat)
    requires n <= |candles|
    ensures SumTrueRange(MirrorFrame(candles), n) == SumTrueRange(candles, n)
  {
    if n > 0 {
      SumTrueRangeMirrors(candles, n - 1);
      TrueRangeMirrors(candles, n - 1);
    }
  }

  lemma {:induction false} AtrMirrors(candles: seq<Candle>, period: nat, i: nat)
    requires i < |candles| && period >= 1
    ensures AtrAt(MirrorFrame(candles), period, i) == AtrAt(candles, period, i)
  {
    if i == period - 1 {
      SumTrueRangeMirrors(candles, period);
    } else if i >= period {
      AtrMirrors(candles, period, i - 1);
      TrueRangeMirrors(candles, i);
    }
  }

  lemma FractalsSwap(candles: seq<Candle>, lookback: nat, i: nat)
    ensures FractalHigh(MirrorFrame(candles), lookback, i) <==> FractalLow(candles, lookback, i)
    ensures FractalLow(MirrorFrame(candles), lookback, i) <==> FractalHigh(candles, lookback, i)
  {
    var m := MirrorFrame(candles);
    if lookback <= i && i + lookback < |candles| {
      assert forall j ::
            i - lookback <= j <= i + lookback ==> m[j].high == -candles[j].low && m[j].low == -candles[j].high;
    }
  }

  /** The bar towers over its neighbours on both sides. */
  predicate Ambiguous(candles: seq<Candle>, lookback: nat, i: nat) {
    FractalHigh(candles, lookback, i) && FractalLow(candles, lookback, i)
  }

  ghost predicate Unambiguous(candles: seq<Candle>, lookback: nat) {
    forall i: nat :: i < |candles| ==> !Ambiguous(candles, lookback, i)
  }

  /**
    Highs are tested first, so a raw swing is mirrored exactly when the bar is not both a fractal high
    and a fractal low.
  */
  lemma RawMirrorsIff(candles: seq<Candle>, lookback: nat, i: nat)
    requires i < |candles|
    ensures RawAt(MirrorFrame(candles), lookback, i) == Maybe(MirrorPivot, RawAt(candles, lookback, i))
            <==> !Ambiguous(candles, lookback, i)
  {
    FractalsSwap(candles, lookback, i);
  }

  function MirrorMemory(m: Memory): Memory {
    Memory(if m.low.None? then None else Some(-m.low.value),
           if m.high.None? then None else Some(-m.high.value),
           m.keptAny)
  }

  lemma KeepsMirrors(mem: Memory, p: Pivot, atr: Option<real>, amplitude: real)
    ensures Keeps(MirrorMemory(mem), MirrorPivot(p), atr, amplitude) == Keeps(mem, p, atr, amplitude)
    ensures MirrorMemory(mem).Keep(MirrorPivot(p)) == MirrorMemory(mem.Keep(p))
  {
  }

  /** One round of the filter, as a function of the raw swing and the memory. */
  function Filtered(mem: Memory, raw: Option<Pivot>, atr: Option<real>, amplitude: real): Memory {
    if raw.Some? && Keeps(mem, raw.value, atr, amplitude) then mem.Keep(raw.value) else mem
  }

  lemma FilteredMirrors(mem: Memory, raw: Option<Pivot>, atr: Option<real>, amplitude: real)
    ensures Filtered(MirrorMemory(mem), Maybe(MirrorPivot, raw), atr, amplitude)
            == MirrorMemory(Filtered(mem, raw, atr, amplitude))
  {
    if raw.Some? {
      KeepsMirrors(mem, raw.value, atr, amplitude);
    }
  }

  lemma MemoryStep(candles: seq<Candle>, p: SwingParams, i: nat, mem: Memory, raw: Option<Pivot>, atr: Option<real>)
    requires i < |candles| && p.lookback >= 1 && p.period >= 1
    requires mem == MemoryBefore(candles, p, i) && raw == RawAt(candles, p.lookback, i)
             && atr == AtrAt(candles, p.period, i)
    ensures MemoryBefore(candles, p, i + 1) == Filtered(mem, raw, atr, p.amplitude)
  {
  }

  lemma {:induction false} MemoryMirrors(candles: seq<Candle>, p: SwingParams, i: nat)
    requires i <= |candles| && p.lookback >= 1 && p.period >= 1 && Unambiguous(candles, p.lookback)
    ensures MemoryBefore(MirrorFrame(candles), p, i) == MirrorMemory(MemoryBefore(candles, p, i))
  {
    if i > 0 {
      var mem, raw, atr :=
          MemoryBefore(candles, p, i - 1), RawAt(candles, p.lookback, i - 1), AtrAt(candles, p.period, i - 1);
      MemoryMirrors(candles, p, i - 1);
      RawMirrorsIff(candles, p.lookback, i - 1);
      AtrMirrors(candles, p.period, i - 1);
      MemoryStep(candles, p, i - 1, mem, raw, atr);
      MemoryStep(MirrorFrame(candles), p, i - 1, MirrorMemory(mem), Maybe(MirrorPivot, raw), atr);
      FilteredMirrors(mem, raw, atr, p.amplitude);
    }
  }

  lemma SwingMirrors(candles: seq<Candle>, p: SwingParams, i: nat)
    requires i < |candles| && p.lookback >= 1 && p.period >= 1 && Unambiguous(candles, p.lookback)
    ensures SwingAt(MirrorFrame(candles), p, i) == Maybe(MirrorPivot, SwingAt(candles, p, i))
  {
    MemoryMirrors(candles, p, i);
    RawMirrorsIff(candles, p.lookback, i);
    AtrMirrors(candles, p.period, i);
    var raw := RawAt(candles, p.lookback, i);
    if raw.Some? {
      KeepsMirrors(MemoryBefore(candles, p, i), raw.value, AtrAt(candles, p.period, i), p.amplitude);
    }
  }

  /** One bar both high and low: the filter keeps a high on either side of the mirror. */
  lemma AmbiguousBarBreaksTheMirror(candles: seq<Candle>, p: SwingParams)
    requires candles == [Candle(0, 1.5, 2.0, 1.0, 1.5), Candle(1, 1.5, 3.0, 0.0, 1.5), Candle(2, 1.5, 2.0, 1.0, 1.5)]
    requires p.lookback == 1 && p.period >= 1
    ensures SwingAt(candles, p, 1) == Some(Pivot(High, 3.0))
    ensures SwingAt(MirrorFrame(candles), p, 1) == Some(Pivot(High, 0.0))
  {
    var m := MirrorFrame(candles);
    assert RawAt(candles, 1, 0) == None && RawAt(m, 1, 0) == None;
    assert MemoryBefore(candles, p, 0) == MemoryBefore(candles, p, 1);
    assert MemoryBefore(m, p, 0) == MemoryBefore(m, p, 1);
    FractalsSwap(candles, 1, 1);
  }

  // ---- structure shifts -------------------------------------------------------------------------------

  lemma {:induction false} SumBodiesMirrors(candles: seq<Candle>, from: nat, to: nat)
    requires from <= to <= |candles|
    ensures SumBodies(MirrorFrame(candles), from, to) == SumBodies(candles, from, to)
  {
    if from < to {
      SumBodiesMirrors(candles, from, to - 1);
    }
  }

  lemma BodyRatioMirrors(candles: seq<Candle>, lookback: nat, c: nat)
    requires c < |candles| && lookback >= 1
    ensures BodyRatio(MirrorFrame(candles), lookback, c) == BodyRatio(candles, lookback, c)
  {
    if c >= lookback {
      SumBodiesMirrors(candles, c - lookback, c);
      assert Body(MirrorFrame(candles)[c]) == Body(candles[c]);
    }
  }

  lemma {:induction false} DisplacementMirrors(candles: seq<Candle>, p: MssParams, c: int, stop: int)
    requires c < |candles| && p.displacementLookback >= 1
    ensures Displacement(MirrorFrame(candles), p, c, stop) == Displacement(candles, p, c, stop)
    decreases c - stop
  {
    if c >= stop && c >= 0 {
      BodyRatioMirrors(candles, p.displacementLookback, c);
      DisplacementMirrors(candles, p, c - 1, stop);
    }
  }

  /** Two columns that mirror each other. */
  ghost predicate Facing(a: Column, b: Column) {
    |a| == |b| && forall i :: 0 <= i < |a| ==> b[i] == Maybe(MirrorPivot, a[i])
  }

  lemma BreakableMirrors(sweep: Sweep, swing: Option<Pivot>)
    ensures Breakable(MirrorSweep(sweep), Maybe(MirrorPivot, swing)) == Breakable(sweep, swing)
  {
  }

  lemma {:induction false} LatestPivotMirrors(a: Column, b: Column, sweep: Sweep, k: int)
    requires Facing(a, b) && k < |a|
    ensures LatestPivot(b, MirrorSweep(sweep), k) == LatestPivot(a, sweep, k)
  {
    if k >= 0 {
      BreakableMirrors(sweep, a[k]);
      LatestPivotMirrors(a, b, sweep, k - 1);
    }
  }

  lemma ShiftAtBy(candles: seq<Candle>, swings: Column, p: MssParams, sweep: Sweep, i: nat, k: Option<nat>,
                  d: Option<(real, nat)>)
    requires i < |candles| == |swings| && Usable(p)
    requires k == LatestPivot(swings, sweep, i - p.swing.lookback)
             && d == Displacement(candles, p, i, i - DISPLACEMENT_TRAILING_LOOKBACK)
    ensures ShiftAt(candles, swings, p, sweep, i)
            == if k.None? || !IsBreak(sweep.direction, candles[i].close, swings[k.value].value.price) || d.None?
               then None
               else Some(Mss(sweep.direction, sweep, candles[k.value].time, swings[k.value].value.price,
                             candles[i].time, candles[i].close,
                             d.value.0, candles[d.value.1].time))
  {
  }

  lemma ShiftAtMirrors(candles: seq<Candle>, a: Column, b: Column, p: MssParams, sweep: Sweep, i: nat)
    requires Facing(a, b) && i < |candles| == |a| && Usable(p)
    ensures ShiftAt(MirrorFrame(candles), b, p, MirrorSweep(sweep), i)
            == Maybe(MirrorMss, ShiftAt(candles, a, p, sweep, i))
  {
    LatestPivotMirrors(a, b, sweep, i - p.swing.lookback);
    DisplacementMirrors(candles, p, i, i - DISPLACEMENT_TRAILING_LOOKBACK);
    var k, d := LatestPivot(a, sweep, i - p.swing.lookback),
        Displacement(candles, p, i, i - DISPLACEMENT_TRAILING_LOOKBACK);
    ShiftAtBy(candles, a, p, sweep, i, k, d);
    ShiftAtBy(MirrorFrame(candles), b, p, MirrorSweep(sweep), i, k, d);
    if k.Some? {
      assert b[k.value] == Maybe(MirrorPivot, a[k.value]);
    }
  }

  lemma {:induction false} ConfirmingMirrors(candles: seq<Candle>, a: Column, b: Column, p: MssParams, sweep: Sweep,
                                             i: nat)
    requires Facing(a, b) && i <= |candles| == |a| && Usable(p)
    ensures ConfirmingCandle(MirrorFrame(candles), b, p, MirrorSweep(sweep), i)
            == ConfirmingCandle(candles, a, p, sweep, i)
    decreases |candles| - i
  {
    if i < |candles| {
      ShiftAtMirrors(candles, a, b, p, sweep, i);
      ConfirmingMirrors(candles, a, b, p, sweep, i + 1);
    }
  }

  lemma ShiftInMirrors(candles: seq<Candle>, a: Column, b: Column, p: MssParams, sweep: Sweep)
    requires Facing(a, b) && |candles| == |a| && Usable(p)
    ensures ShiftIn(MirrorFrame(candles), b, p, MirrorSweep(sweep)) == Maybe(MirrorMss, ShiftIn(candles, a, p, sweep))
  {
    ConfirmingMirrors(candles, a, b, p, sweep, 0);
    var i := ConfirmingCandle(candles, a, p, sweep, 0);
    if i.Some? {
      ShiftAtMirrors(candles, a, b, p, sweep, i.value);
    }
  }

  /** A bullish shift upside down is the bearish shift of the mirrored frame. */
  lemma ShiftMirrors(candles: seq<Candle>, p: MssParams, sweep: Sweep)
    requires Usable(p) && Unambiguous(candles, p.swing.lookback)
    ensures Shift(MirrorFrame(candles), p, MirrorSweep(sweep)) == Maybe(MirrorMss, Shift(candles, p, sweep))
  {
    var a, b := SwingsOf(candles, p.swing), SwingsOf(MirrorFrame(candles), p.swing);
    forall i | 0 <= i < |candles| ensures b[i] == Maybe(MirrorPivot, a[i]) {
      SwingMirrors(candles, p.swing, i);
    }
    ShiftInMirrors(candles, a, b, p, sweep);
  }

  // ---- sweeps -----------------------------------------------------------------------------------------

  lemma {:induction false} InsertEach<A(!new), B>(f: A -> B, x: A, s: seq<A>, key: A -> real, key': B -> real)
    requires forall y :: key'(f(y)) == key(y)
    ensures Insert(f(x), Each(f, s), key') == Each(f, Insert(x, s, key))
  {
    if s == [] || key(x) <= key(s[0]) {
      EachCons(f, x, s);
    } else {
      InsertEach(f, x, s[1..], key, key');
      EachCons(f, s[0], s[1..]);
      EachCons(f, s[0], Insert(x, s[1..], key));
      assert s == [s[0]] + s[1..] && Each(f, s)[1..] == Each(f, s[1..]);
    }
  }

  /** Sorting commutes with a map that keeps the keys. */
  lemma {:induction false} SortEach<A(!new), B>(f: A -> B, s: seq<A>, key: A -> real, key': B -> real)
    requires forall y :: key'(f(y)) == key(y)
    ensures StableSort(Each(f, s), key') == Each(f, StableSort(s, key))
  {
    if s != [] {
      SortEach(f, s[1..], key, key');
      assert Each(f, s)[1..] == Each(f, s[1..]);
      InsertEach(f, s[0], StableSort(s[1..], key), key, key');
    }
  }

  function MirrorHit(h: Hit): Hit { Hit(MirrorSweep(h.sweep), h.returnIndex) }

  lemma {:induction false} FirstReturnMirrors(candles: seq<Candle>, level: MarkedLevel, k: nat, last: int)
    requires last <= |candles|
    ensures FirstReturn(MirrorFrame(candles), MirrorLevel(level), k, last) == FirstReturn(candles, level, k, last)
    decreases last - k
  {
    if k < last {
      FirstReturnMirrors(candles, level, k + 1, last);
    }
  }

  lemma HitAtMirrors(candles: seq<Candle>, level: MarkedLevel, scan: Scan, i: nat)
    requires i < |candles|
    ensures HitAt(MirrorFrame(candles), MirrorLevel(level), scan, i) == Maybe(MirrorHit, HitAt(candles, level, scan, i))
  {
    FirstReturnMirrors(candles, level, i, LastReturn(|candles|, i, scan.window));
  }

  lemma CandleHitsMirror(candles: seq<Candle>, levels: seq<MarkedLevel>, scan: Scan, i: nat)
    requires i < |candles|
    ensures CandleHits(MirrorFrame(candles), Each(MirrorLevel, levels), scan)(i)
            == Each(MirrorHit, CandleHits(candles, levels, scan)(i))
  {
    var f, g := LevelHits(candles, levels, scan, i),
        LevelHits(MirrorFrame(candles), Each(MirrorLevel, levels), scan, i);
    forall l: nat | l < |levels| ensures g(l) == Each(MirrorHit, f(l)) {
      HitAtMirrors(candles, levels[l], scan, i);
    }
    GatherEach(MirrorHit, f, g, |levels|);
  }

  lemma HitsMirror(candles: seq<Candle>, levels: seq<MarkedLevel>, scan: Scan)
    ensures Hits(MirrorFrame(candles), Each(MirrorLevel, levels), scan, |candles|)
            == Each(MirrorHit, Hits(candles, levels, scan, |candles|))
  {
    var f, g := CandleHits(candles, levels, scan), CandleHits(MirrorFrame(candles), Each(MirrorLevel, levels), scan);
    forall i: nat | i < |candles| ensures g(i) == Each(MirrorHit, f(i)) {
      CandleHitsMirror(candles, levels, scan, i);
    }
    GatherEach(MirrorHit, f, g, |candles|);
  }

  /** Every sweep, in the order of the detector, is mirrored; no condition on the frame. */
  lemma RawSweepsMirror(candles: seq<Candle>, levels: seq<MarkedLevel>, scan: Scan)
    ensures RawSweeps(MirrorFrame(candles), Each(MirrorLevel, levels), scan)
            == Each(MirrorSweep, RawSweeps(candles, levels, scan))
  {
    var hits := Hits(candles, levels, scan, |candles|);
    HitsMirror(candles, levels, scan);
    assert SweepsOf(Each(MirrorHit, hits)) == Each(MirrorSweep, SweepsOf(hits));
    SortEach(MirrorSweep, SweepsOf(hits), ByTime(), ByTime());
  }

  // ---- deduplication ------------------------------------------------------------------------------------

  lemma NearMirrors(tol: Tolerance, a: Sweep, b: Sweep)
    ensures tol.Near(MirrorSweep(a), MirrorSweep(b)) == tol.Near(a, b)
  {
  }

  lemma WalkMirrors(tol: Tolerance, s: seq<Sweep>, p: seq<nat>)
    ensures Walk(Each(MirrorSweep, s), tol.Duplicate(), p) <==> Walk(s, tol.Duplicate(), p)
  {
    var near, m := tol.Duplicate(), Each(MirrorSweep, s);
    forall k | 0 <= k < |p| - 1 ensures Link(m, near, p, k) <==> Link(s, near, p, k) {
      if p[k] < |s| && p[k + 1] < |s| {
        NearMirrors(tol, s[p[k]], s[p[k + 1]]);
      }
    }
  }

  lemma ConnectedMirrors(tol: Tolerance, s: seq<Sweep>, i: nat, j: nat)
    ensures Connected(Each(MirrorSweep, s), tol.Duplicate(), i, j) <==> Connected(s, tol.Duplicate(), i, j)
  {
    forall p ensures Walk(Each(MirrorSweep, s), tol.Duplicate(), p) <==> Walk(s, tol.Duplicate(), p) {
      WalkMirrors(tol, s, p);
    }
  }

  lemma ChosenMirrors(tol: Tolerance, s: seq<Sweep>, k: nat)
    ensures Chosen(tol, Each(MirrorSweep, s), k) <==> Chosen(tol, s, k)
  {
    var m := Each(MirrorSweep, s);
    if k < |s| {
      forall j | 0 <= j < |s| ensures Connected(m, tol.Duplicate(), k, j) <==> Connected(s, tol.Duplicate(), k, j) {
        ConnectedMirrors(tol, s, k, j);
      }
      assert forall j :: 0 <= j < |s| ==> (Beats(m, k, j) <==> Beats(s, k, j));
    }
  }

  lemma KeptMirrors(tol: Tolerance, s: seq<Sweep>, ks: seq<nat>)
    requires Kept(tol, s, ks)
    ensures Kept(tol, Each(MirrorSweep, s), ks)
  {
    var m := Each(MirrorSweep, s);
    forall k: nat ensures Chosen(tol, m, k) <==> Chosen(tol, s, k) {
      ChosenMirrors(tol, s, k);
    }
    forall k: nat | k < |s| ensures FirstAt(tol, m)(k) == FirstAt(tol, s)(k) {
      ConnectedMirrors(tol, s, k, FirstMet(tol, s, k));
      ConnectedMirrors(tol, s, k, FirstMet(tol, m, k));
    }
    assert forall k: nat :: TimeAt(m)(k) == TimeAt(s)(k);
    forall i | 0 <= i < |ks| ensures ks[i] in ks && ks[i] < |s| {
      assert ks[i] in ks && Chosen(tol, s, ks[i]);
    }
  }

  lemma {:induction false} PickEach(s: seq<Sweep>, ks: seq<nat>)
    requires forall k :: k in ks ==> k < |s|
    ensures Pick(Each(MirrorSweep, s), ks) == Each(MirrorSweep, Pick(s, ks))
  {
    var m := Each(MirrorSweep, s);
    assert forall i :: 0 <= i < |ks| ==> ks[i] in ks && Pick(m, ks)[i] == m[ks[i]] && Pick(s, ks)[i] == s[ks[i]];
  }

  /** The representatives of the mirrored sweeps are the mirrored representatives. */
  lemma DedupMirrors(tol: Tolerance, s: seq<Sweep>)
    ensures Dedup(tol, Each(MirrorSweep, s)) == Each(MirrorSweep, Dedup(tol, s))
  {
    var ks := KeptOf(tol, s);
    KeptMirrors(tol, s, ks);
    KeptIsDedup(tol, Each(MirrorSweep, s), ks);
    PickEach(s, ks);
  }
}
