/** The order in which sweeps are found: by candle, then by level, each once. */
module SweepOrder {
  import opened Foundations
  import opened SweepTypes
  import opened Gathering
  import opened Sorting
  import opened SweepDetection

  /** A candle and a level. */
  datatype Place = Place(candle: nat, level: nat)

  predicate Precedes(a: Place, b: Place) { a.candle < b.candle || (a.candle == b.candle && a.level < b.level) }

  ghost predicate InOrder(ps: seq<Place>) {
    forall a, b :: 0 <= a < b < |ps| ==> Precedes(ps[a], ps[b])
  }

  function PlacesOf(candles: seq<Candle>, levels: seq<MarkedLevel>, scan: Scan, i: nat): (nat -> seq<Place>)
    requires i < |candles|
  {
    (l: nat) => if l < |levels| && HitAt(candles, levels[l], scan, i).Some? then [Place(i, l)] else []
  }

  function CandlePlaces(candles: seq<Candle>, levels: seq<MarkedLevel>, scan: Scan): (nat -> seq<Place>) {
    (i: nat) => if i < |candles| then Gather(PlacesOf(candles, levels, scan, i), |levels|) else []
  }

  function Places(candles: seq<Candle>, levels: seq<MarkedLevel>, scan: Scan): seq<Place> {
    Gather(CandlePlaces(candles, levels, scan), |candles|)
  }

  /** The hits are those of the places, one each. */
  ghost predicate HitsAt(candles: seq<Candle>, levels: seq<MarkedLevel>, scan: Scan, ps: seq<Place>, hits: seq<Hit>) {
    && |ps| == |hits|
    && forall a :: 0 <= a < |ps| ==>
         && ps[a].candle < |candles| && ps[a].level < |levels|
         && HitAt(candles, levels[ps[a].level], scan, ps[a].candle) == Some(hits[a])
  }

  lemma {:induction false} GatherHits(candles: seq<Candle>, levels: seq<MarkedLevel>, scan: Scan, f: nat -> seq<Place>,
                                      g: nat -> seq<Hit>, n: nat)
    requires forall i: nat :: i < n ==> HitsAt(candles, levels, scan, f(i), g(i))
    ensures HitsAt(candles, levels, scan, Gather(f, n), Gather(g, n))
  {
    if n > 0 {
      GatherHits(candles, levels, scan, f, g, n - 1);
    }
  }

  /** Rounds that stay in order and come one after the other. */
  lemma {:induction false} GatherPrecedes(f: nat -> seq<Place>, rank: Place -> nat, n: nat)
    requires forall i: nat, a :: i < n && 0 <= a < |f(i)| ==> rank(f(i)[a]) == i
    requires forall i: nat :: i < n ==> InOrder(f(i))
    requires forall i: nat, j: nat, p, q :: i < j < n && p in f(i) && q in f(j) ==> Precedes(p, q)
    ensures InOrder(Gather(f, n)) && forall a :: 0 <= a < |Gather(f, n)| ==> rank(Gather(f, n)[a]) < n
  {
    if n > 0 {
      GatherPrecedes(f, rank, n - 1);
      var before, now := Gather(f, n - 1), f(n - 1);
      forall a, b | 0 <= a < |before| && 0 <= b < |now| ensures Precedes(before[a], now[b]) {
        GatherIff(f, n - 1, before[a]);
        var i: nat :| i < n - 1 && before[a] in f(i);
        assert now[b] in f(n - 1);
      }
    }
  }

  lemma CandleInOrder(candles: seq<Candle>, levels: seq<MarkedLevel>, scan: Scan, i: nat)
    requires i < |candles|
    ensures var ps := Gather(PlacesOf(candles, levels, scan, i), |levels|);
            InOrder(ps) && forall a :: 0 <= a < |ps| ==> ps[a].candle == i
  {
    var f := PlacesOf(candles, levels, scan, i);
    GatherPrecedes(f, (p: Place) => p.level, |levels|);
    forall p: Place | p in Gather(f, |levels|) ensures p.candle == i {
      GatherIff(f, |levels|, p);
    }
  }

  lemma PlacesInOrder(candles: seq<Candle>, levels: seq<MarkedLevel>, scan: Scan)
    ensures InOrder(Places(candles, levels, scan))
  {
    var f := CandlePlaces(candles, levels, scan);
    forall i: nat | i < |candles| ensures InOrder(f(i)) && forall a :: 0 <= a < |f(i)| ==> f(i)[a].candle == i {
      CandleInOrder(candles, levels, scan, i);
    }
    GatherPrecedes(f, (p: Place) => p.candle, |candles|);
  }

  lemma PlacesHit(candles: seq<Candle>, levels: seq<MarkedLevel>, scan: Scan)
    ensures HitsAt(candles, levels, scan, Places(candles, levels, scan), Hits(candles, levels, scan, |candles|))
  {
    var f, g := CandlePlaces(candles, levels, scan), CandleHits(candles, levels, scan);
    forall i: nat | i < |candles| ensures HitsAt(candles, levels, scan, f(i), g(i)) {
      GatherHits(candles, levels, scan, PlacesOf(candles, levels, scan, i), LevelHits(candles, levels, scan, i),
                 |levels|);
    }
    GatherHits(candles, levels, scan, f, g, |candles|);
  }

  lemma PlacesComplete(candles: seq<Candle>, levels: seq<MarkedLevel>, scan: Scan, i: nat, l: nat)
    requires i < |candles| && l < |levels| && HitAt(candles, levels[l], scan, i).Some?
    ensures Place(i, l) in Places(candles, levels, scan)
  {
    assert Place(i, l) in PlacesOf(candles, levels, scan, i)(l);
    GatherIff(PlacesOf(candles, levels, scan, i), |levels|, Place(i, l));
    assert Place(i, l) in CandlePlaces(candles, levels, scan)(i);
    GatherIff(CandlePlaces(candles, levels, scan), |candles|, Place(i, l));
  }

  ghost predicate SweepsAt(candles: seq<Candle>, levels: seq<MarkedLevel>, scan: Scan, s: Sweep, p: Place) {
    exists k: nat :: IsSweep(candles, levels, scan, s, p.candle, p.level, k)
  }

  /** The sweeps `out` are those of the places `ps`, in order, and no place with a sweep is missing. */
  ghost predicate Lists(candles: seq<Candle>, levels: seq<MarkedLevel>, scan: Scan, ps: seq<Place>, out: seq<Sweep>) {
    && InOrder(ps) && |ps| == |out|
    && (forall a :: 0 <= a < |ps| ==> SweepsAt(candles, levels, scan, out[a], ps[a]))
    && forall i: nat, l: nat, k: nat, s :: IsSweep(candles, levels, scan, s, i, l, k) ==> Place(i, l) in ps
  }

  lemma HitIsSweep(candles: seq<Candle>, levels: seq<MarkedLevel>, scan: Scan, i: nat, l: nat, h: Hit)
    requires i < |candles| && l < |levels| && HitAt(candles, levels[l], scan, i) == Some(h)
    ensures SweepsAt(candles, levels, scan, h.sweep, Place(i, l))
  {
    HitAtIff(candles, levels, scan, i, l, h);
    IsSweepIff(candles, levels, scan, h.sweep, i, l, h.returnIndex);
  }

  lemma SweepHasPlace(candles: seq<Candle>, levels: seq<MarkedLevel>, scan: Scan, s: Sweep, i: nat, l: nat, k: nat)
    requires IsSweep(candles, levels, scan, s, i, l, k)
    ensures Place(i, l) in Places(candles, levels, scan)
  {
    IsSweepIff(candles, levels, scan, s, i, l, k);
    HitAtIff(candles, levels, scan, i, l, Hit(s, k));
    PlacesComplete(candles, levels, scan, i, l);
  }

  lemma HitsAreListed(candles: seq<Candle>, levels: seq<MarkedLevel>, scan: Scan)
    ensures Lists(candles, levels, scan, Places(candles, levels, scan),
                  SweepsOf(Hits(candles, levels, scan, |candles|)))
  {
    var ps, hits := Places(candles, levels, scan), Hits(candles, levels, scan, |candles|);
    PlacesInOrder(candles, levels, scan);
    PlacesHit(candles, levels, scan);
    forall a | 0 <= a < |ps|
      ensures SweepsAt(candles, levels, scan, SweepsOf(hits)[a], ps[a])
    {
      assert SweepsOf(hits)[a] == hits[a].sweep;
      HitIsSweep(candles, levels, scan, ps[a].candle, ps[a].level, hits[a]);
    }
    forall i: nat, l: nat, k: nat, s | IsSweep(candles, levels, scan, s, i, l, k) ensures Place(i, l) in ps {
      SweepHasPlace(candles, levels, scan, s, i, l, k);
    }
  }

  lemma ListedByTime(candles: seq<Candle>, levels: seq<MarkedLevel>, scan: Scan, ps: seq<Place>, out: seq<Sweep>)
    requires StrictlyAscending(candles) && Lists(candles, levels, scan, ps, out)
    ensures SortedBy(out, ByTime())
  {
    forall a, b | 0 <= a <= b < |out| ensures out[a].time <= out[b].time {
      assert SweepsAt(candles, levels, scan, out[a], ps[a]) && SweepsAt(candles, levels, scan, out[b], ps[b]);
      var j: nat :| IsSweep(candles, levels, scan, out[a], ps[a].candle, ps[a].level, j);
      var k: nat :| IsSweep(candles, levels, scan, out[b], ps[b].candle, ps[b].level, k);
      assert a < b ==> Precedes(ps[a], ps[b]);
    }
  }

  /**
    On a frame in order of time the sweeps are listed by candle and then by level, one for every candle
    and level that make a sweep.
  */
  lemma SweepsInOrder(candles: seq<Candle>, levels: seq<MarkedLevel>, scan: Scan)
    requires StrictlyAscending(candles)
    ensures exists ps :: Lists(candles, levels, scan, ps, RawSweeps(candles, levels, scan))
  {
    var ps, out := Places(candles, levels, scan), SweepsOf(Hits(candles, levels, scan, |candles|));
    HitsAreListed(candles, levels, scan);
    ListedByTime(candles, levels, scan, ps, out);
    SortedIsFixed(out, ByTime());
    assert Lists(candles, levels, scan, ps, RawSweeps(candles, levels, scan));
  }
}
