/** What deduplication keeps, in terms of directions, times, prices and excursions. */
module SameEvents {
  import opened Foundations
  import opened SweepTypes
  import opened Components
  import opened SweepDedup

  /**
    Same direction, at most `minutes` minutes apart, and prices that differ by at most `fraction` of
    their mean size.
  */
  predicate SameEvent(tol: Tolerance, a: Sweep, b: Sweep) {
    && a.direction == b.direction
    && -(tol.minutes * 60_000_000) <= a.time - b.time <= tol.minutes * 60_000_000
    && Abs(a.levelPrice - b.levelPrice) <= Mul(tol.fraction, (Abs(a.levelPrice) + Abs(b.levelPrice)) / 2.0)
  }

  /** A chain of sweeps of one event, from position `j` to position `k`. */
  ghost predicate Chain(tol: Tolerance, s: seq<Sweep>, p: seq<nat>, j: nat, k: nat) {
    && p != [] && p[0] == j && p[|p| - 1] == k && (forall i :: 0 <= i < |p| ==> p[i] < |s|)
    && forall i :: 0 <= i < |p| - 1 ==> SameEvent(tol, s[p[i]], s[p[i + 1]])
  }

  ghost predicate Chained(tol: Tolerance, s: seq<Sweep>, j: nat, k: nat) {
    exists p :: Chain(tol, s, p, j, k)
  }

  /** Deeper, or as deep and earlier, or equal in both and listed first. */
  predicate Outranks(s: seq<Sweep>, k: nat, m: nat)
    requires k < |s| && m < |s|
  {
    || s[k].excursion > s[m].excursion
    || (s[k].excursion == s[m].excursion && s[k].time < s[m].time)
    || (s[k].excursion == s[m].excursion && s[k].time == s[m].time && k < m)
  }

  /** Position `k` outranks everything it is chained to. */
  ghost predicate Stands(tol: Tolerance, s: seq<Sweep>, k: nat) {
    k < |s| && forall m: nat :: m < |s| && m != k && Chained(tol, s, k, m) ==> Outranks(s, k, m)
  }

  lemma SameEventIff(tol: Tolerance, a: Sweep, b: Sweep)
    ensures tol.Near(a, b) <==> SameEvent(tol, a, b)
  {
  }

  lemma ChainedIff(tol: Tolerance, s: seq<Sweep>, j: nat, k: nat)
    ensures Connected(s, tol.Duplicate(), j, k) <==> Chained(tol, s, j, k)
  {
    var near := tol.Duplicate();
    if p :| Walk(s, near, p) && p[0] == j && p[|p| - 1] == k {
      forall i | 0 <= i < |p| - 1 ensures SameEvent(tol, s[p[i]], s[p[i + 1]]) {
        assert Link(s, near, p, i);
        SameEventIff(tol, s[p[i]], s[p[i + 1]]);
      }
      assert Chain(tol, s, p, j, k);
    }
    if p :| Chain(tol, s, p, j, k) {
      forall i | 0 <= i < |p| - 1 ensures Link(s, near, p, i) {
        SameEventIff(tol, s[p[i]], s[p[i + 1]]);
      }
      assert Walk(s, near, p);
    }
  }

  lemma StandsIff(tol: Tolerance, s: seq<Sweep>, k: nat)
    ensures Chosen(tol, s, k) <==> Stands(tol, s, k)
  {
    forall m: nat ensures Connected(s, tol.Duplicate(), k, m) <==> Chained(tol, s, k, m) {
      ChainedIff(tol, s, k, m);
    }
    if k < |s| {
      assert forall m: nat :: m < |s| && m != k ==> (Beats(s, k, m) <==> Outranks(s, k, m));
    }
  }

  /** A sweep is kept exactly when it stands at some position. */
  lemma KeptIff(tol: Tolerance, s: seq<Sweep>, x: Sweep)
    ensures x in Dedup(tol, s) <==> exists k: nat :: Stands(tol, s, k) && s[k] == x
  {
    DedupMembers(tol, s, x);
    forall k: nat ensures Chosen(tol, s, k) <==> Stands(tol, s, k) {
      StandsIff(tol, s, k);
    }
  }

  /** No two kept sweeps are of one event, and they come in order of time. */
  lemma KeptApart(tol: Tolerance, s: seq<Sweep>)
    ensures var out := Dedup(tol, s);
            forall a, b :: 0 <= a < b < |out| ==> !SameEvent(tol, out[a], out[b]) && out[a].time <= out[b].time
  {
    var out := Dedup(tol, s);
    KeptArePairwiseDistinct(tol, s);
    KeptSortedByTime(tol, s);
    forall a, b | 0 <= a < b < |out| ensures !SameEvent(tol, out[a], out[b]) {
      SameEventIff(tol, out[a], out[b]);
    }
  }

  /** Every sweep is chained to exactly one that stands; that one is kept. */
  lemma EveryEventIsKept(tol: Tolerance, s: seq<Sweep>, j: nat) returns (k: nat)
    requires j < |s|
    ensures Stands(tol, s, k) && Chained(tol, s, j, k) && s[k] in Dedup(tol, s)
    ensures forall m: nat :: Stands(tol, s, m) && Chained(tol, s, j, m) ==> m == k
  {
    EveryClusterIsKeptOnce(tol, s, j);
    k :| Represents(tol, s, j, k) && s[k] in Dedup(tol, s) && forall m: nat :: Represents(tol, s, j, m) ==> m == k;
    forall m: nat ensures Represents(tol, s, j, m) <==> Stands(tol, s, m) && Chained(tol, s, j, m) {
      StandsIff(tol, s, m);
      ChainedIff(tol, s, j, m);
    }
  }
}
