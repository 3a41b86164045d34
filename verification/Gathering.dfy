/** Loops that append what each round finds. */
module Gathering {

  /** What a loop that appends `f(0)`, `f(1)`, ... has collected after `n` rounds. */
  function Gather<T>(f: nat -> seq<T>, n: nat): seq<T> {
    if n == 0 then [] else Gather(f, n - 1) + f(n - 1)
  }

  lemma {:induction false} GatherNothing<T>(f: nat -> seq<T>, m: nat, n: nat)
    requires m <= n && forall i: nat :: m <= i < n ==> f(i) == []
    ensures Gather(f, n) == Gather(f, m)
  {
    if m < n {
      GatherNothing(f, m, n - 1);
    }
  }

  lemma {:induction false} GatherIff<T>(f: nat -> seq<T>, n: nat, x: T)
    ensures x in Gather(f, n) <==> exists i: nat :: i < n && x in f(i)
  {
    if n > 0 {
      GatherIff(f, n - 1, x);
    }
  }

  lemma {:induction false} GatherSame<T>(f: nat -> seq<T>, g: nat -> seq<T>, n: nat)
    requires forall i: nat :: i < n ==> f(i) == g(i)
    ensures Gather(f, n) == Gather(g, n)
  {
    if n > 0 {
      GatherSame(f, g, n - 1);
    }
  }

  lemma {:induction false} GatherExtends<T>(f: nat -> seq<T>, m: nat, n: nat)
    requires m <= n
    ensures |Gather(f, m)| <= |Gather(f, n)|
    ensures |Gather(f, m)| == |Gather(f, n)| ==> forall i: nat :: m <= i < n ==> f(i) == []
  {
    if m < n {
      GatherExtends(f, m, n - 1);
    }
  }

  /** Later rounds leave the result as it is exactly when they find nothing. */
  lemma GatherSettledIff<T>(f: nat -> seq<T>, m: nat, n: nat)
    requires m <= n
    ensures Gather(f, n) == Gather(f, m) <==> forall i: nat :: m <= i < n ==> f(i) == []
  {
    GatherExtends(f, m, n);
    if forall i: nat :: m <= i < n ==> f(i) == [] {
      GatherNothing(f, m, n);
    }
  }

  // ---- maps -----------------------------------------------------------------------------------------

  function Each<A, B>(f: A -> B, s: seq<A>): (r: seq<B>)
    ensures |r| == |s|
    ensures forall i :: 0 <= i < |s| ==> r[i] == f(s[i])
  {
    seq(|s|, i requires 0 <= i < |s| => f(s[i]))
  }

  lemma EachAppend<A, B>(f: A -> B, a: seq<A>, b: seq<A>)
    ensures Each(f, a + b) == Each(f, a) + Each(f, b)
  {
  }

  lemma EachCons<A, B>(f: A -> B, x: A, s: seq<A>)
    ensures Each(f, [x] + s) == [f(x)] + Each(f, s)
  {
  }

  /** Gathering commutes with a map. */
  lemma {:induction false} GatherEach<A, B>(m: A -> B, f: nat -> seq<A>, g: nat -> seq<B>, n: nat)
    requires forall i: nat :: i < n ==> g(i) == Each(m, f(i))
    ensures Gather(g, n) == Each(m, Gather(f, n))
  {
    if n > 0 {
      GatherEach(m, f, g, n - 1);
      EachAppend(m, Gather(f, n - 1), f(n - 1));
    }
  }
}
