/** `list.sort(key=...)`: the stable sort of the standard library, as insertion. */
module Sorting {

  function Insert<T>(x: T, s: seq<T>, key: T -> real): (r: seq<T>)
    ensures |r| == |s| + 1
  {
    if s == [] then [x]
    else if key(x) <= key(s[0]) then [x] + s
    else [s[0]] + Insert(x, s[1..], key)
  }

  /** Ascending by `key`; elements with equal keys keep their order. */
  function StableSort<T>(s: seq<T>, key: T -> real): (r: seq<T>)
    ensures |r| == |s|
  {
    if s == [] then [] else Insert(s[0], StableSort(s[1..], key), key)
  }

  lemma {:induction false} InsertPermutes<T>(x: T, s: seq<T>, key: T -> real)
    ensures multiset(Insert(x, s, key)) == multiset{x} + multiset(s)
  {
    if s != [] {
      assert s == [s[0]] + s[1..];
      InsertPermutes(x, s[1..], key);
    }
  }

  /** Sorting rearranges and does nothing else. */
  lemma {:induction false} StableSortPermutes<T>(s: seq<T>, key: T -> real)
    ensures multiset(StableSort(s, key)) == multiset(s)
  {
    if s != [] {
      assert s == [s[0]] + s[1..];
      StableSortPermutes(s[1..], key);
      InsertPermutes(s[0], StableSort(s[1..], key), key);
    }
  }

  lemma InsertMembers<T(!new)>(x: T, s: seq<T>, key: T -> real)
    ensures forall y :: y in Insert(x, s, key) <==> y == x || y in s
  {
    InsertPermutes(x, s, key);
    forall y ensures y in Insert(x, s, key) <==> y == x || y in s {
      assert y in Insert(x, s, key) <==> y in multiset(Insert(x, s, key));
    }
  }

  lemma StableSortMembers<T(!new)>(s: seq<T>, key: T -> real)
    ensures forall x :: x in StableSort(s, key) <==> x in s
  {
    StableSortPermutes(s, key);
    forall x ensures x in StableSort(s, key) <==> x in s {
      assert x in StableSort(s, key) <==> x in multiset(StableSort(s, key));
    }
  }

  /** The key that sorts by descending time. */
  function LatestFirst<T>(time: T -> int): (T -> real) {
    (x: T) => -(time(x) as real)
  }

  ghost predicate SortedBy<T>(s: seq<T>, key: T -> real) {
    forall i, j :: 0 <= i < j < |s| ==> key(s[i]) <= key(s[j])
  }

  /** Strictly ascending by (key, tie). */
  ghost predicate StrictBy<T(!new)>(s: seq<T>, key: T -> real, tie: T -> int) {
    forall i, j :: 0 <= i < j < |s| ==> key(s[i]) < key(s[j]) || (key(s[i]) == key(s[j]) && tie(s[i]) < tie(s[j]))
  }

  lemma {:induction false} InsertSorted<T(!new)>(x: T, s: seq<T>, key: T -> real)
    requires SortedBy(s, key)
    ensures SortedBy(Insert(x, s, key), key)
  {
    if s != [] && key(x) > key(s[0]) {
      InsertSorted(x, s[1..], key);
      InsertMembers(x, s[1..], key);
      forall y | y in Insert(x, s[1..], key) ensures key(s[0]) <= key(y) {
      }
    }
  }

  lemma {:induction false} StableSortSorts<T(!new)>(s: seq<T>, key: T -> real)
    ensures SortedBy(StableSort(s, key), key)
  {
    if s != [] {
      StableSortSorts(s[1..], key);
      InsertSorted(s[0], StableSort(s[1..], key), key);
    }
  }

  lemma LastIsGreatest<T(!new)>(s: seq<T>, key: T -> real, y: T)
    requires SortedBy(s, key) && y in s
    ensures key(y) <= key(s[|s| - 1])
  {
    var i :| 0 <= i < |s| && s[i] == y;
    if i < |s| - 1 {
      assert key(s[i]) <= key(s[|s| - 1]);
    }
  }

  lemma {:induction false} InsertStrict<T(!new)>(x: T, s: seq<T>, key: T -> real, tie: T -> int)
    requires StrictBy(s, key, tie) && forall y :: y in s ==> tie(x) < tie(y)
    ensures StrictBy(Insert(x, s, key), key, tie)
  {
    if s != [] && key(x) > key(s[0]) {
      InsertStrict(x, s[1..], key, tie);
      InsertMembers(x, s[1..], key);
      forall y | y in Insert(x, s[1..], key) ensures key(s[0]) < key(y) || (key(s[0]) == key(y) && tie(s[0]) < tie(y)) {
      }
    } else {
      forall y | y in s ensures key(x) < key(y) || (key(x) == key(y) && tie(x) < tie(y)) {
      }
    }
  }

  /** Stability: with the input ascending by `tie`, equal keys come out ascending by `tie`. */
  lemma {:induction false} StableSortStrict<T(!new)>(s: seq<T>, key: T -> real, tie: T -> int)
    requires forall i, j :: 0 <= i < j < |s| ==> tie(s[i]) < tie(s[j])
    ensures StrictBy(StableSort(s, key), key, tie)
  {
    if s != [] {
      StableSortStrict(s[1..], key, tie);
      var t := StableSort(s[1..], key);
      StableSortMembers(s[1..], key);
      forall y | y in t ensures tie(s[0]) < tie(y) {
      }
      InsertStrict(s[0], t, key, tie);
    }
  }

  /** Two lists with the same elements, both strictly ascending by (key, tie), are the same list. */
  lemma {:induction false} StrictUnique<T(!new)>(a: seq<T>, b: seq<T>, key: T -> real, tie: T -> int)
    requires StrictBy(a, key, tie) && StrictBy(b, key, tie)
    requires forall x :: x in a <==> x in b
    ensures a == b
  {
    if a != [] {
      assert a[0] in b;
    }
    if b != [] {
      assert b[0] in a;
    }
    if a != [] {
      assert a[0] == b[0];
      forall x ensures x in a[1..] <==> x in b[1..] {
        if x in a[1..] {
          assert x in a && x != a[0];
        }
        if x in b[1..] {
          assert x in b && x != b[0];
        }
      }
      StrictUnique(a[1..], b[1..], key, tie);
    }
  }

  lemma {:induction false} SortedIsFixed<T>(s: seq<T>, key: T -> real)
    requires SortedBy(s, key)
    ensures StableSort(s, key) == s
  {
    if s != [] {
      SortedIsFixed(s[1..], key);
      assert s == [s[0]] + s[1..];
    }
  }
}
