/**
 * A stable sort by an integer key: the behaviour `Array.prototype.sort`
 * guarantees since ES2019, used for every comparator of the form
 * that subtracts one key from the other.
 */
module Sorting {

  ghost predicate SortedBy<T>(xs: seq<T>, key: T -> int) {
    forall i, j | 0 <= i < j < |xs| :: key(xs[i]) <= key(xs[j])
  }

  /** The elements of `xs` whose key is `k`, in their order in `xs`. */
  function WithKey<T>(xs: seq<T>, key: T -> int, k: int): seq<T> {
    if |xs| == 0 then []
    else (if key(xs[0]) == k then [xs[0]] else []) + WithKey(xs[1..], key, k)
  }

  /** Places `x` in front of the first element whose key is not smaller. */
  function Insert<T>(x: T, xs: seq<T>, key: T -> int): seq<T> {
    if |xs| == 0 || key(x) <= key(xs[0]) then [x] + xs
    else [xs[0]] + Insert(x, xs[1..], key)
  }

  lemma {:induction false} InsertPermutes<T>(x: T, xs: seq<T>, key: T -> int)
    ensures multiset(Insert(x, xs, key)) == multiset(xs) + multiset{x}
  {
    if |xs| > 0 && key(x) > key(xs[0]) {
      InsertPermutes(x, xs[1..], key);
      assert xs == [xs[0]] + xs[1..];
    }
  }

  lemma {:induction false} InsertSorted<T>(x: T, xs: seq<T>, key: T -> int)
    requires SortedBy(xs, key)
    ensures SortedBy(Insert(x, xs, key), key)
    ensures |xs| > 0 ==> Insert(x, xs, key)[0] == x || Insert(x, xs, key)[0] == xs[0]
  {
    if |xs| > 0 && key(x) > key(xs[0]) {
      var tail := Insert(x, xs[1..], key);
      InsertSorted(x, xs[1..], key);
      assert forall i | 0 <= i < |tail| :: key(xs[0]) <= key(tail[i]) by {
        forall i | 0 <= i < |tail| ensures key(xs[0]) <= key(tail[i]) {
          if i > 0 { assert key(tail[0]) <= key(tail[i]); }
        }
      }
    }
  }

  /** Insertion sort: ascending by `key`, equal keys in their original order. */
  function SortBy<T>(xs: seq<T>, key: T -> int): (r: seq<T>)
    ensures SortedBy(r, key)
    ensures multiset(r) == multiset(xs)
  {
    if |xs| == 0 then []
    else
      var rest := SortBy(xs[1..], key);
      InsertSorted(xs[0], rest, key);
      InsertPermutes(xs[0], rest, key);
      assert multiset(xs) == multiset{xs[0]} + multiset(xs[1..]) by {
        assert xs == [xs[0]] + xs[1..];
      }
      Insert(xs[0], rest, key)
  }

  /** `WithKey` of a sequence with a known first element. */
  lemma WithKeyCons<T>(y: T, ys: seq<T>, key: T -> int, k: int)
    ensures WithKey([y] + ys, key, k) == (if key(y) == k then [y] else []) + WithKey(ys, key, k)
  {
    assert ([y] + ys)[1..] == ys;
  }

  lemma {:induction false} InsertWithKey<T>(x: T, xs: seq<T>, key: T -> int, k: int)
    ensures WithKey(Insert(x, xs, key), key, k)
         == (if key(x) == k then [x] else []) + WithKey(xs, key, k)
  {
    var mine: seq<T> := if key(x) == k then [x] else [];
    if |xs| == 0 || key(x) <= key(xs[0]) {
      WithKeyCons(x, xs, key, k);
    } else {
      var tail := Insert(x, xs[1..], key);
      var head: seq<T> := if key(xs[0]) == k then [xs[0]] else [];
      var rest := WithKey(xs[1..], key, k);
      InsertWithKey(x, xs[1..], key, k);
      WithKeyCons(xs[0], tail, key, k);
      assert WithKey(Insert(x, xs, key), key, k) == head + (mine + rest);
      assert WithKey(xs, key, k) == head + rest;
      if key(x) == k {
        assert head == [];
        assert head + (mine + rest) == mine + rest;
      } else {
        assert mine + (head + rest) == head + rest;
      }
    }
  }

  /** Stability: among elements with equal keys the original order survives. */
  lemma {:induction false} SortByIsStable<T>(xs: seq<T>, key: T -> int, k: int)
    ensures WithKey(SortBy(xs, key), key, k) == WithKey(xs, key, k)
  {
    if |xs| > 0 {
      SortByIsStable(xs[1..], key, k);
      InsertWithKey(xs[0], SortBy(xs[1..], key), key, k);
    }
  }
}
