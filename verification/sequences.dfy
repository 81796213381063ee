/**
 * Sequence helpers shared by the list views and the billing queries:
 * `Array.prototype.filter`, reversal, and the two facts that pin a filter's
 * result down: which elements it keeps, how often, and in what order.
 */
module Sequences {

  /** `xs.filter(p)`. */
  function Filter<T>(xs: seq<T>, p: T -> bool): (r: seq<T>)
    ensures |r| <= |xs|
    ensures forall i | 0 <= i < |r| :: p(r[i])
    ensures multiset(r) <= multiset(xs)
  {
    if |xs| == 0 then []
    else
      assert xs == [xs[0]] + xs[1..];
      (if p(xs[0]) then [xs[0]] else []) + Filter(xs[1..], p)
  }

  /** Filtering keeps exactly the elements that pass. */
  lemma {:induction false} FilterMembers<T>(xs: seq<T>, p: T -> bool, x: T)
    ensures x in Filter(xs, p) <==> x in xs && p(x)
  {
    if |xs| > 0 {
      FilterMembers(xs[1..], p, x);
      assert xs == [xs[0]] + xs[1..];
    }
  }

  /** Filtering respects concatenation, so the kept elements stay in their original order. */
  lemma {:induction false} FilterAppend<T>(a: seq<T>, b: seq<T>, p: T -> bool)
    ensures Filter(a + b, p) == Filter(a, p) + Filter(b, p)
  {
    if |a| > 0 {
      assert (a + b)[1..] == a[1..] + b;
      FilterAppend(a[1..], b, p);
    } else {
      assert a + b == b;
    }
  }

  /** A filter every element passes changes nothing. */
  lemma {:induction false} FilterAll<T>(xs: seq<T>, p: T -> bool)
    requires forall i | 0 <= i < |xs| :: p(xs[i])
    ensures Filter(xs, p) == xs
  {
    if |xs| > 0 {
      FilterAll(xs[1..], p);
    }
  }

  /**
   * `r` holds exactly the elements of `xs` that pass `p`, each as many
   * times as it occurs in `xs`.
   */
  ghost predicate Selects<T(!new)>(r: seq<T>, xs: seq<T>, p: T -> bool) {
    forall x :: multiset(r)[x] == if p(x) then multiset(xs)[x] else 0
  }

  /** `r` is `xs` with some elements left out, the rest in their original order. */
  ghost predicate IsSubsequence<T>(r: seq<T>, xs: seq<T>)
    decreases |xs|
  {
    || |r| == 0
    || (|xs| > 0 && ((r[0] == xs[0] && IsSubsequence(r[1..], xs[1..])) || IsSubsequence(r, xs[1..])))
  }

  /** Filtering keeps every passing element as often as it occurs, and drops the rest. */
  lemma {:induction false} FilterSelects<T(!new)>(xs: seq<T>, p: T -> bool)
    ensures Selects(Filter(xs, p), xs, p)
  {
    if |xs| > 0 {
      FilterSelects(xs[1..], p);
      var head: seq<T> := if p(xs[0]) then [xs[0]] else [];
      var rest := Filter(xs[1..], p);
      assert Filter(xs, p) == head + rest;
      assert multiset(xs) == multiset{xs[0]} + multiset(xs[1..]) by {
        assert xs == [xs[0]] + xs[1..];
      }
      forall x ensures multiset(Filter(xs, p))[x] == if p(x) then multiset(xs)[x] else 0 {
        assert multiset(Filter(xs, p))[x] == multiset(head)[x] + multiset(rest)[x];
      }
    }
  }

  /** Filtering keeps the original order. */
  lemma {:induction false} FilterIsSubsequence<T>(xs: seq<T>, p: T -> bool)
    ensures IsSubsequence(Filter(xs, p), xs)
  {
    if |xs| > 0 {
      FilterIsSubsequence(xs[1..], p);
      var rest := Filter(xs[1..], p);
      if p(xs[0]) {
        var r := [xs[0]] + rest;
        assert Filter(xs, p) == r;
        assert r[0] == xs[0] && r[1..] == rest;
      } else {
        assert Filter(xs, p) == rest;
      }
    }
  }

  /** Two filters in a row are one filter by both conditions. */
  lemma {:induction false} FilterFilter<T>(xs: seq<T>, p: T -> bool, q: T -> bool, both: T -> bool)
    requires forall x :: both(x) == (p(x) && q(x))
    ensures Filter(Filter(xs, p), q) == Filter(xs, both)
  {
    if |xs| > 0 {
      FilterFilter(xs[1..], p, q, both);
      var rest := Filter(xs[1..], p);
      if p(xs[0]) {
        assert Filter(xs, p) == [xs[0]] + rest;
        assert ([xs[0]] + rest)[1..] == rest;
      } else {
        assert Filter(xs, p) == rest;
      }
    }
  }

  /** Selecting from a permutation of a selection is the same selection. */
  lemma SelectsPermuted<T(!new)>(r: seq<T>, kept: seq<T>, xs: seq<T>, p: T -> bool)
    requires Selects(kept, xs, p) && multiset(r) == multiset(kept)
    ensures Selects(r, xs, p)
    ensures forall x :: x in r <==> x in xs && p(x)
  {
    forall x ensures x in r <==> x in xs && p(x) {
      assert x in r <==> multiset(r)[x] > 0;
      assert x in xs <==> multiset(xs)[x] > 0;
    }
  }

  /** Filters by pointwise-equal conditions agree. */
  lemma {:induction false} FilterSame<T>(xs: seq<T>, p: T -> bool, q: T -> bool)
    requires forall x :: p(x) == q(x)
    ensures Filter(xs, p) == Filter(xs, q)
  {
    if |xs| > 0 {
      FilterSame(xs[1..], p, q);
    }
  }

  /** The elements in the opposite order. */
  function Reverse<T>(xs: seq<T>): (r: seq<T>)
    ensures |r| == |xs|
    ensures forall i | 0 <= i < |xs| :: r[i] == xs[|xs| - 1 - i]
  {
    if |xs| == 0 then [] else Reverse(xs[1..]) + [xs[0]]
  }

  /** Reversing a concatenation reverses the order of the parts. */
  lemma ReverseAppend<T>(a: seq<T>, b: seq<T>)
    ensures Reverse(a + b) == Reverse(b) + Reverse(a)
  {
  }
}
