/** Query aggregates over rows: `filter(...)` as a sequence filter that keeps
    the row order, and `Coalesce(Sum(column), 0)` as a sum that is 0 over no
    rows. The lemmas are the facts the aggregator's properties rest on:
    sums do not depend on row order, a narrower filter never sums to more,
    and a filter splits a sum in two.
 */
module Tally {

  function Filter<T>(s: seq<T>, p: T -> bool): (r: seq<T>)
    ensures |r| <= |s|
    ensures forall i :: 0 <= i < |r| ==> r[i] in s && p(r[i])
    ensures forall i :: 0 <= i < |s| && p(s[i]) ==> s[i] in r
  {
    if s == [] then []
    else if p(s[0]) then [s[0]] + Filter(s[1..], p)
    else Filter(s[1..], p)
  }

  /** The sum of `f` over the rows; 0 when there are none. */
  function Sum<T>(s: seq<T>, f: T -> nat): nat {
    if s == [] then 0 else f(s[0]) + Sum(s[1..], f)
  }

  lemma {:induction false} FilterAppend<T>(a: seq<T>, b: seq<T>, p: T -> bool)
    ensures Filter(a + b, p) == Filter(a, p) + Filter(b, p)
  {
    if a == [] {
      assert a + b == b;
    } else {
      assert (a + b)[0] == a[0];
      assert (a + b)[1..] == a[1..] + b;
      FilterAppend(a[1..], b, p);
    }
  }

  lemma {:induction false} SumAppend<T>(a: seq<T>, b: seq<T>, f: T -> nat)
    ensures Sum(a + b, f) == Sum(a, f) + Sum(b, f)
  {
    if a == [] {
      assert a + b == b;
    } else {
      assert (a + b)[0] == a[0];
      assert (a + b)[1..] == a[1..] + b;
      SumAppend(a[1..], b, f);
    }
  }

  /** Taking element `i` out of `s` leaves the rest of its rows. */
  lemma SplitAt<T>(s: seq<T>, i: nat)
    requires i < |s|
    ensures s == s[..i] + [s[i]] + s[i + 1..]
    ensures multiset(s) == multiset(s[..i] + s[i + 1..]) + multiset{s[i]}
  {
    assert s == s[..i] + [s[i]] + s[i + 1..];
    assert s[..i] + [s[i]] + s[i + 1..] == s[..i] + ([s[i]] + s[i + 1..]);
  }

  /** Adding the same row to two bags keeps them equal only if they were. */
  lemma MultisetCancel<T>(x: multiset<T>, y: multiset<T>, e: T)
    requires x + multiset{e} == y + multiset{e}
    ensures x == y
  {
    assert x == (x + multiset{e}) - multiset{e};
    assert y == (y + multiset{e}) - multiset{e};
  }

  /** When `b` holds the rows of `a`, removing `a`'s first row from `b` leaves the rows of `a[1..]`. */
  lemma RemoveMatching<T>(a: seq<T>, b: seq<T>, i: nat)
    requires a != [] && multiset(a) == multiset(b)
    requires i < |b| && b[i] == a[0]
    ensures multiset(a[1..]) == multiset(b[..i] + b[i + 1..])
  {
    assert a == [a[0]] + a[1..];
    SplitAt(b, i);
    MultisetCancel(multiset(a[1..]), multiset(b[..i] + b[i + 1..]), a[0]);
  }

  /** Taking a row out takes its value out of the sum. */
  lemma SumRemove<T>(b: seq<T>, i: nat, f: T -> nat)
    requires i < |b|
    ensures Sum(b, f) == f(b[i]) + Sum(b[..i] + b[i + 1..], f)
  {
    SplitAt(b, i);
    SumAppend(b[..i] + [b[i]], b[i + 1..], f);
    SumAppend(b[..i], [b[i]], f);
    SumAppend(b[..i], b[i + 1..], f);
    assert Sum([b[i]], f) == f(b[i]);
  }

  /** Every row's value is part of the sum. */
  lemma SumAtLeastEach<T>(s: seq<T>, f: T -> nat)
    ensures forall i :: 0 <= i < |s| ==> f(s[i]) <= Sum(s, f)
  {
    forall i | 0 <= i < |s|
      ensures f(s[i]) <= Sum(s, f)
    {
      SumRemove(s, i, f);
    }
  }

  /** A sum does not depend on the order of its rows. */
  lemma {:induction false} SumPermutation<T>(a: seq<T>, b: seq<T>, f: T -> nat)
    requires multiset(a) == multiset(b)
    ensures Sum(a, f) == Sum(b, f)
  {
    if a == [] {
      assert |b| == |multiset(b)| == 0;
    } else {
      assert a[0] in multiset(b);
      var i :| 0 <= i < |b| && b[i] == a[0];
      RemoveMatching(a, b, i);
      SumPermutation(a[1..], b[..i] + b[i + 1..], f);
      SumRemove(b, i, f);
    }
  }

  /** Filtering rows whose order changed gives the same rows, in some order. */
  lemma {:induction false} FilterPermutation<T>(a: seq<T>, b: seq<T>, p: T -> bool)
    requires multiset(a) == multiset(b)
    ensures multiset(Filter(a, p)) == multiset(Filter(b, p))
  {
    if a == [] {
      assert |b| == |multiset(b)| == 0;
    } else {
      assert a[0] in multiset(b);
      var i :| 0 <= i < |b| && b[i] == a[0];
      RemoveMatching(a, b, i);
      FilterPermutation(a[1..], b[..i] + b[i + 1..], p);
      SplitAt(b, i);
      FilterAppend(b[..i] + [b[i]], b[i + 1..], p);
      FilterAppend(b[..i], [b[i]], p);
      FilterAppend(b[..i], b[i + 1..], p);
    }
  }

  /** Two filters that agree on every row select the same rows. */
  lemma {:induction false} FilterExtensional<T>(s: seq<T>, p: T -> bool, q: T -> bool)
    requires forall x :: x in s ==> (p(x) <==> q(x))
    ensures Filter(s, p) == Filter(s, q)
  {
    if s != [] {
      assert forall x :: x in s[1..] ==> x in s;
      FilterExtensional(s[1..], p, q);
    }
  }

  /** A filter that matches no row selects nothing. */
  lemma {:induction false} FilterNothing<T>(s: seq<T>, p: T -> bool)
    requires forall x :: x in s ==> !p(x)
    ensures Filter(s, p) == []
  {
    if s != [] {
      assert forall x :: x in s[1..] ==> x in s;
      FilterNothing(s[1..], p);
    }
  }

  /** A filter that is implied by another sums to at least as much. */
  lemma {:induction false} FilterSumMonotone<T>(s: seq<T>, p: T -> bool, q: T -> bool, f: T -> nat)
    requires forall x :: x in s && p(x) ==> q(x)
    ensures Sum(Filter(s, p), f) <= Sum(Filter(s, q), f)
  {
    if s != [] {
      assert forall x :: x in s[1..] ==> x in s;
      FilterSumMonotone(s[1..], p, q, f);
      if p(s[0]) {
        assert Filter(s, p) == [s[0]] + Filter(s[1..], p);
        assert Filter(s, q) == [s[0]] + Filter(s[1..], q);
      }
    }
  }

  /** A filtered sum is at most the sum over every row. */
  lemma {:induction false} FilterSumAtMost<T>(s: seq<T>, p: T -> bool, f: T -> nat)
    ensures Sum(Filter(s, p), f) <= Sum(s, f)
  {
    if s != [] {
      FilterSumAtMost(s[1..], p, f);
    }
  }

  /** A filter and its complement split a sum into the rows one keeps and the rows the other keeps. */
  lemma {:induction false} SumPartition<T>(s: seq<T>, p: T -> bool, q: T -> bool, f: T -> nat)
    requires forall x :: x in s ==> (q(x) <==> !p(x))
    ensures Sum(s, f) == Sum(Filter(s, p), f) + Sum(Filter(s, q), f)
  {
    if s != [] {
      assert forall x :: x in s[1..] ==> x in s;
      SumPartition(s[1..], p, q, f);
    }
  }

  /** Filtering twice keeps exactly the rows both filters keep. */
  lemma {:induction false} FilterTwice<T>(s: seq<T>, p: T -> bool, q: T -> bool, both: T -> bool)
    requires forall x :: x in s ==> (both(x) <==> p(x) && q(x))
    ensures Filter(Filter(s, p), q) == Filter(s, both)
  {
    if s != [] {
      assert forall x :: x in s[1..] ==> x in s;
      FilterTwice(s[1..], p, q, both);
    }
  }
}
