/** Order-keeping filters, left-to-right sums (`reduce((sum, x) => sum +
    f(x), 0)`) and sums split into buckets by a key, with the fact that
    buckets over distinct keys that cover every element add up to the whole. */
module Folds {
  import opened Common

  /** `s.filter(p)`: the elements satisfying `p`, in their original order. */
  function Filter<T(==)>(s: seq<T>, p: T -> bool): (r: seq<T>)
    ensures |r| <= |s|
    ensures forall i :: 0 <= i < |r| ==> p(r[i])
    ensures multiset(r) <= multiset(s)
  {
    if s == [] then []
    else
      assert s == [s[0]] + s[1..];
      if p(s[0]) then [s[0]] + Filter(s[1..], p) else Filter(s[1..], p)
  }

  /** A filter keeps every copy of an element that passes and none of one
      that fails. */
  lemma {:induction false} FilterCount<T>(s: seq<T>, p: T -> bool, x: T)
    ensures multiset(Filter(s, p))[x] == if p(x) then multiset(s)[x] else 0
  {
    if s != [] {
      assert s == [s[0]] + s[1..];
      FilterCount(s[1..], p, x);
      assert multiset(s)[x] == multiset([s[0]])[x] + multiset(s[1..])[x];
    }
  }

  /** Exactly the elements of `s` that satisfy `p` survive. */
  lemma {:induction false} FilterElement<T>(s: seq<T>, p: T -> bool, x: T)
    ensures x in Filter(s, p) <==> x in s && p(x)
  {
    if s != [] {
      FilterElement(s[1..], p, x);
      var rest := Filter(s[1..], p);
      assert x in s <==> x == s[0] || x in s[1..];
      if p(s[0]) {
        assert x in [s[0]] + rest <==> x == s[0] || x in rest;
      }
    }
  }

  /** The survivors keep their relative order. */
  lemma {:induction false} FilterSubsequence<T>(s: seq<T>, p: T -> bool)
    ensures IsSubsequence(Filter(s, p), s)
  {
    if s != [] {
      FilterSubsequence(s[1..], p);
      var rest := Filter(s[1..], p);
      if p(s[0]) {
        assert ([s[0]] + rest)[1..] == rest;
      }
    }
  }

  /** `s.reduce((sum, x) => sum + f(x), 0)`. */
  function SumOf<T>(s: seq<T>, f: T -> real): real {
    if s == [] then 0.0 else SumOf(s[..|s| - 1], f) + f(s[|s| - 1])
  }

  lemma {:induction false} SumOfAppend<T>(a: seq<T>, b: seq<T>, f: T -> real)
    ensures SumOf(a + b, f) == SumOf(a, f) + SumOf(b, f)
  {
    if b != [] {
      assert (a + b)[..|a + b| - 1] == a + b[..|b| - 1];
      SumOfAppend(a, b[..|b| - 1], f);
    } else {
      assert a + b == a;
    }
  }

  lemma SumOfCons<T>(x: T, s: seq<T>, f: T -> real)
    ensures SumOf([x] + s, f) == f(x) + SumOf(s, f)
  {
    SumOfAppend([x], s, f);
    assert [x][..0] == [];
  }

  /** The part of the sum contributed by elements whose key is `k`. */
  function BucketSum<T, K(==)>(s: seq<T>, key: T -> K, k: K, f: T -> real): real {
    if s == [] then 0.0
    else BucketSum(s[..|s| - 1], key, k, f) + (if key(s[|s| - 1]) == k then f(s[|s| - 1]) else 0.0)
  }

  /** The bucket sums for the keys `ks`, added up. */
  function SumBuckets<T, K(==)>(s: seq<T>, key: T -> K, ks: seq<K>, f: T -> real): real {
    if ks == [] then 0.0
    else SumBuckets(s, key, ks[..|ks| - 1], f) + BucketSum(s, key, ks[|ks| - 1], f)
  }

  predicate Distinct<K(==)>(ks: seq<K>) {
    forall i, j :: 0 <= i < j < |ks| ==> ks[i] != ks[j]
  }

  /** Appending one element adds its value to the bucket total exactly once
      when its key is among the (distinct) keys, and not at all otherwise. */
  lemma {:induction false} SumBucketsSnoc<T, K>(s: seq<T>, x: T, key: T -> K, ks: seq<K>, f: T -> real)
    requires Distinct(ks)
    ensures SumBuckets(s + [x], key, ks, f)
         == SumBuckets(s, key, ks, f) + (if key(x) in ks then f(x) else 0.0)
  {
    if ks != [] {
      var init := ks[..|ks| - 1];
      var last := ks[|ks| - 1];
      assert ks == init + [last];
      SumBucketsSnoc(s, x, key, init, f);
      assert (s + [x])[..|s + [x]| - 1] == s;
      assert key(x) in ks <==> key(x) in init || key(x) == last;
      assert last !in init;
    }
  }

  /** Buckets over distinct keys that cover every element partition the sum. */
  lemma {:induction false} Partition<T, K>(s: seq<T>, key: T -> K, ks: seq<K>, f: T -> real)
    requires Distinct(ks)
    requires forall x :: x in s ==> key(x) in ks
    ensures SumBuckets(s, key, ks, f) == SumOf(s, f)
  {
    if s == [] {
      ZeroBuckets(key, ks, f);
    } else {
      var init := s[..|s| - 1];
      var x := s[|s| - 1];
      assert s == init + [x];
      Partition(init, key, ks, f);
      SumBucketsSnoc(init, x, key, ks, f);
    }
  }

  lemma {:induction false} ZeroBuckets<T, K>(key: T -> K, ks: seq<K>, f: T -> real)
    ensures SumBuckets([], key, ks, f) == 0.0
  {
    if ks != [] {
      ZeroBuckets(key, ks[..|ks| - 1], f);
    }
  }

  /** Summing over the filtered elements is summing a function that is zero
      off the filter. */
  lemma {:induction false} FilterSum<T>(s: seq<T>, p: T -> bool, f: T -> real, g: T -> real)
    requires forall x :: x in s ==> g(x) == (if p(x) then f(x) else 0.0)
    ensures SumOf(Filter(s, p), f) == SumOf(s, g)
  {
    if s != [] {
      assert forall x :: x in s[1..] ==> x in s;
      FilterSum(s[1..], p, f, g);
      SumOfCons(s[0], s[1..], g);
      assert s == [s[0]] + s[1..];
      if p(s[0]) {
        SumOfCons(s[0], Filter(s[1..], p), f);
      }
    }
  }

  /** A filter and its complement split a sum in two. */
  lemma {:induction false} FilterSplit<T>(s: seq<T>, p: T -> bool, q: T -> bool, f: T -> real)
    requires forall x :: q(x) == !p(x)
    ensures SumOf(Filter(s, p), f) + SumOf(Filter(s, q), f) == SumOf(s, f)
  {
    if s != [] {
      FilterSplit(s[1..], p, q, f);
      SumOfCons(s[0], s[1..], f);
      assert s == [s[0]] + s[1..];
      if p(s[0]) {
        SumOfCons(s[0], Filter(s[1..], p), f);
      } else {
        SumOfCons(s[0], Filter(s[1..], q), f);
      }
    }
  }

  /** Records that each carry one bucket's sum add up to the sum over all
      those buckets. */
  lemma {:induction false} SumOfBucketRecords<T, U, K>(xs: seq<U>, g: U -> real, s: seq<T>, key: T -> K, ks: seq<K>, f: T -> real)
    requires |xs| == |ks|
    requires forall i :: 0 <= i < |xs| ==> g(xs[i]) == BucketSum(s, key, ks[i], f)
    ensures SumOf(xs, g) == SumBuckets(s, key, ks, f)
  {
    if xs != [] {
      SumOfBucketRecords(xs[..|xs| - 1], g, s, key, ks[..|ks| - 1], f);
    }
  }

  /** A filter that nothing passes leaves nothing. */
  lemma FilterNone<T>(s: seq<T>, p: T -> bool)
    requires forall x :: x in s ==> !p(x)
    ensures Filter(s, p) == []
  {
    var r := Filter(s, p);
    if r != [] {
      FilterElement(s, p, r[0]);
    }
  }

  /** A bucket sum is the sum of a function that is zero off the bucket. */
  lemma {:induction false} BucketSumAsSum<T, K>(s: seq<T>, key: T -> K, k: K, f: T -> real, g: T -> real)
    requires forall x :: x in s ==> g(x) == (if key(x) == k then f(x) else 0.0)
    ensures BucketSum(s, key, k, f) == SumOf(s, g)
  {
    if s != [] {
      assert forall x :: x in s[..|s| - 1] ==> x in s;
      BucketSumAsSum(s[..|s| - 1], key, k, f, g);
    }
  }

  /** Filtering a concatenation filters each part. */
  lemma {:induction false} FilterConcat<T>(a: seq<T>, b: seq<T>, p: T -> bool)
    ensures Filter(a + b, p) == Filter(a, p) + Filter(b, p)
  {
    if a != [] {
      assert (a + b)[0] == a[0];
      assert (a + b)[1..] == a[1..] + b;
      FilterConcat(a[1..], b, p);
    } else {
      assert a + b == b;
    }
  }

  /** A filter that everything passes keeps the list. */
  lemma {:induction false} FilterKeepsAll<T>(s: seq<T>, p: T -> bool)
    requires forall x :: x in s ==> p(x)
    ensures Filter(s, p) == s
  {
    if s != [] {
      assert forall x :: x in s[1..] ==> x in s;
      FilterKeepsAll(s[1..], p);
    }
  }
}
