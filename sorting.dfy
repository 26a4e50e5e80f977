/** `Array.prototype.sort((a, b) => key(b) - key(a))`: a stable sort into
    non-increasing key order, written as insertion sort. */
module Sorting {
  import opened Folds

  predicate SortedDesc<T>(s: seq<T>, key: T -> real) {
    forall i, j :: 0 <= i < j < |s| ==> key(s[i]) >= key(s[j])
  }

  /** No two elements share a `name`. */
  predicate DistinctBy<T, K(==)>(s: seq<T>, name: T -> K) {
    forall i, j :: 0 <= i < j < |s| ==> name(s[i]) != name(s[j])
  }

  /** Places `x` before the first element whose key does not exceed its own. */
  function Insert<T>(x: T, s: seq<T>, key: T -> real): (r: seq<T>)
    ensures multiset(r) == multiset{x} + multiset(s)
  {
    if s == [] || key(x) >= key(s[0]) then [x] + s
    else
      assert s == [s[0]] + s[1..];
      [s[0]] + Insert(x, s[1..], key)
  }

  lemma InsertElement<T>(x: T, s: seq<T>, key: T -> real, y: T)
    ensures y in Insert(x, s, key) <==> y == x || y in s
  {
    var r := Insert(x, s, key);
    assert y in r <==> y in multiset(r);
    assert y in s <==> y in multiset(s);
  }

  lemma {:induction false} InsertSorted<T>(x: T, s: seq<T>, key: T -> real)
    requires SortedDesc(s, key)
    ensures SortedDesc(Insert(x, s, key), key)
  {
    if s == [] || key(x) >= key(s[0]) {
      var r := [x] + s;
      forall i, j | 0 <= i < j < |r| ensures key(r[i]) >= key(r[j]) {
        if i > 0 {
          assert r[i] == s[i - 1] && r[j] == s[j - 1];
        } else {
          assert r[j] == s[j - 1];
        }
      }
    } else {
      var tail := s[1..];
      assert SortedDesc(tail, key);
      InsertSorted(x, tail, key);
      var rest := Insert(x, tail, key);
      var r := [s[0]] + rest;
      forall i, j | 0 <= i < j < |r| ensures key(r[i]) >= key(r[j]) {
        if i > 0 {
          assert r[i] == rest[i - 1] && r[j] == rest[j - 1];
        } else {
          assert r[j] == rest[j - 1];
          assert r[j] in rest;
          InsertElement(x, tail, key, r[j]);
          if r[j] != x {
            var k :| 0 <= k < |tail| && tail[k] == r[j];
            assert s[k + 1] == r[j];
          }
        }
      }
    }
  }

  function SortDesc<T>(s: seq<T>, key: T -> real): (r: seq<T>)
    ensures multiset(r) == multiset(s)
    ensures SortedDesc(r, key)
  {
    if s == [] then []
    else
      assert s == [s[0]] + s[1..];
      var sortedTail := SortDesc(s[1..], key);
      InsertSorted(s[0], sortedTail, key);
      Insert(s[0], sortedTail, key)
  }

  lemma SortElement<T>(s: seq<T>, key: T -> real, y: T)
    ensures y in SortDesc(s, key) <==> y in s
  {
    var r := SortDesc(s, key);
    assert y in r <==> y in multiset(r);
    assert y in s <==> y in multiset(s);
  }

  lemma SortLength<T>(s: seq<T>, key: T -> real)
    ensures |SortDesc(s, key)| == |s|
  {
    assert |multiset(SortDesc(s, key))| == |multiset(s)|;
  }

  lemma {:induction false} InsertSum<T>(x: T, s: seq<T>, key: T -> real, f: T -> real)
    ensures SumOf(Insert(x, s, key), f) == f(x) + SumOf(s, f)
  {
    if s == [] || key(x) >= key(s[0]) {
      SumOfCons(x, s, f);
    } else {
      InsertSum(x, s[1..], key, f);
      SumOfCons(s[0], Insert(x, s[1..], key), f);
      SumOfCons(s[0], s[1..], f);
      assert s == [s[0]] + s[1..];
    }
  }

  /** Sorting does not change any sum over the elements. */
  lemma {:induction false} SortKeepsSum<T>(s: seq<T>, key: T -> real, f: T -> real)
    ensures SumOf(SortDesc(s, key), f) == SumOf(s, f)
  {
    if s != [] {
      SortKeepsSum(s[1..], key, f);
      InsertSum(s[0], SortDesc(s[1..], key), key, f);
      SumOfCons(s[0], s[1..], f);
      assert s == [s[0]] + s[1..];
    }
  }

  lemma {:induction false} InsertDistinct<T, K>(x: T, s: seq<T>, key: T -> real, name: T -> K)
    requires DistinctBy(s, name)
    requires forall y :: y in s ==> name(y) != name(x)
    ensures DistinctBy(Insert(x, s, key), name)
  {
    if s == [] || key(x) >= key(s[0]) {
    } else {
      var rest := Insert(x, s[1..], key);
      InsertDistinct(x, s[1..], key, name);
      forall y | y in rest ensures name(y) != name(s[0]) {
        InsertElement(x, s[1..], key, y);
        if y != x {
          assert y in s[1..];
          var j :| 0 <= j < |s[1..]| && s[1..][j] == y;
          assert s[j + 1] == y;
        }
      }
      var r := [s[0]] + rest;
      forall i, j | 0 <= i < j < |r| ensures name(r[i]) != name(r[j]) {
        if i == 0 {
          assert r[j] == rest[j - 1];
          assert r[j] in rest;
        } else {
          assert r[i] == rest[i - 1] && r[j] == rest[j - 1];
        }
      }
    }
  }

  /** Sorting keeps names distinct. */
  lemma {:induction false} SortKeepsDistinct<T, K>(s: seq<T>, key: T -> real, name: T -> K)
    requires DistinctBy(s, name)
    ensures DistinctBy(SortDesc(s, key), name)
  {
    if s != [] {
      var tail := s[1..];
      assert DistinctBy(tail, name) by {
        forall i, j | 0 <= i < j < |tail| ensures name(tail[i]) != name(tail[j]) {
          assert tail[i] == s[i + 1] && tail[j] == s[j + 1];
        }
      }
      SortKeepsDistinct(tail, key, name);
      forall y | y in SortDesc(tail, key) ensures name(y) != name(s[0]) {
        SortElement(tail, key, y);
        var j :| 0 <= j < |tail| && tail[j] == y;
        assert s[j + 1] == y;
      }
      InsertDistinct(s[0], SortDesc(tail, key), key, name);
    }
  }

  /** The first `k` elements of the sorted list are drawn from the list, and
      every element left out has a key no larger than any of them. */
  lemma SortedPrefix<T>(s: seq<T>, key: T -> real, k: nat)
    requires k <= |s|
    ensures |SortDesc(s, key)| == |s|
    ensures multiset(SortDesc(s, key)[..k]) <= multiset(s)
    ensures SortedDesc(SortDesc(s, key)[..k], key)
    ensures forall i, j :: 0 <= i < k && 0 <= j < |s| && s[j] !in SortDesc(s, key)[..k] ==>
              key(s[j]) <= key(SortDesc(s, key)[i])
  {
    var sorted := SortDesc(s, key);
    SortLength(s, key);
    var r := sorted[..k];
    assert sorted == r + sorted[k..];
    forall i, j | 0 <= i < k && 0 <= j < |s| && s[j] !in r
      ensures key(s[j]) <= key(sorted[i])
    {
      SortElement(s, key, s[j]);
      PrefixBound(sorted, key, k, s[j], i);
    }
  }

  /** In a sorted list, an element outside the first `k` has a key no larger
      than any of theirs. */
  lemma PrefixBound<T>(sorted: seq<T>, key: T -> real, k: nat, x: T, i: nat)
    requires SortedDesc(sorted, key) && i < k <= |sorted|
    requires x in sorted && x !in sorted[..k]
    ensures key(x) <= key(sorted[i])
  {
    var p :| 0 <= p < |sorted| && sorted[p] == x;
    assert forall q :: 0 <= q < k ==> sorted[q] in sorted[..k];
  }
}
