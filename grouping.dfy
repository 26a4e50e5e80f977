/** Grouping by a string key into a `Record<string, number>` of running sums,
    as `reduce((acc, x) => { if (!acc[k]) acc[k] = 0; acc[k] += v; return acc }, {})`
    builds it, read back with `Object.entries` in insertion order. */
module Grouping {
  import opened Folds

  datatype Entry = Entry(key: string, total: real)

  function EntryTotal(e: Entry): real {
    e.total
  }

  function EntryKey(e: Entry): string {
    e.key
  }

  /** The keys present in a record. */
  function KeysOf(es: seq<Entry>): set<string> {
    if es == [] then {} else {es[0].key} + KeysOf(es[1..])
  }

  /** `acc[k] || 0`: the total stored under `k`, or 0 when there is none. */
  function Lookup(es: seq<Entry>, k: string): real {
    if es == [] then 0.0 else if es[0].key == k then es[0].total else Lookup(es[1..], k)
  }

  predicate DistinctKeys(es: seq<Entry>) {
    forall i, j :: 0 <= i < j < |es| ==> es[i].key != es[j].key
  }

  /** The set of keys the elements of `s` carry. */
  function KeySet<T>(s: seq<T>, key: T -> string): (ks: set<string>)
    ensures forall x :: x in s ==> key(x) in ks
  {
    if s == [] then {} else KeySet(s[..|s| - 1], key) + {key(s[|s| - 1])}
  }

  lemma {:induction false} KeySetWitness<T>(s: seq<T>, key: T -> string, k: string)
    requires k in KeySet(s, key)
    ensures exists x :: x in s && key(x) == k
  {
    var init := s[..|s| - 1];
    if k in KeySet(init, key) {
      KeySetWitness(init, key, k);
      var x :| x in init && key(x) == k;
      assert x in s;
    } else {
      assert s[|s| - 1] in s;
    }
  }

  /** A key is in the key set exactly when some element carries it. */
  lemma KeySetIff<T>(s: seq<T>, key: T -> string, k: string)
    ensures k in KeySet(s, key) <==> exists x :: x in s && key(x) == k
  {
    if k in KeySet(s, key) {
      KeySetWitness(s, key, k);
    }
  }

  lemma {:induction false} KeysOfIndex(es: seq<Entry>, k: string)
    ensures k in KeysOf(es) <==> exists i :: 0 <= i < |es| && es[i].key == k
  {
    if es != [] {
      KeysOfIndex(es[1..], k);
      if k in KeysOf(es[1..]) {
        var i :| 0 <= i < |es[1..]| && es[1..][i].key == k;
        assert es[i + 1].key == k;
      }
      if exists i :: 0 <= i < |es| && es[i].key == k {
        var i :| 0 <= i < |es| && es[i].key == k;
        if i > 0 {
          assert es[1..][i - 1].key == k;
        }
      }
    }
  }

  /** Adds `v` under `k`: an existing entry keeps its place, a new key goes
      at the end (insertion order). */
  function AddTo(acc: seq<Entry>, k: string, v: real): (r: seq<Entry>)
    ensures KeysOf(r) == KeysOf(acc) + {k}
    ensures forall j :: Lookup(r, j) == Lookup(acc, j) + (if j == k then v else 0.0)
    ensures k !in KeysOf(acc) ==> r == acc + [Entry(k, v)]
    ensures k in KeysOf(acc) ==> |r| == |acc| && forall i :: 0 <= i < |r| ==> r[i].key == acc[i].key
  {
    if acc == [] then [Entry(k, v)]
    else if acc[0].key == k then [Entry(k, acc[0].total + v)] + acc[1..]
    else
      var rest := AddTo(acc[1..], k, v);
      assert acc == [acc[0]] + acc[1..];
      [acc[0]] + rest
  }

  lemma {:induction false} AddToDistinct(acc: seq<Entry>, k: string, v: real)
    requires DistinctKeys(acc)
    ensures DistinctKeys(AddTo(acc, k, v))
  {
    var r := AddTo(acc, k, v);
    if k in KeysOf(acc) {
      assert forall i :: 0 <= i < |r| ==> r[i].key == acc[i].key;
    } else {
      forall i | 0 <= i < |acc| ensures acc[i].key != k {
        KeysOfIndex(acc, k);
      }
      assert r == acc + [Entry(k, v)];
    }
  }

  lemma {:induction false} AddToTotal(acc: seq<Entry>, k: string, v: real)
    ensures SumOf(AddTo(acc, k, v), EntryTotal) == SumOf(acc, EntryTotal) + v
  {
    if acc == [] {
      SumOfCons(Entry(k, v), [], EntryTotal);
    } else if acc[0].key == k {
      SumOfCons(Entry(k, acc[0].total + v), acc[1..], EntryTotal);
      SumOfCons(acc[0], acc[1..], EntryTotal);
      assert acc == [acc[0]] + acc[1..];
    } else {
      AddToTotal(acc[1..], k, v);
      SumOfCons(acc[0], AddTo(acc[1..], k, v), EntryTotal);
      SumOfCons(acc[0], acc[1..], EntryTotal);
      assert acc == [acc[0]] + acc[1..];
    }
  }

  /** Groups `s` by `key`, summing `val` per key. */
  function GroupSum<T>(s: seq<T>, key: T -> string, val: T -> real): (r: seq<Entry>)
    ensures DistinctKeys(r)
    ensures KeysOf(r) == KeySet(s, key)
    ensures forall k :: Lookup(r, k) == BucketSum(s, key, k, val)
  {
    if s == [] then []
    else
      var x := s[|s| - 1];
      var acc := GroupSum(s[..|s| - 1], key, val);
      AddToDistinct(acc, key(x), val(x));
      AddTo(acc, key(x), val(x))
  }

  /** The group totals add up to the total of all elements. */
  lemma {:induction false} GroupSumTotal<T>(s: seq<T>, key: T -> string, val: T -> real)
    ensures SumOf(GroupSum(s, key, val), EntryTotal) == SumOf(s, val)
  {
    if s != [] {
      var x := s[|s| - 1];
      GroupSumTotal(s[..|s| - 1], key, val);
      AddToTotal(GroupSum(s[..|s| - 1], key, val), key(x), val(x));
    }
  }

  /** With distinct keys, every entry holds the total that `Lookup` finds for its key. */
  lemma {:induction false} LookupAt(es: seq<Entry>, i: int)
    requires DistinctKeys(es) && 0 <= i < |es|
    ensures Lookup(es, es[i].key) == es[i].total
  {
    if i > 0 {
      assert es[1..][i - 1] == es[i];
      LookupAt(es[1..], i - 1);
    }
  }
}
