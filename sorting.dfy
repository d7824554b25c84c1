/**
 * Stable ascending sort by an integer key: what `Array.prototype.sort` with the comparator
 * `(a, b) => key(a) - key(b)` produces. A store query with `.sort({ createdAt: 1 })` is modelled
 * by the same sort; the store itself promises no order among equal keys, and the model picks
 * input order.
 */
module Sorting {

  predicate SortedBy<T>(s: seq<T>, key: T -> int) {
    forall i, j :: 0 <= i < j < |s| ==> key(s[i]) <= key(s[j])
  }

  /** Puts `x` before the first element whose key is not smaller than its own. */
  function InsertBy<T>(x: T, s: seq<T>, key: T -> int): (r: seq<T>)
    requires SortedBy(s, key)
    ensures SortedBy(r, key)
    ensures multiset(r) == multiset(s) + multiset{x}
  {
    if s == [] || key(x) <= key(s[0]) then
      SortedCons(x, s, key);
      [x] + s
    else
      var rest := InsertBy(x, s[1..], key);
      assert s == [s[0]] + s[1..];
      BoundedByParts(key(s[0]), rest, s[1..], x, key);
      SortedCons(s[0], rest, key);
      [s[0]] + rest
  }

  /** An element no larger than every element of a sorted sequence can go in front of it. */
  lemma SortedCons<T>(y: T, s: seq<T>, key: T -> int)
    requires SortedBy(s, key)
    requires forall k :: 0 <= k < |s| ==> key(y) <= key(s[k])
    ensures SortedBy([y] + s, key)
  {
  }

  /** A lower bound on the parts of a rearranged sequence bounds every element of it. */
  lemma BoundedByParts<T>(lo: int, s: seq<T>, tail: seq<T>, x: T, key: T -> int)
    requires multiset(s) == multiset(tail) + multiset{x}
    requires forall k :: 0 <= k < |tail| ==> lo <= key(tail[k])
    requires lo <= key(x)
    ensures forall k :: 0 <= k < |s| ==> lo <= key(s[k])
  {
    forall k | 0 <= k < |s| ensures lo <= key(s[k]) {
      assert s[k] in multiset(s);
      if s[k] != x {
        assert s[k] in multiset(tail);
        var j :| 0 <= j < |tail| && tail[j] == s[k];
      }
    }
  }

  /** The elements of `s`, ascending by `key`; elements with equal keys keep their order. */
  function SortBy<T>(s: seq<T>, key: T -> int): (r: seq<T>)
    ensures SortedBy(r, key)
    ensures multiset(r) == multiset(s) && |r| == |s|
  {
    if s == [] then []
    else
      assert s == [s[0]] + s[1..];
      InsertBy(s[0], SortBy(s[1..], key), key)
  }

  /** The elements of `s` whose key is `k`, in their order in `s`. */
  function WithKey<T>(s: seq<T>, key: T -> int, k: int): seq<T> {
    if s == [] then [] else (if key(s[0]) == k then [s[0]] else []) + WithKey(s[1..], key, k)
  }

  /** Inserting `x` puts it in front of every element with the same key. */
  lemma {:induction false} InsertByWithKey<T>(x: T, s: seq<T>, key: T -> int, k: int)
    requires SortedBy(s, key)
    ensures WithKey(InsertBy(x, s, key), key, k) == (if key(x) == k then [x] else []) + WithKey(s, key, k)
  {
    if s == [] || key(x) <= key(s[0]) {
      assert InsertBy(x, s, key) == [x] + s;
      WithKeyCons(x, s, key, k);
    } else {
      var rest := InsertBy(x, s[1..], key);
      assert InsertBy(x, s, key) == [s[0]] + rest;
      WithKeyCons(s[0], rest, key, k);
      InsertByWithKey(x, s[1..], key, k);
      assert s == [s[0]] + s[1..];
      WithKeyCons(s[0], s[1..], key, k);
    }
  }

  lemma WithKeyCons<T>(y: T, s: seq<T>, key: T -> int, k: int)
    ensures WithKey([y] + s, key, k) == (if key(y) == k then [y] else []) + WithKey(s, key, k)
  {
    assert ([y] + s)[1..] == s;
  }

  /** The sort is stable: for every key, the elements with that key keep their input order. */
  lemma {:induction false} SortByStable<T>(s: seq<T>, key: T -> int, k: int)
    ensures WithKey(SortBy(s, key), key, k) == WithKey(s, key, k)
  {
    if s != [] {
      SortByStable(s[1..], key, k);
      InsertByWithKey(s[0], SortBy(s[1..], key), key, k);
    }
  }

  /** Sorting input that is already in key order changes nothing (the sort is stable). */
  lemma {:induction false} SortSortedIsIdentity<T>(s: seq<T>, key: T -> int)
    requires SortedBy(s, key)
    ensures SortBy(s, key) == s
  {
    if s != [] {
      SortSortedIsIdentity(s[1..], key);
      assert SortBy(s[1..], key) == s[1..];
    }
  }
}
