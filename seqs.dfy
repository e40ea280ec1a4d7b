/**
 * Order facts shared by the views: subsequences (what a chain of `Array.prototype.filter`
 * calls keeps) and the stable sort that `Array.prototype.sort` performs with a comparator
 * of the form `key(a) - key(b)`.
 */
module Seqs {

  /** `a` is obtained from `b` by deleting elements, keeping the relative order of the rest. */
  predicate IsSubsequence<T(==)>(a: seq<T>, b: seq<T>)
    decreases |b|
  {
    if a == [] then true
    else if b == [] then false
    else (a[0] == b[0] && IsSubsequence(a[1..], b[1..])) || IsSubsequence(a, b[1..])
  }

  /** Truncating a subsequence (`slice(0, n)`) keeps it a subsequence. */
  lemma {:induction false} PrefixOfSubsequence<T>(a: seq<T>, b: seq<T>, n: nat)
    requires IsSubsequence(a, b) && n <= |a|
    ensures IsSubsequence(a[..n], b)
    decreases |b|
  {
    if n > 0 {
      if a[0] == b[0] && IsSubsequence(a[1..], b[1..]) {
        PrefixOfSubsequence(a[1..], b[1..], n - 1);
        assert a[..n][1..] == a[1..][..n - 1];
      } else {
        PrefixOfSubsequence(a, b[1..], n);
      }
    }
  }

  /** Keys never decrease along `s`. */
  predicate SortedByKey<T>(s: seq<T>, key: T -> int) {
    forall i, j :: 0 <= i < j < |s| ==> key(s[i]) <= key(s[j])
  }

  /**
   * Inserts `x` into `xs` after every element whose key is at most `x`'s, so that
   * elements with equal keys keep their input order.
   */
  function Insert<T>(xs: seq<T>, x: T, key: T -> int): (r: seq<T>)
    ensures multiset(r) == multiset(xs) + multiset{x}
  {
    if xs == [] then [x]
    else if key(xs[|xs| - 1]) <= key(x) then xs + [x]
    else
      var init := xs[..|xs| - 1];
      assert xs == init + [xs[|xs| - 1]];
      Insert(init, x, key) + [xs[|xs| - 1]]
  }

  /** A stable insertion sort by ascending key. */
  function SortByKey<T>(s: seq<T>, key: T -> int): (r: seq<T>)
    ensures multiset(r) == multiset(s)
  {
    if s == [] then []
    else
      assert s == s[..|s| - 1] + [s[|s| - 1]];
      Insert(SortByKey(s[..|s| - 1], key), s[|s| - 1], key)
  }

  /** Inserting an element no larger than a bound keeps every key within the bound. */
  lemma {:induction false} InsertBounded<T>(xs: seq<T>, x: T, key: T -> int, bound: int)
    requires forall i :: 0 <= i < |xs| ==> key(xs[i]) <= bound
    requires key(x) <= bound
    ensures forall i :: 0 <= i < |Insert(xs, x, key)| ==> key(Insert(xs, x, key)[i]) <= bound
  {
    if xs != [] && key(xs[|xs| - 1]) > key(x) {
      var init, last := xs[..|xs| - 1], xs[|xs| - 1];
      InsertBounded(init, x, key, bound);
      var r := Insert(init, x, key);
      assert Insert(xs, x, key) == r + [last];
      assert key(last) <= bound;
      forall i | 0 <= i < |r| + 1 ensures key((r + [last])[i]) <= bound {
        if i < |r| {
          assert (r + [last])[i] == r[i];
        }
      }
    } else if xs != [] {
      assert forall i :: 0 <= i < |xs| ==> (xs + [x])[i] == xs[i];
    }
  }

  lemma {:induction false} InsertSorted<T>(xs: seq<T>, x: T, key: T -> int)
    requires SortedByKey(xs, key)
    ensures SortedByKey(Insert(xs, x, key), key)
  {
    if xs != [] && key(xs[|xs| - 1]) > key(x) {
      var init, last := xs[..|xs| - 1], xs[|xs| - 1];
      assert SortedByKey(init, key);
      InsertSorted(init, x, key);
      InsertBounded(init, x, key, key(last));
      var r := Insert(init, x, key);
      assert Insert(xs, x, key) == r + [last];
      forall i, j | 0 <= i < j < |r| + 1 ensures key((r + [last])[i]) <= key((r + [last])[j]) {
        assert (r + [last])[i] == r[i];
        if j == |r| {
          assert (r + [last])[j] == last;
          assert key(r[i]) <= key(last);
        } else {
          assert (r + [last])[j] == r[j];
          assert key(r[i]) <= key(r[j]);
        }
      }
    } else if xs != [] {
      forall i, j | 0 <= i < j < |xs| + 1 ensures key((xs + [x])[i]) <= key((xs + [x])[j]) {
        if j == |xs| {
          assert key(xs[i]) <= key(xs[|xs| - 1]);
        }
      }
    }
  }

  /** The sort returns an ordered permutation of its input. */
  lemma {:induction false} SortByKeySorted<T>(s: seq<T>, key: T -> int)
    ensures SortedByKey(SortByKey(s, key), key)
  {
    if s != [] {
      SortByKeySorted(s[..|s| - 1], key);
      InsertSorted(SortByKey(s[..|s| - 1], key), s[|s| - 1], key);
    }
  }

  /** The elements of `s` whose key is `k`, in the order of `s`. */
  function WithKey<T>(s: seq<T>, key: T -> int, k: int): seq<T> {
    if s == [] then []
    else
      var last := s[|s| - 1];
      WithKey(s[..|s| - 1], key, k) + if key(last) == k then [last] else []
  }

  lemma WithKeySnoc<T>(s: seq<T>, x: T, key: T -> int, k: int)
    ensures WithKey(s + [x], key, k) == WithKey(s, key, k) + if key(x) == k then [x] else []
  {
    assert (s + [x])[..|s|] == s;
  }

  /** Inserting `x` puts it after every element of its own key. */
  lemma {:induction false} InsertWithKey<T>(xs: seq<T>, x: T, key: T -> int, k: int)
    ensures WithKey(Insert(xs, x, key), key, k) ==
            WithKey(xs, key, k) + if key(x) == k then [x] else []
  {
    if xs == [] {
      WithKeySnoc(xs, x, key, k);
    } else if key(xs[|xs| - 1]) <= key(x) {
      WithKeySnoc(xs, x, key, k);
    } else {
      var init, last := xs[..|xs| - 1], xs[|xs| - 1];
      var r := Insert(init, x, key);
      assert Insert(xs, x, key) == r + [last];
      InsertWithKey(init, x, key, k);
      WithKeySnoc(r, last, key, k);
      // `last` has a larger key than `x`, so at most one of them has key `k`
    }
  }

  /**
   * The sort is stable: for every key, the elements with that key come out in the order
   * they went in.
   */
  lemma SortByKeyStable<T>(s: seq<T>, key: T -> int)
    ensures forall k :: WithKey(SortByKey(s, key), key, k) == WithKey(s, key, k)
  {
    forall k ensures WithKey(SortByKey(s, key), key, k) == WithKey(s, key, k) {
      SortByKeyStableAt(s, key, k);
    }
  }

  lemma {:induction false} SortByKeyStableAt<T>(s: seq<T>, key: T -> int, k: int)
    ensures WithKey(SortByKey(s, key), key, k) == WithKey(s, key, k)
  {
    if s != [] {
      var init, last := s[..|s| - 1], s[|s| - 1];
      SortByKeyStableAt(init, key, k);
      InsertWithKey(SortByKey(init, key), last, key, k);
    }
  }

  /** In particular, an input already in key order comes back unchanged. */
  lemma {:induction false} SortByKeyOfSorted<T>(s: seq<T>, key: T -> int)
    requires SortedByKey(s, key)
    ensures SortByKey(s, key) == s
  {
    if s != [] {
      var init := s[..|s| - 1];
      assert SortedByKey(init, key);
      SortByKeyOfSorted(init, key);
      if |init| > 0 {
        assert key(init[|init| - 1]) <= key(s[|s| - 1]);
      }
    }
  }
}
