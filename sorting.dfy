/** Python's `sorted(xs, key=key)` for a real-valued key: a stable sort.
    It is specified by the three facts that determine it: the result is
    ordered by key, holds the same elements, and keeps equal-key elements
    in their original order. */
module Sorting {

  predicate SortedBy<T>(s: seq<T>, key: T -> real)
  {
    forall i, j :: 0 <= i < j < |s| ==> key(s[i]) <= key(s[j])
  }

  /** The elements of `s` whose key is `k`, in order. */
  function WithKey<T>(s: seq<T>, key: T -> real, k: real): seq<T>
  {
    if s == [] then []
    else (if key(s[0]) == k then [s[0]] else []) + WithKey(s[1..], key, k)
  }

  /** Put `x` in front of the first element whose key is not smaller. */
  function Insert<T>(x: T, s: seq<T>, key: T -> real): seq<T>
  {
    if s == [] || key(x) <= key(s[0]) then [x] + s
    else [s[0]] + Insert(x, s[1..], key)
  }

  function Sort<T>(xs: seq<T>, key: T -> real): seq<T>
  {
    if xs == [] then [] else Insert(xs[0], Sort(xs[1..], key), key)
  }

  lemma {:induction false} InsertSorted<T>(x: T, s: seq<T>, key: T -> real)
    requires SortedBy(s, key)
    ensures SortedBy(Insert(x, s, key), key)
    ensures Insert(x, s, key) != [] && key(Insert(x, s, key)[0]) == (if s == [] || key(x) <= key(s[0]) then key(x) else key(s[0]))
  {
    if s != [] && key(x) > key(s[0]) {
      InsertSorted(x, s[1..], key);
      var r := Insert(x, s[1..], key);
      assert forall j :: 0 <= j < |r| ==> key(s[0]) <= key(r[j]) by {
        InsertBounds(x, s[1..], key, key(s[0]));
      }
    }
  }

  /** Every key in `Insert(x, s)` is at least `lo` when `x`'s and `s`'s are. */
  lemma {:induction false} InsertBounds<T>(x: T, s: seq<T>, key: T -> real, lo: real)
    requires lo <= key(x)
    requires forall j :: 0 <= j < |s| ==> lo <= key(s[j])
    ensures forall j :: 0 <= j < |Insert(x, s, key)| ==> lo <= key(Insert(x, s, key)[j])
  {
    if s != [] && key(x) > key(s[0]) {
      InsertBounds(x, s[1..], key, lo);
    }
  }

  lemma {:induction false} InsertMultiset<T>(x: T, s: seq<T>, key: T -> real)
    ensures multiset(Insert(x, s, key)) == multiset(s) + multiset{x}
  {
    if s != [] && key(x) > key(s[0]) {
      InsertMultiset(x, s[1..], key);
      assert s == [s[0]] + s[1..];
    }
  }

  lemma {:induction false} InsertWithKey<T>(x: T, s: seq<T>, key: T -> real, k: real)
    ensures WithKey(Insert(x, s, key), key, k) == (if key(x) == k then [x] else []) + WithKey(s, key, k)
  {
    if s == [] || key(x) <= key(s[0]) {
      assert ([x] + s)[1..] == s;
    } else {
      InsertWithKey(x, s[1..], key, k);
      assert ([s[0]] + Insert(x, s[1..], key))[1..] == Insert(x, s[1..], key);
    }
  }

  /** The result is ordered by key. */
  lemma {:induction false} SortSorted<T>(xs: seq<T>, key: T -> real)
    ensures SortedBy(Sort(xs, key), key)
  {
    if xs != [] {
      SortSorted(xs[1..], key);
      InsertSorted(xs[0], Sort(xs[1..], key), key);
    }
  }

  /** The result is a permutation of the input. */
  lemma {:induction false} SortPermutes<T>(xs: seq<T>, key: T -> real)
    ensures multiset(Sort(xs, key)) == multiset(xs)
    ensures |Sort(xs, key)| == |xs|
  {
    if xs != [] {
      SortPermutes(xs[1..], key);
      InsertMultiset(xs[0], Sort(xs[1..], key), key);
      assert xs == [xs[0]] + xs[1..];
    }
  }

  /** Elements with equal keys keep their relative order. */
  lemma {:induction false} SortStable<T>(xs: seq<T>, key: T -> real, k: real)
    ensures WithKey(Sort(xs, key), key, k) == WithKey(xs, key, k)
  {
    if xs != [] {
      SortStable(xs[1..], key, k);
      InsertWithKey(xs[0], Sort(xs[1..], key), key, k);
    }
  }
}
