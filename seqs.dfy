/**
 * Array.prototype.filter and Array.prototype.sort as the views use them.
 *
 * JavaScript's sort is stable, so sorting by a numeric key has exactly one outcome: that of
 * insertion sort. `SortedBy` is that outcome (ascending by `key`; a newest-first sort is a
 * sort by the negated time), and `SortInPlace` computes it on an array.
 */
module Seqs {

  function Filter<T>(s: seq<T>, p: T -> bool): (r: seq<T>)
    ensures |r| <= |s|
    ensures forall i :: 0 <= i < |r| ==> r[i] in s && p(r[i])
    ensures forall i :: 0 <= i < |s| && p(s[i]) ==> s[i] in r
  {
    if s == [] then []
    else
      var init := s[..|s| - 1];
      assert s == init + [s[|s| - 1]];
      Filter(init, p) + (if p(s[|s| - 1]) then [s[|s| - 1]] else [])
  }

  lemma FilterAppend<T>(s: seq<T>, x: T, p: T -> bool)
    ensures Filter(s + [x], p) == Filter(s, p) + (if p(x) then [x] else [])
  {
    assert (s + [x])[..|s|] == s;
  }

  /** Filtering a sequence with an element in front: that element's verdict, then the rest's. */
  lemma {:induction false} FilterPrepend<T>(x: T, s: seq<T>, p: T -> bool)
    ensures Filter([x] + s, p) == (if p(x) then [x] else []) + Filter(s, p)
  {
    if s == [] {
      assert [x] + s == [] + [x];
      FilterAppend([], x, p);
    } else {
      var init := s[..|s| - 1];
      var last := s[|s| - 1];
      assert [x] + s == ([x] + init) + [last];
      assert s == init + [last];
      FilterAppend([x] + init, last, p);
      FilterAppend(init, last, p);
      FilterPrepend(x, init, p);
    }
  }

  /** A filter keeps every element that passes, so it is the identity on such a sequence. */
  lemma {:induction false} FilterAll<T>(s: seq<T>, p: T -> bool)
    requires forall i :: 0 <= i < |s| ==> p(s[i])
    ensures Filter(s, p) == s
  {
    if s != [] {
      FilterAll(s[..|s| - 1], p);
      assert s == s[..|s| - 1] + [s[|s| - 1]];
    }
  }

  /** A filter that nothing passes leaves nothing. */
  lemma {:induction false} FilterNone<T>(s: seq<T>, p: T -> bool)
    requires forall i :: 0 <= i < |s| ==> !p(s[i])
    ensures Filter(s, p) == []
  {
    if s != [] {
      FilterNone(s[..|s| - 1], p);
    }
  }

  /** Filtering twice with the same predicate is filtering once. */
  lemma FilterIdempotent<T>(s: seq<T>, p: T -> bool)
    ensures Filter(Filter(s, p), p) == Filter(s, p)
  {
    FilterAll(Filter(s, p), p);
  }

  predicate Ascending<T>(s: seq<T>, key: T -> int) {
    forall i, j :: 0 <= i < j < |s| ==> key(s[i]) <= key(s[j])
  }

  /** A filter keeps the order of what it keeps. */
  lemma {:induction false} FilterAscending<T>(s: seq<T>, p: T -> bool, key: T -> int)
    requires Ascending(s, key)
    ensures Ascending(Filter(s, p), key)
  {
    if s != [] {
      var init := s[..|s| - 1];
      assert Ascending(init, key);
      FilterAscending(init, p, key);
      var r := Filter(init, p);
      forall y | y in r ensures key(y) <= key(s[|s| - 1]) {
        var k :| 0 <= k < |init| && init[k] == y;
        assert s[k] == y;
      }
    }
  }

  /** Pairwise different under `f`. */
  ghost predicate DistinctBy<T, U>(s: seq<T>, f: T -> U) {
    forall i, j :: 0 <= i < j < |s| ==> f(s[i]) != f(s[j])
  }

  /**
   * Insert `x` into `s` after every element whose key is at most `x`'s, scanning from the
   * back: the step of a stable insertion sort.
   */
  function Insert<T>(s: seq<T>, x: T, key: T -> int): seq<T>
  {
    if s == [] || key(s[|s| - 1]) <= key(x) then s + [x]
    else Insert(s[..|s| - 1], x, key) + [s[|s| - 1]]
  }

  /** The outcome of a stable sort by ascending `key`. */
  function SortedBy<T>(s: seq<T>, key: T -> int): seq<T>
  {
    if s == [] then [] else Insert(SortedBy(s[..|s| - 1], key), s[|s| - 1], key)
  }

  lemma {:induction false} InsertPermutes<T>(s: seq<T>, x: T, key: T -> int)
    ensures |Insert(s, x, key)| == |s| + 1
    ensures multiset(Insert(s, x, key)) == multiset(s) + multiset{x}
  {
    if !(s == [] || key(s[|s| - 1]) <= key(x)) {
      var init := s[..|s| - 1];
      InsertPermutes(init, x, key);
      assert s == init + [s[|s| - 1]];
    }
  }

  lemma {:induction false} InsertAscending<T>(s: seq<T>, x: T, key: T -> int)
    requires Ascending(s, key)
    ensures Ascending(Insert(s, x, key), key)
  {
    if !(s == [] || key(s[|s| - 1]) <= key(x)) {
      var init := s[..|s| - 1];
      var last := s[|s| - 1];
      InsertAscending(init, x, key);
      InsertPermutes(init, x, key);
      var t := Insert(init, x, key);
      forall i | 0 <= i < |t| ensures key(t[i]) <= key(last) {
        assert t[i] in multiset(init) + multiset{x};
        if t[i] != x {
          assert t[i] in init;
        }
      }
    }
  }

  /** Sorting rearranges and orders: the result is an ascending permutation of the input. */
  lemma {:induction false} SortedByPermutesAndOrders<T>(s: seq<T>, key: T -> int)
    ensures |SortedBy(s, key)| == |s|
    ensures multiset(SortedBy(s, key)) == multiset(s)
    ensures Ascending(SortedBy(s, key), key)
  {
    if s != [] {
      var init := s[..|s| - 1];
      SortedByPermutesAndOrders(init, key);
      InsertPermutes(SortedBy(init, key), s[|s| - 1], key);
      InsertAscending(SortedBy(init, key), s[|s| - 1], key);
      assert s == init + [s[|s| - 1]];
    }
  }

  /** Sorting an already ordered sequence leaves it as it is. */
  lemma {:induction false} SortedByOfAscending<T>(s: seq<T>, key: T -> int)
    requires Ascending(s, key)
    ensures SortedBy(s, key) == s
  {
    if s != [] {
      var init := s[..|s| - 1];
      assert Ascending(init, key);
      SortedByOfAscending(init, key);
      assert s == init + [s[|s| - 1]];
    }
  }

  /** Sorting twice is sorting once. */
  lemma SortedByIdempotent<T>(s: seq<T>, key: T -> int)
    ensures SortedBy(SortedBy(s, key), key) == SortedBy(s, key)
  {
    SortedByPermutesAndOrders(s, key);
    SortedByOfAscending(SortedBy(s, key), key);
  }

  lemma {:induction false} InsertDistinct<T, U>(s: seq<T>, x: T, key: T -> int, f: T -> U)
    requires DistinctBy(s, f)
    requires forall y :: y in s ==> f(y) != f(x)
    ensures DistinctBy(Insert(s, x, key), f)
  {
    if !(s == [] || key(s[|s| - 1]) <= key(x)) {
      var init := s[..|s| - 1];
      var last := s[|s| - 1];
      assert s == init + [last];
      InsertDistinct(init, x, key, f);
      InsertPermutes(init, x, key);
      var t := Insert(init, x, key);
      forall i | 0 <= i < |t| ensures f(t[i]) != f(last) {
        assert t[i] in multiset(init) + multiset{x};
        if t[i] != x {
          var k :| 0 <= k < |init| && init[k] == t[i];
          assert s[k] == t[i];
        }
      }
      var r := t + [last];
      forall i, j | 0 <= i < j < |r| ensures f(r[i]) != f(r[j]) {
        if j == |t| {
          assert r[i] == t[i];
        } else {
          assert r[i] == t[i] && r[j] == t[j];
        }
      }
    }
  }

  /** Elements that differ under `f` still differ after sorting. */
  lemma {:induction false} SortedByDistinct<T, U>(s: seq<T>, key: T -> int, f: T -> U)
    requires DistinctBy(s, f)
    ensures DistinctBy(SortedBy(s, key), f)
  {
    if s != [] {
      var init := s[..|s| - 1];
      var last := s[|s| - 1];
      assert DistinctBy(init, f);
      SortedByDistinct(init, key, f);
      SortedByPermutesAndOrders(init, key);
      forall y | y in SortedBy(init, key) ensures f(y) != f(last) {
        assert y in multiset(init);
        var k :| 0 <= k < |init| && init[k] == y;
        assert s[k] == y;
      }
      InsertDistinct(SortedBy(init, key), last, key, f);
    }
  }

  /**
   * Where the backward scan of an insertion stops: after every element with a key at
   * most `x`'s, before the run of larger keys at the end.
   */
  lemma {:induction false} InsertSplit<T>(sorted: seq<T>, j: nat, x: T, key: T -> int)
    requires j <= |sorted|
    requires j == 0 || key(sorted[j - 1]) <= key(x)
    requires forall k :: j <= k < |sorted| ==> key(sorted[k]) > key(x)
    ensures Insert(sorted, x, key) == sorted[..j] + [x] + sorted[j..]
    decreases |sorted|
  {
    if j < |sorted| {
      var init := sorted[..|sorted| - 1];
      InsertSplit(init, j, x, key);
      assert init[..j] == sorted[..j];
      assert sorted[j..] == init[j..] + [sorted[|sorted| - 1]];
    }
  }

  /** Moves `a[i]` into the ordered prefix `a[..i]`, shifting larger keys one place right. */
  method InsertInPlace<T>(a: array<T>, i: nat, key: T -> int)
    requires i < a.Length
    modifies a
    ensures a[..i + 1] == Insert(old(a[..i]), old(a[i]), key)
    ensures a[i + 1..] == old(a[i + 1..])
  {
    var x := a[i];
    ghost var sorted := a[..i];
    var j := i;
    while j > 0 && key(a[j - 1]) > key(x)
      invariant 0 <= j <= i
      invariant forall k :: 0 <= k < j ==> a[k] == sorted[k]
      invariant forall k :: j < k <= i ==> a[k] == sorted[k - 1]
      invariant forall k :: i < k < a.Length ==> a[k] == old(a[k])
      invariant forall k :: j <= k < i ==> key(sorted[k]) > key(x)
    {
      a[j] := a[j - 1];
      j := j - 1;
    }
    InsertSplit(sorted, j, x, key);
    a[j] := x;
    ghost var want := sorted[..j] + [x] + sorted[j..];
    assert |want| == i + 1;
    forall k | 0 <= k <= i ensures a[k] == want[k] {
      if k > j {
        assert want[k] == sorted[k - 1];
      }
    }
    assert a[..i + 1] == want;
  }

  /** Stable insertion sort of an array, in place. */
  method SortInPlace<T>(a: array<T>, key: T -> int)
    modifies a
    ensures a[..] == SortedBy(old(a[..]), key)
  {
    ghost var orig := a[..];
    var i := 0;
    while i < a.Length
      invariant 0 <= i <= a.Length
      invariant a[..i] == SortedBy(orig[..i], key)
      invariant a[i..] == orig[i..]
    {
      assert orig[..i + 1] == orig[..i] + [orig[i]];
      InsertInPlace(a, i, key);
      i := i + 1;
    }
    assert a[..] == a[..a.Length];
    assert orig == orig[..a.Length];
  }
}
