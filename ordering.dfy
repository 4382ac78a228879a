/** `Vec::sort` followed by `Vec::dedup`, as the command-line tool applies them to its
    lists of emails and of ids, over any strict total order `less`. */
module Ordering {

  /** `less` is a strict total order on T. */
  ghost predicate StrictTotalOrder<T(!new)>(less: (T, T) -> bool) {
    && (forall a :: !less(a, a))
    && (forall a, b, c :: less(a, b) && less(b, c) ==> less(a, c))
    && (forall a, b :: a != b ==> less(a, b) || less(b, a))
  }

  /** Non-decreasing: no element is less than one before it. */
  predicate Sorted<T>(s: seq<T>, less: (T, T) -> bool) {
    forall i, j :: 0 <= i < j < |s| ==> !less(s[j], s[i])
  }

  predicate StrictlyIncreasing<T>(s: seq<T>, less: (T, T) -> bool) {
    forall i, j :: 0 <= i < j < |s| ==> less(s[i], s[j])
  }

  /** `sort`: a non-decreasing permutation of the input. */
  method Sort<T(!new)>(s: seq<T>, less: (T, T) -> bool) returns (r: seq<T>)
    requires StrictTotalOrder(less)
    ensures Sorted(r, less)
    ensures multiset(r) == multiset(s)
  {
    r := [];
    for i := 0 to |s|
      invariant Sorted(r, less)
      invariant multiset(r) == multiset(s[..i])
    {
      assert s[..i + 1] == s[..i] + [s[i]];
      r := Insert(r, s[i], less);
    }
    assert s[..|s|] == s;
  }

  /** One step of the sort: `x` placed after every element it is not less than. */
  method Insert<T(!new)>(r: seq<T>, x: T, less: (T, T) -> bool) returns (r': seq<T>)
    requires StrictTotalOrder(less)
    requires Sorted(r, less)
    ensures Sorted(r', less)
    ensures multiset(r') == multiset(r) + multiset{x}
  {
    var j := 0;
    while j < |r| && !less(x, r[j])
      invariant 0 <= j <= |r|
      invariant forall k :: 0 <= k < j ==> !less(x, r[k])
    {
      j := j + 1;
    }
    forall k | j <= k < |r|
      ensures less(x, r[k])
    {
      if r[k] != r[j] {
        assert less(r[j], r[k]);
      }
    }
    r' := r[..j] + [x] + r[j..];
    assert r == r[..j] + r[j..];
  }

  /** Position `i` of `s` starts a run of equal elements: `dedup` keeps it. */
  predicate StartsRun<T(==)>(s: seq<T>, i: nat)
    requires i < |s|
  {
    i == 0 || s[i] != s[i - 1]
  }

  /** `dedup`: drop every element equal to the one kept before it. `from` tells which
      input position each kept element comes from: exactly the first of each run of
      equal neighbours, in input order. */
  method Dedup<T(==)>(s: seq<T>) returns (r: seq<T>, ghost from: seq<nat>)
    ensures |from| == |r|
    ensures forall k :: 0 <= k < |r| ==> from[k] < |s| && r[k] == s[from[k]]
    ensures forall a, b :: 0 <= a < b < |from| ==> from[a] < from[b]
    ensures forall i :: 0 <= i < |s| ==> (i in from <==> StartsRun(s, i))
    ensures forall k :: 0 <= k < |r| - 1 ==> r[k] != r[k + 1]
    ensures forall x :: x in r <==> x in s
  {
    r, from := [], [];
    for i := 0 to |s|
      invariant |from| == |r|
      invariant forall k :: 0 <= k < |r| ==> from[k] < i && r[k] == s[from[k]]
      invariant forall a, b :: 0 <= a < b < |from| ==> from[a] < from[b]
      invariant forall j :: 0 <= j < i ==> (j in from <==> StartsRun(s, j))
      invariant forall k :: 0 <= k < |r| - 1 ==> r[k] != r[k + 1]
      invariant forall x :: x in r <==> x in s[..i]
      invariant i > 0 ==> r != [] && r[|r| - 1] == s[i - 1]
    {
      assert s[..i + 1] == s[..i] + [s[i]];
      assert i !in from;
      if r == [] || s[i] != r[|r| - 1] {
        r, from := r + [s[i]], from + [i];
      }
    }
    assert s[..|s|] == s;
  }

  /** Deduplicating a sorted list leaves it strictly increasing. */
  lemma {:induction false} DedupOfSortedIsStrict<T(!new)>(s: seq<T>, r: seq<T>, from: seq<nat>, less: (T, T) -> bool)
    requires StrictTotalOrder(less)
    requires Sorted(s, less)
    requires |from| == |r|
    requires forall k :: 0 <= k < |r| ==> from[k] < |s| && r[k] == s[from[k]]
    requires forall a, b :: 0 <= a < b < |from| ==> from[a] < from[b]
    requires forall k :: 0 <= k < |r| - 1 ==> r[k] != r[k + 1]
    ensures StrictlyIncreasing(r, less)
  {
    forall k | 0 <= k < |r| - 1 ensures less(r[k], r[k + 1]) {
      assert !less(s[from[k + 1]], s[from[k]]);
    }
    forall a, b | 0 <= a < b < |r| ensures less(r[a], r[b]) {
      StepsChain(r, a, b, less);
    }
  }

  /** Adjacent steps of a strict order chain together. */
  lemma {:induction false} StepsChain<T(!new)>(r: seq<T>, a: nat, b: nat, less: (T, T) -> bool)
    requires StrictTotalOrder(less)
    requires a < b < |r|
    requires forall k :: 0 <= k < |r| - 1 ==> less(r[k], r[k + 1])
    ensures less(r[a], r[b])
    decreases b - a
  {
    if a + 1 < b {
      StepsChain(r, a + 1, b, less);
    }
  }

  /** A strictly increasing list is determined by its elements: whatever the order of
      the input, sort then dedup gives the same list for the same set. */
  lemma {:induction false} StrictlyIncreasingUnique<T(!new)>(x: seq<T>, y: seq<T>, less: (T, T) -> bool)
    requires StrictTotalOrder(less)
    requires StrictlyIncreasing(x, less) && StrictlyIncreasing(y, less)
    requires forall e :: e in x <==> e in y
    ensures x == y
    decreases |x|
  {
    if x != [] { assert x[0] in y; }
    if y != [] { assert y[0] in x; }
    if x != [] && y != [] {
      var i :| 0 <= i < |y| && y[i] == x[0];
      var j :| 0 <= j < |x| && x[j] == y[0];
      assert x[0] == y[0];
      forall e ensures e in x[1..] <==> e in y[1..] {
        if e in x[1..] {
          var k :| 0 <= k < |x[1..]| && x[1..][k] == e;
          assert less(x[0], x[k + 1]);
          assert x[k + 1] in x;
          var m :| 0 <= m < |y| && y[m] == e;
          assert m > 0 && y[1..][m - 1] == e;
        }
        if e in y[1..] {
          var k :| 0 <= k < |y[1..]| && y[1..][k] == e;
          assert less(y[0], y[k + 1]);
          assert y[k + 1] in y;
          var m :| 0 <= m < |x| && x[m] == e;
          assert m > 0 && x[1..][m - 1] == e;
        }
      }
      StrictlyIncreasingUnique(x[1..], y[1..], less);
      assert x == [x[0]] + x[1..] && y == [y[0]] + y[1..];
    }
  }

  /** The elements of a non-empty list: its head and the elements of its tail. */
  lemma ElementsOfCons<T>(x: seq<T>)
    requires x != []
    ensures (set e | e in x) == {x[0]} + (set e | e in x[1..])
  {
    assert x == [x[0]] + x[1..];
  }

  /** A strictly increasing list has no repeated element, so its length is the number of
      distinct elements. */
  lemma {:induction false} StrictlyIncreasingCount<T(!new)>(x: seq<T>, less: (T, T) -> bool)
    requires StrictTotalOrder(less)
    requires StrictlyIncreasing(x, less)
    ensures |x| == |set e | e in x|
    decreases |x|
  {
    if x != [] {
      var tail := x[1..];
      assert StrictlyIncreasing(tail, less) by {
        forall i, j | 0 <= i < j < |tail| ensures less(tail[i], tail[j]) {
          assert tail[i] == x[i + 1] && tail[j] == x[j + 1];
        }
      }
      StrictlyIncreasingCount(tail, less);
      assert x[0] !in tail by {
        forall k | 0 <= k < |tail| ensures tail[k] != x[0] {
          assert less(x[0], x[k + 1]);
        }
      }
      ElementsOfCons(x);
    }
  }

  /** `sort` then `dedup`: the elements of the input, each once, in increasing order. */
  method SortDedup<T(==, !new)>(s: seq<T>, less: (T, T) -> bool) returns (r: seq<T>)
    requires StrictTotalOrder(less)
    ensures StrictlyIncreasing(r, less)
    ensures forall x :: x in r <==> x in s
    ensures |r| == |set x | x in s|
  {
    var sorted := Sort(s, less);
    assert forall x :: x in sorted <==> x in s by {
      forall x ensures x in sorted <==> x in s {
        assert x in sorted <==> x in multiset(sorted);
        assert x in s <==> x in multiset(s);
      }
    }
    ghost var from;
    r, from := Dedup(sorted);
    DedupOfSortedIsStrict(sorted, r, from, less);
    StrictlyIncreasingCount(r, less);
    assert (set x | x in r) == (set x | x in s);
  }
}
