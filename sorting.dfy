/**
 * Python's `sorted` on a list of reals, and counting how many elements
 * reach a bound: what the batch percentile threshold is built from.
 */
module Sorting {

  predicate SortedAsc(s: seq<real>) {
    forall i, j :: 0 <= i < j < |s| ==> s[i] <= s[j]
  }

  /** Insert `x` into an ascending list before the first element not below it. */
  function Insert(x: real, s: seq<real>): (r: seq<real>)
    requires SortedAsc(s)
    ensures |r| == |s| + 1 && SortedAsc(r)
    ensures multiset(r) == multiset(s) + multiset{x}
    decreases |s|
  {
    if s == [] || x <= s[0] then [x] + s
    else
      var rest := Insert(x, s[1..]);
      InsertBehindHead(x, s, rest);
      [s[0]] + rest
  }

  /** When `x` goes after the head, the head stays in front of the sorted rest. */
  lemma InsertBehindHead(x: real, s: seq<real>, rest: seq<real>)
    requires SortedAsc(s) && |s| > 0 && s[0] < x
    requires SortedAsc(rest) && multiset(rest) == multiset(s[1..]) + multiset{x}
    ensures SortedAsc([s[0]] + rest)
    ensures multiset([s[0]] + rest) == multiset(s) + multiset{x}
  {
    assert s == [s[0]] + s[1..];
    forall j | 0 <= j < |rest| ensures s[0] <= rest[j] {
      assert rest[j] in multiset(rest);
      assert rest[j] == x || rest[j] in multiset(s[1..]);
    }
  }

  /** Insertion sort: an ascending permutation of `s`. */
  function SortAsc(s: seq<real>): (r: seq<real>)
    ensures |r| == |s| && SortedAsc(r)
    ensures multiset(r) == multiset(s)
    decreases |s|
  {
    if s == [] then []
    else
      assert s == [s[0]] + s[1..];
      Insert(s[0], SortAsc(s[1..]))
  }

  /** How many elements of `s` are at least `v`. */
  function CountAtLeast(s: seq<real>, v: real): nat
    decreases |s|
  {
    if s == [] then 0 else (if s[0] >= v then 1 else 0) + CountAtLeast(s[1..], v)
  }

  /** Appending one element adds one to the count exactly when it reaches the bound. */
  lemma {:induction false} CountSnoc(s: seq<real>, x: real, v: real)
    ensures CountAtLeast(s + [x], v) == CountAtLeast(s, v) + (if x >= v then 1 else 0)
    decreases |s|
  {
    if s != [] {
      assert (s + [x])[1..] == s[1..] + [x];
      CountSnoc(s[1..], x, v);
    }
  }

  lemma {:induction false} CountInsert(x: real, s: seq<real>, v: real)
    requires SortedAsc(s)
    ensures CountAtLeast(Insert(x, s), v) == CountAtLeast(s, v) + (if x >= v then 1 else 0)
    decreases |s|
  {
    if s == [] || x <= s[0] {
      assert ([x] + s)[1..] == s;
    } else {
      assert ([s[0]] + Insert(x, s[1..]))[1..] == Insert(x, s[1..]);
      CountInsert(x, s[1..], v);
    }
  }

  /** Sorting does not change how many elements reach a bound. */
  lemma {:induction false} CountSort(s: seq<real>, v: real)
    ensures CountAtLeast(SortAsc(s), v) == CountAtLeast(s, v)
    decreases |s|
  {
    if s != [] {
      CountSort(s[1..], v);
      CountInsert(s[0], SortAsc(s[1..]), v);
    }
  }

  lemma {:induction false} CountAll(s: seq<real>, v: real)
    requires forall i :: 0 <= i < |s| ==> s[i] >= v
    ensures CountAtLeast(s, v) == |s|
    decreases |s|
  {
    if s != [] {
      CountAll(s[1..], v);
    }
  }

  /** In an ascending list, everything from index `k` on reaches `s[k]`. */
  lemma {:induction false} CountFromIndex(s: seq<real>, k: nat)
    requires SortedAsc(s) && k < |s|
    ensures CountAtLeast(s, s[k]) >= |s| - k
    decreases k
  {
    if k == 0 {
      CountAll(s, s[0]);
    } else {
      CountFromIndex(s[1..], k - 1);
    }
  }

  /**
   * The element at index `k` of the sorted list is reached by at least
   * `|s| - k` elements of the unsorted list.
   */
  lemma SortedIndexBound(s: seq<real>, k: nat)
    requires k < |s|
    ensures CountAtLeast(s, SortAsc(s)[k]) >= |s| - k
  {
    CountFromIndex(SortAsc(s), k);
    CountSort(s, SortAsc(s)[k]);
  }
}
