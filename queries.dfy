/**
 * The shapes of the store's SQL queries over a table kept in insertion
 * order: `WHERE keep ORDER BY timestamp ASC` is `Filter`, and
 * `WHERE keep ORDER BY timestamp DESC LIMIT n` is `NewestFirst`.
 */
module Queries {

  function Min(a: nat, b: nat): nat { if a <= b then a else b }

  /** The kept rows, oldest first. */
  function Filter<T>(s: seq<T>, keep: T -> bool): (r: seq<T>)
    ensures |r| <= |s|
    ensures forall x :: x in r ==> x in s && keep(x)
    ensures forall x :: x in s && keep(x) ==> x in r
    decreases |s|
  {
    if s == [] then []
    else Filter(s[..|s| - 1], keep) + (if keep(s[|s| - 1]) then [s[|s| - 1]] else [])
  }

  /** A filter that keeps everything is the identity. */
  lemma {:induction false} FilterKeepAll<T>(s: seq<T>, keep: T -> bool)
    requires forall i :: 0 <= i < |s| ==> keep(s[i])
    ensures Filter(s, keep) == s
    decreases |s|
  {
    if s != [] {
      var init, last := s[..|s| - 1], s[|s| - 1];
      assert forall i :: 0 <= i < |init| ==> keep(init[i]) by {
        forall i | 0 <= i < |init| ensures keep(init[i]) {
          assert init[i] == s[i];
        }
      }
      FilterKeepAll(init, keep);
      assert keep(last);
      SplitLast(s);
    }
  }

  lemma SplitLast<T>(s: seq<T>)
    requires s != []
    ensures s[..|s| - 1] + [s[|s| - 1]] == s
  {
  }

  /** A filter over a two-element literal, one element at a time. */
  lemma FilterOfTwo<T>(a: T, b: T, keep: T -> bool)
    ensures Filter([a, b], keep) == (if keep(a) then [a] else []) + (if keep(b) then [b] else [])
  {
    assert [a, b][..1] == [a] && [a][..0] == [];
    assert Filter([a], keep) == (if keep(a) then [a] else []);
  }

  /** A filter over a four-element literal, one element at a time. */
  lemma FilterOfFour<T>(a: T, b: T, c: T, d: T, keep: T -> bool)
    ensures Filter([a, b, c, d], keep)
      == (if keep(a) then [a] else []) + (if keep(b) then [b] else [])
         + (if keep(c) then [c] else []) + (if keep(d) then [d] else [])
  {
    var s := [a, b, c, d];
    assert s[..3] == [a, b, c] && [a, b, c][..2] == [a, b] && [a, b][..1] == [a] && [a][..0] == [];
    assert Filter([a], keep) == (if keep(a) then [a] else []);
    assert Filter([a, b], keep) == Filter([a], keep) + (if keep(b) then [b] else []);
    assert Filter([a, b, c], keep) == Filter([a, b], keep) + (if keep(c) then [c] else []);
    assert Filter(s, keep) == Filter([a, b, c], keep) + (if keep(d) then [d] else []);
  }

  /** `s` read from its last element to its first. */
  function Reverse<T>(s: seq<T>): (r: seq<T>)
    ensures |r| == |s|
    ensures forall i :: 0 <= i < |s| ==> r[i] == s[|s| - 1 - i]
    decreases |s|
  {
    if s == [] then [] else [s[|s| - 1]] + Reverse(s[..|s| - 1])
  }

  /**
   * The kept rows, newest first, at most `limit` of them: the first `limit`
   * kept rows of the table read backwards.
   */
  function NewestFirst<T>(s: seq<T>, keep: T -> bool, limit: nat): (r: seq<T>)
    ensures |r| == Min(limit, |Filter(s, keep)|)
    ensures forall i :: 0 <= i < |r| ==> r[i] == Filter(s, keep)[|Filter(s, keep)| - 1 - i]
    ensures forall x :: x in r ==> x in s && keep(x)
  {
    var f := Filter(s, keep);
    var r := Reverse(f)[..Min(limit, |f|)];
    assert forall x :: x in r ==> x in f by {
      forall x | x in r ensures x in f {
        var i :| 0 <= i < |r| && r[i] == x;
        assert f[|f| - 1 - i] in f;
      }
    }
    r
  }
}
