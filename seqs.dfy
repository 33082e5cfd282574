/**
 * Sequence helpers shared by the table model: filtering (SQL `WHERE`) and a
 * stable sort on a numeric key (SQL `ORDER BY`).
 */
module Seqs {

  /** The elements of `s` that satisfy `p`, in their original order. */
  function Filter<T(==,!new)>(s: seq<T>, p: T -> bool): (r: seq<T>)
    ensures |r| <= |s|
    ensures forall x :: x in r <==> x in s && p(x)
  {
    if s == [] then []
    else
      var init, last := s[..|s| - 1], s[|s| - 1];
      assert s == init + [last];
      if p(last) then Filter(init, p) + [last] else Filter(init, p)
  }

  /** Filtering keeps every occurrence of a kept value and none of a dropped one. */
  lemma {:induction false} FilterCounts<T(!new)>(s: seq<T>, p: T -> bool, x: T)
    ensures multiset(Filter(s, p))[x] == if p(x) then multiset(s)[x] else 0
  {
    if s != [] {
      var init, last := s[..|s| - 1], s[|s| - 1];
      assert s == init + [last];
      FilterCounts(init, p, x);
    }
  }

  /** Filtering keeps every pairwise relation that held between the kept elements. */
  lemma {:induction false} FilterKeepsPairwise<T(!new)>(s: seq<T>, p: T -> bool, rel: (T, T) -> bool)
    requires forall i, j :: 0 <= i < j < |s| ==> rel(s[i], s[j])
    ensures forall i, j :: 0 <= i < j < |Filter(s, p)| ==> rel(Filter(s, p)[i], Filter(s, p)[j])
  {
    if s != [] {
      var init, last := s[..|s| - 1], s[|s| - 1];
      FilterKeepsPairwise(init, p, rel);
      var r0 := Filter(init, p);
      assert forall i, j :: 0 <= i < j < |r0| ==> rel(r0[i], r0[j]);
      if p(last) {
        var r := r0 + [last];
        assert Filter(s, p) == r;
        forall i, j | 0 <= i < j < |r|
          ensures rel(r[i], r[j])
        {
          if j == |r| - 1 {
            assert r[i] == r0[i] && r0[i] in r0;
            var k :| 0 <= k < |init| && init[k] == r0[i];
            assert s[k] == r[i] && s[|s| - 1] == r[j];
            assert rel(s[k], s[|s| - 1]);
          } else {
            assert r[i] == r0[i] && r[j] == r0[j];
            assert rel(r0[i], r0[j]);
          }
        }
      } else {
        assert Filter(s, p) == r0;
      }
    }
  }

  /** The last `n` elements of `s`, or all of `s` when it is shorter. */
  function Tail<T>(s: seq<T>, n: nat): (r: seq<T>)
    ensures |r| == if |s| <= n then |s| else n
    ensures s == s[..|s| - |r|] + r
    ensures forall j :: 0 <= j < |r| ==> r[j] == s[|s| - |r| + j]
  {
    if |s| <= n then s else s[|s| - n..]
  }

  ghost predicate SortedBy<T>(s: seq<T>, key: T -> real) {
    forall i, j :: 0 <= i < j < |s| ==> key(s[i]) <= key(s[j])
  }

  /** Inserts `x` after every element whose key is at most `x`'s. */
  function Insert<T>(t: seq<T>, x: T, key: T -> real): seq<T> {
    if t == [] || key(t[|t| - 1]) <= key(x) then t + [x]
    else Insert(t[..|t| - 1], x, key) + [t[|t| - 1]]
  }

  /** A stable insertion sort, ascending on `key`. */
  function SortBy<T>(s: seq<T>, key: T -> real): seq<T> {
    if s == [] then [] else Insert(SortBy(s[..|s| - 1], key), s[|s| - 1], key)
  }

  lemma {:induction false} InsertPermutes<T>(t: seq<T>, x: T, key: T -> real)
    ensures multiset(Insert(t, x, key)) == multiset(t) + multiset{x}
  {
    if t == [] || key(t[|t| - 1]) <= key(x) {
    } else {
      var init, last := t[..|t| - 1], t[|t| - 1];
      assert t == init + [last];
      InsertPermutes(init, x, key);
    }
  }

  lemma {:induction false} InsertSorted<T>(t: seq<T>, x: T, key: T -> real)
    requires SortedBy(t, key)
    ensures SortedBy(Insert(t, x, key), key)
  {
    if t == [] || key(t[|t| - 1]) <= key(x) {
    } else {
      var init, last := t[..|t| - 1], t[|t| - 1];
      assert t == init + [last];
      InsertSorted(init, x, key);
      InsertPermutes(init, x, key);
      var r0 := Insert(init, x, key);
      forall i | 0 <= i < |r0|
        ensures key(r0[i]) <= key(last)
      {
        assert r0[i] in multiset(r0);
        if r0[i] != x {
          assert r0[i] in multiset(init);
          var k :| 0 <= k < |init| && init[k] == r0[i];
          assert t[k] == init[k];
        }
      }
    }
  }

  lemma {:induction false} SortByPermutes<T>(s: seq<T>, key: T -> real)
    ensures multiset(SortBy(s, key)) == multiset(s)
  {
    if s != [] {
      var init, last := s[..|s| - 1], s[|s| - 1];
      assert s == init + [last];
      SortByPermutes(init, key);
      InsertPermutes(SortBy(init, key), last, key);
    }
  }

  lemma {:induction false} SortBySorted<T>(s: seq<T>, key: T -> real)
    ensures SortedBy(SortBy(s, key), key)
  {
    if s != [] {
      SortBySorted(s[..|s| - 1], key);
      InsertSorted(SortBy(s[..|s| - 1], key), s[|s| - 1], key);
    }
  }

  /** A sequence whose elements have pairwise distinct keys holds each value at most once. */
  lemma {:induction false} DistinctKeysOccurOnce<T, K>(s: seq<T>, key: T -> K, x: T)
    requires forall i, j :: 0 <= i < j < |s| ==> key(s[i]) != key(s[j])
    ensures multiset(s)[x] <= 1
  {
    if s != [] {
      var init, last := s[..|s| - 1], s[|s| - 1];
      assert s == init + [last];
      DistinctKeysOccurOnce(init, key, x);
      if x == last {
        forall k | 0 <= k < |init|
          ensures init[k] != x
        {
          assert key(s[k]) != key(s[|s| - 1]);
        }
      }
    }
  }

  /** A value found at two positions occurs at least twice. */
  lemma TwoPositions<T>(s: seq<T>, i: int, j: int)
    requires 0 <= i < j < |s| && s[i] == s[j]
    ensures multiset(s)[s[i]] >= 2
  {
    assert s == s[..j] + s[j..];
    assert s[i] in s[..j];
    assert s[j..][0] == s[j];
  }

  /** Rearranging a sequence keeps its keys pairwise distinct. */
  lemma DistinctKeysPermutation<T, K>(s: seq<T>, t: seq<T>, key: T -> K)
    requires forall i, j :: 0 <= i < j < |s| ==> key(s[i]) != key(s[j])
    requires multiset(t) == multiset(s)
    ensures forall i, j :: 0 <= i < j < |t| ==> key(t[i]) != key(t[j])
  {
    forall i, j | 0 <= i < j < |t|
      ensures key(t[i]) != key(t[j])
    {
      if t[i] == t[j] {
        TwoPositions(t, i, j);
        DistinctKeysOccurOnce(s, key, t[i]);
      } else {
        assert t[i] in multiset(s) && t[j] in multiset(s);
        var p :| 0 <= p < |s| && s[p] == t[i];
        var q :| 0 <= q < |s| && s[q] == t[j];
        assert p != q;
        if p < q { assert key(s[p]) != key(s[q]); } else { assert key(s[q]) != key(s[p]); }
      }
    }
  }
}
