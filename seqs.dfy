/** Array `filter` as a function on sequences, and what "order-preserving subsequence" means. */
module Seqs {

  /** `s.filter(p)`: the elements of s that satisfy p, in their original order. */
  function Filter<T(!new)>(s: seq<T>, p: T -> bool): (r: seq<T>)
    ensures |r| <= |s|
    ensures forall x :: x in r <==> x in s && p(x)
  {
    if s == [] then []
    else Filter(s[..|s| - 1], p) + (if p(s[|s| - 1]) then [s[|s| - 1]] else [])
  }

  /** r is s with some elements left out: an increasing choice of positions of s spells r. */
  ghost predicate IsSubsequence<T>(r: seq<T>, s: seq<T>)
  {
    exists idx: seq<nat> :: Spells(idx, r, s)
  }

  /** idx is an increasing list of positions of s at which s reads r. */
  ghost predicate Spells<T>(idx: seq<nat>, r: seq<T>, s: seq<T>)
  {
    && |idx| == |r|
    && (forall i, j :: 0 <= i < j < |idx| ==> idx[i] < idx[j])
    && (forall i :: 0 <= i < |idx| ==> idx[i] < |s| && r[i] == s[idx[i]])
  }

  /** The positions of s kept by Filter, in increasing order. */
  lemma {:induction false} FilterPositions<T(!new)>(s: seq<T>, p: T -> bool) returns (idx: seq<nat>)
    ensures |idx| == |Filter(s, p)|
    ensures forall i, j :: 0 <= i < j < |idx| ==> idx[i] < idx[j]
    ensures forall i :: 0 <= i < |idx| ==> idx[i] < |s| && Filter(s, p)[i] == s[idx[i]]
  {
    if s == [] {
      idx := [];
    } else {
      var n := |s| - 1;
      var front := FilterPositions(s[..n], p);
      if p(s[n]) {
        idx := front + [n];
      } else {
        idx := front;
      }
    }
  }

  /** Filter keeps the order of what it keeps. */
  lemma FilterIsSubsequence<T(!new)>(s: seq<T>, p: T -> bool)
    ensures IsSubsequence(Filter(s, p), s)
  {
    var idx := FilterPositions(s, p);
    assert Spells(idx, Filter(s, p), s);
  }

  /** Filter keeps every copy of an element that satisfies p and no copy of the others. */
  lemma {:induction false} FilterCounts<T(!new)>(s: seq<T>, p: T -> bool)
    ensures forall x :: multiset(Filter(s, p))[x] == if p(x) then multiset(s)[x] else 0
  {
    if s != [] {
      var n := |s| - 1;
      FilterCounts(s[..n], p);
      assert s == s[..n] + [s[n]];
    }
  }

  /** Filtering with a predicate that holds everywhere on s gives s back. */
  lemma {:induction false} FilterAll<T(!new)>(s: seq<T>, p: T -> bool)
    requires forall k :: 0 <= k < |s| ==> p(s[k])
    ensures Filter(s, p) == s
  {
    if s != [] {
      var n := |s| - 1;
      var init := s[..n];
      assert forall k :: 0 <= k < |init| ==> init[k] == s[k];
      FilterAll(init, p);
      assert init + [s[n]] == s;
    }
  }

  /** A subsequence of a subsequence of s is a subsequence of s. */
  lemma SubsequenceTransitive<T>(r: seq<T>, m: seq<T>, s: seq<T>)
    requires IsSubsequence(r, m) && IsSubsequence(m, s)
    ensures IsSubsequence(r, s)
  {
    var inner: seq<nat> :| Spells(inner, r, m);
    var outer: seq<nat> :| Spells(outer, m, s);
    var idx := seq(|r|, i requires 0 <= i < |r| => outer[inner[i]]);
    forall i, j | 0 <= i < j < |idx| ensures idx[i] < idx[j] {
      assert inner[i] < inner[j];
    }
    forall i | 0 <= i < |idx| ensures idx[i] < |s| && r[i] == s[idx[i]] {
      assert r[i] == m[inner[i]];
    }
    assert Spells(idx, r, s);
  }
}
