/**
 Order-preserving filtering of sequences, the behaviour of
 `Array.prototype.filter`: every element is tested once, the ones that pass
 are kept in their original order, and nothing is merged or removed beyond
 what the test rejects.
 */
module Seqs {

  /** The elements of `s` for which `p` holds, in the order of `s`. */
  function Filter<T(!new)>(s: seq<T>, p: T -> bool): (r: seq<T>)
    ensures |r| <= |s|
    ensures forall x :: x in r <==> x in s && p(x)
  {
    if s == [] then []
    else
      var rest := Filter(s[1..], p);
      assert forall x :: x in s <==> x == s[0] || x in s[1..];
      (if p(s[0]) then [s[0]] else []) + rest
  }

  /**
   An independent description of filtering: `idx` lists, in strictly
   increasing order, exactly the positions of `s` whose element satisfies
   `p`, and `r` holds the elements at those positions.
   */
  ghost predicate Selects<T>(s: seq<T>, p: T -> bool, idx: seq<int>, r: seq<T>)
  {
    Picks(s, p, idx, r) && Increasing(idx) && Covers(s, p, idx)
  }

  /** `r` is the elements of `s` at the positions `idx`, each of which passes `p`. */
  ghost predicate Picks<T>(s: seq<T>, p: T -> bool, idx: seq<int>, r: seq<T>)
  {
    && |idx| == |r|
    && forall k :: 0 <= k < |idx| ==> 0 <= idx[k] < |s| && r[k] == s[idx[k]] && p(s[idx[k]])
  }

  ghost predicate Increasing(idx: seq<int>)
  {
    forall k, l :: 0 <= k < l < |idx| ==> idx[k] < idx[l]
  }

  /** Every position of `s` whose element passes `p` is listed in `idx`. */
  ghost predicate Covers<T>(s: seq<T>, p: T -> bool, idx: seq<int>)
  {
    forall i :: 0 <= i < |s| && p(s[i]) ==> i in idx
  }

  /** Filter keeps exactly the positions that pass the test, in their order. */
  lemma {:induction false} FilterSelects<T(!new)>(s: seq<T>, p: T -> bool) returns (idx: seq<int>)
    ensures Selects(s, p, idx, Filter(s, p))
  {
    if s == [] {
      idx := [];
    } else {
      var tail := FilterSelects(s[1..], p);
      var head := if p(s[0]) then [0] else [];
      idx := head + Shift(tail);
      var front := if p(s[0]) then [s[0]] else [];
      assert Filter(s, p) == front + Filter(s[1..], p);
      PicksCons(s, p, tail, Filter(s[1..], p));
      assert Increasing(idx);
      CoversCons(s, p, tail);
    }
  }

  /**
   Proof helper for FilterSelects: `idx` with every position moved one place
   to the right, as seen from `[x] + s`. Not a model of anything in the program.
   */
  function Shift(idx: seq<int>): (r: seq<int>)
    ensures |r| == |idx|
    ensures forall k :: 0 <= k < |idx| ==> r[k] == idx[k] + 1
  {
    seq(|idx|, k requires 0 <= k < |idx| => idx[k] + 1)
  }

  lemma PicksCons<T>(s: seq<T>, p: T -> bool, tail: seq<int>, rest: seq<T>)
    requires s != []
    requires Picks(s[1..], p, tail, rest)
    ensures Picks(s, p, (if p(s[0]) then [0] else []) + Shift(tail), (if p(s[0]) then [s[0]] else []) + rest)
  {
  }

  lemma CoversCons<T>(s: seq<T>, p: T -> bool, tail: seq<int>)
    requires s != []
    requires Covers(s[1..], p, tail)
    ensures Covers(s, p, (if p(s[0]) then [0] else []) + Shift(tail))
  {
    var head := if p(s[0]) then [0] else [];
    var shifted := Shift(tail);
    forall i | 0 <= i < |s| && p(s[i])
      ensures i in head + shifted
    {
      if i > 0 {
        assert s[1..][i - 1] == s[i];
        var k :| 0 <= k < |tail| && tail[k] == i - 1;
        assert (head + shifted)[|head| + k] == i;
      }
    }
  }

  /** Filtering a two-element sequence tests each element once, in order. */
  lemma FilterPair<T(!new)>(x: T, y: T, p: T -> bool)
    ensures Filter([x, y], p) == (if p(x) then [x] else []) + (if p(y) then [y] else [])
  {
    assert [x, y][1..] == [y];
    assert [y][1..] == [];
  }

  /** Filtering never collapses duplicates: each value keeps its multiplicity or drops to zero. */
  lemma {:induction false} FilterMultiplicity<T(!new)>(s: seq<T>, p: T -> bool, x: T)
    ensures multiset(Filter(s, p))[x] == if p(x) then multiset(s)[x] else 0
  {
    if s != [] {
      FilterMultiplicity(s[1..], p, x);
      assert s == [s[0]] + s[1..];
    }
  }

  /** Filtering by a test and by its negation splits `s` into two parts that add back up to `s`. */
  lemma {:induction false} FilterComplement<T(!new)>(s: seq<T>, p: T -> bool, q: T -> bool)
    requires forall x :: q(x) == !p(x)
    ensures multiset(Filter(s, p)) + multiset(Filter(s, q)) == multiset(s)
    ensures |Filter(s, p)| + |Filter(s, q)| == |s|
  {
    if s != [] {
      FilterComplement(s[1..], p, q);
      assert s == [s[0]] + s[1..];
    }
  }
}
