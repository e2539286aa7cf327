/**
 * The derivation behind the "different ways" recurrence (common_recursion.py
 * and stanford_dp.py): the last part of a composition of n into 1s, 3s and 4s
 * is 1, 3 or 4, and what precedes it is a composition of n - 1, n - 3 or n - 4.
 * This module builds the set of those compositions and proves that Ways(n) is
 * its size, so the recursion counts exactly what the derivation says it counts.
 */
module Compositions {

  import opened DifferentWays

  /** The allowed parts. */
  predicate IsPart(x: int)
  {
    x == 1 || x == 3 || x == 4
  }

  /** Sum of a sequence, peeled from the right like the derivation. */
  function Sum(s: seq<int>): int
  {
    if s == [] then 0 else Sum(s[..|s| - 1]) + s[|s| - 1]
  }

  /** s is an ordered way of writing n as a sum of 1s, 3s and 4s. */
  predicate IsComposition(s: seq<int>, n: int)
  {
    (forall i :: 0 <= i < |s| ==> IsPart(s[i])) && Sum(s) == n
  }

  /** Every sequence of S with p appended. */
  ghost function Extend(S: set<seq<int>>, p: int): set<seq<int>>
  {
    set s | s in S :: s + [p]
  }

  /** The compositions of n, grouped by their last part. */
  ghost function Comps(n: int): set<seq<int>>
    decreases n
  {
    if n < 0 then {}
    else if n == 0 then {[]}
    else Extend(Comps(n - 1), 1) + Extend(Comps(n - 3), 3) + Extend(Comps(n - 4), 4)
  }

  lemma SumAppend(s: seq<int>, p: int)
    ensures Sum(s + [p]) == Sum(s) + p
  {
  }

  /** Parts are positive, so a composition never sums below 0. */
  lemma {:induction false} SumNonNegative(s: seq<int>)
    requires forall i :: 0 <= i < |s| ==> IsPart(s[i])
    ensures Sum(s) >= 0
  {
    if s != [] {
      SumNonNegative(s[..|s| - 1]);
    }
  }

  /** Appending a fixed part is injective, so it keeps the size of a set. */
  lemma {:induction false} ExtendSize(S: set<seq<int>>, p: int)
    ensures |Extend(S, p)| == |S|
    decreases |S|
  {
    if S == {} {
      assert Extend(S, p) == {};
    } else {
      var x :| x in S;
      var rest := S - {x};
      ExtendSize(rest, p);
      assert Extend(S, p) == Extend(rest, p) + {x + [p]};
      assert x + [p] !in Extend(rest, p) by {
        forall y | y in rest
          ensures y + [p] != x + [p]
        {
          assert (y + [p])[..|y|] == y && (x + [p])[..|x|] == x;
        }
      }
    }
  }

  /** Every member of Extend(S, p) ends in p. */
  lemma ExtendLast(S: set<seq<int>>, p: int, s: seq<int>)
    requires s in Extend(S, p)
    ensures |s| > 0 && s[|s| - 1] == p && s[..|s| - 1] in S
  {
    var t :| t in S && s == t + [p];
    assert s[..|s| - 1] == t;
  }

  /** Sets of sequences with different last elements are disjoint. */
  lemma ExtendDisjoint(A: set<seq<int>>, p: int, B: set<seq<int>>, q: int)
    requires p != q
    ensures Extend(A, p) * Extend(B, q) == {}
  {
    forall s | s in Extend(A, p) * Extend(B, q)
      ensures false
    {
      ExtendLast(A, p, s);
      ExtendLast(B, q, s);
    }
  }

  /** The size of a union of three pairwise disjoint sets. */
  lemma DisjointUnionSize(a: set<seq<int>>, b: set<seq<int>>, c: set<seq<int>>)
    requires a * b == {} && a * c == {} && b * c == {}
    ensures |a + b + c| == |a| + |b| + |c|
  {
    assert |a + b| == |a| + |b|;
    assert (a + b) * c == {};
  }

  /** Grouping by the last part loses and merges nothing. */
  lemma SplitByLastPartSize(a: set<seq<int>>, b: set<seq<int>>, c: set<seq<int>>)
    ensures |Extend(a, 1) + Extend(b, 3) + Extend(c, 4)| == |a| + |b| + |c|
  {
    ExtendSize(a, 1);
    ExtendSize(b, 3);
    ExtendSize(c, 4);
    ExtendDisjoint(a, 1, b, 3);
    ExtendDisjoint(a, 1, c, 4);
    ExtendDisjoint(b, 3, c, 4);
    DisjointUnionSize(Extend(a, 1), Extend(b, 3), Extend(c, 4));
  }

  /** The recursion counts the compositions: |Comps(n)| == Ways(n). */
  lemma {:induction false} CompsSize(n: int)
    ensures |Comps(n)| == Ways(n)
    decreases n
  {
    if n > 0 {
      CompsSize(n - 1);
      CompsSize(n - 3);
      CompsSize(n - 4);
      SplitByLastPartSize(Comps(n - 1), Comps(n - 3), Comps(n - 4));
    }
  }

  /** A composition of m followed by a part is a composition of m + p. */
  lemma AppendComposition(t: seq<int>, m: int, p: int)
    requires IsComposition(t, m) && IsPart(p)
    ensures IsComposition(t + [p], m + p)
  {
  }

  /** Dropping the last part of a composition of n leaves a composition of n - p. */
  lemma DropLastPart(s: seq<int>, n: int)
    requires IsComposition(s, n) && s != []
    ensures IsPart(s[|s| - 1]) && IsComposition(s[..|s| - 1], n - s[|s| - 1])
  {
  }

  /** A member of Comps(n - p) followed by the part p is a member of Comps(n). */
  lemma ExtendInComps(n: int, p: int, t: seq<int>)
    requires n > 0 && IsPart(p) && t in Comps(n - p)
    ensures t + [p] in Comps(n)
  {
    assert t + [p] in Extend(Comps(n - p), p);
  }

  /** A member of Comps(n), n > 0, ends in a part p after a member of Comps(n - p). */
  lemma LastPart(n: int, s: seq<int>)
    requires n > 0 && s in Comps(n)
    ensures s != [] && IsPart(s[|s| - 1]) && s[..|s| - 1] in Comps(n - s[|s| - 1])
  {
    if s in Extend(Comps(n - 1), 1) {
      ExtendLast(Comps(n - 1), 1, s);
    } else if s in Extend(Comps(n - 3), 3) {
      ExtendLast(Comps(n - 3), 3, s);
    } else {
      ExtendLast(Comps(n - 4), 4, s);
    }
  }

  /** Every member of Comps(n) writes n as a sum of 1s, 3s and 4s. */
  lemma {:induction false} CompsSound(n: int, s: seq<int>)
    requires s in Comps(n)
    ensures IsComposition(s, n)
    decreases n
  {
    if n > 0 {
      LastPart(n, s);
      var p := s[|s| - 1];
      var t := s[..|s| - 1];
      CompsSound(n - p, t);
      AppendComposition(t, n - p, p);
      assert s == t + [p];
    }
  }

  /** Every way of writing n as a sum of 1s, 3s and 4s is in Comps(n). */
  lemma {:induction false} CompsComplete(n: int, s: seq<int>)
    requires IsComposition(s, n)
    ensures s in Comps(n)
    decreases |s|
  {
    if s != [] {
      var p := s[|s| - 1];
      var t := s[..|s| - 1];
      DropLastPart(s, n);
      CompsComplete(n - p, t);
      SumNonNegative(t);
      assert s == t + [p];
      ExtendInComps(n, p, t);
    }
  }

  /** Ways(n) is the number of ordered ways of writing n as a sum of 1s, 3s and
      4s: those ways are exactly the members of Comps(n), and there are Ways(n)
      of them. For n < 0 there are none, for n = 0 only the empty sum. */
  lemma WaysCountsCompositions(n: int)
    ensures forall s :: s in Comps(n) <==> IsComposition(s, n)
    ensures |Comps(n)| == Ways(n)
  {
    forall s
      ensures s in Comps(n) <==> IsComposition(s, n)
    {
      if s in Comps(n) {
        CompsSound(n, s);
      }
      if IsComposition(s, n) {
        CompsComplete(n, s);
      }
    }
    CompsSize(n);
  }

}
