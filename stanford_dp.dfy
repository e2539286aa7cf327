/**
 * stanford_dp.py: a second copy of the "different ways" problem, with its own
 * recursion and a tabulation named different_ways_dp. Its recursion is shown
 * to agree with the one of common_recursion.py on every integer.
 */
module StanfordDp {

  import opened Outcome
  import DifferentWays

  /** different_ways_rec: 0 for every n < 0, 1 at n = 0, and for n > 0 the sum
      D(n - 1) + D(n - 3) + D(n - 4), which is at least 1. */
  function DifferentWaysRec(n: int): (r: int)
    ensures n < 0 ==> r == 0
    ensures n >= 0 ==> r >= 1
    decreases n
  {
    if n < 0 then 0
    else if n == 0 then 1
    else DifferentWaysRec(n - 1) + DifferentWaysRec(n - 3) + DifferentWaysRec(n - 4)
  }

  /** The two copies of the recursion compute the same function. */
  lemma {:induction false} AgreesWithCommon(n: int)
    ensures DifferentWaysRec(n) == DifferentWays.Ways(n)
    decreases n
  {
    if n > 0 {
      AgreesWithCommon(n - 1);
      AgreesWithCommon(n - 3);
      AgreesWithCommon(n - 4);
    }
  }

  /** The seeds d[0..3] = 1, 1, 1, 2 of different_ways_dp are the recursion's
      values at 0..3. */
  lemma SeedsMatch()
    ensures DifferentWaysRec(0) == 1 && DifferentWaysRec(1) == 1
    ensures DifferentWaysRec(2) == 1 && DifferentWaysRec(3) == 2
  {
  }

  /** different_ways_dp as written: the list has n + 1 slots and the seeding
      writes d[0..3], so every n < 3 ends in an IndexError, n = 1 and n = 2
      included although the docstring asks only for n > 0. */
  method DifferentWaysDp(n: int) returns (r: Result<int>)
    ensures n >= 3 ==> r == Value(DifferentWaysRec(n))
    ensures n < 3 ==> r == IndexError
  {
    if n + 1 < 4 {
      // [0] * (n + 1) has fewer than four slots: one of d[0] .. d[3] = ... is out of range
      return IndexError;
    }
    var d := new int[n + 1](_ => 0);
    d[0], d[1], d[2], d[3] := 1, 1, 1, 2;
    SeedsMatch();
    for i := 4 to n + 1
      invariant forall j {:trigger d[j]} :: 0 <= j < i ==> d[j] == DifferentWaysRec(j)
    {
      assert d[i - 1] == DifferentWaysRec(i - 1) && d[i - 3] == DifferentWaysRec(i - 3);
      assert d[i - 4] == DifferentWaysRec(i - 4);
      d[i] := d[i - 1] + d[i - 3] + d[i - 4];
    }
    r := Value(d[n]);
  }

  /** A call with n = 1, an input the docstring admits, fails. */
  method DpRejectsOne() returns (r: Result<int>)
    ensures r == IndexError && DifferentWaysRec(1) == 1
  {
    r := DifferentWaysDp(1);
    SeedsMatch();
  }

  /** different_ways_dp with the list made at least four slots long, so the
      seeds always fit: it returns D(n) for every n >= 0. */
  method DifferentWaysDpGuarded(n: int) returns (r: int)
    requires n >= 0
    ensures r == DifferentWaysRec(n)
  {
    var size := if n + 1 > 4 then n + 1 else 4;
    var d := new int[size](_ => 0);
    d[0], d[1], d[2], d[3] := 1, 1, 1, 2;
    SeedsMatch();
    // range(4, n + 1) and range(4, size) are the same range
    for i := 4 to size
      invariant forall j {:trigger d[j]} :: 0 <= j < i ==> d[j] == DifferentWaysRec(j)
    {
      assert d[i - 1] == DifferentWaysRec(i - 1) && d[i - 3] == DifferentWaysRec(i - 3);
      assert d[i - 4] == DifferentWaysRec(i - 4);
      d[i] := d[i - 1] + d[i - 3] + d[i - 4];
    }
    r := d[n];
  }

}
