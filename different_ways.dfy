/**
 * "Different ways" of common_recursion.py: D(n) is the number of ordered ways
 * to write n as a sum of 1s, 3s and 4s, D(n) = D(n - 1) + D(n - 3) + D(n - 4)
 * with D(0) = 1 and D(n) = 0 for n < 0. It is computed by plain recursion,
 * tabulation and a memoised helper.
 */
module DifferentWays {

  import opened Outcome

  /** different_ways_rec. Negative n gives 0 and every n >= 0 gives at least 1,
      so no computed value is the memo's marker 0. */
  function Ways(n: int): (r: int)
    ensures n < 0 ==> r == 0
    ensures n >= 0 ==> r >= 1
    decreases n
  {
    if n < 0 then 0
    else if n == 0 then 1
    else Ways(n - 1) + Ways(n - 3) + Ways(n - 4)
  }

  /** The four seeds of the tabulation are the first four values of the
      recursion, and the first value computed from them, D(4) = D(3) + D(1) + D(0),
      is 4. */
  lemma WaysSeeds()
    ensures Ways(0) == 1 && Ways(1) == 1 && Ways(2) == 1 && Ways(3) == 2
    ensures Ways(4) == Ways(3) + Ways(1) + Ways(0) == 4
  {
  }

  /** different_ways_tabulation as written: the list has n + 1 slots but the
      seeding writes d[0..3], so for n < 3 (n = 1 and n = 2 included, although the
      derivation allows every n > 0) Python stops with an IndexError. */
  method DifferentWaysTabulation(n: int) returns (r: Result<int>)
    ensures n >= 3 ==> r == Value(Ways(n))
    ensures n < 3 ==> r == IndexError
  {
    if n + 1 < 4 {
      // [0] * (n + 1) has fewer than four slots: one of d[0] .. d[3] = ... is out of range
      return IndexError;
    }
    var d := new int[n + 1](_ => 0);
    d[0], d[1], d[2], d[3] := 1, 1, 1, 2;
    WaysSeeds();
    for i := 4 to n + 1
      invariant forall j {:trigger d[j]} :: 0 <= j < i ==> d[j] == Ways(j)
    {
      assert d[i - 1] == Ways(i - 1) && d[i - 3] == Ways(i - 3) && d[i - 4] == Ways(i - 4);
      d[i] := d[i - 1] + d[i - 3] + d[i - 4];
    }
    r := Value(d[n]);
  }

  /** A call with n = 1, an input the derivation admits, fails. */
  method TabulationRejectsOne() returns (r: Result<int>)
    ensures r == IndexError && Ways(1) == 1
  {
    r := DifferentWaysTabulation(1);
    WaysSeeds();
  }

  /** different_ways_tabulation with the list made at least four slots long, so
      the seeds always fit: it returns D(n) for every n >= 0. */
  method DifferentWaysTabulationGuarded(n: int) returns (r: int)
    requires n >= 0
    ensures r == Ways(n)
  {
    var size := if n + 1 > 4 then n + 1 else 4;
    var d := new int[size](_ => 0);
    d[0], d[1], d[2], d[3] := 1, 1, 1, 2;
    WaysSeeds();
    // range(4, n + 1) and range(4, size) are the same range
    for i := 4 to size
      invariant forall j {:trigger d[j]} :: 0 <= j < i ==> d[j] == Ways(j)
    {
      assert d[i - 1] == Ways(i - 1) && d[i - 3] == Ways(i - 3) && d[i - 4] == Ways(i - 4);
      d[i] := d[i - 1] + d[i - 3] + d[i - 4];
    }
    r := d[n];
  }

  /** Every slot of the cache is 0 ("not yet computed") or holds its count. */
  ghost predicate CacheSound(d: array<int>)
    reads d
  {
    forall j :: 0 <= j < d.Length ==> d[j] == 0 || d[j] == Ways(j)
  }

  /** The computed slots of the cache form a prefix. */
  ghost predicate CachePrefix(d: array<int>)
    reads d
  {
    forall i, j :: 0 <= i <= j < d.Length && d[j] != 0 ==> d[i] != 0
  }

  /** different_ways_memoization_helper, the closure over the list d. A negative
      k gives 0 without touching d; otherwise every slot up to k ends up holding
      its count and the slots above k are untouched. */
  method DifferentWaysMemoHelper(d: array<int>, k: int) returns (r: int)
    requires k < d.Length && 1 <= d.Length && d[0] != 0
    requires CacheSound(d) && CachePrefix(d)
    modifies d
    ensures r == Ways(k)
    ensures CacheSound(d) && CachePrefix(d)
    ensures forall j :: 0 <= j <= k ==> d[j] == Ways(j)
    ensures forall j :: 0 <= j < d.Length && k < j ==> d[j] == old(d[j])
    decreases k
  {
    if k < 0 {
      return 0;
    }
    if d[k] == 0 {
      var a := DifferentWaysMemoHelper(d, k - 1);
      var b := DifferentWaysMemoHelper(d, k - 3);
      var c := DifferentWaysMemoHelper(d, k - 4);
      d[k] := a + b + c;
    }
    r := d[k];
  }

  /** different_ways_memoization: n + 1 zeros, seeded with d[0] = 1. */
  method DifferentWaysMemoization(n: int) returns (r: int)
    requires n >= 0
    ensures r == Ways(n)
  {
    var d := new int[n + 1](_ => 0);
    d[0] := 1;
    r := DifferentWaysMemoHelper(d, n);
  }

}
