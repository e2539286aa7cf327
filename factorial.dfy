/**
 * Factorial, n! = n * (n-1)! with 0! = 1 (common_recursion.py), computed four ways:
 * plain recursion, a memoised recursive helper over a pre-allocated list, bottom-up
 * tabulation and an accumulator loop. The recursive definition is the specification
 * of the other three.
 */
module Factorial {

  /** factorial_rec. Every value is at least 1, so no computed value is ever the
      memoised version's "not yet computed" marker 0. */
  function Fact(n: nat): (r: int)
    ensures r >= 1
  {
    if n == 0 then 1 else n * Fact(n - 1)
  }

  /** lo * (lo + 1) * ... * hi; the empty product (lo > hi) is 1. */
  function Product(lo: int, hi: int): int
    decreases hi - lo
  {
    if lo > hi then 1 else lo * Product(lo + 1, hi)
  }

  /** A non-empty product can be split off at its top factor. */
  lemma {:induction false} ProductTop(lo: int, hi: int)
    requires lo <= hi
    ensures Product(lo, hi) == Product(lo, hi - 1) * hi
    decreases hi - lo
  {
    if lo < hi {
      ProductTop(lo + 1, hi);
      calc {
        Product(lo, hi);
        lo * Product(lo + 1, hi);
        lo * (Product(lo + 1, hi - 1) * hi);
        (lo * Product(lo + 1, hi - 1)) * hi;
        Product(lo, hi - 1) * hi;
      }
    }
  }

  /** The recursion agrees with the closed form n! = 1 * 2 * ... * n. */
  lemma {:induction false} FactIsProduct(n: nat)
    ensures Fact(n) == Product(1, n)
  {
    if n > 0 {
      FactIsProduct(n - 1);
      ProductTop(1, n);
    }
  }

  /** factorial_tabulation: d[i] = i * d[i - 1] from d[0] = 1 up to d[n]. */
  method FactorialTabulation(n: int) returns (r: int)
    requires n >= 0
    ensures r == Fact(n)
  {
    var d := new int[n + 1](_ => 0);
    d[0] := 1;
    for i := 1 to n + 1
      invariant forall j {:trigger d[j]} :: 0 <= j < i ==> d[j] == Fact(j)
    {
      assert d[i - 1] == Fact(i - 1);
      d[i] := i * d[i - 1];
    }
    r := d[n];
  }

  /** Every slot of the cache is 0 ("not yet computed") or holds its factorial. */
  ghost predicate CacheSound(d: array<int>)
    reads d
  {
    forall j :: 0 <= j < d.Length ==> d[j] == 0 || d[j] == Fact(j)
  }

  /** The computed slots of the cache form a prefix. */
  ghost predicate CachePrefix(d: array<int>)
    reads d
  {
    forall i, j :: 0 <= i <= j < d.Length && d[j] != 0 ==> d[i] != 0
  }

  /** factorial_memoization_helper, the closure over the list d: a zero slot is
      filled from the slot below it. Afterwards every slot up to k holds its
      factorial and the slots above k are untouched. */
  method FactorialMemoHelper(d: array<int>, k: int) returns (r: int)
    requires 0 <= k < d.Length && d[0] != 0
    requires CacheSound(d) && CachePrefix(d)
    modifies d
    ensures r == Fact(k)
    ensures CacheSound(d) && CachePrefix(d)
    ensures forall j :: 0 <= j <= k ==> d[j] == Fact(j)
    ensures forall j :: k < j < d.Length ==> d[j] == old(d[j])
    decreases k
  {
    if d[k] == 0 {
      var below := FactorialMemoHelper(d, k - 1);
      d[k] := k * below;
    }
    r := d[k];
  }

  /** factorial_memoization: a list of n + 1 zeros, seeded with d[0] = 1. */
  method FactorialMemoization(n: int) returns (r: int)
    requires n >= 0
    ensures r == Fact(n)
  {
    var d := new int[n + 1](_ => 0);
    d[0] := 1;
    r := FactorialMemoHelper(d, n);
  }

  /** factorial_iter: prod *= i for i in range(1, n + 1). The range is empty
      for n < 0, where the loop returns 1 instead of failing. */
  method FactorialIter(n: int) returns (r: int)
    ensures n >= 0 ==> r == Fact(n)
    ensures n < 0 ==> r == 1
  {
    var prod := 1;
    var i := 1;
    while i < n + 1
      invariant 1 <= i && (n >= 0 ==> i <= n + 1) && (n < 0 ==> i == 1)
      invariant prod == Fact(i - 1)
    {
      prod := prod * i;
      i := i + 1;
    }
    r := prod;
  }

}
