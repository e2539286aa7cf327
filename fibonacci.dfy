/**
 * The Fibonacci sequence of common_recursion.py, f(n) = 1 for n <= 2 and
 * f(n) = f(n - 1) + f(n - 2) otherwise, computed four ways: plain recursion,
 * a memoised helper over a pre-allocated list, tabulation and a two-variable
 * sliding window.
 */
module Fibonacci {

  /** fibonacci_rec. Every n <= 2, zero and the negatives included, gives 1, and
      every value is at least 1, so none is the memo's marker 0. */
  function Fib(n: int): (r: int)
    ensures r >= 1
    decreases n
  {
    if n <= 2 then 1 else Fib(n - 1) + Fib(n - 2)
  }

  /** The textbook sequence F(0) = 0, F(1) = 1, F(n) = F(n - 1) + F(n - 2). */
  function StandardFib(n: nat): nat
  {
    if n == 0 then 0 else if n == 1 then 1 else StandardFib(n - 1) + StandardFib(n - 2)
  }

  /** On positive indices Fib is the textbook sequence; it differs only below 1,
      where Fib stays at 1. */
  lemma {:induction false} FibIsStandard(n: int)
    requires n >= 1
    ensures Fib(n) == StandardFib(n)
    decreases n
  {
    if n > 2 {
      FibIsStandard(n - 1);
      FibIsStandard(n - 2);
    }
  }

  /** fibonacci_tabulation: d[1] = d[2] = 1, then d[i] = d[i - 1] + d[i - 2]
      upwards. For n < 2 the seeding writes fall outside the list. */
  method FibonacciTabulation(n: int) returns (r: int)
    requires n >= 2
    ensures r == Fib(n)
  {
    var d := new int[n + 1](_ => 0);
    d[1] := 1;
    d[2] := 1;
    for i := 3 to n + 1
      invariant forall j {:trigger d[j]} :: 1 <= j < i ==> d[j] == Fib(j)
    {
      assert d[i - 1] == Fib(i - 1) && d[i - 2] == Fib(i - 2);
      d[i] := d[i - 1] + d[i - 2];
    }
    r := d[n];
  }

  /** Every slot from 1 up is 0 ("not yet computed") or holds its term; slot 0
      is not part of the cache. */
  ghost predicate CacheSound(d: array<int>)
    reads d
  {
    forall j :: 1 <= j < d.Length ==> d[j] == 0 || d[j] == Fib(j)
  }

  /** The computed slots from 1 up form a prefix. */
  ghost predicate CachePrefix(d: array<int>)
    reads d
  {
    forall i, j :: 1 <= i <= j < d.Length && d[j] != 0 ==> d[i] != 0
  }

  /** fibonacci_memoization_helper, the closure over the list d. It only touches
      slots 1..k: d[0] and everything above k keep their values, and afterwards
      every slot from 1 to k holds its term. */
  method FibonacciMemoHelper(d: array<int>, k: int) returns (r: int)
    requires 1 <= k < d.Length && 3 <= d.Length && d[1] != 0 && d[2] != 0
    requires CacheSound(d) && CachePrefix(d)
    modifies d
    ensures r == Fib(k)
    ensures CacheSound(d) && CachePrefix(d)
    ensures forall j :: 1 <= j <= k ==> d[j] == Fib(j)
    ensures d[0] == old(d[0])
    ensures forall j :: k < j < d.Length ==> d[j] == old(d[j])
    decreases k
  {
    if d[k] == 0 {
      var a := FibonacciMemoHelper(d, k - 1);
      var b := FibonacciMemoHelper(d, k - 2);
      d[k] := a + b;
    }
    r := d[k];
  }

  /** fibonacci_memoization: n + 1 zeros, seeded with d[1] = d[2] = 1. */
  method FibonacciMemoization(n: int) returns (r: int)
    requires n >= 2
    ensures r == Fib(n)
  {
    var d := new int[n + 1](_ => 0);
    d[1] := 1;
    d[2] := 1;
    r := FibonacciMemoHelper(d, n);
  }

  /** fibonacci_iter: at the top of the iteration for k, prev is f(k - 1) and
      prevPrev is f(k - 2). Defined for every integer n. */
  method FibonacciIter(n: int) returns (r: int)
    ensures r == Fib(n)
  {
    if n <= 2 {
      return 1;
    }
    var prevPrev, prev := 1, 1;
    for k := 3 to n + 1
      invariant prev == Fib(k - 1) && prevPrev == Fib(k - 2)
    {
      var tmp := prev;
      prev := prev + prevPrev;
      prevPrev := tmp;
    }
    r := prev;
  }

}
