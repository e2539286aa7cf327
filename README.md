# Recurrences computed several ways

A Dafny model of a small Python study of dynamic programming. Three integer
recurrences are each computed in several ways, and the model proves that every
way computes the same value:

- **factorial**, `n! = n * (n-1)!` with `0! = 1`: plain recursion, a memoised
  recursive helper over a pre-allocated list, bottom-up tabulation and an
  accumulator loop (`common_recursion.py`);
- **Fibonacci**, `f(n) = 1` for `n <= 2` and `f(n) = f(n-1) + f(n-2)` otherwise:
  recursion, memoisation, tabulation and a two-variable sliding window
  (`common_recursion.py`);
- **different ways**, the number `D(n)` of ordered ways to write `n` as a sum of
  1s, 3s and 4s, `D(n) = D(n-1) + D(n-3) + D(n-4)` with `D(0) = 1` and `D(n) = 0`
  for `n < 0`: recursion, tabulation and memoisation (`common_recursion.py`),
  and a second copy of the recursion and the tabulation (`stanford_dp.py`).

Each `*_rec` function is a Dafny `function` and is the specification. Each
tabulation, memoisation and loop is a `method` over an `array<int>` (the
Python list `d`, allocated as `[0] * (n + 1)`) or over local variables, and its
`ensures` equates its result with the recursive function. The memoised helpers
are Python closures that update the enclosing list in place; here they are
methods that take that list as an array parameter and `modify` it. Their cache
invariant is that every slot is 0 ("not yet computed") or holds the right value,
and that the computed slots form a prefix. Keeping the prefix after a slot is
filled needs the filled value to be non-zero, which is why every recursive
function carries a positivity postcondition. The derivation in the docstrings
(a composition of `n` ends in a part 1, 3 or 4) is modelled as well. The set of
all such compositions is built, and `D(n)` is proved to be its size.

Modules: `Outcome` (a result that is a value or Python's `IndexError`),
`Factorial`, `Fibonacci`, `DifferentWays`, `Compositions` (all for
`common_recursion.py`) and `StanfordDp` (for `stanford_dp.py`).

Both files define `D(0) = 1`, and the model follows them. A convention with
`D(0) = 0` and `D(1) = 1` is sometimes proposed for this problem. It gives
different values and is not modelled.

## Model

| member | source | states |
|---|---|---|
| `Factorial.Fact` | common_recursion.py:9-13 | factorial_rec: every `n!` is at least 1, so no computed value is the memo's 0 marker |
| `Factorial.FactIsProduct` | common_recursion.py:2-5 | the recursion agrees with the product `1 * 2 * ... * n` of the derivation for every `n >= 0` |
| `Factorial.FactorialTabulation` | common_recursion.py:16-23 | returns `n!` for every `n >= 0`; loop invariant `d[j] == j!` for `j < i` |
| `Factorial.FactorialMemoHelper` | common_recursion.py:31-34 | returns `k!`; keeps every slot 0 or correct and the computed slots a prefix; afterwards slots `0..k` hold their factorials and slots above `k` are untouched |
| `Factorial.FactorialMemoization` | common_recursion.py:26-36 | returns `n!` for every `n >= 0` |
| `Factorial.FactorialIter` | common_recursion.py:39-44 | returns `n!` for `n >= 0` and 1 for `n < 0` (the range is empty); invariant `prod == (i-1)!` |
| `Fibonacci.Fib` | common_recursion.py:47-56 | fibonacci_rec: every term, for every integer `n`, is at least 1 |
| `Fibonacci.FibIsStandard` | common_recursion.py:47-48 | for `n >= 1` the sequence is the textbook Fibonacci sequence `F(0) = 0, F(1) = 1` |
| `Fibonacci.FibonacciTabulation` | common_recursion.py:73-80 | returns `f(n)` for every `n >= 2`; invariant `d[j] == f(j)` for `1 <= j < i` |
| `Fibonacci.FibonacciMemoHelper` | common_recursion.py:65-68 | returns `f(k)` for `k >= 1`; keeps slots `1..` sound and prefix-closed; leaves `d[0]` and the slots above `k` unchanged; afterwards slots `1..k` hold their terms |
| `Fibonacci.FibonacciMemoization` | common_recursion.py:59-70 | returns `f(n)` for every `n >= 2` |
| `Fibonacci.FibonacciIter` | common_recursion.py:83-96 | returns `f(n)` for every integer `n`; window invariant `prev == f(k-1)`, `prevPrev == f(k-2)` |
| `DifferentWays.Ways` | common_recursion.py:119-125 | different_ways_rec: 0 for `n < 0`, at least 1 for every `n >= 0` |
| `DifferentWays.WaysSeeds` | common_recursion.py:134-146 | the seeds `1, 1, 1, 2` are `D(0..3)`, and `D(4) = D(3) + D(1) + D(0) = 4` |
| `DifferentWays.DifferentWaysTabulation` | common_recursion.py:128-152 | as written: `D(n)` for `n >= 3`, `IndexError` for every `n < 3` |
| `DifferentWays.TabulationRejectsOne` | common_recursion.py:111-146 | the input `n = 1`, admitted by the derivation and with `D(1) = 1`, ends in `IndexError` |
| `DifferentWays.DifferentWaysTabulationGuarded` | common_recursion.py:128-152 | with at least four slots allocated: `D(n)` for every `n >= 0` |
| `DifferentWays.DifferentWaysMemoHelper` | common_recursion.py:160-166 | returns `D(k)` for every `k`, 0 for `k < 0` without touching `d`; keeps the cache sound and prefix-closed; afterwards slots `0..k` hold their counts |
| `DifferentWays.DifferentWaysMemoization` | common_recursion.py:155-168 | returns `D(n)` for every `n >= 0` |
| `Compositions.CompsSound` | common_recursion.py:100-115 | every member of the built set is a composition of `n` into parts 1, 3, 4 |
| `Compositions.CompsComplete` | common_recursion.py:100-115 | every composition of `n` into parts 1, 3, 4 is in the built set |
| `Compositions.CompsSize` | common_recursion.py:100-115 | the built set has `D(n)` members |
| `Compositions.WaysCountsCompositions` | common_recursion.py:100-115 | `D(n)` is the number of ordered ways to write `n` as a sum of 1s, 3s and 4s |
| `StanfordDp.DifferentWaysRec` | stanford_dp.py:21-27 | 0 for every `n < 0`, at least 1 for every `n >= 0` |
| `StanfordDp.AgreesWithCommon` | stanford_dp.py:21-27 | the recursion of this file equals that of common_recursion.py on every integer |
| `StanfordDp.SeedsMatch` | stanford_dp.py:36-48 | the seeds `d[0..3] = 1, 1, 1, 2` equal the recursion at `0..3` |
| `StanfordDp.DifferentWaysDp` | stanford_dp.py:30-54 | as written: `D(n)` for `n >= 3`, `IndexError` for every `n < 3` |
| `StanfordDp.DpRejectsOne` | stanford_dp.py:13-48 | the input `n = 1`, admitted by the docstring and with `D(1) = 1`, ends in `IndexError` |
| `StanfordDp.DifferentWaysDpGuarded` | stanford_dp.py:30-54 | with at least four slots allocated: `D(n)` for every `n >= 0` |

## Left out

- Running-time and stack-space claims in the docstrings: they are not functional behaviour.
- Python's recursion limit and stack depth: runtime artefacts, not semantics.
- Integer width: Python integers are unbounded, and so are Dafny's `int`.
- Out-of-domain crashes other than the finding below are preconditions, not modelled errors. `factorial_rec` never returns for `n < 0`, so `Fact` takes a `nat`. The factorial list versions raise `IndexError` for `n < 0` and require `n >= 0`. The Fibonacci list versions raise for `n < 2` and require `n >= 2`. `different_ways_memoization` raises for `n < 0` and requires `n >= 0`.
- Fibonacci.FibonacciMemoHelper: that slot 0 is never read is not stated as a frame, because Dafny methods have no read frames. It is shown by the cache predicates ignoring slot 0, by the precondition `k >= 1` on every call, and by `d[0]` being unchanged.
- Python's negative list indices never occur in these functions and are not modelled.
- Calling a method twice yields the same result because each call allocates its own list. No separate lemma states it.
- The empty trailing docstring of stanford_dp.py.

## Findings

| source | as written | input that shows it | evidently intended | confidence | as-written member | corrected member |
|---|---|---|---|---|---|---|
| common_recursion.py:132-146 | the list has `n + 1` slots, but four seeds `d[0..3]` are written into it | `n = 1` (or `n = 2`): `d[2] = 1` (or `d[3] = 2`) raises `IndexError` | the derivation (line 111) admits every `n > 0`; return `D(1) = 1`, `D(2) = 1` | high, not executed | `DifferentWays.TabulationRejectsOne` | `DifferentWays.DifferentWaysTabulationGuarded` |
| stanford_dp.py:34-48 | the list has `n + 1` slots, but four seeds `d[0..3]` are written into it | `n = 1` (or `n = 2`): `d[2] = 1` (or `d[3] = 2`) raises `IndexError` | the docstring (line 13) admits every `n > 0`; return `D(1) = 1`, `D(2) = 1` | high, not executed | `StanfordDp.DpRejectsOne` | `StanfordDp.DifferentWaysDpGuarded` |
