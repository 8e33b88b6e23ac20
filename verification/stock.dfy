/** The bounded stock count every item carries: adjustments clamp it to 0..20. */
module Stock {

  const MaxStock := 20

  predicate InRange(n: int)
  {
    0 <= n <= MaxStock
  }

  /** `Math.min(20, n + 1)`: one more, but never above the maximum. */
  function Incremented(n: int): (r: int)
    ensures r <= MaxStock
    ensures n < MaxStock ==> r == n + 1
    ensures n >= MaxStock ==> r == MaxStock
    ensures InRange(n) ==> InRange(r)
  {
    if n + 1 < MaxStock then n + 1 else MaxStock
  }

  /** `Math.max(0, n - 1)`: one less, but never below zero. */
  function Decremented(n: int): (r: int)
    ensures r >= 0
    ensures n > 0 ==> r == n - 1
    ensures n <= 0 ==> r == 0
    ensures InRange(n) ==> InRange(r)
  {
    if n - 1 > 0 then n - 1 else 0
  }

  /** `k` increments in a row. */
  function IncrementedTimes(n: int, k: nat): int
  {
    if k == 0 then n else Incremented(IncrementedTimes(n, k - 1))
  }

  /** `k` decrements in a row. */
  function DecrementedTimes(n: int, k: nat): int
  {
    if k == 0 then n else Decremented(DecrementedTimes(n, k - 1))
  }

  /** Repeated increments saturate at the maximum: 19 goes to 20, then stays at 20. */
  lemma {:induction false} RepeatedIncrementsSaturate(n: int, k: nat)
    requires InRange(n)
    ensures IncrementedTimes(n, k) == if n + k < MaxStock then n + k else MaxStock
  {
    if k > 0 {
      RepeatedIncrementsSaturate(n, k - 1);
    }
  }

  /** Repeated decrements saturate at zero. */
  lemma {:induction false} RepeatedDecrementsSaturate(n: int, k: nat)
    requires InRange(n)
    ensures DecrementedTimes(n, k) == if n - k > 0 then n - k else 0
  {
    if k > 0 {
      RepeatedDecrementsSaturate(n, k - 1);
    }
  }

  /** Below the maximum, a decrement undoes an increment; above zero, an increment undoes a decrement. */
  lemma AdjustmentsUndoEachOther(n: int)
    ensures 0 <= n < MaxStock ==> Decremented(Incremented(n)) == n
    ensures 0 < n <= MaxStock ==> Incremented(Decremented(n)) == n
  {
  }
}
