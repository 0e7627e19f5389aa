/**
 The capacity schedule of `cpplab::vector`: every growth step (`reallocate`)
 takes the capacity from 0 to 1 and otherwise doubles it.
 */
module Growth {

  /** Capacity after one growth step. */
  function Grow(capacity: nat): (r: nat)
    ensures r > capacity
  {
    if capacity == 0 then 1 else 2 * capacity
  }

  /** Capacity reached by growing `capacity` one step at a time until `n` elements fit. */
  function Fit(capacity: nat, n: nat): (r: nat)
    ensures r >= n && r >= capacity
    ensures r == capacity || r < 2 * n
    decreases if n > capacity then n - capacity else 0
  {
    if n <= capacity then capacity else Fit(Grow(capacity), n)
  }

  /** Number of growth steps taken by `Fit(capacity, n)`. */
  function Steps(capacity: nat, n: nat): nat
    decreases if n > capacity then n - capacity else 0
  {
    if n <= capacity then 0 else 1 + Steps(Grow(capacity), n)
  }

  function Pow2(k: nat): (r: nat)
    ensures r >= 1
  {
    if k == 0 then 1 else 2 * Pow2(k - 1)
  }

  /** Growing to `m` in one go is growing to `n <= m` first and then on to `m`. */
  lemma {:induction false} FitCompose(capacity: nat, n: nat, m: nat)
    requires n <= m
    ensures Fit(capacity, m) == Fit(Fit(capacity, n), m)
    ensures Steps(capacity, m) == Steps(capacity, n) + Steps(Fit(capacity, n), m)
    decreases if n > capacity then n - capacity else 0
  {
    if n > capacity {
      FitCompose(Grow(capacity), n, m);
    }
  }

  /** One more element needs one more growth step exactly when the buffer is full. */
  lemma {:induction false} FitNext(capacity: nat, n: nat)
    ensures Fit(capacity, n + 1) ==
      (if n >= Fit(capacity, n) then Grow(Fit(capacity, n)) else Fit(capacity, n))
    ensures Steps(capacity, n + 1) ==
      Steps(capacity, n) + (if n >= Fit(capacity, n) then 1 else 0)
  {
    FitCompose(capacity, n, n + 1);
  }

  /** From a non-zero capacity, every capacity reached is that capacity times a power of two. */
  lemma {:induction false} FitIsScaledPower(capacity: nat, n: nat)
    requires capacity > 0
    ensures Fit(capacity, n) == capacity * Pow2(Steps(capacity, n))
    decreases if n > capacity then n - capacity else 0
  {
    if n > capacity {
      FitIsScaledPower(Grow(capacity), n);
      calc {
        Fit(capacity, n);
        Fit(2 * capacity, n);
        2 * capacity * Pow2(Steps(2 * capacity, n));
        capacity * (2 * Pow2(Steps(2 * capacity, n)));
        capacity * Pow2(Steps(capacity, n));
      }
    }
  }

  /**
   Starting from an empty vector, holding `n > 0` elements takes `k = Steps(0, n)`
   growth steps, and the capacity is then `2^(k-1)`, the least power of two that is
   at least `n`; hence `k <= ceil(log2 n) + 1`.
   */
  lemma GrowthFromEmpty(n: nat)
    requires n > 0
    ensures Steps(0, n) >= 1
    ensures Fit(0, n) == Pow2(Steps(0, n) - 1)
    ensures n <= Pow2(Steps(0, n) - 1) < 2 * n
  {
    FitIsScaledPower(1, n);
  }
}
