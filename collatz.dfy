/** `collatz` of 22_Optimizations/collatz.c: the number of Collatz steps
    from n down to 1. Whether every positive n gets there is open, so the
    model asks of its caller that n does. */
module Collatz {
  /** One step: halve an even n, else 3n + 1. For an even n, C's `/`,
      which truncates, agrees with Dafny's; and C's `n % 2 == 0` holds
      exactly when Dafny's does, for negative n too. */
  function Step(n: int): int
  {
    if n % 2 == 0 then n / 2 else 3 * n + 1
  }

  /** n after k steps. */
  function Iterate(n: int, k: nat): int
  {
    if k == 0 then n else Step(Iterate(n, k - 1))
  }

  /** `collatz(n)`: the least number of steps after which n is 1. The
      loop ends only for an n that reaches 1. */
  method Collatz(n: int) returns (its: nat)
    requires exists k: nat :: Iterate(n, k) == 1
    ensures Iterate(n, its) == 1
    ensures forall j: nat :: j < its ==> Iterate(n, j) != 1
  {
    ghost var k: nat :| Iterate(n, k) == 1;
    var m := n;
    its := 0;
    while m != 1
      invariant m == Iterate(n, its) && its <= k
      invariant forall j: nat :: j < its ==> Iterate(n, j) != 1
      decreases k - its
    {
      its := its + 1;
      if m % 2 == 0 {
        m := m / 2;
      } else {
        m := 3 * m + 1;
      }
    }
  }

  /** The loop never ends for n of at most 0: no step leaves the
      non-positive numbers (0 stays 0, -1 and -2 alternate). */
  lemma {:induction false} NonPositiveStays(n: int, k: nat)
    requires n <= 0
    ensures Iterate(n, k) <= 0
  {
    if k > 0 {
      NonPositiveStays(n, k - 1);
    }
  }

  /** 6 takes 8 steps: 6, 3, 10, 5, 16, 8, 4, 2, 1. */
  lemma {:induction false} SixSteps()
    ensures Iterate(6, 8) == 1
    ensures forall j: nat :: j < 8 ==> Iterate(6, j) != 1
  {
    assert Iterate(6, 1) == 3 && Iterate(6, 2) == 10 && Iterate(6, 3) == 5 && Iterate(6, 4) == 16;
    assert Iterate(6, 5) == 8 && Iterate(6, 6) == 4 && Iterate(6, 7) == 2;
  }

  /** `main` returns `collatz(6)`, which is 8. */
  method SixReturn() returns (r: nat)
    ensures r == 8
  {
    SixSteps();
    r := Collatz(6);
  }

  /** `collatz(1)` is 0: the loop does not run. */
  method OneReturn() returns (r: nat)
    ensures r == 0
  {
    assert Iterate(1, 0) == 1;
    r := Collatz(1);
  }
}
