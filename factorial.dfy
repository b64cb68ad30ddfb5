/** `fact` of 14_CodeGeneration/factorial.c: a loop that multiplies `r`
    by each number below `n`, starting from `r = n`. */
module FactorialLoop {
  /** n!, with 0! = 1. */
  function Factorial(n: nat): (r: nat)
    ensures r >= 1
  {
    if n == 0 then 1 else n * Factorial(n - 1)
  }

  /** `fact(n)`: n! for every n of at least 1. For n of at most 1 the loop
      does not run and `fact` gives n back, so `fact(0)` is 0, not 0!. */
  method Fact(n: int) returns (r: int)
    ensures n <= 1 ==> r == n
    ensures n >= 1 ==> r == Factorial(n)
  {
    r := n;
    var m := n;
    while m > 1
      invariant n <= 1 ==> m == n && r == n
      invariant n > 1 ==> 1 <= m <= n && r * Factorial(m - 1) == Factorial(n)
      decreases m
    {
      LoopStep(r, m, n);
      m := m - 1;
      r := r * m;
    }
  }

  /** One round of the loop keeps r · (m - 1)! = n!. */
  lemma {:induction false} LoopStep(r: int, m: int, n: nat)
    requires m >= 2 && r * Factorial(m - 1) == Factorial(n)
    ensures (r * (m - 1)) * Factorial(m - 2) == Factorial(n)
  {
    var f := Factorial(m - 2);
    assert Factorial(m - 1) == (m - 1) * f;
    assert r * ((m - 1) * f) == (r * (m - 1)) * f;
  }

  /** The factorial grows with n. */
  lemma {:induction false} FactorialMonotone(i: nat, j: nat)
    requires i <= j
    ensures Factorial(i) <= Factorial(j)
    decreases j
  {
    if i < j {
      FactorialMonotone(i, j - 1);
    }
  }

  /** `fact` gives the right value in a 32-bit `int` exactly up to 12:
      12! fits and 13! does not. */
  lemma {:induction false} FactorialFitsInt(n: nat)
    ensures n <= 12 ==> Factorial(n) < 0x8000_0000
    ensures n >= 13 ==> Factorial(n) >= 0x8000_0000
  {
    assert Factorial(12) == 479001600;
    assert Factorial(13) == 6227020800;
    if n <= 12 {
      FactorialMonotone(n, 12);
    } else {
      FactorialMonotone(13, n);
    }
  }

  /** The values `main` prints: 3! = 6, 6! = 720, 10! = 3628800. */
  lemma {:induction false} FactorialExamples()
    ensures Factorial(3) == 6 && Factorial(6) == 720 && Factorial(10) == 3628800
  {
    assert Factorial(6) == 720;
  }
}

/** `dy_fact` of 16_FunctionCodeGen/fact.c: the same factorial, by
    recursion on a local `result`. */
module FunctionFact {
  import opened FactorialLoop

  /** `dy_fact(n)`. */
  function DyFact(n: int): int
  {
    if n <= 1 then n else n * DyFact(n - 1)
  }

  /** `dy_fact` agrees with `fact` of 14_CodeGeneration/factorial.c for
      every argument: n for n of at most 1, n! from 1 on. */
  lemma {:induction false} DyFactIsFact(n: int)
    ensures n >= 1 ==> DyFact(n) == Factorial(n)
    ensures n <= 1 ==> DyFact(n) == n
  {
    if n > 1 {
      DyFactIsFact(n - 1);
    }
  }
}
