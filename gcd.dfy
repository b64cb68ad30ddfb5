/** `gcd` of 17_MemoryAllocation/gcd.c: Euclid's algorithm by repeated
    subtraction, written as a recursion whose only effect is to store the
    result in the global `answer` when both arguments meet. */
module Gcd {
  function Mul(a: int, b: int): int
  {
    a * b
  }

  /** `d` divides `x`: x is d times some k. */
  ghost predicate Divides(d: int, x: int)
  {
    exists k :: Mul(d, k) == x
  }

  /** `g` is the greatest common divisor of m and n: a positive common
      divisor that every positive common divisor is at most. */
  ghost predicate IsGcd(g: int, m: int, n: int)
  {
    g > 0 && Divides(g, m) && Divides(g, n) &&
    forall d :: 0 < d && Divides(d, m) && Divides(d, n) ==> d <= g
  }

  /** A common divisor of m and n divides m - n, and a common divisor of
      n and m - n divides m. */
  lemma {:induction false} DividesDifference(d: int, m: int, n: int)
    ensures Divides(d, m) && Divides(d, n) <==> Divides(d, n) && Divides(d, m - n)
  {
    if Divides(d, m) && Divides(d, n) {
      var a :| Mul(d, a) == m;
      var b :| Mul(d, b) == n;
      assert Mul(d, a - b) == m - n;
    }
    if Divides(d, n) && Divides(d, m - n) {
      var b :| Mul(d, b) == n;
      var c :| Mul(d, c) == m - n;
      assert Mul(d, b + c) == m;
    }
  }

  /** m and n have the greatest common divisor that n and m - n have. */
  lemma {:induction false} GcdOfDifference(g: int, m: int, n: int)
    requires IsGcd(g, n, m - n)
    ensures IsGcd(g, m, n)
  {
    DividesDifference(g, m, n);
    forall d | 0 < d && Divides(d, m) && Divides(d, n)
      ensures d <= g
    {
      DividesDifference(d, m, n);
    }
  }

  /** A positive m is its own greatest common divisor with itself. */
  lemma {:induction false} GcdOfSelf(m: int)
    requires m > 0
    ensures IsGcd(m, m, m)
  {
    assert Mul(m, 1) == m;
    forall d | 0 < d && Divides(d, m)
      ensures d <= m
    {
      var k :| Mul(d, k) == m;
      if k > 0 {
        assert d * k == d + d * (k - 1);
        assert d * (k - 1) >= 0;
      }
    }
  }

  /** The greatest common divisor is one number, whatever the order of
      the arguments. */
  lemma {:induction false} GcdUnique(g: int, h: int, m: int, n: int)
    requires IsGcd(g, m, n) && IsGcd(h, n, m)
    ensures g == h
  {
    assert g <= h && h <= g;
  }

  /** The program's global state. */
  class Program {
    /** The global `answer`, 0 before any call. */
    var answer: int

    constructor ()
      ensures answer == 0
    {
      answer := 0;
    }

    /** `gcd(m, n)`: `answer` ends up the greatest common divisor of m and
        n. Equal arguments stop at once, whatever their sign; otherwise the
        arguments must be positive, since with a 0 or a negative one the
        recursion never ends. */
    method Gcd(m: int, n: int)
      requires (m > 0 && n > 0) || m == n
      modifies this
      ensures m == n ==> answer == m
      ensures m > 0 && n > 0 ==> IsGcd(answer, m, n)
      decreases m + n, if n > m then 1 else 0
    {
      if n > m {
        Gcd(n, m);
      } else if m == n {
        if m > 0 {
          GcdOfSelf(m);
        }
        answer := m;
      } else {
        var aux := m - n;
        Gcd(n, aux);
        GcdOfDifference(answer, m, n);
      }
    }
  }
}
