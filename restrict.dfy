/** The array loops of 22_Optimizations/restrict.c. `dot0` and `dot1` copy
    `a` into `r`, except that `r` gets 0 where `b` is 0. `dot0` takes
    arrays that may alias. `dot1` promises with `restrict` that they do
    not. `sum_array` adds up a prefix, and `init_array` fills one with
    `i % 3`. The `int` elements are unbounded here. */
module Restrict {
  /** What `dot0` and `dot1` store at one index: `b[i]` (which is 0) when
      `!b[i]`, `a[i]` otherwise. */
  function Masked(x: int, y: int): (r: int)
    ensures r == 0 || r == x
    ensures y != 0 ==> r == x
  {
    if y == 0 then 0 else x
  }

  /** `dot0(a, b, r, size)`: every index below `size` of `r` holds
      `Masked` of the old `a` and `b` at that index, and the rest of `r`
      is untouched. This holds when `r` is `a` too, because each index of
      `a` is read before `r` writes it. Only when `r` is `b` does the copy
      of `a[i]` overwrite the `b[i]` about to be compared, and then `r`
      ends up a copy of `a`. */
  method Dot0(a: array<int>, b: array<int>, r: array<int>, size: nat)
    requires size <= a.Length && size <= b.Length && size <= r.Length
    modifies r
    ensures r != b ==> forall i :: 0 <= i < size ==> r[i] == Masked(old(a[i]), old(b[i]))
    ensures r == b ==> forall i :: 0 <= i < size ==> r[i] == old(a[i])
    ensures forall i :: size <= i < r.Length ==> r[i] == old(r[i])
  {
    var i := 0;
    while i < size
      invariant i <= size
      invariant r != b ==> forall j :: 0 <= j < i ==> r[j] == Masked(old(a[j]), old(b[j]))
      invariant r == b ==> forall j :: 0 <= j < i ==> r[j] == old(a[j])
      invariant forall j :: i <= j < r.Length ==> r[j] == old(r[j])
      invariant forall j :: i <= j < a.Length ==> a[j] == old(a[j])
      invariant forall j :: i <= j < b.Length ==> b[j] == old(b[j])
    {
      r[i] := a[i];
      if b[i] == 0 {
        r[i] := b[i];
      }
      i := i + 1;
    }
  }

  /** `dot1`: the same loop, with `restrict` on the three arrays, which
      here is the precondition that `r` is neither `a` nor `b`; then `a`
      and `b` keep their contents. */
  method Dot1(a: array<int>, b: array<int>, r: array<int>, size: nat)
    requires size <= a.Length && size <= b.Length && size <= r.Length
    requires r != a && r != b
    modifies r
    ensures forall i :: 0 <= i < size ==> r[i] == Masked(a[i], b[i])
    ensures forall i :: size <= i < r.Length ==> r[i] == old(r[i])
  {
    Dot0(a, b, r, size);
  }

  /** The sum of a sequence, adding from the front as `sum_array` does. */
  function Sum(s: seq<int>): int
  {
    if |s| == 0 then 0 else Sum(s[..|s| - 1]) + s[|s| - 1]
  }

  /** `sum_array(a, size)`: the sum of the first `size` elements. */
  method SumArray(a: array<int>, size: nat) returns (sum: int)
    requires size <= a.Length
    ensures sum == Sum(a[..size])
  {
    sum := 0;
    var i := 0;
    while i < size
      invariant i <= size && sum == Sum(a[..i])
    {
      assert a[..i + 1][..i] == a[..i];
      sum := sum + a[i];
      i := i + 1;
    }
  }

  /** `init_array(a, size)`: index i below `size` holds `i % 3`; the rest
      of `a` is untouched. */
  method InitArray(a: array<int>, size: nat)
    requires size <= a.Length
    modifies a
    ensures forall i :: 0 <= i < size ==> a[i] == i % 3
    ensures forall i :: size <= i < a.Length ==> a[i] == old(a[i])
  {
    var i := 0;
    while i < size
      invariant i <= size
      invariant forall j :: 0 <= j < i ==> a[j] == j % 3
      invariant forall j :: i <= j < a.Length ==> a[j] == old(a[j])
    {
      a[i] := i % 3;
      i := i + 1;
    }
  }

  /** The contents `init_array` writes. */
  function Cycle3(n: nat): (s: seq<int>)
    ensures |s| == n && forall i :: 0 <= i < n ==> s[i] == i % 3
  {
    seq(n, i => i % 3)
  }

  /** What `sum_array` gives after `init_array`: each full round of 0, 1,
      2 adds 3, and a tail of two adds 1 more. */
  lemma {:induction false} SumCycle3(n: nat)
    ensures Sum(Cycle3(n)) == 3 * (n / 3) + (if n % 3 == 2 then 1 else 0)
  {
    if n > 0 {
      SumCycle3(n - 1);
      assert Cycle3(n)[..n - 1] == Cycle3(n - 1);
    }
  }
}
