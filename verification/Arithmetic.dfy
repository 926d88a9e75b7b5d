/** Arithmetic that several components rely on. */
module Arithmetic {
  function Min(a: nat, b: nat): nat { if a < b then a else b }

  lemma {:induction false} MultipleIsFar(n: nat, d: nat)
    requires d >= 1
    ensures n * d >= n
  {
    if d > 1 {
      MultipleIsFar(n, d - 1);
      assert n * d == n * (d - 1) + n;
    }
  }

  lemma Distributes(n: int, a: int, b: int)
    ensures n * a + n * b == n * (a + b)
  {
  }

  /** Positions of a ring of n slots that are less than n apart do not share a slot. */
  lemma SlotsDiffer(i: nat, j: nat, n: nat)
    requires i < j && j - i < n
    ensures i % n != j % n
  {
    var p, q := i / n, j / n;
    assert i == n * p + i % n && j == n * q + j % n;
    if p < q {
      MultipleIsFar(n, q - p);
      Distributes(n, p, q - p);
    } else if q < p {
      MultipleIsFar(n, p - q);
      Distributes(n, q, p - q);
    }
  }
}
