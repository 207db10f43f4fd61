/**
 * Products of counts (`len(batch) * n`) are written `Mul(a, n)`, so that the
 * facts the batching proofs need about them are lemmas over one function term
 * rather than nonlinear arithmetic left for the solver to rediscover.
 */
module Arithmetic {

  function Mul(a: nat, n: nat): nat
  {
    a * n
  }

  /** a + b blocks of n are a blocks followed by b blocks. */
  lemma MulAdd(a: nat, b: nat, n: nat)
    ensures Mul(a + b, n) == Mul(a, n) + Mul(b, n)
  {
  }

  /** The first a blocks of b blocks. */
  lemma MulSub(a: nat, b: nat, n: nat)
    requires a <= b
    ensures Mul(a, n) <= Mul(b, n)
    ensures Mul(b, n) - Mul(b - a, n) == Mul(a, n)
  {
    var c := b - a;
    assert b == a + c;
    MulAdd(a, c, n);
  }

  /** Entry r of block q lies below the end of block m when q < m and r < n. */
  lemma MulBelow(q: nat, r: nat, n: nat, m: nat)
    requires q < m && r < n
    ensures Mul(q, n) + r < Mul(m, n)
  {
    MulAdd(q, m - q, n);
  }
}
