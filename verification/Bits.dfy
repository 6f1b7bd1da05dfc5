/** Bitwise operators of C on natural numbers. */
module Bits {

  function Pow2(n: nat): (r: nat)
    ensures r > 0
  {
    if n == 0 then 1 else 2 * Pow2(n - 1)
  }

  /** x & y, bit by bit. */
  function And(x: nat, y: nat): nat {
    if x == 0 then 0 else 2 * And(x / 2, y / 2) + if x % 2 == 1 && y % 2 == 1 then 1 else 0
  }

  /** x & ~y. */
  function AndNot(x: nat, y: nat): nat {
    if x == 0 then 0 else 2 * AndNot(x / 2, y / 2) + if x % 2 == 1 && y % 2 == 0 then 1 else 0
  }

  /** x | y. */
  function Or(x: nat, y: nat): nat
    decreases x + y
  {
    if x == 0 && y == 0 then 0 else 2 * Or(x / 2, y / 2) + if x % 2 == 1 || y % 2 == 1 then 1 else 0
  }

  /** x << k, without an upper bound. */
  function Shl(x: nat, k: nat): nat {
    if k == 0 then x else 2 * Shl(x, k - 1)
  }

  lemma {:induction false} ShlZero(k: nat)
    ensures Shl(0, k) == 0
  {
    if k > 0 { ShlZero(k - 1); }
  }

  /** Masking with k ones keeps the k lowest bits and nothing else. */
  lemma {:induction false} AndOnes(hi: nat, lo: nat, k: nat)
    requires lo < Pow2(k)
    ensures And(Shl(hi, k) + lo, Pow2(k) - 1) == lo
    decreases k
  {
    if k == 0 {
      AndZero(hi);
    } else {
      AndOnes(hi, lo / 2, k - 1);
      assert (Shl(hi, k) + lo) / 2 == Shl(hi, k - 1) + lo / 2;
      assert (Pow2(k) - 1) / 2 == Pow2(k - 1) - 1;
    }
  }

  lemma {:induction false} AndZero(x: nat)
    ensures And(x, 0) == 0
  {
    if x > 0 { AndZero(x / 2); }
  }

  /** Masking with zeros in the k lowest bits: the bits above are kept as the mask says. */
  lemma {:induction false} AndHigh(hi: nat, lo: nat, m: nat, k: nat)
    requires lo < Pow2(k)
    ensures And(Shl(hi, k) + lo, Shl(m, k)) == Shl(And(hi, m), k)
    decreases k
  {
    if k > 0 {
      AndHigh(hi, lo / 2, m, k - 1);
      assert (Shl(hi, k) + lo) / 2 == Shl(hi, k - 1) + lo / 2;
      assert Shl(m, k) / 2 == Shl(m, k - 1);
    }
  }

  /** A part below 2^k and a multiple of 2^k are joined by addition. */
  lemma {:induction false} OrJoins(hi: nat, lo: nat, k: nat)
    requires lo < Pow2(k)
    ensures Or(Shl(hi, k), lo) == Shl(hi, k) + lo
    decreases k
  {
    if k == 0 {
      OrZero(hi);
    } else {
      OrJoins(hi, lo / 2, k - 1);
      assert Shl(hi, k) / 2 == Shl(hi, k - 1);
    }
  }

  lemma {:induction false} OrZero(x: nat)
    ensures Or(x, 0) == x
  {
    if x > 0 { OrZero(x / 2); }
  }
}
