/**
 * Python's bitwise operators `<<`, `|` and `^` on non-negative integers,
 * defined bit by bit, and the facts about them the decoder relies on.
 */
module BitOps {

  function Pow2(k: nat): (r: nat)
    ensures r >= 1
  {
    if k == 0 then 1 else 2 * Pow2(k - 1)
  }

  /** `a << k` */
  function ShiftLeft(a: nat, k: nat): nat {
    a * Pow2(k)
  }

  /** `a | b`: bit i of the result is set when bit i of a or of b is set. */
  function Or(a: nat, b: nat): nat
    decreases a + b
  {
    if a == 0 && b == 0 then 0
    else 2 * Or(a / 2, b / 2) + (if a % 2 == 1 || b % 2 == 1 then 1 else 0)
  }

  /** `a ^ b`: bit i of the result is set when exactly one of the bits i of a and b is set. */
  function Xor(a: nat, b: nat): nat
    decreases a + b
  {
    if a == 0 && b == 0 then 0
    else 2 * Xor(a / 2, b / 2) + (if a % 2 != b % 2 then 1 else 0)
  }

  /** `a | 0 == a` */
  lemma {:induction false} OrZero(a: nat)
    ensures Or(a, 0) == a
  {
    if a != 0 {
      OrZero(a / 2);
    }
  }

  /**
   * When b fits below bit k, `(a << k) | b` sets disjoint bits and equals
   * the sum a * 2^k + b.
   */
  lemma {:induction false} OrDisjoint(a: nat, k: nat, b: nat)
    requires b < Pow2(k)
    ensures Or(ShiftLeft(a, k), b) == ShiftLeft(a, k) + b
  {
    if k == 0 {
      OrZero(a);
    } else {
      var s := ShiftLeft(a, k);
      assert s == 2 * ShiftLeft(a, k - 1);
      if s == 0 && b == 0 {
      } else {
        assert s / 2 == ShiftLeft(a, k - 1) && s % 2 == 0;
        OrDisjoint(a, k - 1, b / 2);
      }
    }
  }

  /** XOR with the all-ones mask of k bits complements a k-bit value. */
  lemma {:induction false} XorAllOnes(x: nat, k: nat)
    requires x < Pow2(k)
    ensures Xor(x, Pow2(k) - 1) == Pow2(k) - 1 - x
  {
    if k > 0 {
      var m := Pow2(k) - 1;
      assert m / 2 == Pow2(k - 1) - 1 && m % 2 == 1;
      XorAllOnes(x / 2, k - 1);
    }
  }
}
