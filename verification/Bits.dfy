/** Binary digits of natural numbers. */
module Bits {

  function Pow2(bits: nat): (p: int)
    ensures p > 0
  {
    if bits == 0 then 1 else 2 * Pow2(bits - 1)
  }

  lemma {:induction false} Pow2Sum(a: nat, b: nat)
    ensures Pow2(a + b) == Pow2(a) * Pow2(b)
  {
    if a > 0 { Pow2Sum(a - 1, b); }
  }

  lemma Pow2Values()
    ensures Pow2(31) == 2147483648 && Pow2(32) == 4294967296
    ensures Pow2(63) == 9223372036854775808 && Pow2(64) == 18446744073709551616
  {
    Pow2Sum(4, 4);
    Pow2Sum(8, 8);
    Pow2Sum(16, 16);
    Pow2Sum(32, 32);
    assert Pow2(4) == 16 && Pow2(8) == 256 && Pow2(16) == 65536 && Pow2(32) == 4294967296;
    assert Pow2(32) == 2 * Pow2(31) && Pow2(64) == 2 * Pow2(63);
  }

  /** Is the j-th binary digit a 1? */
  predicate BitAt(a: nat, j: nat) {
    if j == 0 then a % 2 == 1 else BitAt(a / 2, j - 1)
  }

  /** Bitwise or. */
  function Or(a: nat, b: nat): nat
    decreases a + b
  {
    if a == 0 then b
    else if b == 0 then a
    else 2 * Or(a / 2, b / 2) + (if a % 2 == 1 || b % 2 == 1 then 1 else 0)
  }

  lemma {:induction false} ZeroBits(j: nat)
    ensures !BitAt(0, j)
  {
    if j > 0 { ZeroBits(j - 1); }
  }

  lemma {:induction false} OrBits(a: nat, b: nat, j: nat)
    ensures BitAt(Or(a, b), j) <==> BitAt(a, j) || BitAt(b, j)
    decreases j
  {
    ZeroBits(j);
    if a != 0 && b != 0 && j > 0 {
      assert Or(a, b) / 2 == Or(a / 2, b / 2);
      OrBits(a / 2, b / 2, j - 1);
    }
  }

  lemma {:induction false} Pow2Bits(k: nat, j: nat)
    ensures BitAt(Pow2(k), j) <==> j == k
  {
    if k == 0 {
      if j > 0 { ZeroBits(j - 1); }
    } else if j > 0 {
      assert Pow2(k) / 2 == Pow2(k - 1);
      Pow2Bits(k - 1, j - 1);
    }
  }

  /** Numbers with the same digits are the same. */
  lemma {:induction false} SameBits(a: nat, b: nat)
    requires forall j: nat :: BitAt(a, j) <==> BitAt(b, j)
    ensures a == b
    decreases a + b
  {
    assert BitAt(a, 0) <==> BitAt(b, 0);
    if a + b > 0 {
      forall j: nat ensures BitAt(a / 2, j) <==> BitAt(b / 2, j) {
        assert BitAt(a, j + 1) <==> BitAt(b, j + 1);
      }
      SameBits(a / 2, b / 2);
    }
  }
}
