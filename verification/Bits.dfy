/**
 Machine words as natural numbers. The bit operators are defined digit by digit, so that a
 source expression such as `w | 1 << b` is written with the operator the source uses and its
 arithmetic meaning is a lemma.
 */
module Bits {
  type Byte = x: int | 0 <= x < 256
  type Uint16 = x: int | 0 <= x < 0x1_0000

  const WORD32: nat := 0x1_0000_0000
  const WORD64: nat := 0x1_0000_0000_0000_0000

  function Pow2(n: nat): (p: nat)
    ensures p >= 1
  {
    if n == 0 then 1 else 2 * Pow2(n - 1)
  }

  predicate Bit(w: nat, i: nat) {
    if i == 0 then w % 2 == 1 else Bit(w / 2, i - 1)
  }

  function Or(a: nat, b: nat): nat
    decreases a + b
  {
    if a == 0 && b == 0 then 0
    else 2 * Or(a / 2, b / 2) + if a % 2 == 1 || b % 2 == 1 then 1 else 0
  }

  function And(a: nat, b: nat): nat
    decreases a + b
  {
    if a == 0 && b == 0 then 0
    else 2 * And(a / 2, b / 2) + if a % 2 == 1 && b % 2 == 1 then 1 else 0
  }

  function Xor(a: nat, b: nat): nat
    decreases a + b
  {
    if a == 0 && b == 0 then 0
    else 2 * Xor(a / 2, b / 2) + if a % 2 != b % 2 then 1 else 0
  }

  lemma {:induction false} BitOfZero(i: nat)
    ensures !Bit(0, i)
  {
    if i > 0 {
      BitOfZero(i - 1);
    }
  }

  /** The bits of `a | b` are the bits of either operand. */
  lemma {:induction false} BitOr(a: nat, b: nat, i: nat)
    ensures Bit(Or(a, b), i) == (Bit(a, i) || Bit(b, i))
  {
    if a == 0 && b == 0 {
      BitOfZero(i);
    } else if i > 0 {
      BitOr(a / 2, b / 2, i - 1);
    }
  }

  /** `1 << n` has exactly the bit `n`. */
  lemma {:induction false} BitPow2(n: nat, i: nat)
    ensures Bit(Pow2(n), i) == (i == n)
  {
    if n == 0 {
      if i > 0 {
        BitOfZero(i - 1);
      }
    } else if i > 0 {
      BitPow2(n - 1, i - 1);
    }
  }

  lemma {:induction false} AndZero(a: nat)
    ensures And(a, 0) == 0
  {
    if a > 0 {
      AndZero(a / 2);
    }
  }

  /** `w & (1 << i) == 0` tests bit `i`. */
  lemma {:induction false} TestBit(w: nat, i: nat)
    ensures (And(w, Pow2(i)) == 0) == !Bit(w, i)
  {
    if i == 0 {
      AndZero(w / 2);
    } else {
      TestBit(w / 2, i - 1);
      assert Pow2(i) / 2 == Pow2(i - 1) && Pow2(i) % 2 == 0;
    }
  }

  lemma AndOdd(a: nat, q: nat)
    requires q >= 1
    ensures And(a, 2 * q - 1) == 2 * And(a / 2, q - 1) + a % 2
  {
    assert (2 * q - 1) / 2 == q - 1 && (2 * q - 1) % 2 == 1;
  }

  /** Masking with the low `n` bits keeps the remainder modulo `2^n`. */
  lemma {:induction false} MaskRemainder(a: nat, n: nat, k: nat, r: nat)
    requires a == Pow2(n) * k + r && r < Pow2(n)
    ensures And(a, Pow2(n) - 1) == r
  {
    if n == 0 {
      AndZero(a);
    } else {
      var q := Pow2(n - 1);
      assert a == 2 * (q * k) + r;
      MaskRemainder(a / 2, n - 1, k, r / 2);
      AndOdd(a, q);
    }
  }

  /** Masking with 0x7F keeps the remainder modulo 128. */
  lemma MaskSeven(u: nat)
    ensures And(u, 0x7F) == u % 128
  {
    assert Pow2(7) == 128;
    MaskRemainder(u, 7, u / 128, u % 128);
  }

  /** The highest bit of a number of at most `i + 1` bits. */
  lemma {:induction false} TopBit(w: nat, i: nat)
    requires w < Pow2(i + 1)
    ensures Bit(w, i) == (Pow2(i) <= w)
  {
    if i > 0 {
      TopBit(w / 2, i - 1);
    }
  }

  lemma {:induction false} OrZero(b: nat)
    ensures Or(0, b) == b
  {
    if b > 0 {
      OrZero(b / 2);
    }
  }

  /** Or-ing a value above the bits in use is an addition. */
  lemma {:induction false} OrDisjoint(a: nat, x: nat, s: nat)
    requires a < Pow2(s)
    ensures Or(a, x * Pow2(s)) == a + x * Pow2(s)
  {
    if s == 0 {
      OrZero(x);
    } else {
      var b := x * Pow2(s);
      assert b == 2 * (x * Pow2(s - 1));
      OrDisjoint(a / 2, x, s - 1);
    }
  }

  lemma {:induction false} Pow2Add(a: nat, b: nat)
    ensures Pow2(a + b) == Pow2(a) * Pow2(b)
  {
    if a > 0 {
      Pow2Add(a - 1, b);
    }
  }

  /** Or-ing never needs more digits than its operands have. */
  lemma {:induction false} OrBound(a: nat, b: nat, s: nat)
    requires a < Pow2(s) && b < Pow2(s)
    ensures Or(a, b) < Pow2(s)
  {
    if s == 0 {
    } else if a > 0 || b > 0 {
      OrBound(a / 2, b / 2, s - 1);
    }
  }

  /** Exclusive or undoes itself. */
  lemma {:induction false} XorTwice(a: nat, b: nat)
    ensures Xor(a, Xor(a, b)) == b
    decreases a + b
  {
    if a > 0 || b > 0 {
      var x := Xor(a, b);
      assert x / 2 == Xor(a / 2, b / 2);
      if a == 0 && x == 0 {
        XorTwice(a / 2, b / 2);
      } else {
        XorTwice(a / 2, b / 2);
      }
    }
  }

  lemma {:induction false} XorBound(a: nat, b: nat, s: nat)
    requires a < Pow2(s) && b < Pow2(s)
    ensures Xor(a, b) < Pow2(s)
    decreases s
  {
    if s > 0 {
      XorBound(a / 2, b / 2, s - 1);
    }
  }

  lemma {:induction false} Pow2Grows(a: nat, b: nat)
    requires a < b
    ensures 2 * Pow2(a) <= Pow2(b)
  {
    if a + 1 < b {
      Pow2Grows(a, b - 1);
    }
  }

  lemma Pow2OfWords()
    ensures Pow2(32) == WORD32 && Pow2(64) == WORD64
  {
    assert Pow2(8) == 256;
    assert Pow2(16) == 256 * 256 by { Pow2Add(8, 8); }
    assert Pow2(32) == 65536 * 65536 by { Pow2Add(16, 16); }
    Pow2Add(32, 32);
  }
}
