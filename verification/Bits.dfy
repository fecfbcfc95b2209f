/** Bitwise operations on naturals of any width, and what they do to single bits. */
module Bits {

  function Pow2(n: nat): (p: nat)
    ensures p >= 1
  {
    if n == 0 then 1 else 2 * Pow2(n - 1)
  }

  predicate Bit(v: nat, i: nat) {
    if i == 0 then v % 2 == 1 else Bit(v / 2, i - 1)
  }

  function Or(a: nat, b: nat): nat {
    if a == 0 && b == 0 then 0
    else 2 * Or(a / 2, b / 2) + (if a % 2 == 1 || b % 2 == 1 then 1 else 0)
  }

  function Shl(v: nat, n: nat): nat {
    if n == 0 then v else 2 * Shl(v, n - 1)
  }

  function Shr(v: nat, n: nat): nat {
    if n == 0 then v else Shr(v / 2, n - 1)
  }

  /** The `n` lowest bits. */
  function Low(v: nat, n: nat): (r: nat)
    ensures r < Pow2(n)
  {
    if n == 0 then 0 else 2 * Low(v / 2, n - 1) + v % 2
  }

  /** The `n` lowest bits in the opposite order. */
  function Reversed(v: nat, n: nat): (r: nat)
    ensures r < Pow2(n)
  {
    if n == 0 then 0 else (v % 2) * Pow2(n - 1) + Reversed(v / 2, n - 1)
  }

  lemma {:induction false} ZeroBits(i: nat)
    ensures !Bit(0, i)
  {
    if i > 0 {
      ZeroBits(i - 1);
    }
  }

  lemma {:induction false} OrBits(a: nat, b: nat, i: nat)
    ensures Bit(Or(a, b), i) <==> Bit(a, i) || Bit(b, i)
  {
    if a == 0 && b == 0 {
      ZeroBits(i);
    } else if i > 0 {
      OrBits(a / 2, b / 2, i - 1);
    }
  }

  lemma {:induction false} ShlBits(v: nat, n: nat, i: nat)
    ensures Bit(Shl(v, n), i) <==> n <= i && Bit(v, i - n)
  {
    if n > 0 && i > 0 {
      ShlBits(v, n - 1, i - 1);
    }
  }

  lemma {:induction false} ShrBits(v: nat, n: nat, i: nat)
    ensures Bit(Shr(v, n), i) <==> Bit(v, n + i)
  {
    if n > 0 {
      ShrBits(v / 2, n - 1, i);
    }
  }

  lemma {:induction false} LowBits(v: nat, n: nat, i: nat)
    ensures Bit(Low(v, n), i) <==> i < n && Bit(v, i)
  {
    if n == 0 {
      ZeroBits(i);
    } else if i > 0 {
      LowBits(v / 2, n - 1, i - 1);
    }
  }

  /** A value below 2^n with 2^n added to it: the sum of its bits and bit `n`. */
  lemma {:induction false} TopBit(v: nat, n: nat, top: nat, i: nat)
    requires v < Pow2(n) && top <= 1
    ensures Bit(top * Pow2(n) + v, i) <==> (i == n && top == 1) || (i < n && Bit(v, i))
  {
    if n == 0 {
      if i > 0 {
        ZeroBits(i - 1);
      }
    } else if i > 0 {
      assert (top * Pow2(n) + v) / 2 == top * Pow2(n - 1) + v / 2;
      TopBit(v / 2, n - 1, top, i - 1);
    }
  }

  lemma {:induction false} ReversedBits(v: nat, n: nat, i: nat)
    ensures Bit(Reversed(v, n), i) <==> i < n && Bit(v, n - 1 - i)
  {
    if n == 0 {
      ZeroBits(i);
    } else {
      TopBit(Reversed(v / 2, n - 1), n - 1, v % 2, i);
      ReversedBits(v / 2, n - 1, i);
    }
  }

  lemma {:induction false} OrZero(a: nat)
    ensures Or(a, 0) == a && Or(0, a) == a
  {
    if a > 0 {
      OrZero(a / 2);
    }
  }

  /** Or-ing in bits below a shifted value adds them. */
  lemma {:induction false} OrBelow(a: nat, b: nat, n: nat)
    requires b < Pow2(n)
    ensures Or(a * Pow2(n), b) == a * Pow2(n) + b
  {
    if n == 0 {
      OrZero(a);
    } else {
      var half := a * Pow2(n - 1);
      assert a * Pow2(n) == 2 * half;
      OrBelow(a, b / 2, n - 1);
      assert Or(2 * half, b) == 2 * Or(half, b / 2) + b % 2;
    }
  }

  /** Or-ing keeps within `n` bits. */
  lemma {:induction false} OrFits(a: nat, b: nat, n: nat)
    requires a < Pow2(n) && b < Pow2(n)
    ensures Or(a, b) < Pow2(n)
  {
    if n > 0 && (a > 0 || b > 0) {
      OrFits(a / 2, b / 2, n - 1);
    }
  }

  lemma Doubled(a: nat, b: nat)
    ensures 2 * (a * b) == (2 * a) * b
  {
  }

  lemma {:induction false} Pow2Sum(m: nat, n: nat)
    ensures Pow2(m + n) == Pow2(m) * Pow2(n)
  {
    if m > 0 {
      Pow2Sum(m - 1, n);
      Doubled(Pow2(m - 1), Pow2(n));
    }
  }

  lemma Pow2Of64()
    ensures Pow2(16) == 0x1_0000 && Pow2(64) == 0x1_0000_0000_0000_0000
  {
    assert Pow2(8) == 256;
    Pow2Sum(8, 8);
    Pow2Sum(16, 16);
    Pow2Sum(32, 32);
  }
}
