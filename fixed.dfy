/**
 * Machine integers of the AVR target and the shift operators the synthesiser
 * uses on them. On AVR `int` is 16 bits wide, so every intermediate value of
 * the source's expressions is a 16-bit quantity; the models below make each
 * truncation and each wrap-around explicit with `%`.
 */
module Fixed {

  type uint8 = x: int | 0 <= x < 0x100
  type uint16 = x: int | 0 <= x < 0x1_0000
  type int8 = x: int | -0x80 <= x < 0x80
  type int16 = x: int | -0x8000 <= x < 0x8000

  /** 2 to the power n. */
  function Pow2(n: nat): (r: nat)
    ensures r >= 1
  {
    if n == 0 then 1 else 2 * Pow2(n - 1)
  }

  lemma {:induction false} Pow2Monotone(m: nat, n: nat)
    requires m <= n
    ensures Pow2(m) <= Pow2(n)
    decreases n
  {
    if m < n {
      Pow2Monotone(m, n - 1);
    }
  }

  lemma Pow2Fifteen()
    ensures Pow2(15) == 32768
  {
    assert Pow2(3) == 8;
    assert Pow2(6) == 64;
    assert Pow2(9) == 512;
    assert Pow2(12) == 4096;
  }

  /** Logical right shift `x >> n` of a non-negative value: n halvings, each rounding down. */
  function Shr(x: nat, n: nat): (r: nat)
    ensures r <= x
  {
    if n == 0 then x else Shr(x / 2, n - 1)
  }

  /** Shifting right by n is dividing by 2^n, rounding down. */
  lemma {:induction false} ShrIsDivision(x: nat, n: nat)
    ensures Shr(x, n) * Pow2(n) <= x < Shr(x, n) * Pow2(n) + Pow2(n)
    ensures Shr(x, n) == x / Pow2(n)
  {
    var r := Shr(x, n);
    if n > 0 {
      ShrIsDivision(x / 2, n - 1);
      var half := Pow2(n - 1);
      assert Pow2(n) == 2 * half;
      MulDouble(r, half);
    }
    DivUnique(x, Pow2(n), r, x - r * Pow2(n));
  }

  lemma MulDouble(a: nat, b: nat)
    ensures a * (2 * b) == 2 * (a * b)
  {
  }

  /** Multiplication by a natural factor preserves order. */
  lemma MulLe(a: nat, b: nat, c: nat)
    requires a <= b
    ensures a * c <= b * c
  {
    assert b * c == a * c + (b - a) * c;
  }

  /** Division is determined by any quotient and remainder that fit. */
  lemma DivUnique(a: nat, d: nat, q: nat, rem: nat)
    requires d >= 1 && a == d * q + rem && rem < d
    ensures a / d == q
  {
    var q' := a / d;
    assert d * q' <= a < d * q' + d;
    assert d * q <= a < d * q + d;
    MulLess(d, q', q + 1);
    MulLess(d, q, q' + 1);
  }

  /** Multiplication by a positive factor reflects strict order. */
  lemma MulLess(d: nat, x: nat, y: nat)
    requires d >= 1 && d * x < d * y
    ensures x < y
  {
    if x >= y {
      assert false;
    }
  }

  /** A shift is monotone in the shifted value. */
  lemma {:induction false} ShrMonotone(x: nat, y: nat, n: nat)
    requires x <= y
    ensures Shr(x, n) <= Shr(y, n)
  {
    if n > 0 {
      ShrMonotone(x / 2, y / 2, n - 1);
    }
  }

  /** A shift is antitone in the shift distance. */
  lemma {:induction false} ShrAntitone(x: nat, m: nat, n: nat)
    requires m <= n
    ensures Shr(x, n) <= Shr(x, m)
    decreases n
  {
    if m < n {
      // Shr(x, n) == Shr(x / 2, n - 1) <= Shr(x, n - 1) <= Shr(x, m)
      ShrMonotone(x / 2, x, n - 1);
      ShrAntitone(x, m, n - 1);
      assert Shr(x, n) == Shr(x / 2, n - 1);
    }
  }

  /** Shifting a value of at least 2^n right by n leaves at least 1. */
  lemma {:induction false} ShrPositive(x: nat, n: nat)
    requires x >= Pow2(n)
    ensures Shr(x, n) >= 1
  {
    if n > 0 {
      ShrPositive(x / 2, n - 1);
    }
  }

  /** Bitwise or `a | b` of two non-negative values. */
  function BitOr(a: nat, b: nat): (r: nat)
    ensures r <= a + b
    decreases a + b
  {
    if a == 0 then b
    else if b == 0 then a
    else 2 * BitOr(a / 2, b / 2) + (if a % 2 == 1 || b % 2 == 1 then 1 else 0)
  }

  /** Or-ing a value below 2^n into a multiple of 2^n adds it: the bits do not overlap. */
  lemma {:induction false} BitOrDisjoint(k: nat, b: nat, n: nat)
    requires b < Pow2(n)
    ensures BitOr(k * Pow2(n), b) == k * Pow2(n) + b
  {
    var a := k * Pow2(n);
    if n > 0 && a != 0 && b != 0 {
      assert a == 2 * (k * Pow2(n - 1));
      BitOrDisjoint(k, b / 2, n - 1);
    }
  }
}
