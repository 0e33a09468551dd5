/** Fixed-width bit operations, written digit by digit over the integers.

    The channel computes ring indexes, lap flags and the two shutdown encodings with `&`, `|`, `>>` and
    casts on `i64` and `u32`.  Here an `i64` is an integer in [-2^63, 2^63), a `u32` one in [0, 2^32), and
    each operation is defined on binary digits; the lemmas say what they compute arithmetically. */
module Bits {

  function Pow2(k: nat): (r: int)
    ensures r >= 1
  {
    if k == 0 then 1 else 2 * Pow2(k - 1)
  }

  const I64_MAX: int := 0x7fff_ffff_ffff_ffff
  const I64_MIN: int := -0x8000_0000_0000_0000
  const U32_SPAN: int := 0x1_0000_0000
  const U32_WIDTH: nat := 32
  const I64_WIDTH: nat := 64

  /** The low `w` digits of `a & b`, as an unsigned number. */
  function AndDigits(a: int, b: int, w: nat): int
    decreases w, a
  {
    if w == 0 then 0
    else (if a % 2 == 1 && b % 2 == 1 then 1 else 0) + 2 * AndDigits(a / 2, b / 2, w - 1)
  }

  /** The low `w` digits of `a | b`, as an unsigned number. */
  function OrDigits(a: int, b: int, w: nat): int
    decreases w, a
  {
    if w == 0 then 0
    else (if a % 2 == 1 || b % 2 == 1 then 1 else 0) + 2 * OrDigits(a / 2, b / 2, w - 1)
  }

  /** Arithmetic shift right: drop one digit `k` times. */
  function Shr(a: int, k: nat): int
    decreases k
  {
    if k == 0 then a else Shr(a / 2, k - 1)
  }

  /** Number of trailing zero digits of a positive number. */
  function TrailingZeros(a: int): nat
    requires a > 0
  {
    if a % 2 == 1 then 0 else 1 + TrailingZeros(a / 2)
  }

  /** Reads a 64-digit pattern as a two's complement number. */
  function Signed64(u: int): int {
    if u > I64_MAX then u + 2 * I64_MIN else u
  }

  function AndI64(a: int, b: int): int { Signed64(AndDigits(a, b, I64_WIDTH)) }

  function OrI64(a: int, b: int): int { Signed64(OrDigits(a, b, I64_WIDTH)) }

  /** `x as u32`: keeps the low 32 digits. */
  function AsU32(a: int): int { a % U32_SPAN }

  function WrappingAddU32(a: int, b: int): int { (a + b) % U32_SPAN }

  function AndU32(a: int, b: int): int { AndDigits(a, b, U32_WIDTH) }

  function OrU32(a: int, b: int): int { OrDigits(a, b, U32_WIDTH) }

  // ----- what the operations compute -----

  lemma HalveDivMod(a: int, m: int)
    requires m > 0
    ensures a % (2 * m) == a % 2 + 2 * ((a / 2) % m)
    ensures a / (2 * m) == (a / 2) / m
  {
    var h := a / 2;
    var q, r := h / m, h % m;
    assert h == m * q + r;
    assert a == (2 * m) * q + (2 * r + a % 2) by {
      assert a == 2 * h + a % 2;
      assert 2 * (m * q) == (2 * m) * q;
    }
    DivModUnique(a, 2 * m, q, 2 * r + a % 2);
  }

  lemma DivModUnique(a: int, m: int, q: int, r: int)
    requires m > 0 && 0 <= r < m && a == m * q + r
    ensures a / m == q && a % m == r
  {
    QuotientUnique(m, q, r, a / m, a % m);
  }

  lemma QuotientUnique(m: int, q: int, r: int, q': int, r': int)
    requires 0 <= r < m && 0 <= r' < m
    requires m * q + r == m * q' + r'
    ensures q == q' && r == r'
  {
    var d := q - q';
    assert m * d == r' - r;
    if d >= 1 { MulAtLeast(m, d); }
    if d <= -1 { MulAtLeast(m, -d); }
  }

  lemma MulAtLeast(m: int, d: int)
    requires m > 0 && d >= 1
    ensures m * d >= m
  {}

  /** Masking with 2^k - 1 is the remainder modulo 2^k, for negative numbers too. */
  lemma {:induction false} AndLowMask(a: int, k: nat, w: nat)
    requires k <= w
    ensures AndDigits(a, Pow2(k) - 1, w) == a % Pow2(k)
    decreases w
  {
    if w == 0 {
    } else if k == 0 {
      AndZero(a / 2, w - 1);
    } else {
      AndLowMask(a / 2, k - 1, w - 1);
      HalveDivMod(a, Pow2(k - 1));
      assert (Pow2(k) - 1) / 2 == Pow2(k - 1) - 1;
    }
  }

  lemma {:induction false} AndZero(a: int, w: nat)
    ensures AndDigits(a, 0, w) == 0
    decreases w
  {
    if w > 0 { AndZero(a / 2, w - 1); }
  }

  /** Masking with the single digit 2^w isolates that digit. */
  lemma {:induction false} AndHighBit(a: int, w: nat)
    ensures AndDigits(a, Pow2(w), w + 1) == (a / Pow2(w)) % 2 * Pow2(w)
    decreases w
  {
    if w == 0 {
      assert AndDigits(a / 2, 0, 0) == 0;
    } else {
      AndHighBit(a / 2, w - 1);
      HalveDivMod(a, Pow2(w - 1));
      assert Pow2(w) / 2 == Pow2(w - 1);
      assert (a / Pow2(w)) % 2 * Pow2(w) == 2 * ((a / Pow2(w)) % 2 * Pow2(w - 1));
    }
  }

  /** Setting the top digit of a (w + 1)-digit number keeps the digits below it. */
  lemma {:induction false} OrHighBit(a: int, w: nat)
    ensures OrDigits(a, Pow2(w), w + 1) == a % Pow2(w) + Pow2(w)
    decreases w
  {
    if w == 0 {
      assert OrDigits(a / 2, 0, 0) == 0;
    } else {
      OrHighBit(a / 2, w - 1);
      HalveDivMod(a, Pow2(w - 1));
      assert Pow2(w) / 2 == Pow2(w - 1);
    }
  }

  /** `i64::MIN` and 2^63 have the same 64 digits. */
  lemma {:induction false} OrTopDigit(a: int, w: nat)
    ensures OrDigits(a, -Pow2(w), w + 1) == OrDigits(a, Pow2(w), w + 1)
    decreases w
  {
    if w > 0 {
      OrTopDigit(a / 2, w - 1);
      assert (-Pow2(w)) / 2 == -Pow2(w - 1) && Pow2(w) / 2 == Pow2(w - 1);
    }
  }

  lemma {:induction false} ShrIsDiv(a: int, k: nat)
    ensures Shr(a, k) == a / Pow2(k)
    decreases k
  {
    if k > 0 {
      ShrIsDiv(a / 2, k - 1);
      HalveDivMod(a, Pow2(k - 1));
    }
  }

  lemma {:induction false} TrailingZerosOfPow2(k: nat)
    ensures TrailingZeros(Pow2(k)) == k
  {
    if k > 0 {
      TrailingZerosOfPow2(k - 1);
      assert Pow2(k) / 2 == Pow2(k - 1);
    }
  }

  lemma {:induction false} Pow2Monotone(j: nat, k: nat)
    requires j <= k
    ensures Pow2(j) <= Pow2(k)
  {
    if j < k { Pow2Monotone(j, k - 1); }
  }

  lemma {:induction false} Pow2Add(j: nat, k: nat)
    ensures Pow2(j + k) == Pow2(j) * Pow2(k)
    decreases j
  {
    if j > 0 { Pow2Add(j - 1, k); }
  }

  /** The powers of two that delimit words, laps and cursors. */
  lemma Pow2Values()
    ensures Pow2(30) == 0x4000_0000 && Pow2(U32_WIDTH - 1) == 0x8000_0000
    ensures Pow2(I64_WIDTH - 1) == -I64_MIN
  {
    assert Pow2(7) == 128 && Pow2(8) == 256;
    Pow2Add(8, 8);
    Pow2Add(16, 7);
    Pow2Add(23, 7);
    Pow2Add(1, 30);
    Pow2Add(31, 1);
    Pow2Add(31, 32);
  }
}
