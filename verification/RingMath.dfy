/** The arithmetic of ring indexes, lap flags and shutdown encodings. */
module RingMath {
  import opened Bits

  const MAX_CHANNEL_SIZE: int := 0x4000_0000
  const LAP_SPAN: int := 0x8000_0000        // 2^31 lap flags
  const INIT: int := -1                     // the sequence before the first one
  const SHUTDOWN_OPEN: int := I64_MAX       // cursor of a dropped receiver

  /** Slot of a sequence in a ring of `size` slots. */
  function Index(seqn: int, size: int): (i: int)
    requires size > 0
    ensures 0 <= i < size
  {
    seqn % size
  }

  /** The 31-bit lap flag stored when `seqn` is published. */
  function Flag(seqn: int, size: int): (f: int)
    requires size > 0
    ensures 0 <= f < LAP_SPAN
  {
    (seqn / size + 1) % LAP_SPAN
  }

  /** The lap part of a slot word. */
  function Lap(word: int): (f: int)
    ensures 0 <= f < LAP_SPAN
  {
    word % LAP_SPAN
  }

  /** Whether a slot word carries the shutdown bit. */
  predicate HasBit(word: int) { word >= LAP_SPAN }

  /** A slot word with its shutdown bit set. */
  function WithBit(word: int): (w: int)
    requires 0 <= word < U32_SPAN
    ensures 0 <= w < U32_SPAN && HasBit(w) && Lap(w) == Lap(word)
  {
    if HasBit(word) then word else word + LAP_SPAN
  }

  /** Whether a `claimed` value says the publisher side is shut down: any negative value but -1. */
  predicate HasShutdown(raw: int) { raw < 0 && raw != -1 }

  /** The `claimed` value that closing stores after it loaded `raw`. */
  function ShutdownOf(raw: int): (r: int)
    requires I64_MIN <= raw <= I64_MAX
    ensures I64_MIN <= r < 0
    ensures 0 <= raw < I64_MAX ==> HasShutdown(r) && LastClaimed(r) == raw
    ensures raw < 0 ==> r == raw
  {
    if raw >= 0 then raw + I64_MIN else raw
  }

  /** The sequence a `claimed` value stands for, shut down or not. */
  function LastClaimed(raw: int): int {
    if HasShutdown(raw) then raw - I64_MIN else raw
  }

  function Min(a: int, b: int): int { if a <= b then a else b }

  function Max(a: int, b: int): int { if a >= b then a else b }

  // ----- sequences, slots and laps -----

  lemma EuclidUnique(s: int, t: int, size: int)
    requires size > 0 && Index(s, size) == Index(t, size)
    ensures s - t == size * (s / size - t / size)
  {
    assert s == size * (s / size) + s % size;
    assert t == size * (t / size) + t % size;
  }

  /** Sequences less than one lap apart never share a slot. */
  lemma WindowInjective(s: int, t: int, size: int)
    requires size > 0 && Index(s, size) == Index(t, size) && -size < s - t < size
    ensures s == t
  {
    EuclidUnique(s, t, size);
    var d := s / size - t / size;
    if d >= 1 { MulAtLeast(size, d); }
    if d <= -1 { MulAtLeast(size, -d); }
  }

  /** The sequence one lap earlier has the same slot and another flag. */
  lemma LapBefore(s: int, size: int)
    requires size > 0
    ensures Index(s - size, size) == Index(s, size)
    ensures Flag(s - size, size) != Flag(s, size)
  {
    DivModUnique(s - size, size, s / size - 1, s % size);
  }

  /** (slot, flag) determines the sequence within 2^31 laps. */
  lemma SlotAndFlagDetermine(s: int, t: int, size: int)
    requires size > 0 && Index(s, size) == Index(t, size) && Flag(s, size) == Flag(t, size)
    requires -size * LAP_SPAN < s - t < size * LAP_SPAN
    ensures s == t
  {
    EuclidUnique(s, t, size);
    var d := s / size - t / size;
    assert s - t == size * d;
    if d >= LAP_SPAN { MulMonotone(size, LAP_SPAN, d); }
    if d <= -LAP_SPAN { MulMonotone(size, LAP_SPAN, -d); }
    assert -LAP_SPAN < d < LAP_SPAN;
    assert d == 0;
  }

  /** The bound is tight: 2^31 laps later slot and flag are the same again. */
  lemma FlagWraps(s: int, size: int)
    requires size > 0
    ensures Index(s + size * LAP_SPAN, size) == Index(s, size)
    ensures Flag(s + size * LAP_SPAN, size) == Flag(s, size)
  {
    DivModUnique(s + size * LAP_SPAN, size, s / size + LAP_SPAN, s % size);
    DivModUnique(s / size + 1 + LAP_SPAN, LAP_SPAN, (s / size + 1) / LAP_SPAN + 1, (s / size + 1) % LAP_SPAN);
  }

  lemma MulMonotone(m: int, a: int, b: int)
    requires m > 0 && a <= b
    ensures m * a <= m * b
  {
    if a < b { MulAtLeast(m, b - a); }
  }

  /** An index in range names itself, and before the first lap every word holds flag 0. */
  lemma BeforeFirstLap(s: int, size: int)
    requires size > 0
    ensures 0 <= s < size ==> Index(s, size) == s
    ensures -size <= s < 0 ==> Flag(s, size) == 0
  {
    if 0 <= s < size { DivModUnique(s, size, 0, s); }
    if -size <= s < 0 { DivModUnique(s, size, -1, s + size); }
  }

  // ----- the source's bit expressions -----

  ghost predicate PowerOfTwoSize(size: int, shift: nat) {
    shift <= 30 && size == Pow2(shift)
  }

  lemma SizeBounds(size: int, shift: nat)
    requires PowerOfTwoSize(size, shift)
    ensures 1 <= size <= MAX_CHANNEL_SIZE
    ensures TrailingZeros(size) == shift
  {
    Pow2Monotone(shift, 30);
    TrailingZerosOfPow2(shift);
    Pow2Values();
  }

  /** `index_of_seq`: `seq & (size - 1)`. */
  function IndexOfSeq(seqn: int, size: int): int { AndI64(seqn, size - 1) }

  /** `available_flag`: `((seq >> shift) as u32).wrapping_add(1) & MASK`. */
  function AvailableFlag(seqn: int, shift: nat): int {
    AndU32(WrappingAddU32(AsU32(Shr(seqn, shift)), 1), LAP_SPAN - 1)
  }

  /** Masking a sequence gives its slot, for every i64 sequence. */
  lemma MaskIsIndex(s: int, size: int, shift: nat)
    requires PowerOfTwoSize(size, shift)
    ensures size > 0 && IndexOfSeq(s, size) == Index(s, size)
  {
    SizeBounds(size, shift);
    AndLowMask(s, shift, I64_WIDTH);
  }

  lemma LowLapBits(w: int)
    ensures AndU32(w, LAP_SPAN - 1) == w % LAP_SPAN
  {
    Pow2Values();
    AndLowMask(w, U32_WIDTH - 1, U32_WIDTH);
  }

  /** Casting a lap to u32, adding one with wrap-around and masking keeps the low 31 digits. */
  lemma LapWraps(lap: int)
    ensures WrappingAddU32(AsU32(lap), 1) % LAP_SPAN == (lap + 1) % LAP_SPAN
  {
    var q, r := lap / U32_SPAN, lap % U32_SPAN;
    if r + 1 == U32_SPAN {
      DivModUnique(lap + 1, LAP_SPAN, 2 * q + 2, 0);
    } else if r + 1 >= LAP_SPAN {
      DivModUnique(lap + 1, LAP_SPAN, 2 * q + 1, r + 1 - LAP_SPAN);
    } else {
      DivModUnique(lap + 1, LAP_SPAN, 2 * q, r + 1);
    }
  }

  /** Shifting, casting, adding and masking a sequence gives its lap flag. */
  lemma ShiftIsFlag(s: int, size: int, shift: nat)
    requires PowerOfTwoSize(size, shift)
    ensures size > 0 && AvailableFlag(s, shift) == Flag(s, size)
  {
    ShrIsDiv(s, shift);
    LapWraps(Shr(s, shift));
    LowLapBits(WrappingAddU32(AsU32(Shr(s, shift)), 1));
  }

  lemma TopBitSet(word: int)
    requires 0 <= word < U32_SPAN
    ensures AndU32(word, LAP_SPAN) != 0 <==> HasBit(word)
  {
    Pow2Values();
    AndHighBit(word, U32_WIDTH - 1);
    if HasBit(word) {
      DivModUnique(word, LAP_SPAN, 1, word - LAP_SPAN);
    } else {
      DivModUnique(word, LAP_SPAN, 0, word);
    }
  }

  lemma SetTopBit(word: int)
    requires 0 <= word < U32_SPAN
    ensures OrU32(word, LAP_SPAN) == WithBit(word)
  {
    Pow2Values();
    OrHighBit(word, U32_WIDTH - 1);
    DivModUnique(word, LAP_SPAN, if HasBit(word) then 1 else 0, if HasBit(word) then word - LAP_SPAN else word);
  }

  /** `word & MASK`, `word & SHUTDOWN_BIT` and `word | SHUTDOWN_BIT` on a u32 word. */
  lemma WordBits(word: int)
    requires 0 <= word < U32_SPAN
    ensures AndU32(word, LAP_SPAN - 1) == Lap(word)
    ensures AndU32(word, LAP_SPAN) != 0 <==> HasBit(word)
    ensures OrU32(word, LAP_SPAN) == WithBit(word)
  {
    LowLapBits(word);
    TopBitSet(word);
    SetTopBit(word);
  }

  /** `raw | i64::MIN` is the stored shutdown value and `raw & i64::MAX` recovers the sequence. */
  lemma ClaimedBits(raw: int)
    requires I64_MIN <= raw <= I64_MAX
    ensures OrI64(raw, I64_MIN) == ShutdownOf(raw)
    ensures HasShutdown(raw) ==> AndI64(raw, I64_MAX) == LastClaimed(raw)
  {
    Pow2Values();
    OrTopDigit(raw, I64_WIDTH - 1);
    OrHighBit(raw, I64_WIDTH - 1);
    AndLowMask(raw, I64_WIDTH - 1, I64_WIDTH);
    if raw < 0 { DivModUnique(raw, Pow2(I64_WIDTH - 1), -1, raw + Pow2(I64_WIDTH - 1)); }
  }

  /** Setting the top bit marks `claimed` as shut down exactly if some sequence was claimed (and the cursor has
      not run out of sequences): `INIT` with the bit set is still `INIT`. */
  lemma ShutdownNeedsClaim(raw: int)
    requires -1 <= raw <= I64_MAX
    ensures HasShutdown(OrI64(raw, I64_MIN)) <==> raw != INIT && raw != I64_MAX
  {
    ClaimedBits(raw);
  }
}
