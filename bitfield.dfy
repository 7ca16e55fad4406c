/**
 * Sub-word bit fields, described declaratively by (bit offset, bit width),
 * with the extract / insert operations that every EFA descriptor accessor
 * performs on its host control byte or control word.
 *
 * Insertion ORs the masked value into the host word: it never clears a bit
 * (callers zero a descriptor before filling it in), and a value wider than
 * the field loses its high bits.
 */
module BitField {

  /**
   * A field of `width` bits whose lowest bit is bit `shift` of its host word.
   * Host words here have at most 32 bits, so both numbers fit a byte.
   */
  datatype Field = Field(shift: bv8, width: bv8) {
    /** The field is non-empty and lies inside a word of `bits` bits. */
    predicate Within(bits: bv8) {
      1 <= width <= bits && shift <= bits - width
    }

    /** The two fields share no bit position (for fields inside a 32-bit word). */
    predicate Disjoint(other: Field) {
      shift + width <= other.shift || other.shift + other.width <= shift
    }
  }

  type Field8 = f: Field | f.Within(8) witness Field(0, 1)
  type Field32 = f: Field | f.Within(32) witness Field(0, 1)

  // ---------------------------------------------------------------------
  // The mask macros the header is written with: BIT(n) and GENMASK(h, l)
  // ---------------------------------------------------------------------

  function Bit8(n: bv8): bv8
    requires n < 8
  {
    1 << n
  }

  /** Bits l..h (inclusive) set, built the way the kernel's GENMASK builds them. */
  function GenMask8(h: bv8, l: bv8): bv8
    requires l <= h < 8
  {
    (0xFF << l) & (0xFF >> (7 - h))
  }

  function Bit32(n: bv8): bv32
    requires n < 32
  {
    1 << n
  }

  function GenMask32(h: bv8, l: bv8): bv32
    requires l <= h < 32
  {
    (0xFFFF_FFFF << l) & (0xFFFF_FFFF >> (31 - h))
  }

  // ---------------------------------------------------------------------
  // Fields of an 8-bit control byte
  // ---------------------------------------------------------------------

  /** The low `w` bits set. */
  function LowMask8(w: bv8): bv8
    requires w <= 8
  {
    (1 << w) - 1
  }

  /** The bits of `f` within its host byte. */
  function Mask8(f: Field8): bv8 {
    LowMask8(f.width) << f.shift
  }

  /** The value of field `f` in byte `b`, moved down to bit 0. */
  function Get8(b: bv8, f: Field8): (r: bv8)
    ensures r <= LowMask8(f.width)
    ensures r << f.shift == b & Mask8(f)
  {
    (b >> f.shift) & LowMask8(f.width)
  }

  /** Byte `b` with the low `f.width` bits of `v` ORed into field `f`. */
  function Set8(b: bv8, f: Field8, v: bv8): (r: bv8)
    ensures r & b == b
    ensures r & !Mask8(f) == b & !Mask8(f)
  {
    b | ((v & LowMask8(f.width)) << f.shift)
  }

  /** The header's form of a setter, `(v << shift) & mask`, is the same insertion. */
  lemma Set8IsShiftThenMask(b: bv8, f: Field8, v: bv8)
    ensures Set8(b, f, v) == b | ((v << f.shift) & Mask8(f))
  {
    ShiftThenMaskBits(v, f.shift, f.width);
  }

  /** Reading a field back after setting it gives its old value ORed with the truncated new one. */
  lemma Get8OfSet8(b: bv8, f: Field8, v: bv8)
    ensures Get8(Set8(b, f, v), f) == Get8(b, f) | (v & LowMask8(f.width))
  {
    ReadBackBits(b, v, f.shift, f.width);
  }

  /** On a zeroed byte the getter reads back what the setter wrote, masked to the width. */
  lemma Get8OfSet8OnZero(f: Field8, v: bv8)
    ensures Get8(Set8(0, f, v), f) == v & LowMask8(f.width)
  {
    Get8OfSet8(0, f, v);
  }

  /** Disjoint fields are exactly those with disjoint masks. */
  lemma Disjoint8Iff(f: Field8, g: Field8)
    ensures f.Disjoint(g) <==> Mask8(f) & Mask8(g) == 0
  {
    DisjointMaskBits(f.shift, f.width, g.shift, g.width);
  }

  /** Setting one field leaves every disjoint field's value as it was. */
  lemma Set8LeavesDisjoint(b: bv8, f: Field8, g: Field8, v: bv8)
    requires f.Disjoint(g)
    ensures Get8(Set8(b, f, v), g) == Get8(b, g)
  {
    OtherFieldBits(b, v, f.shift, f.width, g.shift, g.width);
  }

  /** Setting field `f` leaves the value of every field disjoint from it as it was. */
  lemma Set8PreservesDisjointFields(b: bv8, f: Field8, v: bv8)
    ensures forall g: Field8 :: f.Disjoint(g) ==> Get8(Set8(b, f, v), g) == Get8(b, g)
  {
    forall g: Field8 | f.Disjoint(g)
      ensures Get8(Set8(b, f, v), g) == Get8(b, g)
    {
      Set8LeavesDisjoint(b, f, g, v);
    }
  }

  /** Under any setter, every bit of every field that was 1 stays 1. */
  lemma Set8Monotone(b: bv8, f: Field8, g: Field8, v: bv8)
    ensures Get8(Set8(b, f, v), g) & Get8(b, g) == Get8(b, g)
  {
    MonotoneBits(b, v, f.shift, f.width, g.shift, g.width);
  }

  /** A value whose in-width bits are all zero leaves the byte unchanged. */
  lemma Set8Truncates(b: bv8, f: Field8, v: bv8)
    requires v & LowMask8(f.width) == 0
    ensures Set8(b, f, v) == b
  {
  }

  /** Setting the same value twice is the same as setting it once. */
  lemma Set8Idempotent(b: bv8, f: Field8, v: bv8)
    ensures Set8(Set8(b, f, v), f, v) == Set8(b, f, v)
  {
  }

  // Facts about shifts and masks by symbolic amounts, stated on plain
  // bit-vectors so that the solver sees them without the Field wrapper.

  lemma ShiftThenMaskBits(v: bv8, s: bv8, w: bv8)
    requires 1 <= w <= 8 && s <= 8 - w
    ensures (v & LowMask8(w)) << s == (v << s) & (LowMask8(w) << s)
  {
  }

  lemma ReadBackBits(b: bv8, v: bv8, s: bv8, w: bv8)
    requires 1 <= w <= 8 && s <= 8 - w
    ensures ((b | ((v & LowMask8(w)) << s)) >> s) & LowMask8(w)
         == ((b >> s) & LowMask8(w)) | (v & LowMask8(w))
  {
  }

  lemma DisjointMaskBits(s: bv8, w: bv8, t: bv8, x: bv8)
    requires 1 <= w <= 8 && s <= 8 - w
    requires 1 <= x <= 8 && t <= 8 - x
    ensures (s + w <= t || t + x <= s) <==> (LowMask8(w) << s) & (LowMask8(x) << t) == 0
  {
  }

  lemma OtherFieldBits(b: bv8, v: bv8, s: bv8, w: bv8, t: bv8, x: bv8)
    requires 1 <= w <= 8 && s <= 8 - w
    requires 1 <= x <= 8 && t <= 8 - x
    requires s + w <= t || t + x <= s
    ensures ((b | ((v & LowMask8(w)) << s)) >> t) & LowMask8(x) == (b >> t) & LowMask8(x)
  {
  }

  lemma MonotoneBits(b: bv8, v: bv8, s: bv8, w: bv8, t: bv8, x: bv8)
    requires 1 <= w <= 8 && s <= 8 - w
    requires 1 <= x <= 8 && t <= 8 - x
    ensures (((b | ((v & LowMask8(w)) << s)) >> t) & LowMask8(x)) & ((b >> t) & LowMask8(x))
         == (b >> t) & LowMask8(x)
  {
  }

  // ---------------------------------------------------------------------
  // Fields of a 32-bit control word
  // ---------------------------------------------------------------------

  function LowMask32(w: bv8): bv32
    requires w <= 32
  {
    (1 << w) - 1
  }

  function Mask32(f: Field32): bv32 {
    LowMask32(f.width) << f.shift
  }

  function Get32(x: bv32, f: Field32): (r: bv32)
    ensures r <= LowMask32(f.width)
  {
    (x >> f.shift) & LowMask32(f.width)
  }

  /**
   * Word `x` with `v` shifted into field `f` and masked to it ORed in: every
   * bit of `x` is kept and any bit added lies under the field's mask.
   */
  function Set32(x: bv32, f: Field32, v: bv32): (r: bv32)
    ensures r == x | (r & Mask32(f))
  {
    x | ((v << f.shift) & Mask32(f))
  }

  /** A 32-bit setter keeps every 1 bit and changes nothing outside the field's mask. */
  lemma Set32Frame(x: bv32, f: Field32, v: bv32)
    ensures Set32(x, f, v) & x == x
    ensures Set32(x, f, v) & !Mask32(f) == x & !Mask32(f)
  {
    OnlyMaskAdded32(x, Set32(x, f, v), Mask32(f));
  }

  lemma OnlyMaskAdded32(x: bv32, r: bv32, m: bv32)
    requires r == x | (r & m)
    ensures r & x == x
    ensures r & !m == x & !m
  {
  }

  /** A word whose bits 31:16 are clear holds a number below 2^16. */
  lemma HalfWordBound(x: bv32)
    requires x <= 0xFFFF
    ensures x as nat <= 0xFFFF
  {
    assert x < 0x1_0000;
    assert x as nat < 0x1_0000;
  }
}
