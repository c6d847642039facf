/**
 * The 64-bit chunk-table key of terrain.cpp (toKey / toCoords).
 *
 * A 64-bit word is modelled as its two 32-bit halves, and the bitwise
 * operators act on the halves bit by bit, so every mask of the source is
 * applied exactly as written.
 */
module Keys {

  /** A C++ `int`. */
  type Int32 = v: int | -0x8000_0000 <= v < 0x8000_0000

  const HalfSize := 0x1_0000_0000
  const Ones: nat := 0xffff_ffff
  const SignBit: nat := 0x8000_0000

  /** The bit pattern of one 32-bit half of a word. */
  type Half = n: nat | n < HalfSize

  /** A 64-bit word (an `int64_t` bit pattern): upper and lower 32 bits. */
  datatype Word = Word(hi: Half, lo: Half)

  /** The key of a chunk in the chunk table. */
  type Key = Word

  function Pow2(n: nat): (r: nat)
    ensures r >= 1
  {
    if n == 0 then 1 else 2 * Pow2(n - 1)
  }

  lemma {:induction false} Pow2Add(a: nat, b: nat)
    ensures Pow2(a + b) == Pow2(a) * Pow2(b)
    decreases a
  {
    if a > 0 {
      Pow2Add(a - 1, b);
    }
  }

  lemma Pow2Of32()
    ensures Pow2(32) == HalfSize
  {
    assert Pow2(2) == 4;
    assert Pow2(4) == 16 by { Pow2Add(2, 2); }
    assert Pow2(8) == 256 by { Pow2Add(4, 4); }
    assert Pow2(16) == 0x1_0000 by { Pow2Add(8, 8); }
    Pow2Add(16, 16);
  }

  /** The low n bits of `a & b`. */
  function AndBits(a: nat, b: nat, n: nat): (r: nat)
    ensures r < Pow2(n)
  {
    if n == 0 then 0
    else 2 * AndBits(a / 2, b / 2, n - 1) + (if a % 2 == 1 && b % 2 == 1 then 1 else 0)
  }

  /** The low n bits of `a | b`. */
  function OrBits(a: nat, b: nat, n: nat): (r: nat)
    ensures r < Pow2(n)
  {
    if n == 0 then 0
    else 2 * OrBits(a / 2, b / 2, n - 1) + (if a % 2 == 1 || b % 2 == 1 then 1 else 0)
  }

  lemma {:induction false} AndWithOnes(a: nat, n: nat)
    requires a < Pow2(n)
    ensures AndBits(a, Pow2(n) - 1, n) == a
    ensures AndBits(Pow2(n) - 1, a, n) == a
  {
    if n > 0 {
      AndWithOnes(a / 2, n - 1);
    }
  }

  lemma {:induction false} AndWithZero(a: nat, n: nat)
    ensures AndBits(a, 0, n) == 0
  {
    if n > 0 {
      AndWithZero(a / 2, n - 1);
    }
  }

  lemma {:induction false} OrWithOnes(a: nat, n: nat)
    ensures OrBits(a, Pow2(n) - 1, n) == Pow2(n) - 1
  {
    if n > 0 {
      OrWithOnes(a / 2, n - 1);
    }
  }

  lemma {:induction false} OrWithZero(a: nat, n: nat)
    requires a < Pow2(n)
    ensures OrBits(a, 0, n) == a
    ensures OrBits(0, a, n) == a
  {
    if n > 0 {
      OrWithZero(a / 2, n - 1);
    }
  }

  /** `a & 2^(n-1)` is non-zero exactly when the top bit of an n-bit `a` is set. */
  lemma {:induction false} AndTopBit(a: nat, n: nat)
    requires n >= 1 && a < Pow2(n)
    ensures AndBits(a, Pow2(n - 1), n) != 0 <==> a >= Pow2(n - 1)
  {
    if n == 1 {
    } else {
      AndTopBit(a / 2, n - 1);
      assert Pow2(n - 1) / 2 == Pow2(n - 2);
    }
  }

  /** The number of bits in a half word. */
  function HalfWidth(): nat {
    32
  }

  function And32(a: Half, b: Half): Half {
    Pow2Of32();
    AndBits(a, b, HalfWidth())
  }

  function Or32(a: Half, b: Half): Half {
    Pow2Of32();
    OrBits(a, b, HalfWidth())
  }

  /** Bitwise `&` of two 64-bit words. */
  function And(a: Word, b: Word): Word {
    Word(And32(a.hi, b.hi), And32(a.lo, b.lo))
  }

  /** Bitwise `|` of two 64-bit words. */
  function Or(a: Word, b: Word): Word {
    Word(Or32(a.hi, b.hi), Or32(a.lo, b.lo))
  }

  lemma Half32Facts(a: Half)
    ensures And32(a, Ones) == a && And32(Ones, a) == a && And32(a, 0) == 0
    ensures Or32(a, Ones) == Ones && Or32(a, 0) == a && Or32(0, a) == a
    ensures And32(a, SignBit) != 0 <==> a >= SignBit
  {
    Pow2Of32();
    assert HalfWidth() == 32;
    AndWithOnes(a, 32);
    AndWithZero(a, 32);
    OrWithOnes(a, 32);
    OrWithZero(a, 32);
    assert Pow2(31) == SignBit;
    AndTopBit(a, 32);
  }

  /** `w << 32` */
  function ShiftLeft32(w: Word): Word {
    Word(w.lo, 0)
  }

  /** `w >> 32` on a signed 64-bit word: the sign bit is copied into the upper half. */
  function ShiftRight32Signed(w: Word): Word {
    Word(if w.hi >= SignBit then Ones else 0, w.hi)
  }

  /** `int64_t w = v;` for a 32-bit `v`: two's complement with sign extension. */
  function SignExtend(v: Int32): Word {
    if v >= 0 then Word(0, v) else Word(Ones, v + HalfSize)
  }

  /** Conversion of a 64-bit value to `int`: the lower half read as two's complement. */
  function Truncate(w: Word): Int32 {
    if w.lo < SignBit then w.lo else w.lo - HalfSize
  }

  /**
   * toKey: upper 32 bits hold x, lower 32 bits hold z. The key decodes back
   * to the pair it was built from, for negative coordinates as well.
   */
  function ToKey(x: Int32, z: Int32): (k: Key)
    ensures ToCoords(k) == (x, z)
  {
    var xz := Word(Ones, Ones);
    var x64 := SignExtend(x);
    var z64 := SignExtend(z);
    var xz' := Or(And(xz, ShiftLeft32(x64)), Word(0, Ones));
    var z64' := Or(z64, Word(Ones, 0));
    PackedHalves(x, z);
    UnpackHalves(x64.lo, z64.lo);
    LowHalfReadsBack(x);
    LowHalfReadsBack(z);
    And(xz', z64')
  }

  /** Sign extension followed by truncation gives back the 32-bit value. */
  lemma LowHalfReadsBack(v: Int32)
    ensures Truncate(Word(0, SignExtend(v).lo)) == v
  {
  }

  /** The packed key is the lower half of x above the lower half of z. */
  lemma PackedHalves(x: Int32, z: Int32)
    ensures And(Or(And(Word(Ones, Ones), ShiftLeft32(SignExtend(x))), Word(0, Ones)), Or(SignExtend(z), Word(Ones, 0)))
         == Word(SignExtend(x).lo, SignExtend(z).lo)
  {
    var x64 := SignExtend(x);
    var z64 := SignExtend(z);
    Half32Facts(x64.lo); Half32Facts(z64.hi); Half32Facts(z64.lo); Half32Facts(0); Half32Facts(Ones);
    var a := And(Word(Ones, Ones), ShiftLeft32(x64));
    assert a == Word(x64.lo, 0);
    var b := Or(a, Word(0, Ones));
    assert b == Word(x64.lo, Ones);
    var c := Or(z64, Word(Ones, 0));
    assert c == Word(Ones, z64.lo);
  }

  lemma KeepLowHalf(k: Word)
    ensures And(k, Word(0, Ones)) == Word(0, k.lo)
  {
    Half32Facts(k.hi);
    Half32Facts(k.lo);
  }

  lemma TestSignBit(zl: Half)
    ensures And(Word(0, zl), Word(0, SignBit)) != Word(0, 0) <==> zl >= SignBit
  {
    Half32Facts(0);
    Half32Facts(zl);
  }

  lemma FillHighHalf(zl: Half)
    ensures Or(Word(0, zl), Word(Ones, 0)) == Word(Ones, zl)
  {
    Half32Facts(0);
    Half32Facts(zl);
  }

  /** Decoding a word made of two lower halves gives back both values read as `int`. */
  lemma UnpackHalves(xl: Half, zl: Half)
    ensures ToCoords(Word(xl, zl)) == (Truncate(Word(0, xl)), Truncate(Word(0, zl)))
  {
    LowCoord(Word(xl, zl));
  }

  /** The z half is masked out and sign-extended by hand, which reads it back as `int`. */
  lemma LowCoord(k: Word)
    ensures Truncate(SignFill(And(k, Word(0, Ones)))) == Truncate(Word(0, k.lo))
  {
    KeepLowHalf(k);
    TestSignBit(k.lo);
    FillHighHalf(k.lo);
  }

  /** The manual sign extension of toCoords: fill the upper half when bit 31 is set. */
  function SignFill(z: Word): Word {
    if And(z, Word(0, SignBit)) != Word(0, 0) then Or(z, Word(Ones, 0)) else z
  }

  /** toCoords: z from the lower half, sign-extended by hand; x by arithmetic shift. */
  function ToCoords(k: Key): (Int32, Int32) {
    (Truncate(ShiftRight32Signed(k)), Truncate(SignFill(And(k, Word(0, Ones)))))
  }

  /** Distinct corners get distinct keys. */
  lemma KeyInjective(x1: Int32, z1: Int32, x2: Int32, z2: Int32)
    requires ToKey(x1, z1) == ToKey(x2, z2)
    ensures x1 == x2 && z1 == z2
  {
    assert ToCoords(ToKey(x1, z1)) == ToCoords(ToKey(x2, z2));
  }
}
