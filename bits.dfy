/**
 * Fixed-width arithmetic shared by every channel plan: payload bytes, channel-mask
 * words, the bit counts of CountBits, and the truncations that C assignments to
 * uint32_t and int8_t perform.
 */
module Bits {

  /** A payload byte or a MAC status byte. */
  type Byte = bv8

  /** One 16-bit word of the channel mask (CHAN_MASK_SIZE channels per word). */
  type Word = bv16

  /** Channels per channel-mask word. */
  const CHAN_MASK_SIZE: nat := 16

  /** 2^32: the modulus of uint32_t arithmetic. */
  const U32: nat := 0x1_0000_0000

  /** The largest uint32_t value (UINT_MAX). */
  const UINT_MAX: nat := 0xFFFF_FFFF

  /** The value a C assignment to a uint32_t stores. */
  function Wrap32(x: int): (r: nat)
    ensures r < U32
    ensures 0 <= x < U32 ==> r == x
    ensures (r - x) % U32 == 0
  {
    x % U32
  }

  /** The value a C assignment to an int8_t stores (two's complement truncation). */
  function ToInt8(x: int): (r: int)
    ensures -128 <= r < 128
    ensures -128 <= x < 128 ==> r == x
    ensures (r - x) % 256 == 0
  {
    (x + 128) % 256 - 128
  }

  /** Bit k of a mask word. */
  predicate BitSet(w: Word, k: nat)
    requires k < 16
  {
    (w >> k) & 1 == 1
  }

  function BitCount(w: Word, k: nat): nat
    requires k < 16
  {
    if BitSet(w, k) then 1 else 0
  }

  /** CountBits: the number of set bits of a mask word. */
  function PopCount(w: Word): (c: nat)
    ensures c <= 16
  {
    BitCount(w, 0) + BitCount(w, 1) + BitCount(w, 2) + BitCount(w, 3)
    + BitCount(w, 4) + BitCount(w, 5) + BitCount(w, 6) + BitCount(w, 7)
    + BitCount(w, 8) + BitCount(w, 9) + BitCount(w, 10) + BitCount(w, 11)
    + BitCount(w, 12) + BitCount(w, 13) + BitCount(w, 14) + BitCount(w, 15)
  }

  /** A word counts no set bits exactly when it is zero. */
  lemma PopCountZero(w: Word)
    ensures PopCount(w) == 0 <==> w == 0
  {
  }

  /** The counts of the words the sub-band masks are built from. */
  lemma PopCountOfPatterns()
    ensures PopCount(0x0000) == 0 && PopCount(0x00FF) == 8
    ensures PopCount(0xFF00) == 8 && PopCount(0xFFFF) == 16
  {
  }

  /** Clearing bit 0 of a status byte (status & 0xFE) keeps its other bits. */
  lemma ClearMaskAck(status: Byte)
    ensures (status & 0xFE) & 1 == 0
    ensures (status & 0xFE) & 2 == status & 2 && (status & 0xFE) & 4 == status & 4
    ensures (status & 0xFE) & 0xF8 == status & 0xF8
  {
  }

  /** The single-bit word (1 << k). */
  function Bit(k: nat): Word
    requires k < 16
  {
    (1 as bv16) << k
  }

  /** 1 << k sets bit k and no other. */
  lemma BitSingle(k: nat, j: nat)
    requires k < 16 && j < 16
    ensures BitSet(Bit(k), j) <==> j == k
  {
  }

  /** A bit below 8 lies in the low byte. */
  lemma LowBit(k: nat)
    requires k < 8
    ensures Bit(k) & 0xFF == Bit(k)
  {
  }

  /** (w & (1 << k)) == (1 << k), the test IsChannelEnabled performs, reads bit k. */
  lemma MaskTestIsBit(w: Word, k: nat)
    requires k < 16
    ensures (w & Bit(k) == Bit(k)) <==> BitSet(w, k)
  {
  }

  /** The bits of the constant words the sub-band and ADR masks are built from. */
  lemma PatternBits(k: nat)
    requires k < 16
    ensures BitSet(0x00FF, k) <==> k < 8
    ensures BitSet(0xFF00, k) <==> k >= 8
    ensures BitSet(0xFFFF, k) && !BitSet(0x0000, k)
  {
  }

  /** A word whose low byte is all a and whose high byte is all b. */
  lemma HalvesBits(a: bool, b: bool, k: nat)
    requires k < 16
    ensures BitSet((if a then 0x00FF else 0) | (if b then 0xFF00 else 0), k) <==> if k < 8 then a else b
  {
    PatternBits(k);
  }

  /** A half word, or nothing, counts eight set bits or none. */
  lemma PopCountHalf(h: Word, c: bool)
    requires h == 0x00FF || h == 0xFF00
    ensures PopCount(if c then h else 0) == if c then 8 else 0
  {
    PopCountOfPatterns();
  }

  /** A single-bit word counts one set bit. */
  lemma PopCountBit(k: nat)
    requires k < 16
    ensures PopCount(Bit(k)) == 1
  {
  }

  /** w & 0xFF keeps exactly the low eight bits of w. */
  lemma LowByteBits(w: Word, k: nat)
    requires k < 16
    ensures BitSet(w & 0xFF, k) <==> k < 8 && BitSet(w, k)
  {
  }

  /** Setting bit index of a word sets that bit and keeps every other. */
  lemma OrBitOthers(w: Word, index: nat, k: nat)
    requires index < 16 && k < 16
    ensures BitSet(w | Bit(index), k) <==> k == index || BitSet(w, k)
  {
    var a := BitSet(w, k);
    var b := BitSet(Bit(index), k);
    var c := BitSet(w | Bit(index), k);
    OrBits(w, Bit(index), k);
    BitSingle(index, k);
    assert c == (a || b);
    assert b == (k == index);
  }

  /** Or-ing in the complement of bit index sets every other bit and keeps bit index. */
  lemma OrNotBitOthers(w: Word, index: nat, k: nat)
    requires index < 16 && k < 16
    ensures BitSet(w | !Bit(index), k) <==> k != index || BitSet(w, k)
  {
    OrBits(w, !Bit(index), k);
    NotBits(Bit(index), k);
    BitSingle(index, k);
    OrNotStep(BitSet(w, k), BitSet(Bit(index), k), BitSet(!Bit(index), k), BitSet(w | !Bit(index), k), k == index);
  }

  /** The propositional step of OrNotBitOthers. */
  lemma OrNotStep(a: bool, b: bool, nb: bool, c: bool, same: bool)
    requires c == (a || nb) && nb == !b && b == same
    ensures c == (!same || a)
  {
  }

  /** Or-ing never clears a bit. */
  lemma OrKeepsBit(a: Word, b: Word, k: nat)
    requires k < 16 && BitSet(a, k)
    ensures BitSet(a | b, k)
  {
    var x := BitSet(a, k);
    var y := BitSet(b, k);
    var z := BitSet(a | b, k);
    OrBits(a, b, k);
    assert z == (x || y);
  }

  /** OrBits for each of the sixteen bit positions. */
  lemma OrBitsEach(a: Word, b: Word)
    ensures BitSet(a | b, 0) <==> BitSet(a, 0) || BitSet(b, 0)
    ensures BitSet(a | b, 1) <==> BitSet(a, 1) || BitSet(b, 1)
    ensures BitSet(a | b, 2) <==> BitSet(a, 2) || BitSet(b, 2)
    ensures BitSet(a | b, 3) <==> BitSet(a, 3) || BitSet(b, 3)
    ensures BitSet(a | b, 4) <==> BitSet(a, 4) || BitSet(b, 4)
    ensures BitSet(a | b, 5) <==> BitSet(a, 5) || BitSet(b, 5)
    ensures BitSet(a | b, 6) <==> BitSet(a, 6) || BitSet(b, 6)
    ensures BitSet(a | b, 7) <==> BitSet(a, 7) || BitSet(b, 7)
    ensures BitSet(a | b, 8) <==> BitSet(a, 8) || BitSet(b, 8)
    ensures BitSet(a | b, 9) <==> BitSet(a, 9) || BitSet(b, 9)
    ensures BitSet(a | b, 10) <==> BitSet(a, 10) || BitSet(b, 10)
    ensures BitSet(a | b, 11) <==> BitSet(a, 11) || BitSet(b, 11)
    ensures BitSet(a | b, 12) <==> BitSet(a, 12) || BitSet(b, 12)
    ensures BitSet(a | b, 13) <==> BitSet(a, 13) || BitSet(b, 13)
    ensures BitSet(a | b, 14) <==> BitSet(a, 14) || BitSet(b, 14)
    ensures BitSet(a | b, 15) <==> BitSet(a, 15) || BitSet(b, 15)
  {
  }

  /** A bit of a | b is set exactly when it is set in a or in b. */
  lemma OrBits(a: Word, b: Word, k: nat)
    requires k < 16
    ensures BitSet(a | b, k) <==> BitSet(a, k) || BitSet(b, k)
  {
    OrBitsEach(a, b);
    if k == 0 {
    } else if k == 1 {
    } else if k == 2 {
    } else if k == 3 {
    } else if k == 4 {
    } else if k == 5 {
    } else if k == 6 {
    } else if k == 7 {
    } else if k == 8 {
    } else if k == 9 {
    } else if k == 10 {
    } else if k == 11 {
    } else if k == 12 {
    } else if k == 13 {
    } else if k == 14 {
    } else {
    }
  }

  /** NotBits for each of the sixteen bit positions. */
  lemma NotBitsEach(a: Word)
    ensures BitSet(!a, 0) <==> !BitSet(a, 0)
    ensures BitSet(!a, 1) <==> !BitSet(a, 1)
    ensures BitSet(!a, 2) <==> !BitSet(a, 2)
    ensures BitSet(!a, 3) <==> !BitSet(a, 3)
    ensures BitSet(!a, 4) <==> !BitSet(a, 4)
    ensures BitSet(!a, 5) <==> !BitSet(a, 5)
    ensures BitSet(!a, 6) <==> !BitSet(a, 6)
    ensures BitSet(!a, 7) <==> !BitSet(a, 7)
    ensures BitSet(!a, 8) <==> !BitSet(a, 8)
    ensures BitSet(!a, 9) <==> !BitSet(a, 9)
    ensures BitSet(!a, 10) <==> !BitSet(a, 10)
    ensures BitSet(!a, 11) <==> !BitSet(a, 11)
    ensures BitSet(!a, 12) <==> !BitSet(a, 12)
    ensures BitSet(!a, 13) <==> !BitSet(a, 13)
    ensures BitSet(!a, 14) <==> !BitSet(a, 14)
    ensures BitSet(!a, 15) <==> !BitSet(a, 15)
  {
  }

  /** A bit of ~a (kept to 16 bits) is set exactly when it is clear in a. */
  lemma NotBits(a: Word, k: nat)
    requires k < 16
    ensures BitSet(!a, k) <==> !BitSet(a, k)
  {
    NotBitsEach(a);
    if k == 0 {
    } else if k == 1 {
    } else if k == 2 {
    } else if k == 3 {
    } else if k == 4 {
    } else if k == 5 {
    } else if k == 6 {
    } else if k == 7 {
    } else if k == 8 {
    } else if k == 9 {
    } else if k == 10 {
    } else if k == 11 {
    } else if k == 12 {
    } else if k == 13 {
    } else if k == 14 {
    } else {
    }
  }
}
