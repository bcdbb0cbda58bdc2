/**
 * Field decoding shared by the MAC command handlers and the Join-Accept CFList:
 * 24-bit little-endian frequencies in units of 100 Hz, 16-bit little-endian
 * channel-mask words, and the nibbles of the packed parameter bytes.
 */
module Wire {
  import opened Bits

  /** A 24-bit little-endian field as a number. */
  function Le24(b0: Byte, b1: Byte, b2: Byte): (n: nat)
    ensures n < 0x100_0000
  {
    b0 as nat + 256 * b1 as nat + 65536 * b2 as nat
  }

  /**
   * The frequency carried by payload[i..i+3]: the three bytes assembled low byte
   * first, times 100 Hz.
   */
  function FrequencyAt(p: seq<Byte>, i: nat): (f: nat)
    requires i + 3 <= |p|
    ensures f % 100 == 0
    ensures f < U32
  {
    Le24(p[i], p[i + 1], p[i + 2]) * 100
  }

  /** Two bytes with the same value are the same byte. */
  lemma ByteOfValue(a: Byte, b: Byte)
    requires a as nat == b as nat
    ensures a == b
  {
  }

  /** Base-256 digits are unique: equal 24-bit fields have equal bytes. */
  lemma DigitsEqual(a0: nat, a1: nat, a2: nat, c0: nat, c1: nat, c2: nat)
    requires a0 < 256 && a1 < 256 && a2 < 256 && c0 < 256 && c1 < 256 && c2 < 256
    requires a0 + 256 * a1 + 65536 * a2 == c0 + 256 * c1 + 65536 * c2
    ensures a0 == c0 && a1 == c1 && a2 == c2
  {
    var x := a0 + 256 * a1 + 65536 * a2;
    assert x % 256 == a0 && x % 256 == c0;
    assert x / 256 == a1 + 256 * a2 && x / 256 == c1 + 256 * c2;
  }

  /** The frequency decoding loses nothing: equal frequencies come from equal bytes. */
  lemma FrequencyDetermines(p: seq<Byte>, i: nat, q: seq<Byte>, j: nat)
    requires i + 3 <= |p| && j + 3 <= |q|
    requires FrequencyAt(p, i) == FrequencyAt(q, j)
    ensures p[i..i + 3] == q[j..j + 3]
  {
    DigitsEqual(p[i] as nat, p[i + 1] as nat, p[i + 2] as nat, q[j] as nat, q[j + 1] as nat, q[j + 2] as nat);
    ByteOfValue(p[i], q[j]);
    ByteOfValue(p[i + 1], q[j + 1]);
    ByteOfValue(p[i + 2], q[j + 2]);
  }

  /** payload[i] | payload[i+1] << 8: a mask word, low byte first. */
  function MaskWordAt(p: seq<Byte>, i: nat): Word
    requires i + 2 <= |p|
  {
    (p[i] as bv16) | ((p[i + 1] as bv16) << 8)
  }

  /** The two bytes of a mask word, low byte first. */
  function EncodeMaskWord(w: Word): (p: seq<Byte>)
    ensures |p| == 2
  {
    [(w & 0xFF) as bv8, (w >> 8) as bv8]
  }

  /** Decoding the encoded mask word gives it back. */
  lemma MaskWordRoundTrip(w: Word)
    ensures MaskWordAt(EncodeMaskWord(w), 0) == w
  {
  }

  /** Bits 0-3 of a byte. */
  function LowNibble(b: Byte): (n: nat)
    ensures n < 16
  {
    (b & 0x0F) as nat
  }

  /** Bits 4-7 of a byte. */
  function HighNibble(b: Byte): (n: nat)
    ensures n < 16
  {
    ((b >> 4) & 0x0F) as nat
  }

  /** Bits 4-6 of a byte (bit 7 is RFU and ignored). */
  function MidBits(b: Byte): (n: nat)
    ensures n < 8
  {
    ((b >> 4) & 0x07) as nat
  }

  /** A byte is its low nibble plus 16 times its high nibble. */
  lemma NibblesCompose(b: Byte)
    ensures b as nat == LowNibble(b) + 16 * HighNibble(b)
    ensures MidBits(b) == HighNibble(b) % 8
  {
  }

  /**
   * The four payload bytes of a LinkADRReq as every plan's HandleAdrCommand
   * reads them: DataRate_TXPower, the ChMask word (low byte first) and
   * Redundancy, whose bits 4-6 are ChMaskCntl and bits 0-3 NbRep.
   */
  datatype LinkAdrReq = LinkAdrReq(datarate: nat, power: nat, mask: Word, ctrl: nat, nbRep: nat)

  function DecodeLinkAdrReq(p: seq<Byte>, i: nat): (r: LinkAdrReq)
    requires i + 4 <= |p|
    ensures r.datarate < 16 && r.power < 16 && r.ctrl < 8 && r.nbRep < 16
  {
    LinkAdrReq(HighNibble(p[i]), LowNibble(p[i]), MaskWordAt(p, i + 1), MidBits(p[i + 3]), LowNibble(p[i + 3]))
  }

  /** A byte is determined by its two nibbles. */
  lemma NibblesDetermine(a: Byte, b: Byte)
    requires LowNibble(a) == LowNibble(b) && HighNibble(a) == HighNibble(b)
    ensures a == b
  {
    NibblesCompose(a);
    NibblesCompose(b);
  }

  /** The mask word decoding loses nothing. */
  lemma MaskWordDetermines(p: seq<Byte>, i: nat, q: seq<Byte>, j: nat)
    requires i + 2 <= |p| && j + 2 <= |q|
    requires MaskWordAt(p, i) == MaskWordAt(q, j)
    ensures p[i] == q[j] && p[i + 1] == q[j + 1]
  {
  }

  /**
   * The LinkADRReq decoding loses only the RFU bit 7 of Redundancy: requests
   * that decode alike have the same DataRate_TXPower and ChMask bytes and
   * agree on bits 0-6 of Redundancy.
   */
  lemma LinkAdrReqDetermines(p: seq<Byte>, i: nat, q: seq<Byte>, j: nat)
    requires i + 4 <= |p| && j + 4 <= |q|
    requires DecodeLinkAdrReq(p, i) == DecodeLinkAdrReq(q, j)
    ensures p[i..i + 3] == q[j..j + 3] && p[i + 3] & 0x7F == q[j + 3] & 0x7F
  {
    NibblesDetermine(p[i], q[j]);
    MaskWordDetermines(p, i + 1, q, j + 1);
  }
}
