/**
 * Class B beacon decoding (DecodeBeacon). A frame is the packed BCNPayload
 * record: RFU1[5], Time[4], CRC1[2], GwSpecific[7], RFU2[3], CRC2[2], 23 bytes in
 * all. CRC1 protects RFU1 and Time and a mismatch rejects the frame; CRC2 protects
 * the gateway-specific part and a mismatch only withholds the GPS fields. The
 * CRC16 routine is a parameter: the model does not fix its polynomial.
 */
module Beacon {
  import opened Bits
  import opened LoraTypes

  const RFU1_OFFSET: nat := 0
  const TIME_OFFSET: nat := 5
  const CRC1_OFFSET: nat := 9
  const GW_OFFSET: nat := 11
  const RFU2_OFFSET: nat := 18
  const CRC2_OFFSET: nat := 21
  /** sizeof(BCNPayload). */
  const BEACON_SIZE: nat := 23

  /** The caller's BeaconData_t: Time, InfoDesc and the 32-bit GPS fields. */
  datatype BeaconData = BeaconData(time: bv32, infoDesc: Byte, latitude: bv32, longitude: bv32)

  /** The status DecodeBeacon returns together with the output record as it leaves it. */
  datatype Decoded = Decoded(status: Status, data: BeaconData)

  /** Two bytes copied into a uint16_t on the little-endian target. */
  function Le16(lo: Byte, hi: Byte): bv16
  {
    (lo as bv16) | ((hi as bv16) << 8)
  }

  /** Four bytes copied into a uint32_t on the little-endian target. */
  function Le32(p: seq<Byte>): bv32
    requires |p| == 4
  {
    (p[0] as bv32) | ((p[1] as bv32) << 8) | ((p[2] as bv32) << 16) | ((p[3] as bv32) << 24)
  }

  /**
   * Three bytes copied over the low end of an existing 32-bit field: the low
   * three bytes are replaced and the top byte keeps its old value.
   */
  function Store24(prev: bv32, p: seq<Byte>): (r: bv32)
    requires |p| == 3
    ensures r & 0xFF00_0000 == prev & 0xFF00_0000
  {
    (prev & 0xFF00_0000) | (p[0] as bv32) | ((p[1] as bv32) << 8) | ((p[2] as bv32) << 16)
  }

  /** The InfoDesc values after which GwSpecific[1..7] holds GPS coordinates. */
  predicate IsGpsInfo(d: Byte)
  {
    d == GPS_FIRST_ANTENNA || d == GPS_SECOND_ANTENNA || d == GPS_THIRD_ANTENNA
  }

  /**
   * The bytes CRC2 protects: GwSpecific and RFU2 in CN470, IN865 and US915;
   * GwSpecific alone in EU868.
   */
  function Crc2Span(p: seq<Byte>, crc2SpansRfu2: bool): seq<Byte>
    requires |p| == BEACON_SIZE
  {
    if crc2SpansRfu2 then p[GW_OFFSET..CRC2_OFFSET] else p[GW_OFFSET..RFU2_OFFSET]
  }

  /**
   * DecodeBeacon: checks the frame size, then CRC1 over RFU1 and Time, then
   * fills Time and InfoDesc, and overwrites Latitude and Longitude with
   * GwSpecific[1..4] and GwSpecific[4..7] only when CRC2 matches and InfoDesc
   * names a GPS antenna.
   */
  function DecodeBeacon(p: seq<Byte>, crc16: seq<Byte> -> bv16, crc2SpansRfu2: bool, data: BeaconData): (r: Decoded)
    ensures |p| != BEACON_SIZE ==> r == Decoded(BeaconSize, data)
    ensures |p| == BEACON_SIZE && crc16(p[RFU1_OFFSET..CRC1_OFFSET]) != Le16(p[CRC1_OFFSET], p[CRC1_OFFSET + 1])
      ==> r == Decoded(BeaconCrc, data)
    ensures r.status == Ok <==>
      |p| == BEACON_SIZE && crc16(p[RFU1_OFFSET..CRC1_OFFSET]) == Le16(p[CRC1_OFFSET], p[CRC1_OFFSET + 1])
    ensures r.status == Ok ==>
      r.data.time == Le32(p[TIME_OFFSET..CRC1_OFFSET]) && r.data.infoDesc == p[GW_OFFSET]
    ensures r.status == Ok && crc16(Crc2Span(p, crc2SpansRfu2)) == Le16(p[CRC2_OFFSET], p[CRC2_OFFSET + 1])
        && IsGpsInfo(p[GW_OFFSET])
      ==> (r.data.latitude == Store24(data.latitude, p[GW_OFFSET + 1..GW_OFFSET + 4])
           && r.data.longitude == Store24(data.longitude, p[GW_OFFSET + 4..GW_OFFSET + 7]))
    ensures r.status == Ok && !(crc16(Crc2Span(p, crc2SpansRfu2)) == Le16(p[CRC2_OFFSET], p[CRC2_OFFSET + 1])
        && IsGpsInfo(p[GW_OFFSET]))
      ==> (r.data.latitude == data.latitude && r.data.longitude == data.longitude)
  {
    if |p| != BEACON_SIZE then Decoded(BeaconSize, data)
    else if crc16(p[RFU1_OFFSET..CRC1_OFFSET]) != Le16(p[CRC1_OFFSET], p[CRC1_OFFSET + 1]) then Decoded(BeaconCrc, data)
    else
      var d := data.(time := Le32(p[TIME_OFFSET..CRC1_OFFSET]), infoDesc := p[GW_OFFSET]);
      if crc16(Crc2Span(p, crc2SpansRfu2)) == Le16(p[CRC2_OFFSET], p[CRC2_OFFSET + 1]) && IsGpsInfo(d.infoDesc) then
        Decoded(Ok, d.(latitude := Store24(d.latitude, p[GW_OFFSET + 1..GW_OFFSET + 4]),
                       longitude := Store24(d.longitude, p[GW_OFFSET + 4..GW_OFFSET + 7])))
      else
        Decoded(Ok, d)
  }

  /** A uint16_t as its two bytes, low byte first. */
  function Le16Bytes(w: bv16): (p: seq<Byte>)
    ensures |p| == 2
  {
    [(w & 0xFF) as bv8, (w >> 8) as bv8]
  }

  /** A uint32_t as its four bytes, low byte first. */
  function Le32Bytes(w: bv32): (p: seq<Byte>)
    ensures |p| == 4
  {
    [(w & 0xFF) as bv8, ((w >> 8) & 0xFF) as bv8, ((w >> 16) & 0xFF) as bv8, (w >> 24) as bv8]
  }

  /** The frame a gateway sends: the fields with both CRCs computed by crc16. */
  function EncodeBeacon(rfu1: seq<Byte>, time: bv32, gw: seq<Byte>, rfu2: seq<Byte>,
                        crc16: seq<Byte> -> bv16, crc2SpansRfu2: bool): (p: seq<Byte>)
    requires |rfu1| == 5 && |gw| == 7 && |rfu2| == 3
    ensures |p| == BEACON_SIZE
  {
    var head := rfu1 + Le32Bytes(time);
    var span2 := if crc2SpansRfu2 then gw + rfu2 else gw;
    head + Le16Bytes(crc16(head)) + gw + rfu2 + Le16Bytes(crc16(span2))
  }

  lemma Le16RoundTrip(w: bv16)
    ensures Le16(Le16Bytes(w)[0], Le16Bytes(w)[1]) == w
  {
  }

  lemma Le32RoundTrip(w: bv32)
    ensures Le32(Le32Bytes(w)) == w
  {
  }

  /**
   * A well-formed frame decodes: the status is Ok, Time and InfoDesc are the
   * fields sent, and the GPS fields are taken when InfoDesc names an antenna.
   */
  lemma DecodeEncoded(rfu1: seq<Byte>, time: bv32, gw: seq<Byte>, rfu2: seq<Byte>,
                      crc16: seq<Byte> -> bv16, crc2SpansRfu2: bool, data: BeaconData)
    requires |rfu1| == 5 && |gw| == 7 && |rfu2| == 3
    ensures var r := DecodeBeacon(EncodeBeacon(rfu1, time, gw, rfu2, crc16, crc2SpansRfu2), crc16, crc2SpansRfu2, data);
      r.status == Ok && r.data.time == time && r.data.infoDesc == gw[0] &&
      (IsGpsInfo(gw[0]) ==>
         r.data.latitude == Store24(data.latitude, gw[1..4]) &&
         r.data.longitude == Store24(data.longitude, gw[4..7])) &&
      (!IsGpsInfo(gw[0]) ==> r.data.latitude == data.latitude && r.data.longitude == data.longitude)
  {
    var p := EncodeBeacon(rfu1, time, gw, rfu2, crc16, crc2SpansRfu2);
    var head := rfu1 + Le32Bytes(time);
    var span2 := if crc2SpansRfu2 then gw + rfu2 else gw;
    FrameSlices(head, Le16Bytes(crc16(head)), gw, rfu2, Le16Bytes(crc16(span2)));
    Le16RoundTrip(crc16(head));
    Le16RoundTrip(crc16(span2));
    Le32RoundTrip(time);
    assert p[TIME_OFFSET..CRC1_OFFSET] == Le32Bytes(time);
    assert Crc2Span(p, crc2SpansRfu2) == span2;
  }

  /** Where each field of an assembled frame sits. */
  lemma FrameSlices(head: seq<Byte>, c1: seq<Byte>, gw: seq<Byte>, rfu2: seq<Byte>, c2: seq<Byte>)
    requires |head| == 9 && |c1| == 2 && |gw| == 7 && |rfu2| == 3 && |c2| == 2
    ensures var p := head + c1 + gw + rfu2 + c2;
      p[RFU1_OFFSET..CRC1_OFFSET] == head && p[TIME_OFFSET..CRC1_OFFSET] == head[5..] &&
      p[CRC1_OFFSET] == c1[0] && p[CRC1_OFFSET + 1] == c1[1] &&
      p[GW_OFFSET] == gw[0] &&
      p[GW_OFFSET..RFU2_OFFSET] == gw && p[GW_OFFSET..CRC2_OFFSET] == gw + rfu2 &&
      p[GW_OFFSET + 1..GW_OFFSET + 4] == gw[1..4] && p[GW_OFFSET + 4..GW_OFFSET + 7] == gw[4..7] &&
      p[CRC2_OFFSET] == c2[0] && p[CRC2_OFFSET + 1] == c2[1]
  {
    var p := head + c1 + gw + rfu2 + c2;
    assert p[GW_OFFSET..CRC2_OFFSET] == gw + rfu2;
    assert p[GW_OFFSET + 4..GW_OFFSET + 7] == gw[4..7];
  }

  /**
   * When CRC2 spans GwSpecific alone (EU868), the RFU2 bytes have no influence
   * on what DecodeBeacon returns.
   */
  lemma Rfu2IgnoredWithoutSpan(p: seq<Byte>, rfu2: seq<Byte>, crc16: seq<Byte> -> bv16, data: BeaconData)
    requires |p| == BEACON_SIZE && |rfu2| == 3
    ensures DecodeBeacon(p[..RFU2_OFFSET] + rfu2 + p[CRC2_OFFSET..], crc16, false, data) == DecodeBeacon(p, crc16, false, data)
  {
    var q := p[..RFU2_OFFSET] + rfu2 + p[CRC2_OFFSET..];
    assert q[RFU1_OFFSET..CRC1_OFFSET] == p[RFU1_OFFSET..CRC1_OFFSET];
    assert q[TIME_OFFSET..CRC1_OFFSET] == p[TIME_OFFSET..CRC1_OFFSET];
    assert Crc2Span(q, false) == Crc2Span(p, false);
    assert q[GW_OFFSET + 1..GW_OFFSET + 4] == p[GW_OFFSET + 1..GW_OFFSET + 4];
    assert q[GW_OFFSET + 4..GW_OFFSET + 7] == p[GW_OFFSET + 4..GW_OFFSET + 7];
  }
}
