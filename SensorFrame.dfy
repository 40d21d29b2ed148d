/**
 * The BeeWi SmartClim frame layout, as a pure specification of what
 * `SensorData.decode` computes from a byte buffer.
 *
 * A connected frame is 10 bytes read from offset 0; an advertisement frame is
 * 13 bytes read from offset 1 (the byte before the fields is a marker).
 * Relative to the offset, bytes 1 and 2 are added to give the temperature in
 * tenths of a degree, byte 4 is the relative humidity and byte 9 the battery
 * level.
 */
module SensorFrame {
  import opened Types

  /** Length a buffer must have to be decoded in the given format. */
  function FrameLength(isAdv: bool): nat
  {
    if isAdv then 13 else 10
  }

  /** Position of the first field byte in the given format. */
  function Offset(isAdv: bool): nat
  {
    if isAdv then 1 else 0
  }

  /** The decoded fields; the temperature is kept as an integer number of tenths. */
  datatype Reading = Reading(tempTenths: int, humidity: int, battery: int)

  /** The reading of a record that was never decoded. */
  const Default := Reading(0, 0, 0)

  /** The 16-bit two's-complement adjustment applied to the raw temperature. */
  function SignedTemperature(raw: int): int
  {
    if raw > 0x8000 then raw - 0x10000 else raw
  }

  /**
   * The reading a buffer decodes to, or None where the source raises
   * "Wrong size to decode data".
   */
  function DecodeFrame(raw: seq<byte>, isAdv: bool): (r: Option<Reading>)
    ensures r.Some? <==> |raw| == FrameLength(isAdv)
    ensures r.Some? ==> 0 <= r.value.tempTenths <= 510
    ensures r.Some? ==> 0 <= r.value.humidity < 256 && 0 <= r.value.battery < 256
  {
    if |raw| != FrameLength(isAdv) then None
    else
      var offset := Offset(isAdv);
      Some(Reading(SignedTemperature(raw[2 + offset] as int + raw[1 + offset]),
                   raw[4 + offset],
                   raw[9 + offset]))
  }

  /** The reading a record holds after decoding `raw`, given the one it held before. */
  function AfterDecode(prev: Reading, raw: seq<byte>, isAdv: bool): Reading
  {
    match DecodeFrame(raw, isAdv)
    case None => prev
    case Some(r) => r
  }

  /** The sum of two bytes never exceeds the two's-complement threshold, so the adjustment is the identity. */
  lemma NegativeBranchDead(hi: byte, lo: byte)
    ensures hi as int + lo <= 510 < 0x8000
    ensures SignedTemperature(hi as int + lo) == hi as int + lo >= 0
  {
  }

  /** A decoded frame carries exactly the field bytes at their offsets, and the temperature is their plain sum. */
  lemma DecodedFields(raw: seq<byte>, isAdv: bool)
    requires |raw| == FrameLength(isAdv)
    ensures 9 + Offset(isAdv) < |raw|
    ensures DecodeFrame(raw, isAdv) ==
      Some(Reading(raw[1 + Offset(isAdv)] as int + raw[2 + Offset(isAdv)],
                   raw[4 + Offset(isAdv)],
                   raw[9 + Offset(isAdv)]))
  {
  }

  /** Decoding reads only bytes 1, 2, 4 and 9 after the offset: buffers that agree there decode alike. */
  lemma DecodeReadsOnlyFieldBytes(a: seq<byte>, b: seq<byte>, isAdv: bool)
    requires |a| == |b| == FrameLength(isAdv)
    requires a[1 + Offset(isAdv)] == b[1 + Offset(isAdv)] && a[2 + Offset(isAdv)] == b[2 + Offset(isAdv)]
    requires a[4 + Offset(isAdv)] == b[4 + Offset(isAdv)] && a[9 + Offset(isAdv)] == b[9 + Offset(isAdv)]
    ensures DecodeFrame(a, isAdv) == DecodeFrame(b, isAdv)
  {
  }

  /**
   * An advertisement frame is a connected frame shifted by one marker byte
   * and followed by two trailing bytes.
   */
  lemma OffsetShift(marker: byte, frame: seq<byte>, tail: seq<byte>)
    requires |frame| == 10 && |tail| == 2
    ensures DecodeFrame([marker] + frame + tail, true) == DecodeFrame(frame, false)
  {
  }

  /** A failed decode leaves the reading as it was; a successful one overwrites it with the decoded frame. */
  lemma AfterDecodeOutcome(prev: Reading, raw: seq<byte>, isAdv: bool)
    ensures |raw| != FrameLength(isAdv) ==> AfterDecode(prev, raw, isAdv) == prev
    ensures |raw| == FrameLength(isAdv) ==>
      Some(AfterDecode(prev, raw, isAdv)) == DecodeFrame(raw, isAdv)
  {
  }

  /** Decoding the same buffer twice gives the same reading as decoding it once. */
  lemma DecodeIdempotent(prev: Reading, raw: seq<byte>, isAdv: bool)
    ensures AfterDecode(AfterDecode(prev, raw, isAdv), raw, isAdv) == AfterDecode(prev, raw, isAdv)
  {
  }

  /** A successful decode does not depend on what the record held before. */
  lemma DecodeForgetsPrior(p: Reading, q: Reading, raw: seq<byte>, isAdv: bool)
    requires |raw| == FrameLength(isAdv)
    ensures AfterDecode(p, raw, isAdv) == AfterDecode(q, raw, isAdv)
  {
  }

  /** The connected-frame vector 00de00023b070000062e decodes to 22.2 degrees, 59 % humidity and 46 % battery. */
  lemma ConnectedFrameVector()
    ensures DecodeFrame([0x00, 0xde, 0x00, 0x02, 0x3b, 0x07, 0x00, 0x00, 0x06, 0x2e], false)
         == Some(Reading(222, 59, 46))
  {
  }

  /**
   * The 11-byte advertisement vector 0500de00023b070000062e is refused as an
   * advertisement frame, since that format is 13 bytes long; the same bytes
   * padded with two trailing bytes decode like the connected vector.
   */
  lemma ElevenByteAdvertisementRejected(tail: seq<byte>)
    requires |tail| == 2
    ensures DecodeFrame([0x05, 0x00, 0xde, 0x00, 0x02, 0x3b, 0x07, 0x00, 0x00, 0x06, 0x2e], true) == None
    ensures DecodeFrame([0x05, 0x00, 0xde, 0x00, 0x02, 0x3b, 0x07, 0x00, 0x00, 0x06, 0x2e] + tail, true)
         == Some(Reading(222, 59, 46))
  {
  }
}
