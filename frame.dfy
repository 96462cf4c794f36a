/**
 * The data-channel frame of the DAC7731 driver: the 32-bit value handed to
 * `write_value` is clipped to the converter's 16-bit range and split into
 * two bytes, most significant first, which form the whole SPI transaction.
 */
module Frame {

  /** C's `uint8_t` and `uint32_t`. */
  type uint8 = x: int | 0 <= x < 0x100
  type uint32 = x: int | 0 <= x < 0x1_0000_0000

  /** The largest code the 16-bit converter accepts. */
  const MaxCode: uint32 := 0xFFFF

  /**
   * The two bytes sent for `value`: values above MaxCode are clipped to
   * MaxCode, then byte 0 is `value >> 8` and byte 1 is `value & 0xFF`, each
   * stored into a `uint8_t`. On an unsigned operand `>> 8` is division by
   * 256 and `& 0xFF` the remainder modulo 256; the final `% 256` is the
   * conversion to `uint8_t`.
   */
  function Encode(value: uint32): (frame: seq<uint8>)
    ensures |frame| == 2
    ensures frame[0] as int * 256 + frame[1] as int == if value <= MaxCode then value else MaxCode
  {
    var code := if value > MaxCode then MaxCode else value;
    [(code / 256) % 256, code % 256]
  }

  /** The 16-bit code a 2-byte big-endian frame carries, as the converter reads it. */
  function Decode(frame: seq<uint8>): (code: nat)
    requires |frame| == 2
    ensures code <= MaxCode
  {
    frame[0] as int * 256 + frame[1] as int
  }

  /** Decoding the transmitted frame gives back the clipped value: min(value, 0xFFFF). */
  lemma DecodeEncode(value: uint32)
    ensures Decode(Encode(value)) == if value <= MaxCode then value else MaxCode
  {
  }

  /** Every 2-byte frame is the encoding of the code it carries, so no frame is unreachable. */
  lemma EncodeDecode(frame: seq<uint8>)
    requires |frame| == 2
    ensures Encode(Decode(frame)) == frame
  {
  }

  /** A value in range is sent unchanged: its high byte, then its low byte. */
  lemma EncodeInRange(value: uint32)
    requires value <= MaxCode
    ensures Encode(value) == [value / 256, value % 256]
  {
  }

  /** Every value above the range is clipped to [0xFF, 0xFF] rather than wrapping. */
  lemma EncodeClips(value: uint32)
    requires value > MaxCode
    ensures Encode(value) == [0xFF, 0xFF]
  {
  }

  /** Within the range, distinct values give distinct frames. */
  lemma EncodeInjective(v: uint32, w: uint32)
    requires v <= MaxCode && w <= MaxCode
    requires Encode(v) == Encode(w)
    ensures v == w
  {
  }
}
