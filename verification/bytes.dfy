/** Fixed-width integers of the firmware and the little-endian accessors it uses. */
module Bytes {

  type byte = b: int | 0 <= b < 0x100
  type u16 = x: int | 0 <= x < 0x1_0000
  type i16 = x: int | -0x8000 <= x < 0x8000
  type u32 = x: int | 0 <= x < 0x1_0000_0000

  const U32_RANGE := 0x1_0000_0000

  datatype Option<+T> = None | Some(value: T)

  /** The cast (uint16_t)x of a signed 16-bit value. */
  function AsU16(x: i16): u16 {
    if x < 0 then x + 0x1_0000 else x
  }

  /** The cast (int16_t)x of an unsigned 16-bit value. */
  function AsI16(x: u16): i16 {
    if x < 0x8000 then x else x - 0x1_0000
  }

  function LowByte(x: u16): byte {
    x % 0x100
  }

  function HighByte(x: u16): byte {
    x / 0x100
  }

  function Le16(low: byte, high: byte): u16 {
    low + 0x100 * high
  }

  /** Unsigned 32-bit subtraction, which wraps around. */
  function SubU32(a: u32, b: u32): u32 {
    (a - b) % U32_RANGE
  }

  /** Truncation of a millisecond uptime to 32 bits. */
  function TruncateU32(t: nat): u32 {
    t % U32_RANGE
  }

  lemma Le16Inverse(x: u16, low: byte, high: byte)
    ensures Le16(LowByte(x), HighByte(x)) == x
    ensures LowByte(Le16(low, high)) == low && HighByte(Le16(low, high)) == high
  {
  }

  /** Wrapped 32-bit subtraction sees the true elapsed time modulo the range. */
  lemma SubU32IsElapsed(now: nat, past: nat)
    requires past <= now
    ensures SubU32(TruncateU32(now), TruncateU32(past)) == (now - past) % U32_RANGE
  {
    var a, b := now / U32_RANGE, past / U32_RANGE;
    assert now == a * U32_RANGE + TruncateU32(now);
    assert past == b * U32_RANGE + TruncateU32(past);
    assert now - past == (a - b) * U32_RANGE + (TruncateU32(now) - TruncateU32(past));
  }
}
