/** Bytes and the count-1 length fields of section 3 of AN_108. */
module Bytes {

  type byte = bv8

  /** Low and high byte of the 16-bit length field of a byte transfer. */
  function LengthLow(length: bv16): byte { (length & 0xFF) as byte }

  function LengthHigh(length: bv16): byte { (length >> 8) as byte }

  /** The length field a byte transfer's two length bytes carry, low byte first. */
  function LengthOf(lo: byte, hi: byte): (length: bv16)
    ensures LengthLow(length) == lo && LengthHigh(length) == hi
  {
    ((hi as bv16) << 8) | (lo as bv16)
  }

  /** Splitting a length field into its two bytes and joining them gives it back. */
  lemma LengthFieldRoundTrip(length: bv16)
    ensures LengthOf(LengthLow(length), LengthHigh(length)) == length
  {
  }

  /** The number of bytes a 16-bit length field stands for: 1 to 65536. */
  function Count(length: bv16): (n: nat)
    ensures 1 <= n <= 0x1_0000
  {
    length as int + 1
  }
}
