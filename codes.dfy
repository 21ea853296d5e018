/**
 * The bit packing the programs do by hand: DAC register payloads, the 12-bit
 * ADC code rebuilt from two response bytes, and the sign of a 12-bit code.
 * Values the source holds in uint16_t are bv16 here, so its masks and shifts
 * read the same; C's conversions to uint8_t and uint16_t are written out.
 */
module Codes {
  import opened Bytes

  /** `(uint8_t) x`: conversion to an unsigned 8-bit type keeps the value modulo 2^8. */
  function Low8(x: bv16): (r: byte)
    ensures r as int == x as int % 256
  {
    var hi, lo := (x >> 8) as byte, (x & 0xFF) as byte;
    assert x == (hi as bv16) * 256 + lo as bv16;
    Bv16Value(hi, lo);
    RemainderOf(x as int, hi as int, lo as int);
    lo
  }

  /** Writing a number as `q * 256 + r` with `r` a byte fixes `r` as its remainder. */
  lemma RemainderOf(a: int, q: int, r: int)
    requires a == q * 256 + r && 0 <= r < 256
    ensures a % 256 == r
  {
  }

  /**
   * The payload of a 12-bit DAC write, high byte then low byte: the setpoint's
   * low 12 bits left-justified in a 16-bit register image, so the low nibble
   * of the low byte is zero and bits 12..15 of the setpoint are dropped.
   */
  function DacPayload12(v: bv16): (p: (byte, byte))
    ensures p.1 & 0x0F == 0
    ensures ((p.0 as bv16) << 4) | ((p.1 as bv16) >> 4) == v & 0x0FFF
    ensures ((p.0 as bv16) << 8) | (p.1 as bv16) == (v & 0x0FFF) << 4
  {
    (Low8(((v & 0x0FF0) >> 4) & 0x00FF), Low8((v & 0x000F) << 4))
  }

  /** The 16-bit DAC payload: high byte then low byte, which give back the value. */
  function BigEndian16(v: bv16): (p: (byte, byte))
    ensures ((p.0 as bv16) << 8) | (p.1 as bv16) == v
  {
    (Low8((v >> 8) & 0x00FF), Low8(v & 0x00FF))
  }

  /** The big-endian pair read back as a number. */
  lemma BigEndian16Value(v: bv16)
    ensures BigEndian16(v).0 as int * 256 + BigEndian16(v).1 as int == v as int
  {
    var (hi, lo) := BigEndian16(v);
    assert v == (hi as bv16) * 256 + lo as bv16;
    Bv16Value(hi, lo);
  }

  lemma Bv16Value(hi: byte, lo: byte)
    ensures ((hi as bv16) * 256 + lo as bv16) as int == hi as int * 256 + lo as int
  {
  }

  /**
   * The payload write_DAC60501 sends, as written: the 0xFF00 mask leaves only
   * bits the byte conversion then drops, and the low nibble is shifted by one
   * instead of four.
   */
  function Dac60501Payload(v: bv16): (p: (byte, byte))
    ensures p.0 == 0
    ensures p.1 == if v & 0x0008 != 0 then 0x10 else 0x00
  {
    (Low8(((v & 0x0FF0) << 1) & 0xFF00), Low8(((v & 0x000F) << 1) & 0x00F0))
  }

  /**
   * As written, the DAC60501 payload depends on bit 3 of the setpoint alone:
   * every setpoint gives the bytes of the setpoint masked down to that bit.
   */
  lemma Dac60501KeepsOnlyBit3(v: bv16)
    ensures Dac60501Payload(v) == Dac60501Payload(v & 0x0008)
  {
    assert (v & 0x0008) & 0x0008 == v & 0x0008;
  }

  /** Two different 12-bit setpoints that the DAC60501 payload sends as the same bytes. */
  lemma Dac60501Collision()
    ensures Dac60501Payload(0x0000) == Dac60501Payload(0x0FF7) == (0x00, 0x00)
    ensures DacPayload12(0x0000) != DacPayload12(0x0FF7)
  {
    Dac60501KeepsOnlyBit3(0x0FF7);
    DacPayload12Injective(0x0000, 0x0FF7);
  }

  /** The left-justified 12-bit payload tells every 12-bit setpoint apart. */
  lemma DacPayload12Injective(u: bv16, v: bv16)
    ensures DacPayload12(u) == DacPayload12(v) <==> u & 0x0FFF == v & 0x0FFF
  {
    if u & 0x0FFF == v & 0x0FFF {
      assert u & 0x0FF0 == (u & 0x0FFF) & 0x0FF0 && v & 0x0FF0 == (v & 0x0FFF) & 0x0FF0;
      assert u & 0x000F == (u & 0x0FFF) & 0x000F && v & 0x000F == (v & 0x0FFF) & 0x000F;
    }
  }

  /**
   * An ADC code from the full byte and the bit-mode byte of one conversion:
   * the full byte gives the high eight bits, the low nibble of the second
   * byte the low four; the high nibble of the second byte is ignored.
   */
  function Code12(b0: byte, b1: byte): (c: bv16)
    ensures c < 4096
    ensures c >> 4 == b0 as bv16 && c & 0x0F == (b1 & 0x0F) as bv16
  {
    ((b0 as bv16) << 4) + ((b1 & 0x0F) as bv16)
  }

  /** Splitting a code into its two response bytes and rebuilding it is the identity. */
  lemma Code12Split(c: bv16)
    requires c < 4096
    ensures Code12((c >> 4) as byte, (c & 0x0F) as byte) == c
  {
  }

  /**
   * The integer part of outToVolt: the code's bit 11 weighs -2048 and bits
   * 0..10 their usual weight, so a 12-bit code reads as two's complement.
   */
  function Signed12(out: bv16): (r: int)
    ensures -2048 <= r <= 2047
  {
    var sign := out & 0x800;
    Signed12Parts(out);
    -(sign as int) + (out & 0x7FF) as int
  }

  /** The value is the low twelve bits read as two's complement; the high nibble is ignored. */
  lemma Signed12Value(out: bv16)
    ensures Signed12(out) == if out & 0x800 != 0 then (out & 0xFFF) as int - 4096 else (out & 0xFFF) as int
  {
    Signed12Parts(out);
  }

  lemma Signed12Parts(out: bv16)
    ensures (out & 0x800) as int == (if out & 0x800 != 0 then 2048 else 0)
    ensures (out & 0x7FF) as int < 2048
    ensures (out & 0xFFF) as int == (out & 0x800) as int + (out & 0x7FF) as int
  {
    assert out & 0xFFF == (out & 0x800) + (out & 0x7FF);
  }

  /** Reading a 12-bit two's-complement value back as a code gives the code. */
  lemma Signed12RoundTrip(out: bv16)
    ensures (Signed12(out) + 4096) % 4096 == (out & 0xFFF) as int
  {
    Signed12Value(out);
    TwosComplementBack(Signed12(out), (out & 0xFFF) as int, out & 0x800 != 0);
  }

  lemma TwosComplementBack(r: int, x: int, negative: bool)
    requires 0 <= x < 4096
    requires r == if negative then x - 4096 else x
    ensures (r + 4096) % 4096 == x
  {
  }
}
