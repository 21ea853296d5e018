/**
 * The byte-by-byte writes the programs repeat, as methods on a command
 * buffer. Each appends exactly the encoding of its transaction at the write
 * index, leaves the rest of the array alone, and bumps the read counter by
 * the response bytes of what it wrote.
 */
module Emitters {
  import opened Bytes
  import opened Mpsse
  import opened Pins
  import opened Transactions
  import opened CommandBuffers
  import opened Seqs

  /** SET_BITS_LOW, the pin word, the fixed direction word. */
  method PutPins(cb: CommandBuffer, value: byte)
    requires cb.Valid() && cb.icmd + 3 <= cb.buf.Length
    modifies cb, cb.buf
    ensures cb.Valid() && cb.icmd == old(cb.icmd) + 3 && cb.iread == old(cb.iread)
    ensures cb.Written() == old(cb.Written()) + Encode(SetBitsLow(value, PIN_DIRECTION))
    ensures cb.Unwritten() == old(cb.Unwritten())[3..]
  {
    cb.Put(SET_BITS_LOW);
    cb.Put(value);
    cb.Put(PIN_DIRECTION);
  }

  /** The six clock-setup bytes. */
  method PutClockSetup(cb: CommandBuffer)
    requires cb.Valid() && cb.icmd + 6 <= cb.buf.Length
    modifies cb, cb.buf
    ensures cb.Valid() && cb.icmd == old(cb.icmd) + 6 && cb.iread == old(cb.iread)
    ensures cb.Written() == old(cb.Written()) + EncodeAll(ClockSetup)
    ensures cb.Unwritten() == old(cb.Unwritten())[6..]
  {
    ghost var w, u := cb.Written(), cb.Unwritten();
    PutThree(cb, 0x8A, TCK_DIVISOR, 0x00);
    PutThree(cb, 0x00, DIS_ADAPTIVE, DIS_3_PHASE);
    ClockSetupBytes();
    Associative(w, [0x8A, TCK_DIVISOR, 0x00], [0x00, DIS_ADAPTIVE, DIS_3_PHASE]);
    DropDrop(u, 3, 3);
  }

  /** The nine-byte setup: clock preamble, then every chip select high. */
  method PutBusSetup(cb: CommandBuffer)
    requires cb.Valid() && cb.icmd + 9 <= cb.buf.Length
    modifies cb, cb.buf
    ensures cb.Valid() && cb.icmd == old(cb.icmd) + 9 && cb.iread == old(cb.iread)
    ensures cb.Written() == old(cb.Written()) + EncodeAll(BusSetup)
    ensures cb.Unwritten() == old(cb.Unwritten())[9..]
  {
    PutClockSetup(cb);
    PutPins(cb, PIN_INITIAL_STATE);
    EmitCommand(old(cb.Written()), ClockSetup, Idle);
  }

  /** Three consecutive `buf[(*icmd)++]` writes. */
  method PutThree(cb: CommandBuffer, first: byte, second: byte, third: byte)
    requires cb.Valid() && cb.icmd + 3 <= cb.buf.Length
    modifies cb, cb.buf
    ensures cb.Valid() && cb.icmd == old(cb.icmd) + 3 && cb.iread == old(cb.iread)
    ensures cb.Written() == old(cb.Written()) + [first, second, third]
    ensures cb.Unwritten() == old(cb.Unwritten())[3..]
  {
    cb.Put(first);
    cb.Put(second);
    cb.Put(third);
  }

  /** Select a DAC, then MPSSE_DO_WRITE of three bytes: register, first, second. */
  method PutDacTransaction(cb: CommandBuffer, cs: byte, register: byte, first: byte, second: byte)
    requires IsChipSelect(cs)
    requires cb.Valid() && cb.icmd + 9 <= cb.buf.Length
    modifies cb, cb.buf
    ensures cb.Valid() && cb.icmd == old(cb.icmd) + 9 && cb.iread == old(cb.iread)
    ensures cb.Written() == old(cb.Written()) + EncodeAll(DacTransaction(cs, register, first, second))
    ensures cb.Unwritten() == old(cb.Unwritten())[9..]
  {
    ghost var w, u := cb.Written(), cb.Unwritten();
    PutPins(cb, SelectWord(cs));
    PutThree(cb, MPSSE_DO_WRITE, 0x02, 0x00);  // three bytes
    PutThree(cb, register, first, second);
    DacTransactionBytes(cs, register, first, second);
    Chain3(w, [SET_BITS_LOW, SelectWord(cs), PIN_DIRECTION], [MPSSE_DO_WRITE, 0x02, 0x00], [register, first, second]);
    DropDrop(u, 3, 3);
    DropDrop(u, 6, 3);
  }

  /**
   * Select an ADC, write its configuration byte while reading one byte, read
   * four more bits, and count the two response bytes.
   */
  method PutAdcConversion(cb: CommandBuffer, cs: byte, edge: byte, config: byte)
    requires IsChipSelect(cs) && IsReadEdge(edge)
    requires cb.Valid() && cb.icmd + 9 <= cb.buf.Length
    modifies cb, cb.buf
    ensures cb.Valid() && cb.icmd == old(cb.icmd) + 9 && cb.iread == old(cb.iread) + 2
    ensures cb.Written() == old(cb.Written()) + EncodeAll(AdcConversion(cs, edge, config))
    ensures cb.Unwritten() == old(cb.Unwritten())[9..]
  {
    ghost var w, u := cb.Written(), cb.Unwritten();
    var rd, bits := MPSSE_DO_READ | MPSSE_DO_WRITE | edge, MPSSE_DO_READ | MPSSE_BITMODE | edge;
    PutPins(cb, SelectWord(cs));
    PutThree(cb, rd, 0x00, 0x00);  // one byte
    PutThree(cb, config, bits, 0x03);  // then four bits
    cb.ExpectRead(2);
    AdcConversionBytes(cs, edge, config);
    Chain3(w, [SET_BITS_LOW, SelectWord(cs), PIN_DIRECTION], [rd, 0x00, 0x00], [config, bits, 0x03]);
    DropDrop(u, 3, 3);
    DropDrop(u, 6, 3);
  }
}
