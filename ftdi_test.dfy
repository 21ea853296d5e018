/**
 * ftdi_test.cpp: helpers that append one DAC write or one ADC read to the
 * command buffer, and a main that sends the nine-byte setup and then a run of
 * DAC80501 writes. ftdi_testADC.cpp carries write_DAC80501, write_DAC60501
 * and read_LTC230x again, byte for byte; they are modelled here once.
 */
module FtdiTest {
  import opened Bytes
  import opened Seqs
  import opened Mpsse
  import opened Pins
  import opened Codes
  import opened Transactions
  import opened CommandBuffers
  import opened Emitters

  /** The size of the command buffer main allocates. */
  const BUF_SIZE: nat := 10000000

  /** The number of values sine_dac writes. */
  const SINE_SAMPLES: nat := 20000

  /** Pin::CS, the select line of the DAC. */
  const DAC_SELECT: byte := CS0

  /** write_DAC80501: select the DAC, write the value big-endian to DAC_DATA, deselect. */
  function Dac80501Commands(v: bv16): seq<Command>
  {
    var p := BigEndian16(v);
    DacTransaction(DAC_SELECT, DAC_DATA, p.0, p.1) + [Idle]
  }

  /** The twelve bytes of write_DAC80501; its two payload bytes read back as the value. */
  lemma Dac80501Bytes(v: bv16)
    ensures EncodeAll(Dac80501Commands(v)) ==
      [SET_BITS_LOW, SelectWord(CS0), PIN_DIRECTION, MPSSE_DO_WRITE, 0x02, 0x00, DAC_DATA,
       BigEndian16(v).0, BigEndian16(v).1, SET_BITS_LOW, PIN_INITIAL_STATE, PIN_DIRECTION]
    ensures BigEndian16(v).0 as int * 256 + BigEndian16(v).1 as int == v as int
  {
    var p := BigEndian16(v);
    var dac := DacTransaction(DAC_SELECT, DAC_DATA, p.0, p.1);
    DacTransactionBytes(DAC_SELECT, DAC_DATA, p.0, p.1);
    IdleShaped();
    EncodeAllAppend(dac, [Idle]);
    BigEndian16Value(v);
  }

  /** write_DAC80501 reads nothing, sets only safe pin words and leaves the bus idle. */
  lemma Dac80501Shaped(v: bv16)
    ensures Shaped(Dac80501Commands(v), 12, [], PIN_INITIAL_STATE)
  {
    var p := BigEndian16(v);
    DacTransactionShaped(DAC_SELECT, DAC_DATA, p.0, p.1);
    IdleShaped();
    ShapedAppend(DacTransaction(DAC_SELECT, DAC_DATA, p.0, p.1), 9, [], SelectWord(DAC_SELECT), [Idle], 3, [], PIN_INITIAL_STATE);
  }

  /** ftdi_test.cpp:40-55. */
  method WriteDac80501(cb: CommandBuffer, v: bv16)
    requires cb.Valid() && cb.icmd + 12 <= cb.buf.Length
    modifies cb, cb.buf
    ensures cb.Valid() && cb.icmd == old(cb.icmd) + 12 && cb.iread == old(cb.iread)
    ensures cb.Written() == old(cb.Written()) + EncodeAll(Dac80501Commands(v))
    ensures cb.Unwritten() == old(cb.Unwritten())[12..]
  {
    ghost var w0, u0 := cb.Written(), cb.Unwritten();
    var p := BigEndian16(v);
    PutDacTransaction(cb, DAC_SELECT, DAC_DATA, p.0, p.1);
    PutPins(cb, PIN_INITIAL_STATE);
    EmitCommand(w0, DacTransaction(DAC_SELECT, DAC_DATA, p.0, p.1), Idle);
    DropDrop(u0, 9, 3);
  }

  /** sine_dac's loop, with the sine values as input: one write_DAC80501 per value. */
  method SineDac(cb: CommandBuffer, fvals: seq<bv16>)
    requires cb.Valid() && cb.icmd + 12 * |fvals| <= cb.buf.Length
    modifies cb, cb.buf
    ensures cb.Valid() && cb.icmd == old(cb.icmd) + 12 * |fvals| && cb.iread == old(cb.iread)
    ensures cb.Written() == old(cb.Written()) + EncodeAll(Repeat(Dac80501Commands, fvals))
  {
    ghost var w0 := cb.Written();
    var t := 0;
    while t < |fvals|
      invariant 0 <= t <= |fvals|
      invariant cb.Valid() && cb.icmd == old(cb.icmd) + 12 * t && cb.iread == old(cb.iread)
      invariant cb.Written() == w0 + EncodeAll(Repeat(Dac80501Commands, fvals[..t]))
      modifies cb, cb.buf
    {
      WriteDac80501(cb, fvals[t]);
      RepeatSnoc(Dac80501Commands, fvals, t);
      EmitCommands(w0, Repeat(Dac80501Commands, fvals[..t]), Dac80501Commands(fvals[t]));
      t := t + 1;
    }
    assert fvals[..t] == fvals;
  }

  /** The sine stream: 12 bytes per value, no response, the bus idle between and after the writes. */
  lemma SineStreamShaped(fvals: seq<bv16>)
    requires |fvals| > 0
    ensures Shaped(Repeat(Dac80501Commands, fvals), 12 * |fvals|, [], PIN_INITIAL_STATE)
  {
    forall v ensures Shaped(Dac80501Commands(v), 12, [], PIN_INITIAL_STATE) {
      Dac80501Shaped(v);
    }
    RepeatShaped(Dac80501Commands, fvals, 12, [], PIN_INITIAL_STATE);
    TileLength([], |fvals|);
  }

  /** write_DAC60501's one command: a three-byte write of DAC_DATA with the payload as written. */
  function Dac60501Command(v: bv16): Command
  {
    var p := Dac60501Payload(v);
    DacWrite(DAC_DATA, p.0, p.1)
  }

  /** The six bytes of write_DAC60501: the fifth is always zero, the sixth is bit 3 of the value moved to bit 4. */
  lemma Dac60501Bytes(v: bv16)
    ensures Encode(Dac60501Command(v)) ==
      [MPSSE_DO_WRITE, 0x02, 0x00, DAC_DATA, 0x00, if v & 0x0008 != 0 then 0x10 else 0x00]
    ensures WellFormed(Dac60501Command(v)) && ResponseBytes(Dac60501Command(v)) == 0
  {
  }

  /** ftdi_test.cpp:69-76. */
  method WriteDac60501(cb: CommandBuffer, v: bv16)
    requires cb.Valid() && cb.icmd + 6 <= cb.buf.Length
    modifies cb, cb.buf
    ensures cb.Valid() && cb.icmd == old(cb.icmd) + 6 && cb.iread == old(cb.iread)
    ensures cb.Written() == old(cb.Written()) + Encode(Dac60501Command(v))
    ensures cb.Unwritten() == old(cb.Unwritten())[6..]
  {
    var p := Dac60501Payload(v);
    PutThree(cb, MPSSE_DO_WRITE, 0x02, 0x00);  // three bytes
    PutThree(cb, DAC_DATA, p.0, p.1);
  }

  /** read_LTC230x: clock in two bytes, writing nothing. */
  const Ltc230xRead: Command := ShiftBytes(MPSSE_DO_READ, 1, [])

  /** Three bytes, two response bytes clocked in under whatever pin word is set. */
  lemma Ltc230xReadShape()
    ensures Encode(Ltc230xRead) == [MPSSE_DO_READ, 0x01, 0x00]
    ensures Sound([Ltc230xRead]) && ResponseLength([Ltc230xRead]) == 2
    ensures forall pins :: ReadSlots([Ltc230xRead], pins) == [ReadSlot(pins, 8), ReadSlot(pins, 8)]
  {
    assert [Ltc230xRead][1..] == [];
  }

  /** ftdi_test.cpp:78-83. */
  method ReadLtc230x(cb: CommandBuffer)
    requires cb.Valid() && cb.icmd + 3 <= cb.buf.Length
    modifies cb, cb.buf
    ensures cb.Valid() && cb.icmd == old(cb.icmd) + 3 && cb.iread == old(cb.iread) + 2
    ensures cb.Written() == old(cb.Written()) + Encode(Ltc230xRead)
    ensures cb.Unwritten() == old(cb.Unwritten())[3..]
  {
    PutThree(cb, MPSSE_DO_READ, 0x01, 0x00);  // two bytes
    cb.ExpectRead(2);
  }

  /** read_LTC230x_bitwise: one full byte, then four bits. */
  const Ltc230xBitwise: seq<Command> := [ShiftBytes(MPSSE_DO_READ, 0, []), ShiftBits(MPSSE_DO_READ | MPSSE_BITMODE, 3, [])]

  /** Five bytes ending in bit length 0x03. */
  lemma Ltc230xBitwiseBytes()
    ensures EncodeAll(Ltc230xBitwise) == [MPSSE_DO_READ, 0x00, 0x00, MPSSE_DO_READ | MPSSE_BITMODE, 0x03]
  {
    var c := Ltc230xBitwise;
    assert c == [c[0]] + [c[1]];
    EncodeCons(c[0], [c[1]]);
    One(c[1], PIN_INITIAL_STATE);
  }

  /** Two response bytes, one full and one of four bits, with the pins left as they were. */
  lemma Ltc230xBitwiseShape()
    ensures Sound(Ltc230xBitwise) && ResponseLength(Ltc230xBitwise) == 2
    ensures forall pins :: ReadSlots(Ltc230xBitwise, pins) == [ReadSlot(pins, 8), ReadSlot(pins, 4)]
                           && FinalPins(Ltc230xBitwise, pins) == pins
  {
    var c := Ltc230xBitwise;
    assert c == [c[0]] + [c[1]];
    assert WellFormed(c[0]) && WellFormed(c[1]);
    EncodeCons(c[0], [c[1]]);
    One(c[1], PIN_INITIAL_STATE);
    forall pins ensures ReadSlots(c, pins) == [ReadSlot(pins, 8), ReadSlot(pins, 4)] && FinalPins(c, pins) == pins {
      RunCons(c[0], [c[1]], pins);
      One(c[1], pins);
      assert CommandSlots(c[0], pins) == [ReadSlot(pins, 8)];
    }
  }

  /** ftdi_test.cpp:85-93. */
  method ReadLtc230xBitwise(cb: CommandBuffer)
    requires cb.Valid() && cb.icmd + 5 <= cb.buf.Length
    modifies cb, cb.buf
    ensures cb.Valid() && cb.icmd == old(cb.icmd) + 5 && cb.iread == old(cb.iread) + 2
    ensures cb.Written() == old(cb.Written()) + EncodeAll(Ltc230xBitwise)
    ensures cb.Unwritten() == old(cb.Unwritten())[5..]
  {
    ghost var w, u := cb.Written(), cb.Unwritten();
    PutThree(cb, MPSSE_DO_READ, 0x00, 0x00);  // one byte
    cb.Put(MPSSE_DO_READ | MPSSE_BITMODE);
    cb.Put(0x03);  // four bits
    cb.ExpectRead(2);
    Ltc230xBitwiseBytes();
    Chain3(w, [MPSSE_DO_READ, 0x00, 0x00], [MPSSE_DO_READ | MPSSE_BITMODE], [0x03]);
    DropDrop(u, 3, 1);
    DropDrop(u, 4, 1);
  }

  /**
   * main without the USB calls: the setup stream, then, in the cleared buffer,
   * the sine stream for the given values.
   */
  method Run(fvals: seq<bv16>) returns (setup: seq<byte>, stream: seq<byte>)
    requires |fvals| == SINE_SAMPLES
    ensures setup == EncodeAll(BusSetup)
    ensures stream == EncodeAll(Repeat(Dac80501Commands, fvals)) && |stream| == 12 * SINE_SAMPLES
  {
    var cb := new CommandBuffer(BUF_SIZE);
    PutBusSetup(cb);
    setup := cb.buf[..cb.icmd];
    cb.Clear();
    SineDac(cb, fvals);
    stream := cb.buf[..cb.icmd];
  }
}
