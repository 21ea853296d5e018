/**
 * ftdi_testADC.cpp: the nine-byte setup, then one frame per sine value (the
 * value to the DAC on CS, one conversion of the ADC on L0 read on the falling
 * edge) and the trailer in a single stream; the response is decoded two
 * bytes per code. Its own read_LTC230x_bitwise wraps the ftdi_test.cpp one in
 * a select and a deselect of the ADC.
 */
module FtdiTestAdc {
  import opened Bytes
  import opened Seqs
  import opened Mpsse
  import opened Pins
  import opened Codes
  import opened Transactions
  import opened CommandBuffers
  import opened Emitters
  import opened Decoding
  import FtdiTest

  /** The size of the command buffer. */
  const BUF_SIZE: nat := 100000000

  /** The number of frames the loop writes. */
  const NSAMPLES: nat := 125000

  /** Pin::CS selects the DAC, Pin::L0 the ADC. */
  const DAC_SELECT: byte := CS0
  const ADC_SELECT: byte := CS1

  /** This file's read_LTC230x_bitwise: select the ADC, one byte and four bits, deselect. */
  const BitwiseRead: seq<Command> := [Select(ADC_SELECT)] + FtdiTest.Ltc230xBitwise + [Idle]

  /** The eleven bytes of read_LTC230x_bitwise. */
  lemma BitwiseReadBytes()
    ensures EncodeAll(BitwiseRead) ==
      [SET_BITS_LOW, SelectWord(CS1), PIN_DIRECTION]
      + [MPSSE_DO_READ, 0x00, 0x00, MPSSE_DO_READ | MPSSE_BITMODE, 0x03]
      + [SET_BITS_LOW, PIN_INITIAL_STATE, PIN_DIRECTION]
  {
    var bitwise := FtdiTest.Ltc230xBitwise;
    FtdiTest.Ltc230xBitwiseBytes();
    IdleShaped();
    One(Select(ADC_SELECT), PIN_INITIAL_STATE);
    EncodeAllAppend([Select(ADC_SELECT)], bitwise);
    EncodeAllAppend([Select(ADC_SELECT)] + bitwise, [Idle]);
  }

  /** Two response bytes, both taken while only the ADC is selected, and the bus idle after. */
  lemma BitwiseReadShaped()
    ensures Shaped(BitwiseRead, 11, ConversionSlots(ADC_SELECT), PIN_INITIAL_STATE)
  {
    var select, bitwise := [Select(ADC_SELECT)], FtdiTest.Ltc230xBitwise;
    var w := SelectWord(ADC_SELECT);
    FtdiTest.Ltc230xBitwiseBytes();
    FtdiTest.Ltc230xBitwiseShape();
    SelectShaped(ADC_SELECT);
    IdleShaped();
    SoundAppend(select, bitwise);
    EncodeAllAppend(select, bitwise);
    ResponseLengthAppend(select, bitwise);
    forall pins ensures ReadSlots(select + bitwise, pins) == ConversionSlots(ADC_SELECT) && FinalPins(select + bitwise, pins) == w {
      ReadSlotsAppend(select, bitwise, pins);
    }
    assert Shaped(select + bitwise, 8, ConversionSlots(ADC_SELECT), w);
    ShapedAppend(select + bitwise, 8, ConversionSlots(ADC_SELECT), w, [Idle], 3, [], PIN_INITIAL_STATE);
    assert ConversionSlots(ADC_SELECT) + [] == ConversionSlots(ADC_SELECT);
  }

  /** ftdi_testADC.cpp:86-102. */
  method ReadLtc230xBitwise(cb: CommandBuffer)
    requires cb.Valid() && cb.icmd + 11 <= cb.buf.Length
    modifies cb, cb.buf
    ensures cb.Valid() && cb.icmd == old(cb.icmd) + 11 && cb.iread == old(cb.iread) + 2
    ensures cb.Written() == old(cb.Written()) + EncodeAll(BitwiseRead)
    ensures cb.Unwritten() == old(cb.Unwritten())[11..]
  {
    ghost var w, u := cb.Written(), cb.Unwritten();
    PutPins(cb, SelectWord(ADC_SELECT));
    FtdiTest.ReadLtc230xBitwise(cb);
    PutPins(cb, PIN_INITIAL_STATE);
    BitwiseReadBytes();
    FtdiTest.Ltc230xBitwiseBytes();
    Chain3(w, [SET_BITS_LOW, SelectWord(CS1), PIN_DIRECTION], EncodeAll(FtdiTest.Ltc230xBitwise),
           [SET_BITS_LOW, PIN_INITIAL_STATE, PIN_DIRECTION]);
    DropDrop(u, 3, 5);
    DropDrop(u, 8, 3);
  }

  /** One frame: the sine value big-endian to the DAC, then one unipolar conversion on the falling edge. */
  function FrameCommands(v: bv16): seq<Command>
  {
    var p := BigEndian16(v);
    DacTransaction(DAC_SELECT, DAC_DATA, p.0, p.1) + AdcConversion(ADC_SELECT, MPSSE_READ_NEG, UNIPOLAR)
  }

  /** The frame's eighteen bytes; its two DAC payload bytes read back as the value. */
  lemma FrameBytes(v: bv16)
    ensures EncodeAll(FrameCommands(v)) ==
      [SET_BITS_LOW, SelectWord(CS0), PIN_DIRECTION, MPSSE_DO_WRITE, 0x02, 0x00, DAC_DATA,
       BigEndian16(v).0, BigEndian16(v).1] +
      [SET_BITS_LOW, SelectWord(CS1), PIN_DIRECTION,
       MPSSE_DO_READ | MPSSE_DO_WRITE | MPSSE_READ_NEG, 0x00, 0x00, UNIPOLAR,
       MPSSE_DO_READ | MPSSE_BITMODE | MPSSE_READ_NEG, 0x03]
    ensures BigEndian16(v).0 as int * 256 + BigEndian16(v).1 as int == v as int
  {
    var p := BigEndian16(v);
    DacTransactionBytes(DAC_SELECT, DAC_DATA, p.0, p.1);
    AdcConversionBytes(ADC_SELECT, MPSSE_READ_NEG, UNIPOLAR);
    EncodeAllAppend(DacTransaction(DAC_SELECT, DAC_DATA, p.0, p.1), AdcConversion(ADC_SELECT, MPSSE_READ_NEG, UNIPOLAR));
    BigEndian16Value(v);
  }

  /** A frame is 18 bytes and answers with the ADC's two bytes. */
  lemma FrameShaped(v: bv16)
    ensures Shaped(FrameCommands(v), 18, ConversionSlots(ADC_SELECT), SelectWord(ADC_SELECT))
  {
    var p := BigEndian16(v);
    DacTransactionShaped(DAC_SELECT, DAC_DATA, p.0, p.1);
    AdcConversionShaped(ADC_SELECT, MPSSE_READ_NEG, UNIPOLAR);
    ShapedAppend(DacTransaction(DAC_SELECT, DAC_DATA, p.0, p.1), 9, [], SelectWord(DAC_SELECT),
                 AdcConversion(ADC_SELECT, MPSSE_READ_NEG, UNIPOLAR), 9, ConversionSlots(ADC_SELECT), SelectWord(ADC_SELECT));
    assert [] + ConversionSlots(ADC_SELECT) == ConversionSlots(ADC_SELECT);
  }

  /** The measurement stream: one frame per value, then every chip select high. */
  function RunCommands(fvals: seq<bv16>): seq<Command>
  {
    Repeat(FrameCommands, fvals) + [Idle]
  }

  /** 18 bytes per value plus the trailer, two response bytes per value, the bus idle at the end. */
  lemma RunShaped(fvals: seq<bv16>)
    ensures Shaped(RunCommands(fvals), 18 * |fvals| + 3, Tile(ConversionSlots(ADC_SELECT), |fvals|), PIN_INITIAL_STATE)
  {
    forall v ensures Shaped(FrameCommands(v), 18, ConversionSlots(ADC_SELECT), SelectWord(ADC_SELECT)) {
      FrameShaped(v);
    }
    RepeatThenIdle(FrameCommands, fvals, 18, ConversionSlots(ADC_SELECT), SelectWord(ADC_SELECT));
  }

  /** The sizes alone: 18 bytes per sample plus the trailer, two response bytes per sample. */
  lemma RunSize(fvals: seq<bv16>)
    ensures |EncodeAll(RunCommands(fvals))| == 18 * |fvals| + 3
    ensures ResponseLength(RunCommands(fvals)) == 2 * |fvals|
  {
    RunShaped(fvals);
    TileLength(ConversionSlots(ADC_SELECT), |fvals|);
  }

  /** The response layout of the whole stream, as a single equation. */
  lemma RunLayout(fvals: seq<bv16>)
    ensures ReadSlots(RunCommands(fvals), PIN_INITIAL_STATE) == Tile(ConversionSlots(ADC_SELECT), |fvals|)
  {
    RunShaped(fvals);
  }

  /** Response bytes 2k and 2k+1 are the full byte and the four bits of conversion k. */
  lemma RunSlots(fvals: seq<bv16>, k: nat)
    requires k < |fvals|
    ensures 2 * k + 1 < |ReadSlots(RunCommands(fvals), PIN_INITIAL_STATE)|
    ensures ReadSlots(RunCommands(fvals), PIN_INITIAL_STATE)[2 * k] == ReadSlot(SelectWord(ADC_SELECT), 8)
    ensures ReadSlots(RunCommands(fvals), PIN_INITIAL_STATE)[2 * k + 1] == ReadSlot(SelectWord(ADC_SELECT), 4)
  {
    RunLayout(fvals);
    assert k * |ConversionSlots(ADC_SELECT)| == 2 * k;
    TileAt(ConversionSlots(ADC_SELECT), |fvals|, k, 0);
    TileAt(ConversionSlots(ADC_SELECT), |fvals|, k, 1);
  }

  /** ftdi_testADC.cpp:171-194: one loop iteration. */
  method WriteFrame(cb: CommandBuffer, v: bv16)
    requires cb.Valid() && cb.icmd + 18 <= cb.buf.Length
    modifies cb, cb.buf
    ensures cb.Valid() && cb.icmd == old(cb.icmd) + 18 && cb.iread == old(cb.iread) + 2
    ensures cb.Written() == old(cb.Written()) + EncodeAll(FrameCommands(v))
    ensures cb.Unwritten() == old(cb.Unwritten())[18..]
  {
    ghost var w0, u0 := cb.Written(), cb.Unwritten();
    var p := BigEndian16(v);
    PutDacTransaction(cb, DAC_SELECT, DAC_DATA, p.0, p.1);
    PutAdcConversion(cb, ADC_SELECT, MPSSE_READ_NEG, UNIPOLAR);
    EmitCommands(w0, DacTransaction(DAC_SELECT, DAC_DATA, p.0, p.1), AdcConversion(ADC_SELECT, MPSSE_READ_NEG, UNIPOLAR));
    DropDrop(u0, 9, 9);
  }

  /** ftdi_testADC.cpp:167-199: the frames, then the trailer. */
  method CompileSamples(cb: CommandBuffer, fvals: seq<bv16>)
    requires cb.Valid() && cb.icmd + 18 * |fvals| + 3 <= cb.buf.Length
    modifies cb, cb.buf
    ensures cb.Valid() && cb.iread == old(cb.iread) + 2 * |fvals|
    ensures cb.Written() == old(cb.Written()) + EncodeAll(RunCommands(fvals))
  {
    ghost var w0 := cb.Written();
    var t := 0;
    while t < |fvals|
      invariant 0 <= t <= |fvals|
      invariant cb.Valid() && cb.icmd == old(cb.icmd) + 18 * t && cb.iread == old(cb.iread) + 2 * t
      invariant cb.Written() == w0 + EncodeAll(Repeat(FrameCommands, fvals[..t]))
      modifies cb, cb.buf
    {
      WriteFrame(cb, fvals[t]);
      RepeatSnoc(FrameCommands, fvals, t);
      EmitCommands(w0, Repeat(FrameCommands, fvals[..t]), FrameCommands(fvals[t]));
      t := t + 1;
    }
    PutPins(cb, PIN_INITIAL_STATE);
    assert fvals[..t] == fvals;
    EmitCommand(w0, Repeat(FrameCommands, fvals), Idle);
  }

  /** ftdi_testADC.cpp:224-227: one code per two bytes, in order. */
  method DecodeResponse(readBuf: seq<byte>, iread: nat) returns (codes: seq<bv16>)
    requires iread % 2 == 0 && iread <= |readBuf|
    ensures 2 * |codes| == iread && codes == DecodeCodes(readBuf, |codes|)
  {
    codes := [];
    var i := 0;
    while i < iread
      invariant 0 <= i <= iread && i % 2 == 0
      invariant 2 * |codes| == i && codes == DecodeCodes(readBuf, |codes|)
    {
      var val := Code12(readBuf[i], readBuf[i + 1]);
      codes := codes + [val];
      i := i + 2;
    }
  }

  /** The buffer half of main: the setup stream, then the measurement stream in the cleared buffer, and the response count. */
  method BuildStreams(fvals: seq<bv16>) returns (setup: seq<byte>, stream: seq<byte>, iread: nat)
    requires |fvals| == NSAMPLES
    ensures setup == EncodeAll(BusSetup)
    ensures stream == EncodeAll(RunCommands(fvals)) && |stream| == 18 * NSAMPLES + 3
    ensures iread == ResponseLength(RunCommands(fvals)) == 2 * NSAMPLES
  {
    var cb := new CommandBuffer(BUF_SIZE);
    PutBusSetup(cb);
    setup := cb.buf[..cb.icmd];
    cb.Clear();
    CompileSamples(cb, fvals);
    stream := cb.buf[..cb.icmd];
    iread := cb.iread;
    RunSize(fvals);
  }

  /**
   * main without the USB calls and the sine: the setup stream, the
   * measurement stream for these DAC values and its response count, and the
   * decoded codes when the read returned exactly that many bytes.
   */
  method Run(fvals: seq<bv16>, received: seq<byte>)
    returns (setup: seq<byte>, stream: seq<byte>, iread: nat, readOk: bool, codes: seq<bv16>)
    requires |fvals| == NSAMPLES
    ensures setup == EncodeAll(BusSetup)
    ensures stream == EncodeAll(RunCommands(fvals)) && |stream| == 18 * NSAMPLES + 3
    ensures iread == ResponseLength(RunCommands(fvals)) == 2 * NSAMPLES
    ensures readOk <==> |received| == iread
    ensures readOk ==> codes == DecodeCodes(received, NSAMPLES)
    ensures !readOk ==> codes == []
  {
    setup, stream, iread := BuildStreams(fvals);
    readOk := |received| == iread;
    if readOk {
      codes := DecodeResponse(received, iread);
    } else {
      codes := [];
    }
  }
}
