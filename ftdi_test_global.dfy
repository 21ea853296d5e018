/**
 * ftdi_testGlobal.cpp: the nine-byte setup, then a fixed number of frames
 * (the DAC on CS0 set to zero, one unipolar conversion of each ADC on CS1,
 * CS2 and CS3, read on the falling edge) and the trailer in one stream; the
 * response is decoded six bytes per frame.
 */
module FtdiTestGlobal {
  import opened Bytes
  import opened Seqs
  import opened Mpsse
  import opened Pins
  import opened Codes
  import opened Transactions
  import opened CommandBuffers
  import opened Emitters
  import opened Decoding

  /** Osci::bufSize: the size of the command buffer. */
  const BUF_SIZE: nat := 100000000

  /** The number of frames the loop writes. */
  const NSAMPLES: nat := 600000

  /** The value every frame writes to the DAC. */
  const DAC_VALUE: bv16 := 0

  /** The DAC sits on CS0; ADC0, ADC1 and ADC2 on CS1, CS2 and CS3. */
  const DAC_SELECT: byte := CS0

  function AdcSelect(j: nat): (cs: byte)
    requires j < 3
    ensures IsChipSelect(cs) && cs != DAC_SELECT
  {
    if j == 0 then CS1 else if j == 1 then CS2 else CS3
  }

  /** The DAC value goes out as two zero bytes. */
  lemma DacValuePayload()
    ensures BigEndian16(DAC_VALUE) == (0x00, 0x00)
  {
  }

  /** One frame: the value big-endian to the DAC, then a unipolar conversion of each ADC on the falling edge. */
  function FrameCommands(v: bv16): seq<Command>
  {
    var p := BigEndian16(v);
    DacTransaction(DAC_SELECT, DAC_DATA, p.0, p.1)
    + AdcConversion(AdcSelect(0), MPSSE_READ_NEG, UNIPOLAR)
    + AdcConversion(AdcSelect(1), MPSSE_READ_NEG, UNIPOLAR)
    + AdcConversion(AdcSelect(2), MPSSE_READ_NEG, UNIPOLAR)
  }

  /** A frame's six response bytes: two per ADC, in ADC order. */
  const FrameSlots: seq<ReadSlot> := ConversionSlots(AdcSelect(0)) + ConversionSlots(AdcSelect(1)) + ConversionSlots(AdcSelect(2))

  /** A frame's bytes: the DAC write's nine, then the nine of each conversion, in ADC order. */
  lemma FrameBytes(v: bv16)
    ensures EncodeAll(FrameCommands(v)) ==
      EncodeAll(DacTransaction(DAC_SELECT, DAC_DATA, BigEndian16(v).0, BigEndian16(v).1))
      + EncodeAll(AdcConversion(AdcSelect(0), MPSSE_READ_NEG, UNIPOLAR))
      + EncodeAll(AdcConversion(AdcSelect(1), MPSSE_READ_NEG, UNIPOLAR))
      + EncodeAll(AdcConversion(AdcSelect(2), MPSSE_READ_NEG, UNIPOLAR))
  {
    var p := BigEndian16(v);
    var dac := DacTransaction(DAC_SELECT, DAC_DATA, p.0, p.1);
    var c0, c1, c2 := AdcConversion(AdcSelect(0), MPSSE_READ_NEG, UNIPOLAR), AdcConversion(AdcSelect(1), MPSSE_READ_NEG, UNIPOLAR), AdcConversion(AdcSelect(2), MPSSE_READ_NEG, UNIPOLAR);
    EncodeAllAppend(dac, c0);
    EncodeAllAppend(dac + c0, c1);
    EncodeAllAppend(dac + c0 + c1, c2);
  }

  /** The three conversions of a frame, in ADC order. */
  const Conversions: seq<Command> := AdcConversion(AdcSelect(0), MPSSE_READ_NEG, UNIPOLAR) + AdcConversion(AdcSelect(1), MPSSE_READ_NEG, UNIPOLAR) + AdcConversion(AdcSelect(2), MPSSE_READ_NEG, UNIPOLAR)

  /** The conversions are 27 bytes, answer with FrameSlots, and end with ADC2 selected. */
  lemma ConversionsShaped()
    ensures Shaped(Conversions, 27, FrameSlots, SelectWord(AdcSelect(2)))
  {
    var c0, c1 := AdcConversion(AdcSelect(0), MPSSE_READ_NEG, UNIPOLAR), AdcConversion(AdcSelect(1), MPSSE_READ_NEG, UNIPOLAR);
    AdcConversionShaped(AdcSelect(0), MPSSE_READ_NEG, UNIPOLAR);
    AdcConversionShaped(AdcSelect(1), MPSSE_READ_NEG, UNIPOLAR);
    AdcConversionShaped(AdcSelect(2), MPSSE_READ_NEG, UNIPOLAR);
    ShapedAppend(c0, 9, ConversionSlots(AdcSelect(0)), SelectWord(AdcSelect(0)),
                 c1, 9, ConversionSlots(AdcSelect(1)), SelectWord(AdcSelect(1)));
    ShapedAppend(c0 + c1, 18, ConversionSlots(AdcSelect(0)) + ConversionSlots(AdcSelect(1)), SelectWord(AdcSelect(1)),
                 AdcConversion(AdcSelect(2), MPSSE_READ_NEG, UNIPOLAR), 9, ConversionSlots(AdcSelect(2)), SelectWord(AdcSelect(2)));
  }

  /** A frame is 36 bytes, answers with the six bytes of FrameSlots, and ends with ADC2 selected. */
  lemma FrameShaped(v: bv16)
    ensures Shaped(FrameCommands(v), 36, FrameSlots, SelectWord(AdcSelect(2)))
  {
    var p := BigEndian16(v);
    var dac := DacTransaction(DAC_SELECT, DAC_DATA, p.0, p.1);
    var c0, c1 := AdcConversion(AdcSelect(0), MPSSE_READ_NEG, UNIPOLAR), AdcConversion(AdcSelect(1), MPSSE_READ_NEG, UNIPOLAR);
    DacTransactionShaped(DAC_SELECT, DAC_DATA, p.0, p.1);
    ConversionsShaped();
    ShapedAppend(dac, 9, [], SelectWord(DAC_SELECT), Conversions, 27, FrameSlots, SelectWord(AdcSelect(2)));
    Associative(dac, c0 + c1, AdcConversion(AdcSelect(2), MPSSE_READ_NEG, UNIPOLAR));
    Associative(dac, c0, c1);
    assert FrameCommands(v) == dac + Conversions;
    assert [] + FrameSlots == FrameSlots;
  }

  /** Response bytes 2j and 2j+1 of a frame belong to ADC j. */
  lemma FrameSlotsAt(j: nat)
    requires j < 3
    ensures |FrameSlots| == 6
    ensures FrameSlots[2 * j] == ReadSlot(SelectWord(AdcSelect(j)), 8)
    ensures FrameSlots[2 * j + 1] == ReadSlot(SelectWord(AdcSelect(j)), 4)
  {
  }

  /** The values the loop writes: DAC_VALUE, NSAMPLES times. */
  const DacValues: seq<bv16> := seq(NSAMPLES, _ => DAC_VALUE)

  /** The measurement stream: one frame per value, then every chip select high. */
  function RunCommands(values: seq<bv16>): seq<Command>
  {
    Repeat(FrameCommands, values) + [Idle]
  }

  /** 36 bytes per frame plus the trailer, six response bytes per frame, the bus idle at the end. */
  lemma RunShaped(values: seq<bv16>)
    ensures Shaped(RunCommands(values), 36 * |values| + 3, Tile(FrameSlots, |values|), PIN_INITIAL_STATE)
  {
    forall v ensures Shaped(FrameCommands(v), 36, FrameSlots, SelectWord(AdcSelect(2))) {
      FrameShaped(v);
    }
    RepeatThenIdle(FrameCommands, values, 36, FrameSlots, SelectWord(AdcSelect(2)));
  }

  /** The sizes alone: 36 bytes per frame plus the trailer, six response bytes per frame. */
  lemma RunSize(values: seq<bv16>)
    ensures |EncodeAll(RunCommands(values))| == 36 * |values| + 3
    ensures ResponseLength(RunCommands(values)) == 6 * |values|
  {
    RunShaped(values);
    TileLength(FrameSlots, |values|);
  }

  /** The response layout of the whole stream, as a single equation. */
  lemma RunLayout(values: seq<bv16>)
    ensures ReadSlots(RunCommands(values), PIN_INITIAL_STATE) == Tile(FrameSlots, |values|)
  {
    RunShaped(values);
  }

  /** Response byte 6k+2j is the full byte of ADC j in frame k and 6k+2j+1 its four low bits. */
  lemma RunSlots(values: seq<bv16>, k: nat, j: nat)
    requires k < |values| && j < 3
    ensures 6 * k + 2 * j + 1 < |ReadSlots(RunCommands(values), PIN_INITIAL_STATE)|
    ensures ReadSlots(RunCommands(values), PIN_INITIAL_STATE)[6 * k + 2 * j] == ReadSlot(SelectWord(AdcSelect(j)), 8)
    ensures ReadSlots(RunCommands(values), PIN_INITIAL_STATE)[6 * k + 2 * j + 1] == ReadSlot(SelectWord(AdcSelect(j)), 4)
  {
    RunLayout(values);
    FrameSlotsAt(j);
    assert k * |FrameSlots| == 6 * k;
    TileAt(FrameSlots, |values|, k, 2 * j);
    TileAt(FrameSlots, |values|, k, 2 * j + 1);
  }

  /** ftdi_testGlobal.cpp:115-169: one loop iteration. */
  method WriteFrame(cb: CommandBuffer, v: bv16)
    requires cb.Valid() && cb.icmd + 36 <= cb.buf.Length
    modifies cb, cb.buf
    ensures cb.Valid() && cb.icmd == old(cb.icmd) + 36 && cb.iread == old(cb.iread) + 6
    ensures cb.Written() == old(cb.Written()) + EncodeAll(FrameCommands(v))
    ensures cb.Unwritten() == old(cb.Unwritten())[36..]
  {
    ghost var w0, u0 := cb.Written(), cb.Unwritten();
    var p := BigEndian16(v);
    ghost var dac := DacTransaction(DAC_SELECT, DAC_DATA, p.0, p.1);
    ghost var c0, c1, c2 := AdcConversion(AdcSelect(0), MPSSE_READ_NEG, UNIPOLAR), AdcConversion(AdcSelect(1), MPSSE_READ_NEG, UNIPOLAR), AdcConversion(AdcSelect(2), MPSSE_READ_NEG, UNIPOLAR);
    PutDacTransaction(cb, DAC_SELECT, DAC_DATA, p.0, p.1);
    PutAdcConversion(cb, AdcSelect(0), MPSSE_READ_NEG, UNIPOLAR);
    EmitCommands(w0, dac, c0);
    DropDrop(u0, 9, 9);
    PutAdcConversion(cb, AdcSelect(1), MPSSE_READ_NEG, UNIPOLAR);
    EmitCommands(w0, dac + c0, c1);
    DropDrop(u0, 18, 9);
    PutAdcConversion(cb, AdcSelect(2), MPSSE_READ_NEG, UNIPOLAR);
    EmitCommands(w0, dac + c0 + c1, c2);
    DropDrop(u0, 27, 9);
  }

  /** ftdi_testGlobal.cpp:113-175: the frames, then the trailer. */
  method CompileFrames(cb: CommandBuffer, values: seq<bv16>)
    requires cb.Valid() && cb.icmd + 36 * |values| + 3 <= cb.buf.Length
    modifies cb, cb.buf
    ensures cb.Valid() && cb.iread == old(cb.iread) + 6 * |values|
    ensures cb.Written() == old(cb.Written()) + EncodeAll(RunCommands(values))
  {
    ghost var w0 := cb.Written();
    var t := 0;
    while t < |values|
      invariant 0 <= t <= |values|
      invariant cb.Valid() && cb.icmd == old(cb.icmd) + 36 * t && cb.iread == old(cb.iread) + 6 * t
      invariant cb.Written() == w0 + EncodeAll(Repeat(FrameCommands, values[..t]))
      modifies cb, cb.buf
    {
      WriteFrame(cb, values[t]);
      RepeatSnoc(FrameCommands, values, t);
      EmitCommands(w0, Repeat(FrameCommands, values[..t]), FrameCommands(values[t]));
      t := t + 1;
    }
    PutPins(cb, PIN_INITIAL_STATE);
    assert values[..t] == values;
    EmitCommand(w0, Repeat(FrameCommands, values), Idle);
  }

  /** ftdi_testGlobal.cpp:186-191: three codes per six bytes, in order. */
  method DecodeResponse(readBuf: seq<byte>, iRead: nat) returns (frames: seq<Sample>)
    requires iRead % 6 == 0 && iRead <= |readBuf|
    ensures 6 * |frames| == iRead && frames == DecodeSamples(readBuf, |frames|)
  {
    frames := [];
    var i := 0;
    while i < iRead
      invariant 0 <= i <= iRead && i % 6 == 0
      invariant 6 * |frames| == i && frames == DecodeSamples(readBuf, |frames|)
    {
      var adc0 := Code12(readBuf[i], readBuf[i + 1]);
      var adc1 := Code12(readBuf[i + 2], readBuf[i + 3]);
      var adc2 := Code12(readBuf[i + 4], readBuf[i + 5]);
      frames := frames + [Sample(adc0, adc1, adc2)];
      i := i + 6;
    }
  }

  /** The buffer half of main: the setup stream, then the measurement stream in the cleared buffer, and the response count. */
  method BuildStreams() returns (setup: seq<byte>, stream: seq<byte>, iRead: nat)
    ensures setup == EncodeAll(BusSetup)
    ensures stream == EncodeAll(RunCommands(DacValues)) && |stream| == 36 * NSAMPLES + 3
    ensures iRead == ResponseLength(RunCommands(DacValues)) == 6 * NSAMPLES
  {
    var cb := new CommandBuffer(BUF_SIZE);
    PutBusSetup(cb);
    setup := cb.buf[..cb.icmd];
    cb.Clear();
    CompileFrames(cb, DacValues);
    stream := cb.buf[..cb.icmd];
    iRead := cb.iread;
    RunSize(DacValues);
  }

  /**
   * main without the USB calls: the setup stream, the measurement stream and
   * its response count, and the decoded frames when the read returned exactly
   * that many bytes.
   */
  method Run(received: seq<byte>)
    returns (setup: seq<byte>, stream: seq<byte>, iRead: nat, readOk: bool, frames: seq<Sample>)
    ensures setup == EncodeAll(BusSetup)
    ensures stream == EncodeAll(RunCommands(DacValues)) && |stream| == 36 * NSAMPLES + 3
    ensures iRead == ResponseLength(RunCommands(DacValues)) == 6 * NSAMPLES
    ensures readOk <==> |received| == iRead
    ensures readOk ==> frames == DecodeSamples(received, NSAMPLES)
    ensures !readOk ==> frames == []
  {
    setup, stream, iRead := BuildStreams();
    readOk := |received| == iRead;
    if readOk {
      frames := DecodeResponse(received, iRead);
    } else {
      frames := [];
    }
  }
}
