/**
 * ftdi_readWrite.cpp: configure the DAC, then for every setpoint write it to
 * the DAC (on CS3) and take one conversion from each of the three ADCs (on
 * CS0, CS1, CS2), all in one stream; then decode the response into frames of
 * three codes and accumulate the first ADC over every frame but the first.
 */
module FtdiReadWrite {
  import opened Bytes
  import opened Seqs
  import opened Mpsse
  import opened Pins
  import opened Codes
  import opened Transactions
  import opened CommandBuffers
  import opened Emitters
  import opened Decoding
  import opened Wrappers

  /** Osci::bufSize: the size of the command buffer. */
  const BUF_SIZE: nat := 100000000

  /** The DAC's configuration register. */
  const CONFIG: byte := 0x03

  /** The DAC sits on CS3; ADC0, ADC1 and ADC2 on CS0, CS1 and CS2. */
  const DAC_SELECT: byte := CS3

  function AdcSelect(j: nat): (cs: byte)
    requires j < 3
    ensures IsChipSelect(cs) && cs != DAC_SELECT
  {
    if j == 0 then CS0 else if j == 1 then CS1 else CS2
  }

  /** The configuration stream: clocks, the DAC's CONFIG register set to 0x0100 (internal reference off), pins idle. */
  const ConfigCommands: seq<Command> := ClockSetup + DacTransaction(DAC_SELECT, CONFIG, 0x01, 0x00) + [Idle]

  /** One frame: the setpoint to the DAC, then one conversion of each ADC, read on the rising edge with configuration byte 0. */
  function FrameCommands(v: bv16): seq<Command>
  {
    var p := DacPayload12(v);
    DacTransaction(DAC_SELECT, DAC_DATA, p.0, p.1)
    + AdcConversion(AdcSelect(0), 0, 0x00)
    + AdcConversion(AdcSelect(1), 0, 0x00)
    + AdcConversion(AdcSelect(2), 0, 0x00)
  }

  /** A frame's six response bytes: two per ADC, in ADC order. */
  const FrameSlots: seq<ReadSlot> := ConversionSlots(AdcSelect(0)) + ConversionSlots(AdcSelect(1)) + ConversionSlots(AdcSelect(2))

  /** The measurement stream: one frame per setpoint, then every chip select high. */
  function RunCommands(setpoints: seq<bv16>): seq<Command>
  {
    Repeat(FrameCommands, setpoints) + [Idle]
  }

  /** The configuration stream byte by byte. */
  lemma ConfigBytes()
    ensures EncodeAll(ConfigCommands) ==
      [0x8A, TCK_DIVISOR, 0x00, 0x00, DIS_ADAPTIVE, DIS_3_PHASE]
      + [SET_BITS_LOW, SelectWord(CS3), PIN_DIRECTION, MPSSE_DO_WRITE, 0x02, 0x00, CONFIG, 0x01, 0x00]
      + [SET_BITS_LOW, PIN_INITIAL_STATE, PIN_DIRECTION]
  {
    var dac := DacTransaction(DAC_SELECT, CONFIG, 0x01, 0x00);
    ClockSetupBytes();
    DacTransactionBytes(DAC_SELECT, CONFIG, 0x01, 0x00);
    IdleShaped();
    EncodeAllAppend(ClockSetup, dac);
    EncodeAllAppend(ClockSetup + dac, [Idle]);
  }

  /** The configuration is 18 bytes, asks for no response and leaves the bus idle. */
  lemma ConfigShaped()
    ensures Shaped(ConfigCommands, 18, [], PIN_INITIAL_STATE)
  {
    var dac := DacTransaction(DAC_SELECT, CONFIG, 0x01, 0x00);
    var tail := dac + [Idle];
    DacTransactionShaped(DAC_SELECT, CONFIG, 0x01, 0x00);
    IdleShaped();
    ShapedAppend(dac, 9, [], SelectWord(DAC_SELECT), [Idle], 3, [], PIN_INITIAL_STATE);
    AfterClockSetup(tail, 12, [], PIN_INITIAL_STATE);
    assert ConfigCommands == ClockSetup + tail;
  }

  lemma FrameBytes(v: bv16)
    ensures EncodeAll(FrameCommands(v)) ==
      EncodeAll(DacTransaction(DAC_SELECT, DAC_DATA, DacPayload12(v).0, DacPayload12(v).1))
      + EncodeAll(AdcConversion(AdcSelect(0), 0, 0x00))
      + EncodeAll(AdcConversion(AdcSelect(1), 0, 0x00))
      + EncodeAll(AdcConversion(AdcSelect(2), 0, 0x00))
  {
    var p := DacPayload12(v);
    var dac := DacTransaction(DAC_SELECT, DAC_DATA, p.0, p.1);
    var c0, c1, c2 := AdcConversion(AdcSelect(0), 0, 0x00), AdcConversion(AdcSelect(1), 0, 0x00), AdcConversion(AdcSelect(2), 0, 0x00);
    EncodeAllAppend(dac, c0);
    EncodeAllAppend(dac + c0, c1);
    EncodeAllAppend(dac + c0 + c1, c2);
  }

  /** The three conversions of a frame, in ADC order. */
  const Conversions: seq<Command> := AdcConversion(AdcSelect(0), 0, 0x00) + AdcConversion(AdcSelect(1), 0, 0x00) + AdcConversion(AdcSelect(2), 0, 0x00)

  /** The conversions are 27 bytes, answer with FrameSlots, and end with ADC2 selected. */
  lemma ConversionsShaped()
    ensures Shaped(Conversions, 27, FrameSlots, SelectWord(AdcSelect(2)))
  {
    var c0, c1 := AdcConversion(AdcSelect(0), 0, 0x00), AdcConversion(AdcSelect(1), 0, 0x00);
    AdcConversionShaped(AdcSelect(0), 0, 0x00);
    AdcConversionShaped(AdcSelect(1), 0, 0x00);
    AdcConversionShaped(AdcSelect(2), 0, 0x00);
    ShapedAppend(c0, 9, ConversionSlots(AdcSelect(0)), SelectWord(AdcSelect(0)),
                 c1, 9, ConversionSlots(AdcSelect(1)), SelectWord(AdcSelect(1)));
    ShapedAppend(c0 + c1, 18, ConversionSlots(AdcSelect(0)) + ConversionSlots(AdcSelect(1)), SelectWord(AdcSelect(1)),
                 AdcConversion(AdcSelect(2), 0, 0x00), 9, ConversionSlots(AdcSelect(2)), SelectWord(AdcSelect(2)));
  }

  /** A frame is 36 bytes, answers with the six bytes of FrameSlots, and ends with ADC2 selected. */
  lemma FrameShaped(v: bv16)
    ensures Shaped(FrameCommands(v), 36, FrameSlots, SelectWord(AdcSelect(2)))
  {
    var p := DacPayload12(v);
    var dac := DacTransaction(DAC_SELECT, DAC_DATA, p.0, p.1);
    var c0, c1 := AdcConversion(AdcSelect(0), 0, 0x00), AdcConversion(AdcSelect(1), 0, 0x00);
    DacTransactionShaped(DAC_SELECT, DAC_DATA, p.0, p.1);
    ConversionsShaped();
    ShapedAppend(dac, 9, [], SelectWord(DAC_SELECT), Conversions, 27, FrameSlots, SelectWord(AdcSelect(2)));
    Associative(dac, c0 + c1, AdcConversion(AdcSelect(2), 0, 0x00));
    Associative(dac, c0, c1);
    assert FrameCommands(v) == dac + Conversions;
    assert [] + FrameSlots == FrameSlots;
  }

  /** Response bytes 2j and 2j+1 of a frame belong to ADC j. */
  lemma FrameSlotsAt(j: nat)
    requires j < 3
    ensures |FrameSlots| == 6
    ensures FrameSlots[2 * j] == ReadSlot(SelectWord(AdcSelect(j)), 8)
    ensures FrameSlots[2 * j + 1] == ReadSlot(SelectWord(AdcSelect(j)), 4)
  {
  }

  /**
   * The whole measurement stream: 36 bytes per setpoint plus the 3-byte
   * trailer, 6 response bytes per setpoint, every pin word safe, and the bus
   * idle at the end.
   */
  lemma RunShaped(setpoints: seq<bv16>)
    ensures Shaped(RunCommands(setpoints), 36 * |setpoints| + 3, Tile(FrameSlots, |setpoints|), PIN_INITIAL_STATE)
  {
    forall v ensures Shaped(FrameCommands(v), 36, FrameSlots, SelectWord(AdcSelect(2))) {
      FrameShaped(v);
    }
    RepeatThenIdle(FrameCommands, setpoints, 36, FrameSlots, SelectWord(AdcSelect(2)));
  }

  /** The sizes alone: 36 bytes per setpoint plus the trailer, six response bytes per setpoint. */
  lemma RunSize(setpoints: seq<bv16>)
    ensures |EncodeAll(RunCommands(setpoints))| == 36 * |setpoints| + 3
    ensures ResponseLength(RunCommands(setpoints)) == 6 * |setpoints|
  {
    RunShaped(setpoints);
    TileLength(FrameSlots, |setpoints|);
  }

  /** The measurement stream parses back into its commands. */
  lemma RunParses(setpoints: seq<bv16>)
    ensures Parse(EncodeAll(RunCommands(setpoints))) == Some(RunCommands(setpoints))
  {
    RunShaped(setpoints);
    ParseEncodeAll(RunCommands(setpoints));
  }

  /** The response layout of the whole stream, as a single equation. */
  lemma RunLayout(setpoints: seq<bv16>)
    ensures ReadSlots(RunCommands(setpoints), PIN_INITIAL_STATE) == Tile(FrameSlots, |setpoints|)
  {
    RunShaped(setpoints);
  }

  /**
   * Response byte 6k+2j is the full byte of ADC j in frame k and 6k+2j+1 its
   * four low bits, each clocked in while that ADC alone is selected.
   */
  lemma RunSlots(setpoints: seq<bv16>, k: nat, j: nat)
    requires k < |setpoints| && j < 3
    ensures 6 * k + 2 * j + 1 < |ReadSlots(RunCommands(setpoints), PIN_INITIAL_STATE)|
    ensures ReadSlots(RunCommands(setpoints), PIN_INITIAL_STATE)[6 * k + 2 * j] == ReadSlot(SelectWord(AdcSelect(j)), 8)
    ensures ReadSlots(RunCommands(setpoints), PIN_INITIAL_STATE)[6 * k + 2 * j + 1] == ReadSlot(SelectWord(AdcSelect(j)), 4)
  {
    RunLayout(setpoints);
    FrameSlotsAt(j);
    assert k * |FrameSlots| == 6 * k;
    TileAt(FrameSlots, |setpoints|, k, 2 * j);
    TileAt(FrameSlots, |setpoints|, k, 2 * j + 1);
  }

  /** Lines 111-134: the configuration, byte by byte. */
  method WriteConfiguration(cb: CommandBuffer)
    requires cb.Valid() && cb.icmd + 18 <= cb.buf.Length
    modifies cb, cb.buf
    ensures cb.Valid() && cb.icmd == old(cb.icmd) + 18 && cb.iread == old(cb.iread)
    ensures cb.Written() == old(cb.Written()) + EncodeAll(ConfigCommands)
    ensures cb.Unwritten() == old(cb.Unwritten())[18..]
  {
    ghost var w, u := cb.Written(), cb.Unwritten();
    PutClockSetup(cb);
    PutDacTransaction(cb, DAC_SELECT, CONFIG, 0x01, 0x00);
    PutPins(cb, PIN_INITIAL_STATE);
    DropDrop(u, 6, 9);
    DropDrop(u, 15, 3);
    ConfigBytes();
    ClockSetupBytes();
    DacTransactionBytes(DAC_SELECT, CONFIG, 0x01, 0x00);
    Chain3(w, EncodeAll(ClockSetup), EncodeAll(DacTransaction(DAC_SELECT, CONFIG, 0x01, 0x00)),
           [SET_BITS_LOW, PIN_INITIAL_STATE, PIN_DIRECTION]);
  }

  /** Lines 158-210: one setpoint and the three conversions; six response bytes. */
  method WriteFrame(cb: CommandBuffer, v: bv16)
    requires cb.Valid() && cb.icmd + 36 <= cb.buf.Length
    modifies cb, cb.buf
    ensures cb.Valid() && cb.icmd == old(cb.icmd) + 36 && cb.iread == old(cb.iread) + 6
    ensures cb.Written() == old(cb.Written()) + EncodeAll(FrameCommands(v))
    ensures cb.Unwritten() == old(cb.Unwritten())[36..]
  {
    ghost var w0, u0 := cb.Written(), cb.Unwritten();
    var p := DacPayload12(v);
    ghost var dac := DacTransaction(DAC_SELECT, DAC_DATA, p.0, p.1);
    ghost var c0, c1, c2 := AdcConversion(AdcSelect(0), 0, 0x00), AdcConversion(AdcSelect(1), 0, 0x00), AdcConversion(AdcSelect(2), 0, 0x00);
    PutDacTransaction(cb, DAC_SELECT, DAC_DATA, p.0, p.1);
    PutAdcConversion(cb, AdcSelect(0), 0, 0x00);
    EmitCommands(w0, dac, c0);
    DropDrop(u0, 9, 9);
    PutAdcConversion(cb, AdcSelect(1), 0, 0x00);
    EmitCommands(w0, dac + c0, c1);
    DropDrop(u0, 18, 9);
    PutAdcConversion(cb, AdcSelect(2), 0, 0x00);
    EmitCommands(w0, dac + c0 + c1, c2);
    DropDrop(u0, 27, 9);
  }

  /** Lines 231-240: three codes per six bytes, and the ADC0 sum over every frame after the first. */
  method DecodeResponse(readBuf: seq<byte>, iRead: nat) returns (frames: seq<Sample>, res: int)
    requires iRead % 6 == 0 && iRead <= |readBuf|
    ensures 6 * |frames| == iRead && frames == DecodeSamples(readBuf, |frames|)
    ensures res == Statistic(frames)
  {
    frames, res := [], 0;
    var i := 0;
    while i < iRead
      invariant 0 <= i <= iRead
      invariant 6 * |frames| == i && frames == DecodeSamples(readBuf, |frames|)
      invariant res == Statistic(frames)
    {
      NextBlock(|frames|, iRead, 6);
      var adc0 := Code12(readBuf[i], readBuf[i + 1]);
      var adc1 := Code12(readBuf[i + 2], readBuf[i + 3]);
      var adc2 := Code12(readBuf[i + 4], readBuf[i + 5]);
      StatisticSnoc(frames, Sample(adc0, adc1, adc2));
      frames := frames + [Sample(adc0, adc1, adc2)];
      if i >= 6 {
        res := res + Signed12(adc0);
      }
      i := i + 6;
    }
  }

  /** Lines 154-217: one frame per setpoint, then the trailer that puts every chip select back high. */
  method CompileSetpoints(cb: CommandBuffer, setpoints: seq<bv16>)
    requires cb.Valid() && cb.icmd + 36 * |setpoints| + 3 <= cb.buf.Length
    modifies cb, cb.buf
    ensures cb.Valid() && cb.iread == old(cb.iread) + 6 * |setpoints|
    ensures cb.Written() == old(cb.Written()) + EncodeAll(RunCommands(setpoints))
  {
    ghost var w0 := cb.Written();
    var t := 0;
    while t < |setpoints|
      invariant 0 <= t <= |setpoints|
      invariant cb.Valid() && cb.icmd == old(cb.icmd) + 36 * t && cb.iread == old(cb.iread) + 6 * t
      invariant cb.Written() == w0 + EncodeAll(Repeat(FrameCommands, setpoints[..t]))
      modifies cb, cb.buf
    {
      WriteFrame(cb, setpoints[t]);
      RepeatSnoc(FrameCommands, setpoints, t);
      EmitCommands(w0, Repeat(FrameCommands, setpoints[..t]), FrameCommands(setpoints[t]));
      t := t + 1;
    }
    PutPins(cb, PIN_INITIAL_STATE);
    assert setpoints[..t] == setpoints;
    EmitCommand(w0, Repeat(FrameCommands, setpoints), Idle);
  }

  /**
   * The buffer half of main: the configuration stream, then the measurement
   * stream written into the same (cleared) buffer, and the response count.
   */
  method BuildStreams(setpoints: seq<bv16>) returns (config: seq<byte>, stream: seq<byte>, iRead: nat)
    requires 36 * |setpoints| + 3 <= BUF_SIZE
    ensures config == EncodeAll(ConfigCommands)
    ensures stream == EncodeAll(RunCommands(setpoints)) && |stream| == 36 * |setpoints| + 3
    ensures iRead == ResponseLength(RunCommands(setpoints)) == 6 * |setpoints|
  {
    var cb := new CommandBuffer(BUF_SIZE);
    WriteConfiguration(cb);
    config := cb.buf[..cb.icmd];
    cb.Clear();
    CompileSetpoints(cb, setpoints);
    stream := cb.buf[..cb.icmd];
    iRead := cb.iread;
    RunSize(setpoints);
  }

  /**
   * main without the USB calls: the two streams and the response count for
   * these setpoints, then the decoded response when the read returned
   * exactly that many bytes.
   */
  method Run(setpoints: seq<bv16>, received: seq<byte>)
    returns (config: seq<byte>, stream: seq<byte>, iRead: nat, readOk: bool, frames: seq<Sample>, res: int)
    requires 36 * |setpoints| + 3 <= BUF_SIZE
    ensures config == EncodeAll(ConfigCommands)
    ensures stream == EncodeAll(RunCommands(setpoints)) && |stream| == 36 * |setpoints| + 3
    ensures iRead == ResponseLength(RunCommands(setpoints)) == 6 * |setpoints|
    ensures readOk <==> |received| == iRead
    ensures readOk ==> frames == DecodeSamples(received, |setpoints|) && res == Statistic(frames)
    ensures !readOk ==> frames == [] && res == 0
  {
    config, stream, iRead := BuildStreams(setpoints);
    readOk := |received| == iRead;
    if readOk {
      frames, res := DecodeResponse(received, iRead);
      assert |frames| == |setpoints|;
    } else {
      frames, res := [], 0;
    }
  }
}
