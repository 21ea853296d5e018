/**
 * The bus transactions the programs build their streams from, at the level of
 * MPSSE commands, and what a stream made of repeated frames adds up to.
 */
module Transactions {
  import opened Bytes
  import opened Mpsse
  import opened Pins

  /** SET_BITS_LOW with one chip select low. */
  function Select(cs: byte): Command
    requires IsChipSelect(cs)
  {
    SetBitsLow(SelectWord(cs), PIN_DIRECTION)
  }

  /** SET_BITS_LOW with every chip select high. */
  const Idle: Command := SetBitsLow(PIN_INITIAL_STATE, PIN_DIRECTION)

  /** The data register of the DAC80501 and DAC60501. */
  const DAC_DATA: byte := 0x08

  /** A three-byte register write to the DAC: register, then two data bytes. */
  function DacWrite(register: byte, first: byte, second: byte): Command
  {
    ShiftBytes(MPSSE_DO_WRITE, 2, [register, first, second])
  }

  /** The LTC230x configuration bit for unipolar conversion. */
  const UNIPOLAR: byte := 0x08

  /** The read edge of an ADC transaction: rising (no flag) or falling. */
  predicate IsReadEdge(edge: byte)
  {
    edge == 0 || edge == MPSSE_READ_NEG
  }

  /**
   * One ADC conversion: select the converter, write its one configuration
   * byte while the first result byte is read, then read four more bits.
   */
  function AdcConversion(cs: byte, edge: byte, config: byte): seq<Command>
    requires IsChipSelect(cs) && IsReadEdge(edge)
  {
    [ Select(cs),
      ShiftBytes(MPSSE_DO_READ | MPSSE_DO_WRITE | edge, 0, [config]),
      ShiftBits(MPSSE_DO_READ | MPSSE_BITMODE | edge, 3, []) ]
  }

  /** The two response bytes of a conversion: a full byte, then four bits, both under the converter's select. */
  function ConversionSlots(cs: byte): seq<ReadSlot>
    requires IsChipSelect(cs)
  {
    [ReadSlot(SelectWord(cs), 8), ReadSlot(SelectWord(cs), 4)]
  }

  /** The commands can be encoded, and every pin word they set is safe. */
  ghost predicate Sound(cs: seq<Command>)
  {
    AllWellFormed(cs) && PinCommandsSafe(cs)
  }

  lemma SoundAppend(a: seq<Command>, b: seq<Command>)
    requires Sound(a) && Sound(b)
    ensures Sound(a + b)
  {
    assert forall i :: 0 <= i < |a + b| ==> (a + b)[i] == if i < |a| then a[i] else b[i - |a|];
  }

  lemma SelectSafe(cs: byte)
    requires IsChipSelect(cs)
    ensures Sound([Select(cs)])
  {
    SafeWordCases(SelectWord(cs));
  }

  lemma IdleSafe()
    ensures Sound([Idle])
  {
    SafeWordCases(PIN_INITIAL_STATE);
  }

  /** A command list of fixed shape: its encoded size, its response, and where it leaves the pins. */
  ghost predicate Shaped(cs: seq<Command>, size: nat, slots: seq<ReadSlot>, last: byte)
  {
    && Sound(cs)
    && |EncodeAll(cs)| == size
    && ResponseLength(cs) == |slots|
    && (forall pins :: ReadSlots(cs, pins) == slots)
    && (forall pins :: FinalPins(cs, pins) == last)
  }

  lemma ShapedAppend(a: seq<Command>, sa: nat, ra: seq<ReadSlot>, la: byte,
                     b: seq<Command>, sb: nat, rb: seq<ReadSlot>, lb: byte)
    requires Shaped(a, sa, ra, la) && Shaped(b, sb, rb, lb)
    ensures Shaped(a + b, sa + sb, ra + rb, lb)
  {
    SoundAppend(a, b);
    EncodeAllAppend(a, b);
    ResponseLengthAppend(a, b);
    forall pins ensures ReadSlots(a + b, pins) == ra + rb && FinalPins(a + b, pins) == lb {
      ReadSlotsAppend(a, b, pins);
    }
  }

  lemma SelectShaped(cs: byte)
    requires IsChipSelect(cs)
    ensures Shaped([Select(cs)], 3, [], SelectWord(cs))
  {
    SelectSafe(cs);
  }

  lemma IdleShaped()
    ensures Shaped([Idle], 3, [], PIN_INITIAL_STATE)
    ensures EncodeAll([Idle]) == [SET_BITS_LOW, PIN_INITIAL_STATE, PIN_DIRECTION]
  {
    IdleSafe();
  }

  lemma AdcConversionSound(cs: byte, edge: byte, config: byte)
    requires IsChipSelect(cs) && IsReadEdge(edge)
    ensures Sound(AdcConversion(cs, edge, config))
  {
    var conv := AdcConversion(cs, edge, config);
    SelectSafe(cs);
    assert WellFormed(conv[1]) && WellFormed(conv[2]);
  }

  /** One ADC conversion is 9 bytes and answers with the two bytes of that converter. */
  lemma AdcConversionShaped(cs: byte, edge: byte, config: byte)
    requires IsChipSelect(cs) && IsReadEdge(edge)
    ensures Shaped(AdcConversion(cs, edge, config), 9, ConversionSlots(cs), SelectWord(cs))
  {
    var conv := AdcConversion(cs, edge, config);
    var w := SelectWord(cs);
    var rd, bits := conv[1], conv[2];
    var last := [bits];
    var tail := [rd] + last;
    assert conv == [Select(cs)] + tail;
    AdcConversionSound(cs, edge, config);
    EncodeCons(Select(cs), tail);
    EncodeCons(rd, last);
    One(bits, w);
    assert CommandSlots(rd, w) == [ReadSlot(w, 8)];
    forall pins ensures ReadSlots(conv, pins) == ConversionSlots(cs) && FinalPins(conv, pins) == w {
      RunCons(Select(cs), tail, pins);
      RunCons(rd, last, w);
    }
  }

  /** Select a DAC and write one of its registers. */
  function DacTransaction(cs: byte, register: byte, first: byte, second: byte): seq<Command>
    requires IsChipSelect(cs)
  {
    [Select(cs), DacWrite(register, first, second)]
  }

  lemma DacTransactionShaped(cs: byte, register: byte, first: byte, second: byte)
    requires IsChipSelect(cs)
    ensures Shaped(DacTransaction(cs, register, first, second), 9, [], SelectWord(cs))
  {
    var t := DacTransaction(cs, register, first, second);
    var write := [t[1]];
    assert t == [Select(cs)] + write;
    SelectSafe(cs);
    EncodeCons(Select(cs), write);
    forall pins ensures ReadSlots(t, pins) == [] && FinalPins(t, pins) == SelectWord(cs) {
      RunCons(Select(cs), write, pins);
      One(t[1], SelectWord(cs));
    }
    One(t[1], SelectWord(cs));
  }

  /** The frame built for each value in turn. */
  function Repeat(frame: bv16 -> seq<Command>, vs: seq<bv16>): seq<Command>
  {
    if vs == [] then [] else Repeat(frame, vs[..|vs| - 1]) + frame(vs[|vs| - 1])
  }

  lemma RepeatSnoc(frame: bv16 -> seq<Command>, vs: seq<bv16>, t: nat)
    requires t < |vs|
    ensures Repeat(frame, vs[..t + 1]) == Repeat(frame, vs[..t]) + frame(vs[t])
  {
    assert vs[..t + 1][..t] == vs[..t];
  }

  /** n copies of the same response layout. */
  function Tile(slots: seq<ReadSlot>, n: nat): seq<ReadSlot>
  {
    if n == 0 then [] else Tile(slots, n - 1) + slots
  }

  lemma {:induction false} TileLength(slots: seq<ReadSlot>, n: nat)
    ensures |Tile(slots, n)| == n * |slots|
  {
    if n > 0 {
      TileLength(slots, n - 1);
      assert (n - 1) * |slots| + |slots| == n * |slots|;
    }
  }

  /** Byte j of copy k sits at k * |slots| + j. */
  lemma {:induction false} TileAt(slots: seq<ReadSlot>, n: nat, k: nat, j: nat)
    requires k < n && j < |slots|
    ensures k * |slots| + j < |Tile(slots, n)| && Tile(slots, n)[k * |slots| + j] == slots[j]
  {
    TileLength(slots, n - 1);
    TileLength(slots, n);
    if k < n - 1 {
      TileAt(slots, n - 1, k, j);
    } else {
      assert k * |slots| == |Tile(slots, n - 1)|;
    }
  }

  /** Frames of one shape, repeated, add up: size and response scale with the count, the layout tiles. */
  lemma {:induction false} RepeatShaped(frame: bv16 -> seq<Command>, vs: seq<bv16>, size: nat, slots: seq<ReadSlot>, last: byte)
    requires |vs| > 0
    requires forall v :: Shaped(frame(v), size, slots, last)
    ensures Shaped(Repeat(frame, vs), size * |vs|, Tile(slots, |vs|), last)
  {
    var init, v := vs[..|vs| - 1], vs[|vs| - 1];
    assert Shaped(frame(v), size, slots, last);
    if init == [] {
      RepeatFirst(frame, vs, size, slots, last);
    } else {
      RepeatShaped(frame, init, size, slots, last);
      RepeatStep(frame, vs, size, slots, last);
    }
  }

  lemma RepeatFirst(frame: bv16 -> seq<Command>, vs: seq<bv16>, size: nat, slots: seq<ReadSlot>, last: byte)
    requires |vs| == 1 && Shaped(frame(vs[0]), size, slots, last)
    ensures Shaped(Repeat(frame, vs), size, Tile(slots, 1), last)
  {
    assert vs[..0] == [];
    assert Repeat(frame, vs) == [] + frame(vs[0]) == frame(vs[0]);
    assert Tile(slots, 1) == [] + slots == slots;
  }

  lemma RepeatStep(frame: bv16 -> seq<Command>, vs: seq<bv16>, size: nat, slots: seq<ReadSlot>, last: byte)
    requires |vs| > 1
    requires Shaped(Repeat(frame, vs[..|vs| - 1]), size * (|vs| - 1), Tile(slots, |vs| - 1), last)
    requires Shaped(frame(vs[|vs| - 1]), size, slots, last)
    ensures Shaped(Repeat(frame, vs), size * |vs|, Tile(slots, |vs|), last)
  {
    var init := vs[..|vs| - 1];
    ShapedAppend(Repeat(frame, init), size * |init|, Tile(slots, |init|), last, frame(vs[|vs| - 1]), size, slots, last);
    assert size * |init| + size == size * |vs|;
  }

  /** The frames followed by the return to idle, for any number of frames. */
  lemma RepeatThenIdle(frame: bv16 -> seq<Command>, vs: seq<bv16>, size: nat, slots: seq<ReadSlot>, last: byte)
    requires forall v :: Shaped(frame(v), size, slots, last)
    ensures Shaped(Repeat(frame, vs) + [Idle], size * |vs| + 3, Tile(slots, |vs|), PIN_INITIAL_STATE)
  {
    IdleShaped();
    if vs == [] {
      assert Repeat(frame, vs) + [Idle] == [Idle];
    } else {
      RepeatShaped(frame, vs, size, slots, last);
      ShapedAppend(Repeat(frame, vs), size * |vs|, Tile(slots, |vs|), last, [Idle], 3, [], PIN_INITIAL_STATE);
      assert Tile(slots, |vs|) + [] == Tile(slots, |vs|);
    }
  }

  /** The clock preamble every program opens with: no divide-by-5, divisor 0 (30 MHz), no adaptive or three-phase clocking. */
  const ClockSetup: seq<Command> :=
    [DisableClockDivide5, SetClockDivisor(0x00, 0x00), DisableAdaptiveClocking, DisableThreePhaseClocking]

  /** The clock preamble followed by the idle pin word. */
  const BusSetup: seq<Command> := ClockSetup + [Idle]

  /** The clock preamble: its six bytes; it reads nothing and leaves the pins alone. */
  lemma ClockSetupBytes()
    ensures EncodeAll(ClockSetup) == [0x8A, TCK_DIVISOR, 0x00, 0x00, DIS_ADAPTIVE, DIS_3_PHASE]
    ensures Sound(ClockSetup) && ResponseLength(ClockSetup) == 0
    ensures forall pins :: ReadSlots(ClockSetup, pins) == [] && FinalPins(ClockSetup, pins) == pins
  {
    var last := [DisableThreePhaseClocking];
    var tail := [DisableAdaptiveClocking] + last;
    var mid := [SetClockDivisor(0x00, 0x00)] + tail;
    assert ClockSetup == [DisableClockDivide5] + mid;
    One(DisableThreePhaseClocking, PIN_INITIAL_STATE);
    EncodeCons(DisableAdaptiveClocking, last);
    EncodeCons(SetClockDivisor(0x00, 0x00), tail);
    EncodeCons(DisableClockDivide5, mid);
    forall pins ensures ReadSlots(ClockSetup, pins) == [] && FinalPins(ClockSetup, pins) == pins {
      One(DisableThreePhaseClocking, pins);
      RunCons(DisableAdaptiveClocking, last, pins);
      RunCons(SetClockDivisor(0x00, 0x00), tail, pins);
      RunCons(DisableClockDivide5, mid, pins);
    }
  }

  /** The clock preamble in front of a stream adds six bytes and changes nothing else about it. */
  lemma AfterClockSetup(cs: seq<Command>, size: nat, slots: seq<ReadSlot>, last: byte)
    requires Shaped(cs, size, slots, last)
    ensures Shaped(ClockSetup + cs, 6 + size, slots, last)
  {
    ClockSetupBytes();
    SoundAppend(ClockSetup, cs);
    EncodeAllAppend(ClockSetup, cs);
    ResponseLengthAppend(ClockSetup, cs);
    forall pins ensures ReadSlots(ClockSetup + cs, pins) == slots && FinalPins(ClockSetup + cs, pins) == last {
      ReadSlotsAppend(ClockSetup, cs, pins);
    }
  }

  /** The nine bytes of the setup: the clock preamble, then every chip select high. */
  lemma BusSetupBytes()
    ensures EncodeAll(BusSetup) == [0x8A, TCK_DIVISOR, 0x00, 0x00, DIS_ADAPTIVE, DIS_3_PHASE,
                                    SET_BITS_LOW, PIN_INITIAL_STATE, PIN_DIRECTION]
  {
    ClockSetupBytes();
    IdleShaped();
    EncodeAllAppend(ClockSetup, [Idle]);
  }

  /** The setup is nine bytes, reads nothing and ends on the idle word. */
  lemma BusSetupShaped()
    ensures Shaped(BusSetup, 9, [], PIN_INITIAL_STATE)
  {
    IdleShaped();
    AfterClockSetup([Idle], 3, [], PIN_INITIAL_STATE);
  }

  /** The nine bytes of an ADC conversion. */
  lemma AdcConversionBytes(cs: byte, edge: byte, config: byte)
    requires IsChipSelect(cs) && IsReadEdge(edge)
    ensures EncodeAll(AdcConversion(cs, edge, config)) ==
      [SET_BITS_LOW, SelectWord(cs), PIN_DIRECTION,
       MPSSE_DO_READ | MPSSE_DO_WRITE | edge, 0x00, 0x00, config,
       MPSSE_DO_READ | MPSSE_BITMODE | edge, 0x03]
  {
    var conv := AdcConversion(cs, edge, config);
    var last := [conv[2]];
    var tail := [conv[1]] + last;
    assert conv == [Select(cs)] + tail;
    EncodeCons(Select(cs), tail);
    EncodeCons(conv[1], last);
    One(conv[2], PIN_INITIAL_STATE);
  }

  /** The nine bytes of a DAC register write. */
  lemma DacTransactionBytes(cs: byte, register: byte, first: byte, second: byte)
    requires IsChipSelect(cs)
    ensures EncodeAll(DacTransaction(cs, register, first, second)) ==
      [SET_BITS_LOW, SelectWord(cs), PIN_DIRECTION, MPSSE_DO_WRITE, 0x02, 0x00, register, first, second]
  {
    var t := DacTransaction(cs, register, first, second);
    assert t == [Select(cs)] + [t[1]];
    EncodeCons(Select(cs), [t[1]]);
    One(t[1], PIN_INITIAL_STATE);
  }
}
