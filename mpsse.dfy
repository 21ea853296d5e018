/**
 * The MPSSE command language of FTDI application note AN_108, "Command Processor
 * for MPSSE and MCU Host Bus Emulation Modes", section 3: the opcodes the
 * programs emit, a command-level view of a byte stream, the encoder and the
 * parser between the two views, and what the engine sends back for a stream.
 */
module Mpsse {
  import opened Wrappers
  import opened Bytes
  import opened Seqs

  // Opcodes without data shifting (section 3.6 and 3.8 of AN_108), with the
  // values libftdi's ftdi.h gives them.
  const SET_BITS_LOW: byte := 0x80
  const TCK_DIVISOR: byte := 0x86
  const DIS_DIV_5: byte := 0x8A
  const DIS_3_PHASE: byte := 0x8D
  const DIS_ADAPTIVE: byte := 0x97

  // Flag bits of the data-shifting opcodes (section 3.2 of AN_108).
  const MPSSE_BITMODE: byte := 0x02
  const MPSSE_READ_NEG: byte := 0x04
  const MPSSE_DO_WRITE: byte := 0x10
  const MPSSE_DO_READ: byte := 0x20
  const MPSSE_WRITE_TMS: byte := 0x40

  /**
   * One MPSSE command. The `length` or `bitLength` of a data transfer is its length field as
   * sent on the wire: the number of bytes (1..65536) or bits (1..8) minus one.
   */
  datatype Command =
    | SetBitsLow(value: byte, direction: byte)
    | SetClockDivisor(low: byte, high: byte)
    | DisableClockDivide5
    | DisableAdaptiveClocking
    | DisableThreePhaseClocking
    | ShiftBytes(opcode: byte, length: bv16, data: seq<byte>)
    | ShiftBits(opcode: byte, bitLength: byte, data: seq<byte>)

  predicate Writes(op: byte) { op & MPSSE_DO_WRITE != 0 }

  predicate Reads(op: byte) { op & MPSSE_DO_READ != 0 }

  /** A data-shifting opcode that clocks data out, in, or both; TMS commands are not modelled. */
  predicate IsShiftOpcode(op: byte)
  {
    op & (0x80 | MPSSE_WRITE_TMS) == 0 && op & (MPSSE_DO_WRITE | MPSSE_DO_READ) != 0
  }

  /** The commands the encoding can carry: lengths in range, payload present exactly when written. */
  predicate WellFormed(c: Command)
  {
    match c
    case ShiftBytes(op, length, data) =>
      IsShiftOpcode(op) && op & MPSSE_BITMODE == 0
      && |data| == (if Writes(op) then Count(length) else 0)
    case ShiftBits(op, length, data) =>
      IsShiftOpcode(op) && op & MPSSE_BITMODE != 0 && length <= 7
      && |data| == (if Writes(op) then 1 else 0)
    case _ => true
  }

  ghost predicate AllWellFormed(cs: seq<Command>)
  {
    forall i :: 0 <= i < |cs| ==> WellFormed(cs[i])
  }

  function Encode(c: Command): seq<byte>
  {
    match c
    case SetBitsLow(v, d) => [SET_BITS_LOW, v, d]
    case SetClockDivisor(lo, hi) => [TCK_DIVISOR, lo, hi]
    case DisableClockDivide5 => [DIS_DIV_5]
    case DisableAdaptiveClocking => [DIS_ADAPTIVE]
    case DisableThreePhaseClocking => [DIS_3_PHASE]
    case ShiftBytes(op, length, data) => [op, LengthLow(length), LengthHigh(length)] + data
    case ShiftBits(op, length, data) => [op, length] + data
  }

  function EncodeAll(cs: seq<Command>): seq<byte>
  {
    if cs == [] then [] else Encode(cs[0]) + EncodeAll(cs[1..])
  }

  /**
   * Reads the command at the head of a non-empty stream and the number of
   * bytes it occupies; None for an opcode outside the modelled set or a
   * truncated command.
   */
  function ParseOne(s: seq<byte>): (r: Option<(Command, nat)>)
    requires |s| > 0
    ensures r.Some? ==> 0 < r.value.1 <= |s| && WellFormed(r.value.0)
    ensures r.Some? ==> s[..r.value.1] == Encode(r.value.0)
  {
    var op := s[0];
    if op == SET_BITS_LOW then
      if |s| < 3 then None else Some((SetBitsLow(s[1], s[2]), 3))
    else if op == TCK_DIVISOR then
      if |s| < 3 then None else Some((SetClockDivisor(s[1], s[2]), 3))
    else if op == DIS_DIV_5 then Some((DisableClockDivide5, 1))
    else if op == DIS_ADAPTIVE then Some((DisableAdaptiveClocking, 1))
    else if op == DIS_3_PHASE then Some((DisableThreePhaseClocking, 1))
    else if !IsShiftOpcode(op) then None
    else if op & MPSSE_BITMODE == 0 then ParseShiftBytes(s)
    else ParseShiftBits(s)
  }

  /** A byte transfer: opcode, length low, length high, and the payload if it writes. */
  function ParseShiftBytes(s: seq<byte>): (r: Option<(Command, nat)>)
    requires |s| > 0 && IsShiftOpcode(s[0]) && s[0] & MPSSE_BITMODE == 0
    ensures r.Some? ==> 0 < r.value.1 <= |s| && WellFormed(r.value.0)
    ensures r.Some? ==> s[..r.value.1] == Encode(r.value.0)
  {
    if |s| < 3 then None
    else
      var length := LengthOf(s[1], s[2]);
      var w := if Writes(s[0]) then Count(length) else 0;
      if |s| < 3 + w then None
      else
        ShiftBytesPrefix(s, length, w);
        Some((ShiftBytes(s[0], length, s[3..3 + w]), 3 + w))
  }

  /** The first bytes of a stream whose header matches a byte transfer's are that transfer's encoding. */
  lemma ShiftBytesPrefix(s: seq<byte>, length: bv16, w: nat)
    requires 3 + w <= |s| && LengthLow(length) == s[1] && LengthHigh(length) == s[2]
    ensures s[..3 + w] == Encode(ShiftBytes(s[0], length, s[3..3 + w]))
  {
    var header, data := [s[0], LengthLow(length), LengthHigh(length)], s[3..3 + w];
    assert Encode(ShiftBytes(s[0], length, data)) == header + data;
    SplitHeader(s, header, 3 + w);
  }

  /** A bit transfer: opcode, bit count - 1 (at most 7), and the payload byte if it writes. */
  function ParseShiftBits(s: seq<byte>): (r: Option<(Command, nat)>)
    requires |s| > 0 && IsShiftOpcode(s[0]) && s[0] & MPSSE_BITMODE != 0
    ensures r.Some? ==> 0 < r.value.1 <= |s| && WellFormed(r.value.0)
    ensures r.Some? ==> s[..r.value.1] == Encode(r.value.0)
  {
    if |s| < 2 || s[1] > 7 then None
    else
      var w := if Writes(s[0]) then 1 else 0;
      if |s| < 2 + w then None
      else
        ShiftBitsPrefix(s, w);
        Some((ShiftBits(s[0], s[1], s[2..2 + w]), 2 + w))
  }

  lemma ShiftBitsPrefix(s: seq<byte>, w: nat)
    requires 2 + w <= |s|
    ensures s[..2 + w] == Encode(ShiftBits(s[0], s[1], s[2..2 + w]))
  {
    var header, data := [s[0], s[1]], s[2..2 + w];
    assert Encode(ShiftBits(s[0], s[1], data)) == header + data;
    SplitHeader(s, header, 2 + w);
  }

  /** The whole stream as commands, or None if some part of it does not parse. */
  function Parse(s: seq<byte>): Option<seq<Command>>
    decreases |s|
  {
    if |s| == 0 then Some([])
    else
      match ParseOne(s)
      case None => None
      case Some((c, k)) =>
        match Parse(s[k..])
        case None => None
        case Some(rest) => Some([c] + rest)
  }

  /** Bytes the engine sends back for one command: one per byte clocked in, one per bit transfer. */
  function ResponseBytes(c: Command): nat
  {
    match c
    case ShiftBytes(op, length, _) => if Reads(op) then Count(length) else 0
    case ShiftBits(op, _, _) => if Reads(op) then 1 else 0
    case _ => 0
  }

  function ResponseLength(cs: seq<Command>): nat
  {
    if cs == [] then 0 else ResponseBytes(cs[0]) + ResponseLength(cs[1..])
  }

  /**
   * One byte of the engine's response: the pin word on the low bus while it
   * was clocked in, and how many of its bits were clocked (8, or the length
   * of a bit transfer, which lands in the low bits).
   */
  datatype ReadSlot = ReadSlot(pins: byte, bits: nat)

  function PinsAfter(c: Command, pins: byte): byte
  {
    if c.SetBitsLow? then c.value else pins
  }

  function CommandSlots(c: Command, pins: byte): seq<ReadSlot>
  {
    match c
    case ShiftBytes(op, length, _) => if Reads(op) then seq(Count(length), _ => ReadSlot(pins, 8)) else []
    case ShiftBits(op, length, _) => if Reads(op) then [ReadSlot(pins, length as int + 1)] else []
    case _ => []
  }

  /** The response of a command sequence run from pin word `pins`, byte by byte. */
  function ReadSlots(cs: seq<Command>, pins: byte): seq<ReadSlot>
  {
    if cs == [] then [] else CommandSlots(cs[0], pins) + ReadSlots(cs[1..], PinsAfter(cs[0], pins))
  }

  /** The pin word on the low bus after the sequence has run. */
  function FinalPins(cs: seq<Command>, pins: byte): byte
  {
    if cs == [] then pins else FinalPins(cs[1..], PinsAfter(cs[0], pins))
  }

  /** A command in front of a list: its bytes and its response count come first. */
  lemma EncodeCons(c: Command, rest: seq<Command>)
    ensures EncodeAll([c] + rest) == Encode(c) + EncodeAll(rest)
    ensures ResponseLength([c] + rest) == ResponseBytes(c) + ResponseLength(rest)
  {
    var cs := [c] + rest;
    assert cs[0] == c && cs[1..] == rest;
  }

  /** A command in front of a list: its response bytes and its effect on the pins come first. */
  lemma RunCons(c: Command, rest: seq<Command>, pins: byte)
    ensures ReadSlots([c] + rest, pins) == CommandSlots(c, pins) + ReadSlots(rest, PinsAfter(c, pins))
    ensures FinalPins([c] + rest, pins) == FinalPins(rest, PinsAfter(c, pins))
  {
    var cs := [c] + rest;
    assert cs[0] == c && cs[1..] == rest;
  }

  /** A list of one command is that command. */
  lemma One(c: Command, pins: byte)
    ensures EncodeAll([c]) == Encode(c) && ResponseLength([c]) == ResponseBytes(c)
    ensures ReadSlots([c], pins) == CommandSlots(c, pins) && FinalPins([c], pins) == PinsAfter(c, pins)
  {
    assert [c][1..] == [];
  }

  lemma {:induction false} EncodeAllAppend(a: seq<Command>, b: seq<Command>)
    ensures EncodeAll(a + b) == EncodeAll(a) + EncodeAll(b)
  {
    if a == [] {
      assert a + b == b;
    } else {
      assert (a + b)[1..] == a[1..] + b;
      EncodeAllAppend(a[1..], b);
    }
  }

  /** Appending one command's bytes to a stream of encoded commands. */
  lemma EmitCommand(w: seq<byte>, cs: seq<Command>, c: Command)
    ensures w + EncodeAll(cs) + Encode(c) == w + EncodeAll(cs + [c])
  {
    EncodeAllAppend(cs, [c]);
    assert EncodeAll([c]) == Encode(c) + EncodeAll([c][1..]);
    assert [c][1..] == [];
    Associative(w, EncodeAll(cs), Encode(c));
  }

  /** Appending the encodings of two command lists to a stream. */
  lemma EmitCommands(w: seq<byte>, a: seq<Command>, b: seq<Command>)
    ensures w + EncodeAll(a) + EncodeAll(b) == w + EncodeAll(a + b)
  {
    EncodeAllAppend(a, b);
    Associative(w, EncodeAll(a), EncodeAll(b));
  }

  lemma ParseOneEncode(c: Command, rest: seq<byte>)
    requires WellFormed(c)
    ensures ParseOne(Encode(c) + rest) == Some((c, |Encode(c)|))
  {
    match c
    case ShiftBytes(op, length, data) => ParseShiftBytesEncode(op, length, data, rest);
    case ShiftBits(op, length, data) => ParseShiftBitsEncode(op, length, data, rest);
    case _ =>
  }

  lemma ParseShiftBytesEncode(op: byte, length: bv16, data: seq<byte>, rest: seq<byte>)
    requires WellFormed(ShiftBytes(op, length, data))
    ensures ParseShiftBytes(Encode(ShiftBytes(op, length, data)) + rest) == Some((ShiftBytes(op, length, data), 3 + |data|))
  {
    var s := Encode(ShiftBytes(op, length, data)) + rest;
    assert s[0] == op && s[1] == LengthLow(length) && s[2] == LengthHigh(length);
    LengthFieldRoundTrip(length);
    assert s[3..3 + |data|] == data;
  }

  lemma ParseShiftBitsEncode(op: byte, length: byte, data: seq<byte>, rest: seq<byte>)
    requires WellFormed(ShiftBits(op, length, data))
    ensures ParseShiftBits(Encode(ShiftBits(op, length, data)) + rest) == Some((ShiftBits(op, length, data), 2 + |data|))
  {
    var s := Encode(ShiftBits(op, length, data)) + rest;
    assert s[0] == op && s[1] == length;
    assert s[2..2 + |data|] == data;
  }

  /** Parsing undoes encoding. */
  lemma {:induction false} ParseEncodeAll(cs: seq<Command>)
    requires AllWellFormed(cs)
    ensures Parse(EncodeAll(cs)) == Some(cs)
  {
    if cs != [] {
      var c, rest := cs[0], cs[1..];
      var head, tail := Encode(c), EncodeAll(rest);
      var s := EncodeAll(cs);
      assert s == head + tail;
      ParseOneEncode(c, tail);
      assert s[|head|..] == tail;
      ParseEncodeAll(rest);
      assert [c] + rest == cs;
    }
  }

  /** Encoding undoes parsing: a stream that parses is exactly its commands' encoding. */
  lemma {:induction false} EncodeAllParse(s: seq<byte>)
    requires Parse(s).Some?
    ensures AllWellFormed(Parse(s).value) && EncodeAll(Parse(s).value) == s
    decreases |s|
  {
    if |s| > 0 {
      var (c, k) := ParseOne(s).value;
      EncodeAllParse(s[k..]);
      var rest := Parse(s[k..]).value;
      assert ([c] + rest)[1..] == rest;
      assert s == s[..k] + s[k..];
    }
  }

  lemma {:induction false} ResponseLengthAppend(a: seq<Command>, b: seq<Command>)
    ensures ResponseLength(a + b) == ResponseLength(a) + ResponseLength(b)
  {
    if a == [] {
      assert a + b == b;
    } else {
      assert (a + b)[1..] == a[1..] + b;
      ResponseLengthAppend(a[1..], b);
    }
  }

  /** The interpreted response has exactly the length the count-1 rule gives. */
  lemma {:induction false} ReadSlotsLength(cs: seq<Command>, pins: byte)
    ensures |ReadSlots(cs, pins)| == ResponseLength(cs)
  {
    if cs != [] {
      ReadSlotsLength(cs[1..], PinsAfter(cs[0], pins));
    }
  }

  lemma {:induction false} ReadSlotsAppend(a: seq<Command>, b: seq<Command>, pins: byte)
    ensures ReadSlots(a + b, pins) == ReadSlots(a, pins) + ReadSlots(b, FinalPins(a, pins))
    ensures FinalPins(a + b, pins) == FinalPins(b, FinalPins(a, pins))
  {
    FinalPinsAppend(a, b, pins);
    if a == [] {
      assert a + b == b;
    } else {
      var ab, p := a + b, PinsAfter(a[0], pins);
      assert ab[0] == a[0] && ab[1..] == a[1..] + b;
      ReadSlotsAppend(a[1..], b, p);
      var head, mid, tail := CommandSlots(a[0], pins), ReadSlots(a[1..], p), ReadSlots(b, FinalPins(a, pins));
      assert ReadSlots(ab, pins) == head + (mid + tail);
      assert ReadSlots(a, pins) == head + mid;
      Associative(head, mid, tail);
    }
  }

  lemma {:induction false} FinalPinsAppend(a: seq<Command>, b: seq<Command>, pins: byte)
    ensures FinalPins(a + b, pins) == FinalPins(b, FinalPins(a, pins))
  {
    if a == [] {
      assert a + b == b;
    } else {
      assert (a + b)[0] == a[0] && (a + b)[1..] == a[1..] + b;
      FinalPinsAppend(a[1..], b, PinsAfter(a[0], pins));
    }
  }
}
