/**
 * The FT232H low byte bus (ADBUS0-7) as the four programs wire it: clock,
 * data out, data in, and four chip-select lines that idle high. ftdi_test.cpp
 * and ftdi_testADC.cpp call the select lines CS, L0, L1 and L2; they are the
 * same pins (0x08, 0x10, 0x20, 0x40) as CS0..CS3 of the other two programs.
 */
module Pins {
  import opened Bytes
  import opened Mpsse

  const SK: byte := 0x01   // ADBUS0, serial clock
  const DO: byte := 0x02   // ADBUS1, data out
  const DI: byte := 0x04   // ADBUS2, data in
  const CS0: byte := 0x08  // ADBUS3
  const CS1: byte := 0x10  // ADBUS4, GPIOL0
  const CS2: byte := 0x20  // ADBUS5, GPIOL1
  const CS3: byte := 0x40  // ADBUS6, GPIOL2

  /** Every chip select high: no device is addressed. */
  const PIN_INITIAL_STATE: byte := CS0 | CS1 | CS2 | CS3

  /** Clock, data out and the chip selects are outputs; everything else is an input. */
  const PIN_DIRECTION: byte := SK | DO | CS0 | CS1 | CS2 | CS3

  predicate IsChipSelect(m: byte)
  {
    m == CS0 || m == CS1 || m == CS2 || m == CS3
  }

  /** The idle word with one chip select pulled low. */
  function SelectWord(cs: byte): byte
    requires IsChipSelect(cs)
  {
    PIN_INITIAL_STATE & !cs
  }

  /** The select word drives its own line low, every other select line high, and nothing else. */
  lemma SelectWordSelects(cs: byte)
    requires IsChipSelect(cs)
    ensures SelectWord(cs) & cs == 0 && SelectWord(cs) | cs == PIN_INITIAL_STATE
    ensures forall other :: IsChipSelect(other) && other != cs ==> SelectWord(cs) & other != 0
  {
  }

  /** How many of the four chip-select lines the word drives low. */
  function LowSelects(w: byte): nat
  {
    (if w & CS0 == 0 then 1 else 0) + (if w & CS1 == 0 then 1 else 0)
    + (if w & CS2 == 0 then 1 else 0) + (if w & CS3 == 0 then 1 else 0)
  }

  /** A pin word that drives only chip selects high, and at most one of them low. */
  predicate SafeWord(w: byte)
  {
    w & !PIN_INITIAL_STATE == 0 && LowSelects(w) <= 1
  }

  /** The safe words are exactly the idle word and the four select words. */
  lemma SafeWordCases(w: byte)
    ensures SafeWord(w) <==>
      w == PIN_INITIAL_STATE || w == SelectWord(CS0) || w == SelectWord(CS1)
      || w == SelectWord(CS2) || w == SelectWord(CS3)
  {
    if SafeWord(w) {
      assert w & !PIN_INITIAL_STATE == 0;
      assert w == w & PIN_INITIAL_STATE;
    }
  }

  /** Mutual exclusion: a safe word never addresses two devices at once. */
  lemma SafeWordExclusive(w: byte, a: byte, b: byte)
    requires SafeWord(w) && IsChipSelect(a) && IsChipSelect(b)
    requires w & a == 0 && w & b == 0
    ensures a == b
  {
  }

  /** A SET_BITS_LOW command is safe when its word is safe and its direction is the fixed one. */
  predicate SafePinCommand(c: Command)
  {
    c.SetBitsLow? ==> c.direction == PIN_DIRECTION && SafeWord(c.value)
  }

  ghost predicate PinCommandsSafe(cs: seq<Command>)
  {
    forall i :: 0 <= i < |cs| ==> SafePinCommand(cs[i])
  }

  /** The fixed direction word keeps data in an input and every select line an output. */
  lemma DirectionKeepsDataIn()
    ensures PIN_DIRECTION & DI == 0
    ensures PIN_DIRECTION & PIN_INITIAL_STATE == PIN_INITIAL_STATE
    ensures PIN_DIRECTION & (SK | DO) == SK | DO
  {
  }
}
