/** The "entry mode set" instruction (src/entry_mode.rs): which way the
    cursor moves after a character is written, and whether the display
    shifts instead. */
module EntryModes {
  import opened Errors

  /** Instruction marker bit and the two setting bits (the `EntryModeFlags`
      bit table). */
  const ENTRY_MODE: bv8 := 0x04
  const CURSOR_MOVE_INCREMENT: bv8 := 0x02
  const CURSOR_MOVE_DECREMENT: bv8 := 0x00
  const DISPLAY_SHIFT_ON: bv8 := 0x01
  const DISPLAY_SHIFT_OFF: bv8 := 0x00

  datatype CursorMode = Increment | Decrement

  datatype ShiftMode = On | Off

  /** `From<CursorMode> for EntryModeFlags`. */
  function CursorModeFlags(direction: CursorMode): (f: bv8)
    ensures f & !CURSOR_MOVE_INCREMENT == 0
    ensures f != 0 <==> direction == Increment
  {
    match direction
    case Increment => CURSOR_MOVE_INCREMENT
    case Decrement => CURSOR_MOVE_DECREMENT
  }

  /** `From<ShiftMode> for EntryModeFlags`. */
  function ShiftModeFlags(shift: ShiftMode): (f: bv8)
    ensures f & !DISPLAY_SHIFT_ON == 0
    ensures f != 0 <==> shift == On
  {
    match shift
    case On => DISPLAY_SHIFT_ON
    case Off => DISPLAY_SHIFT_OFF
  }

  datatype EntryMode = EntryMode(moveDirection: CursorMode, displayShift: ShiftMode) {

    /** The instruction byte: the marker bit, bit 1 for the move direction,
        bit 0 for the display shift, and nothing else. */
    function AsByte(): (b: bv8)
      ensures b & ENTRY_MODE != 0
      ensures b & 0x02 != 0 <==> moveDirection == Increment
      ensures b & 0x01 != 0 <==> displayShift == On
      ensures b & 0xF8 == 0
      ensures 4 <= b <= 7
    {
      ENTRY_MODE | CursorModeFlags(moveDirection) | ShiftModeFlags(displayShift)
    }
  }

  /** `EntryMode::default()`: increment, no display shift. */
  function Default(): (e: EntryMode)
    ensures e.moveDirection == Increment && e.displayShift == Off
    ensures e.AsByte() == 0x06
  {
    EntryMode(Increment, Off)
  }

  /** The settings an entry-mode instruction byte carries, if it is one. */
  function Decode(b: bv8): (r: Option<EntryMode>)
    ensures r.Some? <==> b & 0xFC == ENTRY_MODE
  {
    if b & 0xFC != ENTRY_MODE then None
    else Some(EntryMode(if b & 0x02 != 0 then Increment else Decrement,
                        if b & 0x01 != 0 then On else Off))
  }

  /** Decoding recovers the settings from their encoding. */
  lemma DecodeAsByte(e: EntryMode)
    ensures Decode(e.AsByte()) == Some(e)
  {
  }

  /** Every byte that decodes is the encoding of what it decodes to. */
  lemma AsByteDecode(b: bv8, e: EntryMode)
    requires Decode(b) == Some(e)
    ensures e.AsByte() == b
  {
  }

  /** Distinct settings give distinct instruction bytes. */
  lemma AsByteInjective(e1: EntryMode, e2: EntryMode)
    requires e1.AsByte() == e2.AsByte()
    ensures e1 == e2
  {
    DecodeAsByte(e1);
    DecodeAsByte(e2);
  }
}
