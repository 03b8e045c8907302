/** The "display on/off control" instruction (src/display_control.rs):
    whether the display, the cursor and the cursor's blinking are on. */
module DisplayControl {
  import opened Errors

  /** Instruction marker bit and the three setting bits (the
      `DisplayControlFlags` bit table). */
  const DISPLAY_CONTROL: bv8 := 0x08
  const DISPLAY_ON: bv8 := 0x04
  const CURSOR_ON: bv8 := 0x02
  const CURSOR_BLINKING_ON: bv8 := 0x01
  const DISPLAY_OFF: bv8 := 0x00
  const CURSOR_OFF: bv8 := 0x00
  const CURSOR_BLINKING_OFF: bv8 := 0x00

  datatype Display = On | Off

  datatype Cursor = On | Off

  datatype CursorBlink = On | Off

  /** `From<Display> for DisplayControlFlags`. */
  function DisplayFlags(state: Display): (f: bv8)
    ensures f & !DISPLAY_ON == 0
    ensures f != 0 <==> state == Display.On
  {
    match state
    case On => DISPLAY_ON
    case Off => DISPLAY_OFF
  }

  /** `From<Cursor> for DisplayControlFlags`. */
  function CursorFlags(state: Cursor): (f: bv8)
    ensures f & !CURSOR_ON == 0
    ensures f != 0 <==> state == Cursor.On
  {
    match state
    case On => CURSOR_ON
    case Off => CURSOR_OFF
  }

  /** `From<CursorBlink> for DisplayControlFlags`. */
  function CursorBlinkFlags(state: CursorBlink): (f: bv8)
    ensures f & !CURSOR_BLINKING_ON == 0
    ensures f != 0 <==> state == CursorBlink.On
  {
    match state
    case On => CURSOR_BLINKING_ON
    case Off => CURSOR_BLINKING_OFF
  }

  datatype DisplayMode = DisplayMode(cursorVisibility: Cursor, cursorBlink: CursorBlink, display: Display) {

    /** `set_display`: the same settings with the display switched to `state`. */
    function SetDisplay(state: Display): (m: DisplayMode)
      ensures m.display == state
      ensures m.cursorVisibility == cursorVisibility && m.cursorBlink == cursorBlink
    {
      this.(display := state)
    }

    /** `set_cursor`: the same settings with the cursor switched to `state`. */
    function SetCursor(state: Cursor): (m: DisplayMode)
      ensures m.cursorVisibility == state
      ensures m.display == display && m.cursorBlink == cursorBlink
    {
      this.(cursorVisibility := state)
    }

    /** `set_cursor_blinking`: the same settings with blinking switched to `blinking`. */
    function SetCursorBlinking(blinking: CursorBlink): (m: DisplayMode)
      ensures m.cursorBlink == blinking
      ensures m.display == display && m.cursorVisibility == cursorVisibility
    {
      this.(cursorBlink := blinking)
    }

    /** The instruction byte: the marker bit, then one bit each for the
        display, the cursor and blinking, and nothing else. */
    function AsByte(): (b: bv8)
      ensures b & DISPLAY_CONTROL != 0
      ensures b & 0x04 != 0 <==> display == Display.On
      ensures b & 0x02 != 0 <==> cursorVisibility == Cursor.On
      ensures b & 0x01 != 0 <==> cursorBlink == CursorBlink.On
      ensures b & 0xF0 == 0
      ensures 8 <= b <= 15
    {
      DISPLAY_CONTROL | DisplayFlags(display) | CursorFlags(cursorVisibility) | CursorBlinkFlags(cursorBlink)
    }
  }

  /** `DisplayMode::default()`: display, cursor and blinking all on. */
  function Default(): (m: DisplayMode)
    ensures m.display == Display.On && m.cursorVisibility == Cursor.On && m.cursorBlink == CursorBlink.On
    ensures m.AsByte() == 0x0F
  {
    DisplayMode(Cursor.On, CursorBlink.On, Display.On)
  }

  /** The settings a display-control instruction byte carries, if it is one. */
  function Decode(b: bv8): (r: Option<DisplayMode>)
    ensures r.Some? <==> b & 0xF8 == DISPLAY_CONTROL
  {
    if b & 0xF8 != DISPLAY_CONTROL then None
    else Some(DisplayMode(if b & 0x02 != 0 then Cursor.On else Cursor.Off,
                          if b & 0x01 != 0 then CursorBlink.On else CursorBlink.Off,
                          if b & 0x04 != 0 then Display.On else Display.Off))
  }

  /** Decoding recovers the settings from their encoding. */
  lemma DecodeAsByte(m: DisplayMode)
    ensures Decode(m.AsByte()) == Some(m)
  {
  }

  /** Every byte that decodes is the encoding of what it decodes to. */
  lemma AsByteDecode(b: bv8, m: DisplayMode)
    requires Decode(b) == Some(m)
    ensures m.AsByte() == b
  {
  }

  /** Distinct settings give distinct instruction bytes. */
  lemma AsByteInjective(m1: DisplayMode, m2: DisplayMode)
    requires m1.AsByte() == m2.AsByte()
    ensures m1 == m2
  {
    DecodeAsByte(m1);
    DecodeAsByte(m2);
  }

  /** Each setter changes exactly its own bit of the instruction byte. */
  lemma SettersChangeOneBit(m: DisplayMode, d: Display, c: Cursor, k: CursorBlink)
    ensures m.SetDisplay(d).AsByte() & !DISPLAY_ON == m.AsByte() & !DISPLAY_ON
    ensures m.SetCursor(c).AsByte() & !CURSOR_ON == m.AsByte() & !CURSOR_ON
    ensures m.SetCursorBlinking(k).AsByte() & !CURSOR_BLINKING_ON == m.AsByte() & !CURSOR_BLINKING_ON
  {
  }
}
