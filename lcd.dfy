/** The display controller `LCD1602` (src/lib.rs): the entry mode and
    display control settings it remembers, and the instruction and data
    writes each of its operations sends over its bus. */
module Lcd {
  import opened Errors
  import opened Traces
  import opened Transports
  import EntryModes
  import DisplayControl
  import Utf8

  /** Instruction bytes the controller sends as literals. */
  const CLEAR_DISPLAY: bv8 := 0x01
  const RETURN_HOME: bv8 := 0x02
  const SET_DDRAM_ADDRESS: bv8 := 0x80

  /** Wait after every instruction or data write, in microseconds. */
  const WRITE_WAIT_US: nat := 100

  /** `Direction`: which way `shift_cursor` and `shift_display` move. */
  datatype Direction = Left | Right

  /** The direction bit of the cursor-or-display-shift instruction. */
  function DirectionBits(dir: Direction): (bits: bv8)
    ensures bits & !0x04 == 0
    ensures bits != 0 <==> dir == Right
  {
    match dir
    case Left => 0x00
    case Right => 0x04
  }

  /** The `set_cursor_pos` instruction: the DDRAM-address marker bit 7 with
      the low seven bits of the position; bit 7 of the position is dropped. */
  function CursorPositionCommand(position: bv8): (cmd: bv8)
    ensures cmd & 0x80 != 0
    ensures cmd & 0x7F == position & 0x7F
  {
    SET_DDRAM_ADDRESS | (0x7F & position)
  }

  /** The address a `set_cursor_pos` instruction carries is the position
      when that is below 128, and positions 128 apart give the same
      instruction: nothing is rejected. */
  lemma CursorPositionWraps(p: bv8)
    ensures p < 0x80 ==> CursorPositionCommand(p) == 0x80 + p
    ensures CursorPositionCommand(p) == CursorPositionCommand(p ^ 0x80)
  {
  }

  /** The `shift_cursor` instruction. */
  function ShiftCursorCommand(dir: Direction): (cmd: bv8)
    ensures cmd & 0xF8 == 0x10
    ensures cmd & 0x04 != 0 <==> dir == Right
  {
    var bits := DirectionBits(dir);
    0x10 | bits | bits
  }

  /** The `shift_display` instruction. */
  function ShiftDisplayCommand(dir: Direction): (cmd: bv8)
    ensures cmd & 0xF8 == 0x18
    ensures cmd & 0x04 != 0 <==> dir == Right
  {
    0x18 | DirectionBits(dir)
  }

  /** The four shift instructions are 0x10, 0x14, 0x18 and 0x1C: the
      cursor ones have bit 3 clear, the display ones have it set, and bit 2
      is the direction. */
  lemma ShiftCommandValues()
    ensures ShiftCursorCommand(Left) == 0x10 && ShiftCursorCommand(Right) == 0x14
    ensures ShiftDisplayCommand(Left) == 0x18 && ShiftDisplayCommand(Right) == 0x1C
  {
  }

  /** Shifting the cursor and shifting the display are told apart, and so
      are the two directions. */
  lemma ShiftCommandsDistinct(d1: Direction, d2: Direction)
    ensures ShiftCursorCommand(d1) != ShiftDisplayCommand(d2)
    ensures ShiftCursorCommand(d1) == ShiftCursorCommand(d2) <==> d1 == d2
    ensures ShiftDisplayCommand(d1) == ShiftDisplayCommand(d2) <==> d1 == d2
  {
  }

  /** `data as u8` on a `char`: the low eight bits of its code. */
  function CharCode(c: char): (code: Utf8.Octet)
    ensures (c as int) < 256 ==> code == c as int
    ensures code == (c as int) % 256
  {
    (c as int) % 256
  }

  /** Characters whose codes differ by a multiple of 256 are sent as the
      same byte. */
  lemma CharCodeWraps(c: char, d: char, k: int)
    requires d as int == c as int + 256 * k
    ensures CharCode(c) == CharCode(d)
  {
  }

  /** The bytes of a sequence of byte values. */
  function Bytes(os: seq<Utf8.Octet>): (bs: seq<bv8>)
    ensures |bs| == |os|
  {
    seq(|os|, i requires 0 <= i < |os| => os[i] as bv8)
  }

  /** `write_command(cmd)`: the instruction, then the wait. */
  function CommandPlan(cmd: bv8): seq<BusEvent> {
    [Send(cmd, false), WaitUs(WRITE_WAIT_US)]
  }

  /** `write_byte(b)`: the data byte, then the wait. */
  function DataPlan(b: bv8): seq<BusEvent> {
    [Send(b, true), WaitUs(WRITE_WAIT_US)]
  }

  /** `write_bytes(bs)`: `write_byte` for each byte in order. */
  function BytesPlan(bs: seq<bv8>): (plan: seq<BusEvent>)
    ensures |plan| == 2 * |bs|
    decreases |bs|
  {
    if bs == [] then [] else BytesPlan(bs[..|bs| - 1]) + DataPlan(bs[|bs| - 1])
  }

  /** The start of both initialisations: the wake-up wait, the first
      function set instruction `b`, and the longer wait it needs. */
  function WakePlan(b: bv8): seq<BusEvent> {
    [WaitMs(15), Send(b, false), WaitMs(5)]
  }

  /** `init_4bit`: wake-up, 0x33 then 0x32 to enter 4-bit mode, 0x28 (two
      lines, 5x8 dots), 0x0E (display and cursor on), clear, the entry mode,
      and the cursor to the start of the first line. */
  function Init4BitPlan(entryMode: EntryModes.EntryMode): seq<BusEvent> {
    WakePlan(0x33) + CommandPlan(0x32) + CommandPlan(0x28) + CommandPlan(0x0E)
      + CommandPlan(CLEAR_DISPLAY) + CommandPlan(entryMode.AsByte()) + CommandPlan(SET_DDRAM_ADDRESS)
  }

  /** `init_8bit`: wake-up with 0x30, 0x38 (8 bits, two lines), 0x0E,
      clear, 0x07, and the entry mode. */
  function Init8BitPlan(entryMode: EntryModes.EntryMode): seq<BusEvent> {
    WakePlan(0x30) + CommandPlan(0x38) + CommandPlan(0x0E) + CommandPlan(CLEAR_DISPLAY)
      + CommandPlan(0x07) + CommandPlan(entryMode.AsByte())
  }

  class LCD1602 {
    const bus: Transport
    var entryMode: EntryModes.EntryMode
    var displayMode: DisplayControl.DisplayMode

    /** The struct literal of the constructors: default settings. */
    constructor Assemble(bus: Transport)
      ensures this.bus == bus
      ensures entryMode == EntryModes.Default() && displayMode == DisplayControl.Default()
    {
      this.bus := bus;
      entryMode := EntryModes.Default();
      displayMode := DisplayControl.Default();
    }

    /** `new_8bit`: a controller with default settings over an 8-bit
        parallel bus, returned only if `init_8bit` succeeds. */
    static method New8Bit(bus: Transport) returns (r: Result<LCD1602>)
      requires bus.medium == EightBitPins
      modifies bus
      ensures Performed(IsWrite, bus.fails, old(bus.trace), bus.trace, r.Ok?, Init8BitPlan(EntryModes.Default()))
      ensures r.Ok? ==> fresh(r.value) && r.value.bus == bus
      ensures r.Ok? ==> r.value.entryMode == EntryModes.Default() && r.value.displayMode == DisplayControl.Default()
    {
      var hd := new LCD1602.Assemble(bus);
      var res := hd.Init8Bit();
      if res.Err? {
        return Err(res.error);
      }
      return Ok(hd);
    }

    /** `new_4bit`: the same over a 4-bit parallel bus with `init_4bit`. */
    static method New4Bit(bus: Transport) returns (r: Result<LCD1602>)
      requires bus.medium == FourBitPins
      modifies bus
      ensures Performed(IsWrite, bus.fails, old(bus.trace), bus.trace, r.Ok?, Init4BitPlan(EntryModes.Default()))
      ensures r.Ok? ==> fresh(r.value) && r.value.bus == bus
      ensures r.Ok? ==> r.value.entryMode == EntryModes.Default() && r.value.displayMode == DisplayControl.Default()
    {
      var hd := new LCD1602.Assemble(bus);
      var res := hd.Init4Bit();
      if res.Err? {
        return Err(res.error);
      }
      return Ok(hd);
    }

    /** `new_i2c`: the same over an I2C port expander at `address`, also
        initialised with `init_4bit`. */
    static method NewI2c(bus: Transport, address: bv8) returns (r: Result<LCD1602>)
      requires bus.medium == I2cExpander(address)
      modifies bus
      ensures Performed(IsWrite, bus.fails, old(bus.trace), bus.trace, r.Ok?, Init4BitPlan(EntryModes.Default()))
      ensures r.Ok? ==> fresh(r.value) && r.value.bus == bus
      ensures r.Ok? ==> r.value.entryMode == EntryModes.Default() && r.value.displayMode == DisplayControl.Default()
    {
      var hd := new LCD1602.Assemble(bus);
      var res := hd.Init4Bit();
      if res.Err? {
        return Err(res.error);
      }
      return Ok(hd);
    }

    /** `reset`: return home; the settings are not touched. */
    method Reset() returns (r: Result<()>)
      modifies bus
      ensures Performed(IsWrite, bus.fails, old(bus.trace), bus.trace, r.Ok?, CommandPlan(RETURN_HOME))
    {
      r := WriteCommand(RETURN_HOME);
    }

    /** `set_display_mode`: store all three display settings, then send them. */
    method SetDisplayMode(mode: DisplayControl.DisplayMode) returns (r: Result<()>)
      modifies this, bus
      ensures displayMode == mode && entryMode == old(entryMode)
      ensures Performed(IsWrite, bus.fails, old(bus.trace), bus.trace, r.Ok?, CommandPlan(mode.AsByte()))
    {
      displayMode := mode;
      var cmdByte := displayMode.AsByte();
      r := WriteCommand(cmdByte);
    }

    /** `clear`: clear the display; the settings are not touched. */
    method Clear() returns (r: Result<()>)
      modifies bus
      ensures Performed(IsWrite, bus.fails, old(bus.trace), bus.trace, r.Ok?, CommandPlan(CLEAR_DISPLAY))
    {
      r := WriteCommand(CLEAR_DISPLAY);
    }

    /** `set_autoscroll`: store the display shift, then send the entry mode. */
    method SetAutoscroll(enabled: EntryModes.ShiftMode) returns (r: Result<()>)
      modifies this, bus
      ensures entryMode.displayShift == enabled && entryMode.moveDirection == old(entryMode.moveDirection)
      ensures displayMode == old(displayMode)
      ensures Performed(IsWrite, bus.fails, old(bus.trace), bus.trace, r.Ok?, CommandPlan(entryMode.AsByte()))
    {
      entryMode := entryMode.(displayShift := enabled);
      var cmd := entryMode.AsByte();
      r := WriteCommand(cmd);
    }

    /** `set_cursor_visibility`: store the cursor setting, then send the
        display control instruction. */
    method SetCursorVisibility(visibility: DisplayControl.Cursor) returns (r: Result<()>)
      modifies this, bus
      ensures displayMode.cursorVisibility == visibility
      ensures displayMode.display == old(displayMode.display) && displayMode.cursorBlink == old(displayMode.cursorBlink)
      ensures entryMode == old(entryMode)
      ensures Performed(IsWrite, bus.fails, old(bus.trace), bus.trace, r.Ok?, CommandPlan(displayMode.AsByte()))
    {
      displayMode := displayMode.(cursorVisibility := visibility);
      var cmd := displayMode.AsByte();
      r := WriteCommand(cmd);
    }

    /** `set_display`: store the display setting, then send the display
        control instruction. */
    method SetDisplay(display: DisplayControl.Display) returns (r: Result<()>)
      modifies this, bus
      ensures displayMode.display == display
      ensures displayMode.cursorVisibility == old(displayMode.cursorVisibility) && displayMode.cursorBlink == old(displayMode.cursorBlink)
      ensures entryMode == old(entryMode)
      ensures Performed(IsWrite, bus.fails, old(bus.trace), bus.trace, r.Ok?, CommandPlan(displayMode.AsByte()))
    {
      displayMode := displayMode.(display := display);
      var cmd := displayMode.AsByte();
      r := WriteCommand(cmd);
    }

    /** `set_cursor_blink`: store the blink setting, then send the display
        control instruction. */
    method SetCursorBlink(blink: DisplayControl.CursorBlink) returns (r: Result<()>)
      modifies this, bus
      ensures displayMode.cursorBlink == blink
      ensures displayMode.display == old(displayMode.display) && displayMode.cursorVisibility == old(displayMode.cursorVisibility)
      ensures entryMode == old(entryMode)
      ensures Performed(IsWrite, bus.fails, old(bus.trace), bus.trace, r.Ok?, CommandPlan(displayMode.AsByte()))
    {
      displayMode := displayMode.(cursorBlink := blink);
      var cmd := displayMode.AsByte();
      r := WriteCommand(cmd);
    }

    /** `set_cursor_mode`: store the move direction, then send the entry mode. */
    method SetCursorMode(mode: EntryModes.CursorMode) returns (r: Result<()>)
      modifies this, bus
      ensures entryMode.moveDirection == mode && entryMode.displayShift == old(entryMode.displayShift)
      ensures displayMode == old(displayMode)
      ensures Performed(IsWrite, bus.fails, old(bus.trace), bus.trace, r.Ok?, CommandPlan(entryMode.AsByte()))
    {
      entryMode := entryMode.(moveDirection := mode);
      var cmd := entryMode.AsByte();
      r := WriteCommand(cmd);
    }

    /** `set_cursor_pos`: move the cursor to DDRAM address `position mod 128`. */
    method SetCursorPos(position: bv8) returns (r: Result<()>)
      modifies bus
      ensures Performed(IsWrite, bus.fails, old(bus.trace), bus.trace, r.Ok?, CommandPlan(CursorPositionCommand(position)))
    {
      var lower7Bits := 0x7F & position;
      r := WriteCommand(0x80 | lower7Bits);
    }

    /** `shift_cursor`. */
    method ShiftCursor(dir: Direction) returns (r: Result<()>)
      modifies bus
      ensures Performed(IsWrite, bus.fails, old(bus.trace), bus.trace, r.Ok?, CommandPlan(ShiftCursorCommand(dir)))
    {
      var bits: bv8 := match dir case Left => 0x00 case Right => 0x04;
      r := WriteCommand(0x10 | bits | bits);
    }

    /** `shift_display`. */
    method ShiftDisplay(dir: Direction) returns (r: Result<()>)
      modifies bus
      ensures Performed(IsWrite, bus.fails, old(bus.trace), bus.trace, r.Ok?, CommandPlan(ShiftDisplayCommand(dir)))
    {
      var bits: bv8 := match dir case Left => 0x00 case Right => 0x04;
      r := WriteCommand(0x18 | bits);
    }

    /** `write_char`: the character's code truncated to a byte, as data. */
    method WriteChar(c: char) returns (r: Result<()>)
      modifies bus
      ensures Performed(IsWrite, bus.fails, old(bus.trace), bus.trace, r.Ok?, DataPlan(CharCode(c) as bv8))
    {
      r := WriteByte(((c as int) % 256) as bv8);
    }

    /** `write_command`: one instruction write; on success, the wait. */
    method WriteCommand(cmd: bv8) returns (r: Result<()>)
      modifies bus
      ensures Performed(IsWrite, bus.fails, old(bus.trace), bus.trace, r.Ok?, CommandPlan(cmd))
    {
      var f := bus.fails;
      ghost var t0 := bus.trace;
      ghost var plan := CommandPlan(cmd);
      PerformedNothing(IsWrite, f, t0);
      r := bus.Write(cmd, false);
      PerformedNext(IsWrite, f, t0, t0, bus.trace, plan, 0, r.Ok?);
      if r.Err? {
        return;
      }
      ghost var t1 := bus.trace;
      bus.DelayUs(100);
      PerformedNext(IsWrite, f, t0, t1, bus.trace, plan, 1, true);
    }

    /** `write_byte`: one data write; on success, the wait. */
    method WriteByte(data: bv8) returns (r: Result<()>)
      modifies bus
      ensures Performed(IsWrite, bus.fails, old(bus.trace), bus.trace, r.Ok?, DataPlan(data))
    {
      var f := bus.fails;
      ghost var t0 := bus.trace;
      ghost var plan := DataPlan(data);
      PerformedNothing(IsWrite, f, t0);
      r := bus.Write(data, true);
      PerformedNext(IsWrite, f, t0, t0, bus.trace, plan, 0, r.Ok?);
      if r.Err? {
        return;
      }
      ghost var t1 := bus.trace;
      bus.DelayUs(100);
      PerformedNext(IsWrite, f, t0, t1, bus.trace, plan, 1, true);
    }

    /** `write_bytes`: `write_byte` for each byte in order, stopping at the
        first error. */
    method WriteBytes(bs: seq<bv8>) returns (r: Result<()>)
      modifies bus
      ensures Performed(IsWrite, bus.fails, old(bus.trace), bus.trace, r.Ok?, BytesPlan(bs))
    {
      var f := bus.fails;
      ghost var t0 := bus.trace;
      PerformedNothing(IsWrite, f, t0);
      assert bs[..0] == [];
      var i := 0;
      while i < |bs|
        invariant 0 <= i <= |bs|
        invariant Performed(IsWrite, f, t0, bus.trace, true, BytesPlan(bs[..i]))
      {
        ghost var t1 := bus.trace;
        r := WriteByte(bs[i]);
        PerformedThen(IsWrite, f, t0, t1, bus.trace, BytesPlan(bs[..i]), DataPlan(bs[i]), r.Ok?);
        assert bs[..i + 1][..i] == bs[..i];
        if r.Err? {
          BytesPlanSplit(bs, i + 1);
          PerformedAbort(IsWrite, f, t0, bus.trace, BytesPlan(bs[..i + 1]), BytesPlan(bs[i + 1..]));
          return;
        }
        i := i + 1;
      }
      assert bs[..i] == bs;
      r := Ok(());
    }

    /** `write_str`: the string's UTF-8 bytes, through `write_bytes`. */
    method WriteStr(s: string) returns (r: Result<()>)
      modifies bus
      ensures Performed(IsWrite, bus.fails, old(bus.trace), bus.trace, r.Ok?, BytesPlan(Bytes(Utf8.Encode(s))))
    {
      r := WriteBytes(Bytes(Utf8.Encode(s)));
    }

    /** `init_4bit`: every write is followed by `?` and then, except for
        the first, by the 100 microsecond wait, as in `write_command`. */
    method Init4Bit() returns (r: Result<()>)
      modifies bus
      ensures Performed(IsWrite, bus.fails, old(bus.trace), bus.trace, r.Ok?, Init4BitPlan(entryMode))
    {
      var f := bus.fails;
      ghost var t0 := bus.trace;
      ghost var w, c1, c2, c3, c4, c5, c6 := WakePlan(0x33), CommandPlan(0x32), CommandPlan(0x28), CommandPlan(0x0E),
        CommandPlan(CLEAR_DISPLAY), CommandPlan(entryMode.AsByte()), CommandPlan(SET_DDRAM_ADDRESS);
      r := Wake(0x33);
      if r.Err? {
        PerformedAbortPrefix(IsWrite, f, t0, bus.trace, w, w + c1 + c2 + c3 + c4 + c5 + c6);
        return;
      }
      ghost var t := bus.trace;
      r := WriteCommand(0x32);
      PerformedThen(IsWrite, f, t0, t, bus.trace, w, c1, r.Ok?);
      if r.Err? {
        PerformedAbortPrefix(IsWrite, f, t0, bus.trace, w + c1, w + c1 + c2 + c3 + c4 + c5 + c6);
        return;
      }
      t := bus.trace;
      r := WriteCommand(0x28);
      PerformedThen(IsWrite, f, t0, t, bus.trace, w + c1, c2, r.Ok?);
      if r.Err? {
        PerformedAbortPrefix(IsWrite, f, t0, bus.trace, w + c1 + c2, w + c1 + c2 + c3 + c4 + c5 + c6);
        return;
      }
      t := bus.trace;
      r := WriteCommand(0x0E);
      PerformedThen(IsWrite, f, t0, t, bus.trace, w + c1 + c2, c3, r.Ok?);
      if r.Err? {
        PerformedAbortPrefix(IsWrite, f, t0, bus.trace, w + c1 + c2 + c3, w + c1 + c2 + c3 + c4 + c5 + c6);
        return;
      }
      t := bus.trace;
      r := WriteCommand(CLEAR_DISPLAY);
      PerformedThen(IsWrite, f, t0, t, bus.trace, w + c1 + c2 + c3, c4, r.Ok?);
      if r.Err? {
        PerformedAbortPrefix(IsWrite, f, t0, bus.trace, w + c1 + c2 + c3 + c4, w + c1 + c2 + c3 + c4 + c5 + c6);
        return;
      }
      t := bus.trace;
      r := WriteCommand(entryMode.AsByte());
      PerformedThen(IsWrite, f, t0, t, bus.trace, w + c1 + c2 + c3 + c4, c5, r.Ok?);
      if r.Err? {
        PerformedAbort(IsWrite, f, t0, bus.trace, w + c1 + c2 + c3 + c4 + c5, c6);
        return;
      }
      t := bus.trace;
      r := WriteCommand(SET_DDRAM_ADDRESS);
      PerformedThen(IsWrite, f, t0, t, bus.trace, w + c1 + c2 + c3 + c4 + c5, c6, r.Ok?);
    }

    /** `init_8bit`, written like `init_4bit`. */
    method Init8Bit() returns (r: Result<()>)
      modifies bus
      ensures Performed(IsWrite, bus.fails, old(bus.trace), bus.trace, r.Ok?, Init8BitPlan(entryMode))
    {
      var f := bus.fails;
      ghost var t0 := bus.trace;
      ghost var w, c1, c2, c3, c4, c5 := WakePlan(0x30), CommandPlan(0x38), CommandPlan(0x0E),
        CommandPlan(CLEAR_DISPLAY), CommandPlan(0x07), CommandPlan(entryMode.AsByte());
      r := Wake(0x30);
      if r.Err? {
        PerformedAbortPrefix(IsWrite, f, t0, bus.trace, w, w + c1 + c2 + c3 + c4 + c5);
        return;
      }
      ghost var t := bus.trace;
      r := WriteCommand(0x38);
      PerformedThen(IsWrite, f, t0, t, bus.trace, w, c1, r.Ok?);
      if r.Err? {
        PerformedAbortPrefix(IsWrite, f, t0, bus.trace, w + c1, w + c1 + c2 + c3 + c4 + c5);
        return;
      }
      t := bus.trace;
      r := WriteCommand(0x0E);
      PerformedThen(IsWrite, f, t0, t, bus.trace, w + c1, c2, r.Ok?);
      if r.Err? {
        PerformedAbortPrefix(IsWrite, f, t0, bus.trace, w + c1 + c2, w + c1 + c2 + c3 + c4 + c5);
        return;
      }
      t := bus.trace;
      r := WriteCommand(CLEAR_DISPLAY);
      PerformedThen(IsWrite, f, t0, t, bus.trace, w + c1 + c2, c3, r.Ok?);
      if r.Err? {
        PerformedAbortPrefix(IsWrite, f, t0, bus.trace, w + c1 + c2 + c3, w + c1 + c2 + c3 + c4 + c5);
        return;
      }
      t := bus.trace;
      r := WriteCommand(0x07);
      PerformedThen(IsWrite, f, t0, t, bus.trace, w + c1 + c2 + c3, c4, r.Ok?);
      if r.Err? {
        PerformedAbort(IsWrite, f, t0, bus.trace, w + c1 + c2 + c3 + c4, c5);
        return;
      }
      t := bus.trace;
      r := WriteCommand(entryMode.AsByte());
      PerformedThen(IsWrite, f, t0, t, bus.trace, w + c1 + c2 + c3 + c4, c5, r.Ok?);
    }

    /** The first three statements of both initialisations. */
    method Wake(b: bv8) returns (r: Result<()>)
      modifies bus
      ensures Performed(IsWrite, bus.fails, old(bus.trace), bus.trace, r.Ok?, WakePlan(b))
    {
      var f := bus.fails;
      ghost var t0 := bus.trace;
      ghost var plan := WakePlan(b);
      PerformedNothing(IsWrite, f, t0);
      bus.DelayMs(15);
      PerformedNext(IsWrite, f, t0, t0, bus.trace, plan, 0, true);
      ghost var t1 := bus.trace;
      r := bus.Write(b, false);
      PerformedNext(IsWrite, f, t0, t1, bus.trace, plan, 1, r.Ok?);
      if r.Err? {
        return;
      }
      ghost var t2 := bus.trace;
      bus.DelayMs(5);
      PerformedNext(IsWrite, f, t0, t2, bus.trace, plan, 2, true);
    }
  }

  /** `write_bytes` on a split sequence is `write_bytes` on each part. */
  lemma {:induction false} BytesPlanSplit(bs: seq<bv8>, k: nat)
    requires k <= |bs|
    ensures BytesPlan(bs) == BytesPlan(bs[..k]) + BytesPlan(bs[k..])
    decreases |bs| - k
  {
    if k == |bs| {
      assert bs[..k] == bs;
      assert BytesPlan(bs[k..]) == [];
    } else {
      var n := |bs| - 1;
      BytesPlanSplit(bs[..n], k);
      assert bs[..n][..k] == bs[..k];
      assert bs[k..][..|bs[k..]| - 1] == bs[..n][k..];
      assert bs[k..][|bs[k..]| - 1] == bs[n];
      AppendAssoc(BytesPlan(bs[..k]), BytesPlan(bs[..n][k..]), DataPlan(bs[n]));
    }
  }

  /** The i-th byte of `write_bytes` is the write at plan position 2i,
      followed by its wait. */
  lemma {:induction false} BytesPlanAt(bs: seq<bv8>, i: nat)
    requires i < |bs|
    ensures BytesPlan(bs)[2 * i] == Send(bs[i], true)
    ensures BytesPlan(bs)[2 * i + 1] == WaitUs(WRITE_WAIT_US)
  {
    BytesPlanSplit(bs, i + 1);
    var n := i + 1;
    assert bs[..n][..|bs[..n]| - 1] == bs[..i];
    assert BytesPlan(bs[..n]) == BytesPlan(bs[..i]) + DataPlan(bs[i]);
  }

  /** `write_bytes` writes each byte as data, in order, and nothing else. */
  lemma {:induction false} BytesWrites(bs: seq<bv8>)
    ensures |Writes(BytesPlan(bs))| == |bs|
    ensures forall i :: 0 <= i < |bs| ==> Writes(BytesPlan(bs))[i] == (bs[i], true)
    decreases |bs|
  {
    if bs != [] {
      var n := |bs| - 1;
      BytesWrites(bs[..n]);
      WritesAppend(BytesPlan(bs[..n]), DataPlan(bs[n]));
      assert Writes(DataPlan(bs[n])) == [(bs[n], true)];
      assert Writes(BytesPlan(bs)) == Writes(BytesPlan(bs[..n])) + [(bs[n], true)];
      forall i | 0 <= i < n
        ensures Writes(BytesPlan(bs))[i] == (bs[i], true)
      {
        assert bs[..n][i] == bs[i];
      }
    }
  }

  /** The writes of `write_bytes` are at the even plan positions: a plan
      prefix ending with a write holds the writes of that byte and all the
      bytes before it. */
  lemma {:induction false} BytesPrefixWrites(bs: seq<bv8>, k: nat)
    requires k < |BytesPlan(bs)| && BytesPlan(bs)[k].Send?
    ensures k % 2 == 0
    ensures |Writes(BytesPlan(bs)[..k + 1])| == k / 2 + 1
  {
    var plan := BytesPlan(bs);
    var j := k / 2;
    BytesPlanAt(bs, j);
    assert k == 2 * j;
    BytesPlanSplit(bs, j);
    assert plan[..k] == BytesPlan(bs[..j]) by {
      assert plan[..k] == (BytesPlan(bs[..j]) + BytesPlan(bs[j..]))[..k];
    }
    assert plan[..k + 1] == plan[..k] + [plan[k]];
    WritesAppend(plan[..k], [plan[k]]);
    BytesWrites(bs[..j]);
  }

  /** When `write_bytes` is run from trace position `n`, the bytes written
      are a prefix of the input, each tagged as data; when it fails, the
      last of them is the byte whose write failed: byte j is attempted at
      trace position `n + 2j`, and no byte after it is attempted. */
  lemma WriteBytesStops(fails: nat -> bool, n: nat, bs: seq<bv8>)
    ensures var w := Writes(Run(IsWrite, fails, n, BytesPlan(bs)));
            |w| <= |bs| && forall i :: 0 <= i < |w| ==> w[i] == (bs[i], true)
    ensures !Succeeds(IsWrite, fails, n, BytesPlan(bs)) ==>
              var w := Writes(Run(IsWrite, fails, n, BytesPlan(bs)));
              1 <= |w| && fails(n + 2 * (|w| - 1))
  {
    var plan := BytesPlan(bs);
    BytesWrites(bs);
    IssuedWritesPrefix(fails, n, plan);
    if !Succeeds(IsWrite, fails, n, plan) {
      var k := RunStopsAtFirstFailure(IsWrite, fails, n, plan);
      BytesPrefixWrites(bs, k);
    }
  }

  /** On an ASCII string, `write_str` writes exactly what `write_char`
      would for each character in turn; otherwise it writes more bytes than
      the string has characters. */
  lemma WriteStrAsChars(s: string)
    ensures |Writes(BytesPlan(Bytes(Utf8.Encode(s))))| >= |s|
    ensures (forall i :: 0 <= i < |s| ==> (s[i] as int) < 0x80) ==>
              |Writes(BytesPlan(Bytes(Utf8.Encode(s))))| == |s| &&
              forall i :: 0 <= i < |s| ==> Writes(BytesPlan(Bytes(Utf8.Encode(s))))[i] == (CharCode(s[i]) as bv8, true)
    ensures (exists i :: 0 <= i < |s| && (s[i] as int) >= 0x80) ==>
              |Writes(BytesPlan(Bytes(Utf8.Encode(s))))| > |s|
  {
    var bs := Bytes(Utf8.Encode(s));
    Utf8.EncodeAscii(s);
    BytesWrites(bs);
  }

  /** The instructions `init_4bit` writes, in order. */
  lemma Init4BitWrites(entryMode: EntryModes.EntryMode)
    ensures Writes(Init4BitPlan(entryMode)) ==
            [(0x33, false), (0x32, false), (0x28, false), (0x0E, false),
             (0x01, false), (entryMode.AsByte(), false), (0x80, false)]
  {
    var w, c1, c2, c3, c4, c5, c6 := WakePlan(0x33), CommandPlan(0x32), CommandPlan(0x28), CommandPlan(0x0E),
      CommandPlan(CLEAR_DISPLAY), CommandPlan(entryMode.AsByte()), CommandPlan(SET_DDRAM_ADDRESS);
    WritesAppend(w, c1);
    WritesAppend(w + c1, c2);
    WritesAppend(w + c1 + c2, c3);
    WritesAppend(w + c1 + c2 + c3, c4);
    WritesAppend(w + c1 + c2 + c3 + c4, c5);
    WritesAppend(w + c1 + c2 + c3 + c4 + c5, c6);
  }

  /** The instructions `init_8bit` writes, in order. */
  lemma Init8BitWrites(entryMode: EntryModes.EntryMode)
    ensures Writes(Init8BitPlan(entryMode)) ==
            [(0x30, false), (0x38, false), (0x0E, false), (0x01, false),
             (0x07, false), (entryMode.AsByte(), false)]
  {
    var w, c1, c2, c3, c4, c5 := WakePlan(0x30), CommandPlan(0x38), CommandPlan(0x0E),
      CommandPlan(CLEAR_DISPLAY), CommandPlan(0x07), CommandPlan(entryMode.AsByte());
    WritesAppend(w, c1);
    WritesAppend(w + c1, c2);
    WritesAppend(w + c1 + c2, c3);
    WritesAppend(w + c1 + c2 + c3, c4);
    WritesAppend(w + c1 + c2 + c3 + c4, c5);
  }

  /** The display mode stored by `new_4bit` and `new_8bit` is not the one
      their init sequence configured: the display was sent 0x0E (cursor on,
      blink off) but the stored default encodes 0x0F (blink on), so the next
      `set_display(On)` turns blinking on without being asked. */
  lemma InitDisplayModeDiffers(entryMode: EntryModes.EntryMode)
    ensures 3 < |Writes(Init4BitPlan(entryMode))| && Writes(Init4BitPlan(entryMode))[3] == (0x0E, false)
    ensures 2 < |Writes(Init8BitPlan(entryMode))| && Writes(Init8BitPlan(entryMode))[2] == (0x0E, false)
    ensures DisplayControl.Default().AsByte() == 0x0F
    ensures DisplayControl.Default().SetDisplay(DisplayControl.Display.On).AsByte() == 0x0F
  {
    Init4BitWrites(entryMode);
    Init8BitWrites(entryMode);
  }
}
