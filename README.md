# HD44780 / LCD1602 driver model

A Dafny model of the `lcd1602-driver` crate: an `embedded_hal` driver for
16x2 character displays built on the Hitachi HD44780 controller. The model
covers four parts of the driver.

- **Instruction encoders.** `EntryMode::as_byte` and `DisplayMode::as_byte`
  (modules `EntryModes` and `DisplayControl`) are pure functions. For each
  one the model proves:
  - the bit layout;
  - a decoder that inverts it;
  - injectivity;
  - the default values.
- **The display controller `LCD1602`** (module `Lcd`) is a class with the
  `entry_mode` and `display_mode` fields. It owns a bus (`Transports.Transport`),
  which stands for the `DataBus` trait together with the delay provider.
  - Every operation is a method. Its postcondition gives:
    - the new settings;
    - the exact list of bus writes `(byte, is_data)` and waits it issues;
    - the early exit on the first failed write.
  - Lemmas state:
    - the instruction lists of the two initialisations;
    - the byte order of `write_bytes` and `write_str`, and where they stop on an error;
    - the instruction bytes of `set_cursor_pos`, `shift_cursor` and `shift_display`.
- **The parallel transports `FourBitBus` and `EightBitBus`** (modules
  `FourBit`, `EightBit`, with the shared pin sequences in `Parallel`) are
  classes over a `Pins.Gpio` object.
  - `Pins.Gpio` records every `set_high`, `set_low` and `delay_ms` in order.
    Each pin drive may fail, as decided by an oracle.
  - Each `write` is proved to issue exactly its pin plan, stopping at the
    first failing pin.
  - An independent simulator of the display's input lines latches register
    select and the data lines at every falling edge of EN. Lemmas run each
    plan through it and show what the display latches:
    - two pulses, upper nibble first, on a 4-bit bus;
    - one pulse with the whole byte on an 8-bit bus;
    - register select held steady across the pulses;
    - EN low at the end.
- **`BusWidth`** (module `BusWidths`) dispatches `write` to the wrapped bus.
  `BusWidths.WritesDeliver` proves the two parallel buses equivalent at the
  level the controller sees: a run of successful writes makes the display
  read back exactly the `(byte, is_data)` pairs written, in order. It is a
  statement about the modelled buses: `Lcd` itself runs over an abstract
  transport and is not composed with them.

Failure model (module `Traces`):
- An operation is a plan of effects, run in order.
- The effect issued at position `n` of the object's trace fails exactly when
  it is fallible (a pin drive or a bus write, never a wait) and the oracle
  `fails(n)` holds.
- A failed effect is still recorded, since it was attempted. Nothing after it
  is issued, and the error is returned unchanged: that is Rust's `?`.

`Performed(before, after, ok, plan)` states all of this for one call.

Where the code and its documentation disagree, the model follows the code:
- `DisplayMode::default()` has display, cursor and blink all `On` (instruction
  0x0F), although its doc comment says cursor and blink are `Off`.
- `init_8bit` sends 0x07 after the clear instruction, where its comment
  announces "move the cursor to beginning of first line".
- After `new_4bit` or `new_8bit` the stored display mode is the default
  (0x0F, blink on), while the init sequence sent 0x0E (blink off): the next
  `set_display` or `set_cursor_visibility` turns blinking on unasked
  (`Lcd.InitDisplayModeDiffers`). The model keeps this behaviour as written;
  which state was intended (0x0E as sent, or cursor and blink off as the
  default's comment says) cannot be told from the code.

`init_4bit` and `init_8bit` write every instruction after the first with
`bus.write(..)?` followed by `delay_us(100)`. That is the body of
`write_command`, so the model calls `LCD1602.WriteCommand` for those pairs.
The first instruction (0x33 or 0x30) comes after a 15 ms wait and before a
5 ms wait; the model calls this `LCD1602.Wake`.

## Model

| member | source | states |
|---|---|---|
| EntryModes.CursorModeFlags | src/entry_mode.rs:20-27 | only bit 1 can be set, and it is set exactly for `Increment` |
| EntryModes.ShiftModeFlags | src/entry_mode.rs:38-45 | only bit 0 can be set, and it is set exactly for shift `On` |
| EntryModes.EntryMode.AsByte | src/entry_mode.rs:74-81 | bit 2 always set; bit 1 iff the move direction is `Increment`; bit 0 iff display shift is `On`; no bit above 2, so the byte is in 4..7 |
| EntryModes.Default | src/entry_mode.rs:93-98 | the default is `Increment` with shift `Off` and encodes to 0x06 |
| EntryModes.Decode | src/entry_mode.rs:1-8 | a byte decodes to settings exactly when its top six bits are the entry-mode marker 000001 |
| EntryModes.DecodeAsByte | src/entry_mode.rs:74-81 | decoding the instruction byte gives back the settings |
| EntryModes.AsByteDecode | src/entry_mode.rs:74-81 | every byte that decodes is the encoding of what it decodes to |
| EntryModes.AsByteInjective | src/entry_mode.rs:74-81 | different settings give different instruction bytes |
| DisplayControl.DisplayFlags | src/display_control.rs:22-29 | only bit 2 can be set, and it is set exactly for display `On` |
| DisplayControl.CursorFlags | src/display_control.rs:40-47 | only bit 1 can be set, and it is set exactly for cursor `On` |
| DisplayControl.CursorBlinkFlags | src/display_control.rs:58-65 | only bit 0 can be set, and it is set exactly for blink `On` |
| DisplayControl.DisplayMode.SetDisplay | src/display_control.rs:81-84 | the display setting becomes the argument; cursor and blink are unchanged |
| DisplayControl.DisplayMode.SetCursor | src/display_control.rs:91-94 | the cursor setting becomes the argument; display and blink are unchanged |
| DisplayControl.DisplayMode.SetCursorBlinking | src/display_control.rs:99-102 | the blink setting becomes the argument; display and cursor are unchanged |
| DisplayControl.DisplayMode.AsByte | src/display_control.rs:105-113 | bit 3 always set; bits 2, 1, 0 set iff display, cursor and blink are `On`; no bit above 3, so the byte is in 8..15 |
| DisplayControl.Default | src/display_control.rs:127-133 | the default has display, cursor and blink `On` and encodes to 0x0F |
| DisplayControl.Decode | src/display_control.rs:1-11 | a byte decodes to settings exactly when its top five bits are the display-control marker 00001 |
| DisplayControl.DecodeAsByte | src/display_control.rs:105-113 | decoding the instruction byte gives back the settings |
| DisplayControl.AsByteDecode | src/display_control.rs:105-113 | every byte that decodes is the encoding of what it decodes to |
| DisplayControl.AsByteInjective | src/display_control.rs:105-113 | different settings give different instruction bytes |
| DisplayControl.SettersChangeOneBit | src/display_control.rs:81-113 | each setter changes at most its own bit of the instruction byte |
| Traces.Run | src/data_bus/fourbit_bus.rs:115-145 | the effects issued are a prefix of the plan and start with its first effect |
| Traces.RunStopsAtFirstFailure | src/data_bus/fourbit_bus.rs:115-145 | with `?` after every fallible step, a failing run ends with the failing effect, everything before it succeeded, and nothing after it is issued |
| Traces.RunSucceeds | src/data_bus/fourbit_bus.rs:115-145 | a run in which nothing fails issues the whole plan |
| Traces.PerformedThen | src/data_bus/fourbit_bus.rs:115-145 | a step that succeeded followed by another step performs the concatenation of their plans |
| Traces.PerformedAbort | src/data_bus/fourbit_bus.rs:115-145 | after a failed step, the rest of the plan is never issued |
| Traces.PerformedAbortPrefix | src/data_bus/fourbit_bus.rs:115-145 | a failed step that performed a prefix of the plan has performed the whole plan: nothing after the failure is issued |
| Traces.FailureAfterSuccess | src/data_bus/fourbit_bus.rs:115-145 | a first effect that succeeds moves the first failure of the rest one place along |
| Pins.Gpio.SetHigh | src/data_bus/fourbit_bus.rs:121-122 | one drive of the line high is recorded; the result is `Err` exactly when the oracle fails it |
| Pins.Gpio.SetLow | src/data_bus/fourbit_bus.rs:123-124 | one drive of the line low is recorded; the result is `Err` exactly when the oracle fails it |
| Pins.Gpio.DelayMs | src/data_bus/fourbit_bus.rs:131 | one wait is recorded and it cannot fail |
| Pins.SetBit | src/data_bus/fourbit_bus.rs:46-77 | driving a data line sets that line's bit to the level and leaves the other seven lines unchanged |
| Pins.Received8 | src/data_bus/fourbit_eightbit_bus.rs:316-393 | reference reader on the display's side, not part of the driver: an 8-bit display reads one (byte, is-data) pair per latch, the data lines and register select |
| Pins.Received4 | src/data_bus/fourbit_bus.rs:115-145 | reference reader on the display's side, not part of the driver: a 4-bit display reads one pair per two latches, so `|ls| / 2` pairs |
| Pins.Received4At | src/data_bus/fourbit_bus.rs:115-145 | pair i read in 4-bit mode takes its upper nibble from latch 2i's DB4..DB7, its lower nibble from latch 2i+1's, and register select from latch 2i |
| Pins.UpperLinesComplete | src/data_bus/fourbit_eightbit_bus.rs:332-383 | once the lower lines hold the byte's lower half, driving DB4..DB7 from bits 4..7 leaves exactly the byte |
| Pins.UpperLinesFromUpperBits | src/data_bus/fourbit_bus.rs:79-109 | driving DB4..DB7 from bits 4..7 puts the byte's upper half on the upper lines and keeps the lower lines |
| Pins.UpperLinesFromLowerBits | src/data_bus/fourbit_bus.rs:46-77 | driving DB4..DB7 from bits 0..3 puts the byte's lower half on the upper lines and keeps the lower lines |
| Pins.LowerLinesFromLowerBits | src/data_bus/fourbit_eightbit_bus.rs:328-359 | driving DB0..DB3 from bits 0..3 puts the byte's lower half on the lower lines and keeps the upper lines |
| Parallel.DriveLine | src/data_bus/fourbit_bus.rs:121-125 | `if level { set_high } else { set_low }` issues one drive of that line to that level, `Err` exactly when it fails |
| Parallel.DriveFourLines | src/data_bus/fourbit_bus.rs:52-75 | four consecutive line blocks drive the four lines in order and stop at the first failure |
| Parallel.PulseEnable | src/data_bus/fourbit_bus.rs:130-132 | EN high, a 2 ms wait, EN low; stops at the first failure |
| Parallel.ReleaseSelect | src/data_bus/fourbit_bus.rs:141-143 | register select is driven low after a data write and nothing is issued after a command |
| Parallel.FourLinesSettle | src/data_bus/fourbit_bus.rs:46-109 | driving four data lines latches nothing and sets exactly those four lines |
| Parallel.FourLinesSettleTo | src/data_bus/fourbit_bus.rs:46-109 | driving four data lines latches nothing and leaves the given line levels |
| Parallel.EnablePulseLatches | src/data_bus/fourbit_bus.rs:130-132 | an EN pulse makes the display latch once, the current register select and data lines, and leaves EN low |
| Parallel.ReleaseSettles | src/data_bus/fourbit_bus.rs:141-143 | releasing register select latches nothing and lowers RS only after a data write |
| FourBit.FourBitBus.FromPins | src/data_bus/fourbit_bus.rs:28-44 | the bus stores the given pins |
| FourBit.FourBitBus.WriteLowerNibble | src/data_bus/fourbit_bus.rs:46-77 | bits 0..3 are driven on DB4..DB7 in order, with early exit |
| FourBit.FourBitBus.WriteUpperNibble | src/data_bus/fourbit_bus.rs:79-109 | bits 4..7 are driven on DB4..DB7 in order, with early exit |
| FourBit.FourBitBus.Write | src/data_bus/fourbit_bus.rs:115-145 | register select, upper nibble, EN pulse, lower nibble, EN pulse, then RS low after data; the first failing pin ends the write with `Err` |
| FourBit.UpperNibbleSettles | src/data_bus/fourbit_bus.rs:79-109 | the upper-nibble writer latches nothing and leaves the byte's upper half on DB4..DB7, DB0..DB3 untouched |
| FourBit.LowerNibbleSettles | src/data_bus/fourbit_bus.rs:46-77 | the lower-nibble writer latches nothing and leaves the byte's lower half on DB4..DB7, DB0..DB3 untouched |
| FourBit.FirstCycleSimulation | src/data_bus/fourbit_bus.rs:121-132 | the first cycle latches once, with RS equal to `data` and the upper nibble on DB4..DB7 |
| FourBit.SecondCycleSimulation | src/data_bus/fourbit_bus.rs:134-143 | the second cycle latches once, with the lower nibble on DB4..DB7, and lowers RS after data |
| FourBit.WriteSimulation | src/data_bus/fourbit_bus.rs:115-145 | a successful write latches exactly twice, upper nibble then lower nibble, both with RS equal to `data`, and ends with EN and RS low |
| FourBit.WriteLatches | src/data_bus/fourbit_bus.rs:115-145 | exactly two pulses; a 4-bit display reads exactly `(byte, data)`; EN and RS end low; DB0..DB3 are untouched |
| FourBit.RegisterSelectHeld | src/data_bus/fourbit_bus.rs:121-143 | RS is the first line driven, and driven again only last, low, after a data write |
| FourBit.SelectFailureStopsWrite | src/data_bus/fourbit_bus.rs:121-125 | if driving RS fails, nothing else is issued, so EN is never raised |
| EightBit.EightBitBus.FromPins | src/data_bus/fourbit_eightbit_bus.rs:276-300 | the bus stores the given pins |
| EightBit.EightBitBus.PresentLowerLines | src/data_bus/fourbit_eightbit_bus.rs:328-359 | bits 0..3 are driven on DB0..DB3 in order, with early exit |
| EightBit.EightBitBus.PresentUpperLines | src/data_bus/fourbit_eightbit_bus.rs:332-383 | bits 4..7 are driven on DB4..DB7 in order, with early exit |
| EightBit.EightBitBus.Write | src/data_bus/fourbit_eightbit_bus.rs:316-393 | register select, DB0..DB7, one EN pulse, then RS low after data; the first failing pin ends the write with `Err` |
| EightBit.LowerLinesSettle | src/data_bus/fourbit_eightbit_bus.rs:328-359 | presenting the lower lines latches nothing and puts the byte's lower half on DB0..DB3, DB4..DB7 untouched |
| EightBit.UpperLinesSettle | src/data_bus/fourbit_eightbit_bus.rs:332-383 | after the lower half, presenting the upper lines latches nothing and leaves exactly the byte on DB0..DB7 |
| EightBit.DataLinesSettle | src/data_bus/fourbit_eightbit_bus.rs:328-383 | presenting the byte latches nothing and puts exactly the byte on DB0..DB7 |
| EightBit.WriteLatches | src/data_bus/fourbit_eightbit_bus.rs:316-393 | a successful write latches exactly once, RS equal to `data` and the whole byte on the data lines; the display reads `(byte, data)`; EN and RS end low |
| EightBit.RegisterSelectHeld | src/data_bus/fourbit_eightbit_bus.rs:322-392 | RS is the first line driven, and driven again only last, low, after a data write |
| EightBit.SelectFailureStopsWrite | src/data_bus/fourbit_eightbit_bus.rs:322-326 | if driving RS fails, nothing else is issued, so EN is never raised |
| EightBit.DataLinesBeforePulse | src/data_bus/fourbit_eightbit_bus.rs:328-388 | DBk is driven to bit k for every k, all before EN is raised |
| BusWidths.NewFourBit | src/data_bus/fourbit_eightbit_bus.rs:40-51 | builds the 4-bit variant over a fresh bus storing the given pins |
| BusWidths.NewEightBit | src/data_bus/fourbit_eightbit_bus.rs:53-67 | builds the 8-bit variant over a fresh bus storing the given pins |
| BusWidths.Write | src/data_bus/fourbit_eightbit_bus.rs:83-93 | `write` performs the wrapped bus's write plan with the same byte and flag and returns its result |
| BusWidths.WriteDelivers | src/data_bus/fourbit_eightbit_bus.rs:83-93 | whichever bus is wrapped, one write makes the display read exactly `(byte, data)`, with two pulses on 4 bits and one on 8, and leaves EN low |
| BusWidths.SelectFailureStopsWrite | src/data_bus/fourbit_eightbit_bus.rs:83-93 | whichever bus is wrapped, a failing RS drive is the only effect of the write, the write fails, and the display latches nothing |
| BusWidths.ReceivedAppend | src/data_bus/fourbit_eightbit_bus.rs:83-93 | the display reads the latches of consecutive writes one write at a time, for either bus width |
| BusWidths.WritesDeliver | src/data_bus/mod.rs:14-25 | any run of successful writes makes the display read exactly the written pairs in order, so both buses implement the same `DataBus` |
| Transports.Transport.Write | src/data_bus/mod.rs:20-25 | one tagged write is recorded; the result is `Err` exactly when the oracle fails it |
| Transports.Transport.DelayUs | src/lib.rs:391 | one microsecond wait is recorded and it cannot fail |
| Transports.Transport.DelayMs | src/lib.rs:397 | one millisecond wait is recorded and it cannot fail |
| Transports.IssuedWritesPrefix | src/lib.rs:395-440 | the writes issued are a prefix of those planned; after a failure the last event issued is the failing write |
| Utf8.EncodeChar | src/lib.rs:492-498 | one to four bytes: one exactly for ASCII, equal to the code; two exactly for 0x80..0x7FF, three for 0x800..0xFFFF, four above; a lead byte in 0xC0..0xF7 and continuation bytes in 0x80..0xBF otherwise |
| Utf8.Encode | src/lib.rs:497 | `as_bytes`: each character contributes one to four bytes, and the bytes start with the first character's encoding |
| Utf8.EncodeAppend | src/lib.rs:497 | the bytes of a concatenation are the bytes of its parts, one after the other |
| Utf8.ScalarEncodeChar | src/lib.rs:492-498 | the encoding of a character decodes back to its code point |
| Utf8.EncodeAscii | src/lib.rs:492-498 | a string's bytes are at least as many as its characters, as many exactly when all are ASCII, and then they are the codes |
| Lcd.DirectionBits | src/lib.rs:336-339 | only bit 2 can be set, and it is set exactly for `Right` |
| Lcd.CursorPositionCommand | src/lib.rs:313-323 | the instruction has bit 7 set and the position's low seven bits |
| Lcd.CursorPositionWraps | src/lib.rs:313-323 | below 128 the address is the position; positions 128 apart give the same instruction, so nothing is rejected |
| Lcd.ShiftCursorCommand | src/lib.rs:331-344 | the instruction is 0x10 with bit 2 set exactly for `Right` |
| Lcd.ShiftDisplayCommand | src/lib.rs:352-365 | the instruction is 0x18 with bit 2 set exactly for `Right` |
| Lcd.ShiftCommandValues | src/lib.rs:331-365 | the cursor shifts are 0x10 and 0x14; the display shifts are 0x18 and 0x1C |
| Lcd.ShiftCommandsDistinct | src/lib.rs:331-365 | cursor and display shifts never coincide; each instruction determines the direction |
| Lcd.CharCode | src/lib.rs:375-381 | `data as u8` keeps the code of a character below 256 and reduces any other modulo 256 |
| Lcd.CharCodeWraps | src/lib.rs:375-381 | characters whose codes differ by a multiple of 256 are written as the same byte |
| Lcd.BytesPlan | src/lib.rs:506-515 | `write_bytes` plans two events per byte |
| Lcd.LCD1602.Assemble | src/lib.rs:92-96 | the controller starts with the given bus and default entry and display modes |
| Lcd.LCD1602.New8Bit | src/lib.rs:79-101 | runs `init_8bit` from the default modes; returns `Ok` of a fresh controller with default modes exactly when it succeeds |
| Lcd.LCD1602.New4Bit | src/lib.rs:126-144 | runs `init_4bit` from the default modes; returns `Ok` of a fresh controller with default modes exactly when it succeeds |
| Lcd.LCD1602.NewI2c | src/lib.rs:157-171 | over the expander at the address, runs `init_4bit`; `Ok` of a fresh controller with default modes exactly when it succeeds |
| Lcd.LCD1602.Reset | src/lib.rs:183-187 | sends instruction 0x02 and waits; the settings are not changed |
| Lcd.LCD1602.SetDisplayMode | src/lib.rs:194-206 | stores the display mode, keeps the entry mode, and sends the new mode's byte |
| Lcd.LCD1602.Clear | src/lib.rs:213-217 | sends instruction 0x01 and waits; the settings are not changed |
| Lcd.LCD1602.SetAutoscroll | src/lib.rs:225-237 | changes only the display shift, before writing, and sends the new entry mode byte |
| Lcd.LCD1602.SetCursorVisibility | src/lib.rs:240-252 | changes only the cursor setting, before writing, and sends the new display mode byte |
| Lcd.LCD1602.SetDisplay | src/lib.rs:255-267 | changes only the display setting, before writing, and sends the new display mode byte |
| Lcd.LCD1602.SetCursorBlink | src/lib.rs:270-282 | changes only the blink setting, before writing, and sends the new display mode byte |
| Lcd.LCD1602.SetCursorMode | src/lib.rs:293-305 | changes only the move direction, before writing, and sends the new entry mode byte |
| Lcd.LCD1602.SetCursorPos | src/lib.rs:313-323 | sends the cursor-position instruction for the position and waits |
| Lcd.LCD1602.ShiftCursor | src/lib.rs:331-344 | sends the cursor shift instruction for the direction and waits |
| Lcd.LCD1602.ShiftDisplay | src/lib.rs:352-365 | sends the display shift instruction for the direction and waits |
| Lcd.LCD1602.WriteChar | src/lib.rs:375-381 | writes the character's code modulo 256 as data and waits |
| Lcd.LCD1602.WriteCommand | src/lib.rs:383-393 | one instruction write, then the 100 microsecond wait only if it succeeded |
| Lcd.LCD1602.Wake | src/lib.rs:395-402 | 15 ms wait, the first function-set write, then 5 ms only if it succeeded |
| Lcd.LCD1602.Init4Bit | src/lib.rs:395-440 | the 4-bit initialisation, each write followed by its wait, stopping at the first failed write |
| Lcd.LCD1602.Init8Bit | src/lib.rs:443-483 | the 8-bit initialisation, each write followed by its wait, stopping at the first failed write |
| Lcd.LCD1602.WriteStr | src/lib.rs:492-498 | writes the string's UTF-8 bytes through `write_bytes` |
| Lcd.LCD1602.WriteBytes | src/lib.rs:506-515 | writes each byte as data in order, stopping at the first failure |
| Lcd.LCD1602.WriteByte | src/lib.rs:531-542 | one data write, then the 100 microsecond wait only if it succeeded |
| Lcd.BytesPlanSplit | src/lib.rs:506-515 | writing a split sequence is writing each part in turn |
| Lcd.BytesPlanAt | src/lib.rs:506-515 | byte i is written at plan position 2i and followed by its wait |
| Lcd.BytesWrites | src/lib.rs:506-515 | `write_bytes` writes exactly its bytes, each tagged as data, in order |
| Lcd.BytesPrefixWrites | src/lib.rs:506-515 | a write in the plan of `write_bytes` is at an even position and ends the writes of the bytes up to it |
| Lcd.WriteBytesStops | src/lib.rs:506-515 | the bytes written are a prefix of the input; on failure the last is byte j, attempted at trace position n + 2j, and no later byte is attempted |
| Lcd.WriteStrAsChars | src/lib.rs:492-498 | on an ASCII string `write_str` writes what `write_char` would for each character; any other string gives more bytes than characters |
| Lcd.Init4BitWrites | src/lib.rs:395-440 | `init_4bit` writes exactly 0x33, 0x32, 0x28, 0x0E, 0x01, the entry mode byte and 0x80, all as instructions |
| Lcd.InitDisplayModeDiffers | src/lib.rs:417 | the 4-bit and 8-bit init sequences configure the display with 0x0E, while the stored default mode encodes 0x0F and `set_display(On)` from it sends 0x0F |
| Lcd.Init8BitWrites | src/lib.rs:443-483 | `init_8bit` writes exactly 0x30, 0x38, 0x0E, 0x01, 0x07 and the entry mode byte, all as instructions |

## Left out

- Pin ownership: Rust moves the pins into the bus, so no one else can drive them; the model stores a reference to a `Gpio` object and does not enforce that it is not shared.
- Delay lengths: waits are recorded as events with their lengths; timing itself is not modelled.
- The `embedded_hal` pins, I2C and delay implementations are foreign code. They appear only as recorded, fallible operations whose failures come from an oracle on the trace position.
- `I2CBus` and the standalone `eightbit_bus` module are declared in src/data_bus/mod.rs:1-9 but are not part of this model. `new_i2c` therefore runs over the abstract transport, tagged with its address.
- The controller and the parallel buses are not composed in one object, because the bus type is a generic parameter. `Lcd` runs over the abstract transport, and `BusWidths.WritesDeliver` shows that both modelled parallel buses carry every write faithfully.
- `Lcd.LCD1602.New8Bit`, `Lcd.LCD1602.New4Bit`: these run over an abstract transport handed in already built; the pins and the `from_pins` call (src/lib.rs:93, src/lib.rs:136) are not modelled inside them. The bus `new_4bit` builds is the one `FourBit.FourBitBus.FromPins` models.
- `new_8bit` builds the `EightBitBus` of the standalone `eightbit_bus` module (src/lib.rs:18, src/lib.rs:93, src/data_bus/mod.rs:1, src/data_bus/mod.rs:7), which is not part of this model. `EightBit.EightBitBus` models the copy in src/data_bus/fourbit_eightbit_bus.rs:238-393, and stands for the bus `new_8bit` builds only on the assumption that the two behave alike.
- `DisplayControl.DisplayMode.SetDisplay`, `DisplayControl.DisplayMode.SetCursor`, `DisplayControl.DisplayMode.SetCursorBlinking`: these return the updated value instead of updating in place and returning `&mut Self`, so call chaining on one place is not modelled.
- The `DelayUs`/`DelayMs` traits in src/lib.rs:32 do not match the `DelayNs` trait of the buses. This is a type-level detail: the model has one delay provider per object.
- Integer widths: positions and bytes are `u8` (`bv8`). Delay arguments, `u32`, `u16` and `u8` in the source, are unbounded naturals, because every value the driver passes fits.
- Unicode: `str::as_bytes` is modelled as UTF-8 encoding of a sequence of Unicode scalar values.
- The example binaries under examples/ (board setup) are not part of this model.
