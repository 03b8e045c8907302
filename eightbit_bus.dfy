/** The 8-bit parallel transport `EightBitBus`
    (src/data_bus/fourbit_eightbit_bus.rs).

    A byte goes out in one bus cycle: register select is driven, bit k of
    the byte is presented on DBk for k = 0..7 in that order, EN is pulsed,
    and after a data write register select is lowered. Every pin drive is
    followed by `?`. */
module EightBit {
  import opened Errors
  import opened Traces
  import opened Pins
  import opened Parallel

  /** Bits 0..3 onto DB0..DB3. */
  function LowerLinesPlan(b: bv8): seq<PinEvent> {
    FourLinesPlan(0, Bit(b, 0), Bit(b, 1), Bit(b, 2), Bit(b, 3))
  }

  /** Bits 4..7 onto DB4..DB7. */
  function UpperLinesPlan(b: bv8): seq<PinEvent> {
    FourLinesPlan(4, Bit(b, 4), Bit(b, 5), Bit(b, 6), Bit(b, 7))
  }

  /** Everything `write(byte, data)` issues when no pin fails. */
  function WritePlan(b: bv8, data: bool): seq<PinEvent> {
    SelectPlan(data) + LowerLinesPlan(b) + UpperLinesPlan(b) + EnablePulsePlan() + ReleasePlan(data)
  }

  class EightBitBus {
    /** The owned RS, EN and DB0..DB7 pins, with the delay provider. */
    const pins: Gpio

    /** `EightBitBus::from_pins`. */
    constructor FromPins(pins: Gpio)
      ensures this.pins == pins
    {
      this.pins := pins;
    }

    /** The first four `if dbK { dK.set_high() } else { dK.set_low() }`
        blocks of `write`: bits 0..3 onto DB0..DB3. */
    method PresentLowerLines(byte: bv8) returns (r: Result<()>)
      modifies pins
      ensures Performed(IsDrive, pins.fails, old(pins.trace), pins.trace, r.Ok?, LowerLinesPlan(byte))
    {
      var db0 := (0x01 & byte) != 0;
      var db1 := (0x02 & byte) != 0;
      var db2 := (0x04 & byte) != 0;
      var db3 := (0x08 & byte) != 0;
      r := DriveFourLines(pins, 0, db0, db1, db2, db3);
    }

    /** The last four such blocks: bits 4..7 onto DB4..DB7. */
    method PresentUpperLines(byte: bv8) returns (r: Result<()>)
      modifies pins
      ensures Performed(IsDrive, pins.fails, old(pins.trace), pins.trace, r.Ok?, UpperLinesPlan(byte))
    {
      var db4 := (0x10 & byte) != 0;
      var db5 := (0x20 & byte) != 0;
      var db6 := (0x40 & byte) != 0;
      var db7 := (0x80 & byte) != 0;
      r := DriveFourLines(pins, 4, db4, db5, db6, db7);
    }

    /** `DataBus::write`: send `byte` as character data (`data`) or as a command. */
    method Write(byte: bv8, data: bool) returns (r: Result<()>)
      modifies pins
      ensures Performed(IsDrive, pins.fails, old(pins.trace), pins.trace, r.Ok?, WritePlan(byte, data))
    {
      var f := pins.fails;
      ghost var t0 := pins.trace;
      ghost var s, lo, hi, e, x := SelectPlan(data), LowerLinesPlan(byte), UpperLinesPlan(byte), EnablePulsePlan(), ReleasePlan(data);
      r := DriveLine(pins, RS, data);
      if r.Err? {
        PerformedAbortPrefix(IsDrive, f, t0, pins.trace, s, s + lo + hi + e + x);
        return;
      }
      ghost var t1 := pins.trace;
      r := PresentLowerLines(byte);
      PerformedThen(IsDrive, f, t0, t1, pins.trace, s, lo, r.Ok?);
      if r.Err? {
        PerformedAbortPrefix(IsDrive, f, t0, pins.trace, s + lo, s + lo + hi + e + x);
        return;
      }
      ghost var t2 := pins.trace;
      r := PresentUpperLines(byte);
      PerformedThen(IsDrive, f, t0, t2, pins.trace, s + lo, hi, r.Ok?);
      if r.Err? {
        PerformedAbortPrefix(IsDrive, f, t0, pins.trace, s + lo + hi, s + lo + hi + e + x);
        return;
      }
      ghost var t3 := pins.trace;
      r := PulseEnable(pins);
      PerformedThen(IsDrive, f, t0, t3, pins.trace, s + lo + hi, e, r.Ok?);
      if r.Err? {
        PerformedAbort(IsDrive, f, t0, pins.trace, s + lo + hi + e, x);
        return;
      }
      ghost var t4 := pins.trace;
      r := ReleaseSelect(pins, data);
      PerformedThen(IsDrive, f, t0, t4, pins.trace, s + lo + hi + e, x, r.Ok?);
    }
  }

  /** Presenting the byte on DB0..DB7 puts exactly the byte on the data lines
      and makes the display latch nothing. */
  lemma {:induction false} DataLinesSettle(s: LineState, b: bv8)
    ensures Strobes(s, LowerLinesPlan(b) + UpperLinesPlan(b)) == []
    ensures Settle(s, LowerLinesPlan(b) + UpperLinesPlan(b)) == s.(db := b)
  {
    LowerLinesSettle(s, b);
    UpperLinesSettle(s.(db := (s.db & 0xF0) | (b & 0x0F)), b);
    SimulateAppend(s, LowerLinesPlan(b), UpperLinesPlan(b));
  }

  /** Presenting the lower lines puts bits 0..3 of the byte on DB0..DB3
      and changes nothing else. */
  lemma {:induction false} LowerLinesSettle(s: LineState, b: bv8)
    ensures Strobes(s, LowerLinesPlan(b)) == []
    ensures Settle(s, LowerLinesPlan(b)) == s.(db := (s.db & 0xF0) | (b & 0x0F))
  {
    LowerLinesFromLowerBits(s.db, b);
    FourLinesSettleTo(s, 0, Bit(b, 0), Bit(b, 1), Bit(b, 2), Bit(b, 3), (s.db & 0xF0) | (b & 0x0F));
  }

  /** Presenting the upper lines after the lower ones completes the byte. */
  lemma {:induction false} UpperLinesSettle(s: LineState, b: bv8)
    requires s.db & 0x0F == b & 0x0F
    ensures Strobes(s, UpperLinesPlan(b)) == []
    ensures Settle(s, UpperLinesPlan(b)) == s.(db := b)
  {
    UpperLinesComplete(s.db, b);
    FourLinesSettleTo(s, 4, Bit(b, 4), Bit(b, 5), Bit(b, 6), Bit(b, 7), b);
  }

  /** What the display sees during a successful `write`: exactly one latch,
      holding `data` on register select and the whole byte on DB0..DB7, so a
      display in 8-bit mode reads exactly `(byte, data)`. Afterwards EN and
      RS are low and the data lines still hold the byte. */
  lemma {:induction false} WriteLatches(s: LineState, b: bv8, data: bool)
    ensures Strobes(s, WritePlan(b, data)) == [Latch(data, b)]
    ensures Received8(Strobes(s, WritePlan(b, data))) == [(b, data)]
    ensures Settle(s, WritePlan(b, data)) == LineState(false, false, b)
  {
    var sel := SelectPlan(data);
    var lines := LowerLinesPlan(b) + UpperLinesPlan(b);
    assert WritePlan(b, data) == sel + lines + EnablePulsePlan() + ReleasePlan(data);
    var s1 := Apply(s, Drive(RS, data));
    SimulateOne(s, Drive(RS, data));
    DataLinesSettle(s1, b);
    var s2 := s1.(db := b);
    EnablePulseLatches(s2);
    ReleaseSettles(s2.(en := false), data);
    SimulateAppend(s, sel, lines);
    SimulateAppend(s, sel + lines, EnablePulsePlan());
    SimulateAppend(s, sel + lines + EnablePulsePlan(), ReleasePlan(data));
  }

  /** Register select is driven first, before any data line or EN, and is not
      driven again until the end, where it is lowered only after a data
      write: it holds still across the pulse. */
  lemma RegisterSelectHeld(b: bv8, data: bool)
    ensures WritePlan(b, data)[0] == Drive(RS, data)
    ensures forall i :: 0 < i < |WritePlan(b, data)| && WritePlan(b, data)[i].Drive? && WritePlan(b, data)[i].line == RS ==>
              data && i == |WritePlan(b, data)| - 1 && WritePlan(b, data)[i] == Drive(RS, false)
  {
  }

  /** If driving register select fails, nothing else is issued: in
      particular EN is never raised. */
  lemma SelectFailureStopsWrite(f: nat -> bool, n: nat, b: bv8, data: bool)
    requires f(n)
    ensures Run(IsDrive, f, n, WritePlan(b, data)) == [Drive(RS, data)]
    ensures !Succeeds(IsDrive, f, n, WritePlan(b, data))
  {
  }

  /** Every data line is driven exactly once per write, DBk to bit k, and
      all of them before EN is raised. */
  lemma DataLinesBeforePulse(b: bv8, data: bool)
    ensures forall k: DataLine :: WritePlan(b, data)[1 + k] == Drive(DB(k), Bit(b, k))
    ensures WritePlan(b, data)[9] == Drive(EN, true)
  {
  }
}
