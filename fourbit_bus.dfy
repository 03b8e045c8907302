/** The 4-bit parallel transport `FourBitBus` (src/data_bus/fourbit_bus.rs;
    src/data_bus/fourbit_eightbit_bus.rs holds a second copy with the same
    logic, which this module models as well).

    A byte goes out as two bus cycles on DB4..DB7: register select is driven
    once, then the upper nibble is presented and EN pulsed, then the lower
    nibble is presented and EN pulsed again; after a data write register
    select is lowered. Every pin drive is followed by `?`. */
module FourBit {
  import opened Errors
  import opened Traces
  import opened Pins
  import opened Parallel

  /** `write_upper_nibble`: bits 4..7 onto DB4..DB7. */
  function UpperNibblePlan(b: bv8): seq<PinEvent> {
    FourLinesPlan(4, Bit(b, 4), Bit(b, 5), Bit(b, 6), Bit(b, 7))
  }

  /** `write_lower_nibble`: bits 0..3 onto DB4..DB7. */
  function LowerNibblePlan(b: bv8): seq<PinEvent> {
    FourLinesPlan(4, Bit(b, 0), Bit(b, 1), Bit(b, 2), Bit(b, 3))
  }

  /** Everything `write(byte, data)` issues when no pin fails. */
  function WritePlan(b: bv8, data: bool): seq<PinEvent> {
    SelectPlan(data) + UpperNibblePlan(b) + EnablePulsePlan() + LowerNibblePlan(b) + EnablePulsePlan() + ReleasePlan(data)
  }

  class FourBitBus {
    /** The owned RS, EN and DB4..DB7 pins, with the delay provider. */
    const pins: Gpio

    /** `FourBitBus::from_pins`. */
    constructor FromPins(pins: Gpio)
      ensures this.pins == pins
    {
      this.pins := pins;
    }

    /** Drive DB4..DB7 from bits 0..3 of `data`, stopping at the first pin error. */
    method WriteLowerNibble(data: bv8) returns (r: Result<()>)
      modifies pins
      ensures Performed(IsDrive, pins.fails, old(pins.trace), pins.trace, r.Ok?, LowerNibblePlan(data))
    {
      var db0 := (0x01 & data) != 0;
      var db1 := (0x02 & data) != 0;
      var db2 := (0x04 & data) != 0;
      var db3 := (0x08 & data) != 0;
      r := DriveFourLines(pins, 4, db0, db1, db2, db3);
    }

    /** Drive DB4..DB7 from bits 4..7 of `data`, stopping at the first pin error. */
    method WriteUpperNibble(data: bv8) returns (r: Result<()>)
      modifies pins
      ensures Performed(IsDrive, pins.fails, old(pins.trace), pins.trace, r.Ok?, UpperNibblePlan(data))
    {
      var db4 := (0x10 & data) != 0;
      var db5 := (0x20 & data) != 0;
      var db6 := (0x40 & data) != 0;
      var db7 := (0x80 & data) != 0;
      r := DriveFourLines(pins, 4, db4, db5, db6, db7);
    }

    /** `DataBus::write`: send `byte` as character data (`data`) or as a command. */
    method Write(byte: bv8, data: bool) returns (r: Result<()>)
      modifies pins
      ensures Performed(IsDrive, pins.fails, old(pins.trace), pins.trace, r.Ok?, WritePlan(byte, data))
    {
      var f := pins.fails;
      ghost var t0 := pins.trace;
      ghost var s, u, e, l, x := SelectPlan(data), UpperNibblePlan(byte), EnablePulsePlan(), LowerNibblePlan(byte), ReleasePlan(data);
      r := DriveLine(pins, RS, data);
      if r.Err? {
        PerformedAbort(IsDrive, f, t0, pins.trace, s, u);
        PerformedAbort(IsDrive, f, t0, pins.trace, s + u, e);
        PerformedAbort(IsDrive, f, t0, pins.trace, s + u + e, l);
        PerformedAbort(IsDrive, f, t0, pins.trace, s + u + e + l, e);
        PerformedAbort(IsDrive, f, t0, pins.trace, s + u + e + l + e, x);
        return;
      }
      ghost var t1 := pins.trace;
      r := WriteUpperNibble(byte);
      PerformedThen(IsDrive, f, t0, t1, pins.trace, s, u, r.Ok?);
      if r.Err? {
        PerformedAbort(IsDrive, f, t0, pins.trace, s + u, e);
        PerformedAbort(IsDrive, f, t0, pins.trace, s + u + e, l);
        PerformedAbort(IsDrive, f, t0, pins.trace, s + u + e + l, e);
        PerformedAbort(IsDrive, f, t0, pins.trace, s + u + e + l + e, x);
        return;
      }
      ghost var t2 := pins.trace;
      r := PulseEnable(pins);
      PerformedThen(IsDrive, f, t0, t2, pins.trace, s + u, e, r.Ok?);
      if r.Err? {
        PerformedAbort(IsDrive, f, t0, pins.trace, s + u + e, l);
        PerformedAbort(IsDrive, f, t0, pins.trace, s + u + e + l, e);
        PerformedAbort(IsDrive, f, t0, pins.trace, s + u + e + l + e, x);
        return;
      }
      ghost var t3 := pins.trace;
      r := WriteLowerNibble(byte);
      PerformedThen(IsDrive, f, t0, t3, pins.trace, s + u + e, l, r.Ok?);
      if r.Err? {
        PerformedAbort(IsDrive, f, t0, pins.trace, s + u + e + l, e);
        PerformedAbort(IsDrive, f, t0, pins.trace, s + u + e + l + e, x);
        return;
      }
      ghost var t4 := pins.trace;
      r := PulseEnable(pins);
      PerformedThen(IsDrive, f, t0, t4, pins.trace, s + u + e + l, e, r.Ok?);
      if r.Err? {
        PerformedAbort(IsDrive, f, t0, pins.trace, s + u + e + l + e, x);
        return;
      }
      ghost var t5 := pins.trace;
      r := ReleaseSelect(pins, data);
      PerformedThen(IsDrive, f, t0, t5, pins.trace, s + u + e + l + e, x, r.Ok?);
    }
  }

  /** `write_upper_nibble` leaves bits 4..7 of the byte on DB4..DB7 and
      changes nothing else. */
  lemma {:induction false} UpperNibbleSettles(s: LineState, b: bv8)
    ensures Strobes(s, UpperNibblePlan(b)) == []
    ensures Settle(s, UpperNibblePlan(b)) == s.(db := (s.db & 0x0F) | (b & 0xF0))
  {
    UpperLinesFromUpperBits(s.db, b);
    FourLinesSettleTo(s, 4, Bit(b, 4), Bit(b, 5), Bit(b, 6), Bit(b, 7), (s.db & 0x0F) | (b & 0xF0));
  }

  /** `write_lower_nibble` leaves bits 0..3 of the byte on DB4..DB7 (bit k on
      line 4 + k) and changes nothing else. */
  lemma {:induction false} LowerNibbleSettles(s: LineState, b: bv8)
    ensures Strobes(s, LowerNibblePlan(b)) == []
    ensures Settle(s, LowerNibblePlan(b)) == s.(db := (s.db & 0x0F) | (b << 4))
  {
    UpperLinesFromLowerBits(s.db, b);
    FourLinesSettleTo(s, 4, Bit(b, 0), Bit(b, 1), Bit(b, 2), Bit(b, 3), (s.db & 0x0F) | (b << 4));
  }

  /** The first bus cycle of `write`: register select, upper nibble, pulse. */
  lemma {:induction false} FirstCycleSimulation(s: LineState, b: bv8, data: bool)
    ensures var es := SelectPlan(data) + UpperNibblePlan(b) + EnablePulsePlan();
            && Strobes(s, es) == [Latch(data, (s.db & 0x0F) | (b & 0xF0))]
            && Settle(s, es) == LineState(data, false, (s.db & 0x0F) | (b & 0xF0))
  {
    var s1 := Apply(s, Drive(RS, data));
    SimulateOne(s, Drive(RS, data));
    SimulateAppend(s, SelectPlan(data), UpperNibblePlan(b));
    UpperNibbleSettles(s1, b);
    SimulateAppend(s, SelectPlan(data) + UpperNibblePlan(b), EnablePulsePlan());
    EnablePulseLatches(Settle(s1, UpperNibblePlan(b)));
  }

  /** The second bus cycle of `write`: lower nibble, pulse, release. */
  lemma {:induction false} SecondCycleSimulation(s: LineState, b: bv8, data: bool)
    ensures var es := LowerNibblePlan(b) + EnablePulsePlan() + ReleasePlan(data);
            && Strobes(s, es) == [Latch(s.rs, (s.db & 0x0F) | (b << 4))]
            && Settle(s, es) == LineState(if data then false else s.rs, false, (s.db & 0x0F) | (b << 4))
  {
    LowerNibbleSettles(s, b);
    var s1 := Settle(s, LowerNibblePlan(b));
    SimulateAppend(s, LowerNibblePlan(b), EnablePulsePlan());
    EnablePulseLatches(s1);
    SimulateAppend(s, LowerNibblePlan(b) + EnablePulsePlan(), ReleasePlan(data));
    ReleaseSettles(s1.(en := false), data);
  }

  /** The whole of a successful `write`, run on the display's lines. */
  lemma {:induction false} WriteSimulation(s: LineState, b: bv8, data: bool)
    ensures Strobes(s, WritePlan(b, data)) ==
            [Latch(data, (s.db & 0x0F) | (b & 0xF0)), Latch(data, (s.db & 0x0F) | (b << 4))]
    ensures Settle(s, WritePlan(b, data)) == LineState(false, false, (s.db & 0x0F) | (b << 4))
  {
    var first := SelectPlan(data) + UpperNibblePlan(b) + EnablePulsePlan();
    var second := LowerNibblePlan(b) + EnablePulsePlan() + ReleasePlan(data);
    assert WritePlan(b, data) == first + second;
    SimulateAppend(s, first, second);
    FirstCycleSimulation(s, b, data);
    SecondCycleSimulation(Settle(s, first), b, data);
  }

  /** What the display sees during a successful `write`: exactly two latches,
      both with register select equal to `data`, the first holding the upper
      nibble on DB4..DB7 and the second the lower nibble, so a display in
      4-bit mode reads exactly `(byte, data)`. Afterwards EN and RS are low and
      DB0..DB3 are untouched. */
  lemma {:induction false} WriteLatches(s: LineState, b: bv8, data: bool)
    ensures var ls := Strobes(s, WritePlan(b, data));
            && |ls| == 2
            && ls[0].rs == data && ls[1].rs == data
            && ls[0].db >> 4 == b >> 4
            && ls[1].db >> 4 == b & 0x0F
    ensures Received4(Strobes(s, WritePlan(b, data))) == [(b, data)]
    ensures !Settle(s, WritePlan(b, data)).en && !Settle(s, WritePlan(b, data)).rs
    ensures Settle(s, WritePlan(b, data)).db & 0x0F == s.db & 0x0F
  {
    WriteSimulation(s, b, data);
    var ls := Strobes(s, WritePlan(b, data));
    assert ls[2..] == [];
    assert (ls[0].db & 0xF0) | (ls[1].db >> 4) == b;
  }

  /** Register select is driven first, before any data line or EN, and is not
      driven again until the end, where it is lowered only after a data
      write: it holds still across both pulses. */
  lemma RegisterSelectHeld(b: bv8, data: bool)
    ensures WritePlan(b, data)[0] == Drive(RS, data)
    ensures forall i :: 0 < i < |WritePlan(b, data)| && WritePlan(b, data)[i] in {Drive(RS, true), Drive(RS, false)} ==>
              data && i == |WritePlan(b, data)| - 1 && WritePlan(b, data)[i] == Drive(RS, false)
  {
  }

  /** If driving register select fails, nothing else is issued: in
      particular EN is never raised. */
  lemma SelectFailureStopsWrite(f: nat -> bool, n: nat, b: bv8, data: bool)
    requires f(n)
    ensures Run(IsDrive, f, n, WritePlan(b, data)) == [Drive(RS, data)]
    ensures !Succeeds(IsDrive, f, n, WritePlan(b, data))
  {
  }
}
