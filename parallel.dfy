/** The pin sequences both parallel buses are built from
    (src/data_bus/fourbit_eightbit_bus.rs, src/data_bus/fourbit_bus.rs):
    driving register select, presenting levels on data lines, pulsing EN and
    releasing register select. Each pin drive is followed by `?`. */
module Parallel {
  import opened Errors
  import opened Traces
  import opened Pins

  /** Drive register select: high for character data, low for a command. */
  function SelectPlan(data: bool): seq<PinEvent> {
    [Drive(RS, data)]
  }

  /** Drive four consecutive data lines, starting at DB`first`, in order. */
  function FourLinesPlan(first: nat, h0: bool, h1: bool, h2: bool, h3: bool): seq<PinEvent>
    requires first <= 4
  {
    [Drive(DB(first), h0), Drive(DB(first + 1), h1), Drive(DB(first + 2), h2), Drive(DB(first + 3), h3)]
  }

  /** Raise EN, hold it for 2 ms, lower it. */
  function EnablePulsePlan(): seq<PinEvent> {
    [Drive(EN, true), WaitMs(2), Drive(EN, false)]
  }

  /** After a data write, register select goes back low. */
  function ReleasePlan(data: bool): seq<PinEvent> {
    if data then [Drive(RS, false)] else []
  }

  /** `if high { pin.set_high() } else { pin.set_low() }`, errors mapped to `Error`. */
  method DriveLine(pins: Gpio, line: Line, high: bool) returns (r: Result<()>)
    modifies pins
    ensures Performed(IsDrive, pins.fails, old(pins.trace), pins.trace, r.Ok?, [Drive(line, high)])
  {
    if high {
      r := pins.SetHigh(line);
    } else {
      r := pins.SetLow(line);
    }
  }

  /** Four consecutive `if dbN { set_high } else { set_low }` blocks. */
  method DriveFourLines(pins: Gpio, first: nat, h0: bool, h1: bool, h2: bool, h3: bool) returns (r: Result<()>)
    requires first <= 4
    modifies pins
    ensures Performed(IsDrive, pins.fails, old(pins.trace), pins.trace, r.Ok?, FourLinesPlan(first, h0, h1, h2, h3))
  {
    var f := pins.fails;
    ghost var t0 := pins.trace;
    ghost var e0, e1, e2, e3 := [Drive(DB(first), h0)], [Drive(DB(first + 1), h1)], [Drive(DB(first + 2), h2)], [Drive(DB(first + 3), h3)];
    assert FourLinesPlan(first, h0, h1, h2, h3) == e0 + e1 + e2 + e3;
    r := DriveLine(pins, DB(first), h0);
    if r.Err? {
      PerformedAbortPrefix(IsDrive, f, t0, pins.trace, e0, e0 + e1 + e2 + e3);
      return;
    }
    ghost var t1 := pins.trace;
    r := DriveLine(pins, DB(first + 1), h1);
    PerformedThen(IsDrive, f, t0, t1, pins.trace, e0, e1, r.Ok?);
    if r.Err? {
      PerformedAbortPrefix(IsDrive, f, t0, pins.trace, e0 + e1, e0 + e1 + e2 + e3);
      return;
    }
    ghost var t2 := pins.trace;
    r := DriveLine(pins, DB(first + 2), h2);
    PerformedThen(IsDrive, f, t0, t2, pins.trace, e0 + e1, e2, r.Ok?);
    if r.Err? {
      PerformedAbort(IsDrive, f, t0, pins.trace, e0 + e1 + e2, e3);
      return;
    }
    ghost var t3 := pins.trace;
    r := DriveLine(pins, DB(first + 3), h3);
    PerformedThen(IsDrive, f, t0, t3, pins.trace, e0 + e1 + e2, e3, r.Ok?);
  }

  /** `en.set_high()?; delay.delay_ms(2); en.set_low()?`. */
  method PulseEnable(pins: Gpio) returns (r: Result<()>)
    modifies pins
    ensures Performed(IsDrive, pins.fails, old(pins.trace), pins.trace, r.Ok?, EnablePulsePlan())
  {
    var f := pins.fails;
    ghost var t0 := pins.trace;
    ghost var e0, e1, e2 := [Drive(EN, true)], [WaitMs(2)], [Drive(EN, false)];
    assert EnablePulsePlan() == e0 + e1 + e2;
    r := pins.SetHigh(EN);
    if r.Err? {
      PerformedAbortPrefix(IsDrive, f, t0, pins.trace, e0, e0 + e1 + e2);
      return;
    }
    ghost var t1 := pins.trace;
    pins.DelayMs(2);
    PerformedThen(IsDrive, f, t0, t1, pins.trace, e0, e1, true);
    ghost var t2 := pins.trace;
    r := pins.SetLow(EN);
    PerformedThen(IsDrive, f, t0, t2, pins.trace, e0 + e1, e2, r.Ok?);
  }

  /** `if data { rs.set_low()? }`. */
  method ReleaseSelect(pins: Gpio, data: bool) returns (r: Result<()>)
    modifies pins
    ensures Performed(IsDrive, pins.fails, old(pins.trace), pins.trace, r.Ok?, ReleasePlan(data))
  {
    if data {
      r := pins.SetLow(RS);
    } else {
      r := Ok(());
      assert Run(IsDrive, pins.fails, |pins.trace|, []) == [];
    }
  }

  /** Driving four data lines touches no other line and makes the display
      latch nothing. */
  lemma {:induction false} FourLinesSettle(s: LineState, first: nat, h0: bool, h1: bool, h2: bool, h3: bool)
    requires first <= 4
    ensures Strobes(s, FourLinesPlan(first, h0, h1, h2, h3)) == []
    ensures Settle(s, FourLinesPlan(first, h0, h1, h2, h3)) ==
            s.(db := SetBit(SetBit(SetBit(SetBit(s.db, first, h0), first + 1, h1), first + 2, h2), first + 3, h3))
  {
    var es := FourLinesPlan(first, h0, h1, h2, h3);
    assert es == [es[0]] + [es[1]] + [es[2]] + [es[3]];
    SimulateAppend(s, [es[0]] + [es[1]] + [es[2]], [es[3]]);
    SimulateAppend(s, [es[0]] + [es[1]], [es[2]]);
    SimulateAppend(s, [es[0]], [es[1]]);
    var s1 := Apply(s, es[0]);
    var s2 := Apply(s1, es[1]);
    var s3 := Apply(s2, es[2]);
    SimulateOne(s, es[0]);
    SimulateOne(s1, es[1]);
    SimulateOne(s2, es[2]);
    SimulateOne(s3, es[3]);
  }

  /** `FourLinesSettle` with the resulting data-line levels given as `v`. */
  lemma {:induction false} FourLinesSettleTo(s: LineState, first: nat, h0: bool, h1: bool, h2: bool, h3: bool, v: bv8)
    requires first <= 4
    requires v == SetBit(SetBit(SetBit(SetBit(s.db, first, h0), first + 1, h1), first + 2, h2), first + 3, h3)
    ensures Strobes(s, FourLinesPlan(first, h0, h1, h2, h3)) == []
    ensures Settle(s, FourLinesPlan(first, h0, h1, h2, h3)) == s.(db := v)
  {
    FourLinesSettle(s, first, h0, h1, h2, h3);
  }

  /** An enable pulse makes the display latch the current levels exactly once
      and leaves EN low. */
  lemma {:induction false} EnablePulseLatches(s: LineState)
    ensures Strobes(s, EnablePulsePlan()) == [Latch(s.rs, s.db)]
    ensures Settle(s, EnablePulsePlan()) == s.(en := false)
  {
    var es := EnablePulsePlan();
    assert es == [es[0]] + [es[1]] + [es[2]];
    SimulateAppend(s, [es[0]] + [es[1]], [es[2]]);
    SimulateAppend(s, [es[0]], [es[1]]);
    var s1 := Apply(s, es[0]);
    SimulateOne(s, es[0]);
    SimulateOne(s1, es[1]);
    SimulateOne(s1, es[2]);
  }

  /** Releasing register select lowers it after a data write and changes
      nothing after a command write; it never makes the display latch. */
  lemma {:induction false} ReleaseSettles(s: LineState, data: bool)
    ensures Strobes(s, ReleasePlan(data)) == []
    ensures Settle(s, ReleasePlan(data)) == if data then s.(rs := false) else s
  {
    if data {
      SimulateOne(s, Drive(RS, false));
    }
  }
}
