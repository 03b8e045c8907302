/** The `DataBus` trait (src/data_bus/mod.rs) as the display controller sees
    it, together with the delay provider its operations are handed.

    Whatever is wired underneath (four or eight parallel data lines, or an
    I2C port expander), the controller only ever asks for a tagged byte
    write, which may fail, and for waits, which cannot. A `Transport`
    records every such request in order; whether a write fails is decided
    by an oracle on its position in the record. How a parallel bus carries a
    write is in `BusWidths`. */
module Transports {
  import opened Errors
  import opened Traces

  datatype BusEvent =
    | Send(byte: bv8, isData: bool)
    | WaitUs(us: nat)
    | WaitMs(ms: nat)

  /** Bus writes can fail; waits cannot. */
  predicate IsWrite(e: BusEvent) {
    e.Send?
  }

  /** What the transport is wired to. The I2C expander's own protocol is
      not part of this model: only its address is recorded. */
  datatype Medium = FourBitPins | EightBitPins | I2cExpander(address: bv8)

  class Transport {
    /** Every write and wait requested so far, in order. */
    var trace: seq<BusEvent>
    /** Whether the write requested at a given trace position fails. */
    const fails: nat -> bool
    const medium: Medium

    constructor (medium: Medium, fails: nat -> bool)
      ensures trace == [] && this.medium == medium && this.fails == fails
    {
      trace := [];
      this.medium := medium;
      this.fails := fails;
    }

    /** `DataBus::write(byte, data, delay)`. */
    method Write(byte: bv8, isData: bool) returns (r: Result<()>)
      modifies this
      ensures Performed(IsWrite, fails, old(trace), trace, r.Ok?, [Send(byte, isData)])
    {
      PerformedOne(IsWrite, fails, trace, Send(byte, isData));
      r := if fails(|trace|) then Err(Error) else Ok(());
      trace := trace + [Send(byte, isData)];
    }

    /** `DelayUs::delay_us`. */
    method DelayUs(us: nat)
      modifies this
      ensures Performed(IsWrite, fails, old(trace), trace, true, [WaitUs(us)])
    {
      PerformedOne(IsWrite, fails, trace, WaitUs(us));
      trace := trace + [WaitUs(us)];
    }

    /** `DelayMs::delay_ms`. */
    method DelayMs(ms: nat)
      modifies this
      ensures Performed(IsWrite, fails, old(trace), trace, true, [WaitMs(ms)])
    {
      PerformedOne(IsWrite, fails, trace, WaitMs(ms));
      trace := trace + [WaitMs(ms)];
    }
  }

  /** The (byte, is-data) pairs written, in order, waits dropped. */
  function Writes(es: seq<BusEvent>): (ws: seq<(bv8, bool)>)
    ensures |ws| <= |es|
    decreases |es|
  {
    if es == [] then []
    else (if es[0].Send? then [(es[0].byte, es[0].isData)] else []) + Writes(es[1..])
  }

  /** The writes of a concatenation are the writes of its parts. */
  lemma {:induction false} WritesAppend(a: seq<BusEvent>, b: seq<BusEvent>)
    ensures Writes(a + b) == Writes(a) + Writes(b)
    decreases |a|
  {
    if a == [] {
      assert a + b == b;
    } else {
      var head := if a[0].Send? then [(a[0].byte, a[0].isData)] else [];
      assert (a + b)[0] == a[0];
      assert (a + b)[1..] == a[1..] + b;
      WritesAppend(a[1..], b);
      assert Writes(a + b) == head + (Writes(a[1..]) + Writes(b));
      AppendAssoc(head, Writes(a[1..]), Writes(b));
    }
  }

  /** The writes actually issued are a prefix of the writes planned, and
      when a run fails, its last event is the write that failed: nothing
      after a failing write is issued. */
  lemma {:induction false} IssuedWritesPrefix(fails: nat -> bool, n: nat, plan: seq<BusEvent>)
    ensures Writes(Run(IsWrite, fails, n, plan)) <= Writes(plan)
    ensures !Succeeds(IsWrite, fails, n, plan) ==>
              var issued := Run(IsWrite, fails, n, plan);
              issued != [] && issued[|issued| - 1].Send? && fails(n + |issued| - 1)
  {
    var issued := Run(IsWrite, fails, n, plan);
    if Succeeds(IsWrite, fails, n, plan) {
      RunSucceeds(IsWrite, fails, n, plan);
    } else {
      var k := RunStopsAtFirstFailure(IsWrite, fails, n, plan);
      assert plan == plan[..k + 1] + plan[k + 1..];
      WritesAppend(plan[..k + 1], plan[k + 1..]);
    }
  }
}
