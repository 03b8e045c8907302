/** The output pins a parallel bus owns, and what the display sees on them.

    The `embedded_hal` `OutputPin`s (register select, enable and the data
    lines) and the delay provider handed to a bus are modelled together as
    one `Gpio` object that records, in order, every pin drive and wait it is
    asked for. Pin drives are fallible; whether one fails is decided by the
    object's oracle. The display's side is a simulator of the lines: the
    HD44780 latches register select and the data lines on every falling edge
    of the enable line. */
module Pins {
  import opened Errors
  import opened Traces

  /** Index of a data line DB0..DB7. */
  type DataLine = i: nat | i < 8

  /** A display input the bus drives. */
  datatype Line = RS | EN | DB(index: DataLine)

  datatype PinEvent =
    | Drive(line: Line, high: bool)
    | WaitMs(ms: nat)

  /** Pin drives can fail; waits cannot. */
  predicate IsDrive(e: PinEvent) {
    e.Drive?
  }

  /** The mask selecting bit `k` of a byte, that is `1 << k`. */
  function Mask(k: DataLine): bv8 {
    if k == 0 then 0x01 else if k == 1 then 0x02 else if k == 2 then 0x04 else if k == 3 then 0x08
    else if k == 4 then 0x10 else if k == 5 then 0x20 else if k == 6 then 0x40 else 0x80
  }

  /** Bit `k` of `b`. */
  function Bit(b: bv8, k: DataLine): bool {
    Mask(k) & b != 0
  }

  class Gpio {
    /** Every pin drive and wait issued so far, in order. */
    var trace: seq<PinEvent>
    /** Whether the pin drive issued at a given trace position fails. */
    const fails: nat -> bool

    constructor (fails: nat -> bool)
      ensures trace == [] && this.fails == fails
    {
      trace := [];
      this.fails := fails;
    }

    /** `OutputPin::set_high` on the pin wired to `line`, errors mapped to `Error`. */
    method SetHigh(line: Line) returns (r: Result<()>)
      modifies this
      ensures Performed(IsDrive, fails, old(trace), trace, r.Ok?, [Drive(line, true)])
    {
      PerformedOne(IsDrive, fails, trace, Drive(line, true));
      r := if fails(|trace|) then Err(Error) else Ok(());
      trace := trace + [Drive(line, true)];
    }

    /** `OutputPin::set_low` on the pin wired to `line`, errors mapped to `Error`. */
    method SetLow(line: Line) returns (r: Result<()>)
      modifies this
      ensures Performed(IsDrive, fails, old(trace), trace, r.Ok?, [Drive(line, false)])
    {
      PerformedOne(IsDrive, fails, trace, Drive(line, false));
      r := if fails(|trace|) then Err(Error) else Ok(());
      trace := trace + [Drive(line, false)];
    }

    /** `DelayNs::delay_ms`: a wait, which cannot fail. */
    method DelayMs(ms: nat)
      modifies this
      ensures Performed(IsDrive, fails, old(trace), trace, true, [WaitMs(ms)])
    {
      PerformedOne(IsDrive, fails, trace, WaitMs(ms));
      trace := trace + [WaitMs(ms)];
    }
  }

  /** The levels on the display's inputs. */
  datatype LineState = LineState(rs: bool, en: bool, db: bv8)

  /** What the display latches on a falling edge of EN: register select and
      the eight data lines. */
  datatype Latch = Latch(rs: bool, db: bv8)

  /** `x` with bit `i` set to `high`. */
  function SetBit(x: bv8, i: DataLine, high: bool): (y: bv8)
    ensures Bit(y, i) == high
    ensures y & !Mask(i) == x & !Mask(i)
  {
    if high then x | Mask(i) else x & !Mask(i)
  }

  /** The levels after one event. */
  function Apply(s: LineState, e: PinEvent): LineState {
    match e
    case Drive(RS, h) => s.(rs := h)
    case Drive(EN, h) => s.(en := h)
    case Drive(DB(i), h) => s.(db := SetBit(s.db, i, h))
    case WaitMs(_) => s
  }

  /** The levels after a sequence of events. */
  function Settle(s: LineState, es: seq<PinEvent>): LineState
    decreases |es|
  {
    if es == [] then s else Settle(Apply(s, es[0]), es[1..])
  }

  /** What the display latches, in order, while a sequence of events runs. */
  function Strobes(s: LineState, es: seq<PinEvent>): seq<Latch>
    decreases |es|
  {
    if es == [] then []
    else
      var s' := Apply(s, es[0]);
      (if s.en && !s'.en then [Latch(s'.rs, s'.db)] else []) + Strobes(s', es[1..])
  }

  /** Simulating a concatenation is simulating its parts one after the other. */
  lemma {:induction false} SimulateAppend(s: LineState, a: seq<PinEvent>, b: seq<PinEvent>)
    ensures Settle(s, a + b) == Settle(Settle(s, a), b)
    ensures Strobes(s, a + b) == Strobes(s, a) + Strobes(Settle(s, a), b)
    decreases |a|
  {
    if a == [] {
      assert a + b == b;
    } else {
      assert (a + b)[1..] == a[1..] + b;
      SimulateAppend(Apply(s, a[0]), a[1..], b);
    }
  }

  /** Simulating one event. */
  lemma SimulateOne(s: LineState, e: PinEvent)
    ensures Settle(s, [e]) == Apply(s, e)
    ensures Strobes(s, [e]) == if s.en && !Apply(s, e).en then [Latch(s.rs, Apply(s, e).db)] else []
  {
    assert [e][1..] == [];
  }

  /** The (byte, is-data) pairs an HD44780 in 8-bit mode reads: one per latch. */
  function Received8(ls: seq<Latch>): (r: seq<(bv8, bool)>)
    ensures |r| == |ls|
    ensures forall i :: 0 <= i < |ls| ==> r[i] == (ls[i].db, ls[i].rs)
  {
    seq(|ls|, i requires 0 <= i < |ls| => (ls[i].db, ls[i].rs))
  }

  /** The (byte, is-data) pairs an HD44780 in 4-bit mode reads: each pair of
      latches gives the upper nibble (on DB4..DB7) and then the lower one. */
  function Received4(ls: seq<Latch>): (r: seq<(bv8, bool)>)
    ensures |r| == |ls| / 2
    decreases |ls|
  {
    if |ls| < 2 then []
    else [((ls[0].db & 0xF0) | (ls[1].db >> 4), ls[0].rs)] + Received4(ls[2..])
  }

  /** Pair `i` read in 4-bit mode comes from latches `2i` and `2i + 1`. */
  lemma {:induction false} Received4At(ls: seq<Latch>, i: nat)
    requires i < |ls| / 2
    ensures Received4(ls)[i] == ((ls[2 * i].db & 0xF0) | (ls[2 * i + 1].db >> 4), ls[2 * i].rs)
    decreases i
  {
    if i > 0 {
      Received4At(ls[2..], i - 1);
      assert ls[2..][2 * (i - 1)] == ls[2 * i];
      assert ls[2..][2 * (i - 1) + 1] == ls[2 * i + 1];
    }
  }

  /** Setting DB4..DB7 from bits 4..7 of `b` replaces the upper half of `x`
      by the upper half of `b`. */
  lemma UpperLinesFromUpperBits(x: bv8, b: bv8)
    ensures SetBit(SetBit(SetBit(SetBit(x, 4, Bit(b, 4)), 5, Bit(b, 5)), 6, Bit(b, 6)), 7, Bit(b, 7))
            == (x & 0x0F) | (b & 0xF0)
  {
  }

  /** When the lower half of `x` already matches `b`, setting DB4..DB7 from
      bits 4..7 of `b` gives `b`. */
  lemma UpperLinesComplete(x: bv8, b: bv8)
    requires x & 0x0F == b & 0x0F
    ensures SetBit(SetBit(SetBit(SetBit(x, 4, Bit(b, 4)), 5, Bit(b, 5)), 6, Bit(b, 6)), 7, Bit(b, 7)) == b
  {
    UpperLinesFromUpperBits(x, b);
  }

  /** Setting DB4..DB7 from bits 0..3 of `b` replaces the upper half of `x`
      by the lower half of `b`. */
  lemma UpperLinesFromLowerBits(x: bv8, b: bv8)
    ensures SetBit(SetBit(SetBit(SetBit(x, 4, Bit(b, 0)), 5, Bit(b, 1)), 6, Bit(b, 2)), 7, Bit(b, 3))
            == (x & 0x0F) | (b << 4)
  {
  }

  /** Setting DB0..DB3 from bits 0..3 of `b` replaces the lower half of `x`
      by the lower half of `b`. */
  lemma LowerLinesFromLowerBits(x: bv8, b: bv8)
    ensures SetBit(SetBit(SetBit(SetBit(x, 0, Bit(b, 0)), 1, Bit(b, 1)), 2, Bit(b, 2)), 3, Bit(b, 3))
            == (x & 0xF0) | (b & 0x0F)
  {
  }
}
