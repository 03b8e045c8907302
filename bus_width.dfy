/** `BusWidth` (src/data_bus/fourbit_eightbit_bus.rs): one of the two
    parallel buses, chosen when the display is wired, with `write`
    dispatching to the wrapped bus. */
module BusWidths {
  import opened Errors
  import opened Traces
  import opened Pins
  import FourBit
  import EightBit

  datatype BusWidth =
    | FourBitBus(four: FourBit.FourBitBus)
    | EightBitBus(eight: EightBit.EightBitBus)
  {
    /** The pins (and delay provider) of the wrapped bus. */
    function Pins(): Gpio {
      match this
      case FourBitBus(bus) => bus.pins
      case EightBitBus(bus) => bus.pins
    }

    /** What `write(byte, data)` issues on the pins when none fails. */
    function WritePlan(b: bv8, data: bool): seq<PinEvent> {
      match this
      case FourBitBus(_) => FourBit.WritePlan(b, data)
      case EightBitBus(_) => EightBit.WritePlan(b, data)
    }

    /** The (byte, is-data) pairs a display wired this way reads from the
        latches it makes. */
    function Received(ls: seq<Latch>): seq<(bv8, bool)> {
      match this
      case FourBitBus(_) => Received4(ls)
      case EightBitBus(_) => Received8(ls)
    }
  }

  /** `BusWidth::new_four_bit`: a fresh 4-bit bus over the given pins. */
  method NewFourBit(pins: Gpio) returns (w: BusWidth)
    ensures w.FourBitBus? && fresh(w.four)
    ensures w.Pins() == pins
  {
    var bus := new FourBit.FourBitBus.FromPins(pins);
    w := FourBitBus(bus);
  }

  /** `BusWidth::new_eight_bit`: a fresh 8-bit bus over the given pins. */
  method NewEightBit(pins: Gpio) returns (w: BusWidth)
    ensures w.EightBitBus? && fresh(w.eight)
    ensures w.Pins() == pins
  {
    var bus := new EightBit.EightBitBus.FromPins(pins);
    w := EightBitBus(bus);
  }

  /** `DataBus::write` for `BusWidth`: the wrapped bus's `write` with the
      same byte and flag, its result returned unchanged. */
  method Write(w: BusWidth, byte: bv8, data: bool) returns (r: Result<()>)
    modifies w.Pins()
    ensures Performed(IsDrive, w.Pins().fails, old(w.Pins().trace), w.Pins().trace, r.Ok?, w.WritePlan(byte, data))
  {
    match w
    case FourBitBus(bus) =>
      r := bus.Write(byte, data);
    case EightBitBus(bus) =>
      r := bus.Write(byte, data);
  }

  /** The pin events of successful `write`s of `ws`, one after another. */
  function WritesPlan(w: BusWidth, ws: seq<(bv8, bool)>): seq<PinEvent>
    decreases |ws|
  {
    if ws == [] then [] else w.WritePlan(ws[0].0, ws[0].1) + WritesPlan(w, ws[1..])
  }

  /** One `write` leaves EN low and makes the display read exactly the
      written pair, whatever the lines held before. */
  lemma {:induction false} WriteDelivers(w: BusWidth, s: LineState, b: bv8, data: bool)
    ensures w.Received(Strobes(s, w.WritePlan(b, data))) == [(b, data)]
    ensures |Strobes(s, w.WritePlan(b, data))| == if w.FourBitBus? then 2 else 1
    ensures !Settle(s, w.WritePlan(b, data)).en
  {
    match w
    case FourBitBus(_) =>
      FourBit.WriteLatches(s, b, data);
    case EightBitBus(_) =>
      EightBit.WriteLatches(s, b, data);
  }

  /** Whichever bus is wrapped, a `write` whose first pin drive (register
      select) fails issues nothing else, so EN is never raised and the
      display latches nothing. */
  lemma SelectFailureStopsWrite(w: BusWidth, f: nat -> bool, n: nat, b: bv8, data: bool)
    requires f(n)
    ensures Run(IsDrive, f, n, w.WritePlan(b, data)) == [Drive(RS, data)]
    ensures !Succeeds(IsDrive, f, n, w.WritePlan(b, data))
    ensures forall s: LineState :: Strobes(s, Run(IsDrive, f, n, w.WritePlan(b, data))) == []
  {
    match w
    case FourBitBus(_) =>
      FourBit.SelectFailureStopsWrite(f, n, b, data);
    case EightBitBus(_) =>
      EightBit.SelectFailureStopsWrite(f, n, b, data);
    forall s: LineState
      ensures Strobes(s, [Drive(RS, data)]) == []
    {
      SimulateOne(s, Drive(RS, data));
    }
  }

  /** Reading a 4-bit display's latches in two parts: the split falls
      between two transfers when the first part has even length. */
  lemma {:induction false} Received4Append(a: seq<Latch>, b: seq<Latch>)
    requires |a| % 2 == 0
    ensures Received4(a + b) == Received4(a) + Received4(b)
    decreases |a|
  {
    if a == [] {
      assert a + b == b;
    } else {
      assert (a + b)[2..] == a[2..] + b;
      Received4Append(a[2..], b);
    }
  }

  /** Reading an 8-bit display's latches in two parts. */
  lemma Received8Append(a: seq<Latch>, b: seq<Latch>)
    ensures Received8(a + b) == Received8(a) + Received8(b)
  {
  }

  /** The display reads the latches of consecutive writes one write at a
      time (in 4-bit mode, each write is a whole pair of latches). */
  lemma ReceivedAppend(w: BusWidth, a: seq<Latch>, b: seq<Latch>)
    requires w.FourBitBus? ==> |a| % 2 == 0
    ensures w.Received(a + b) == w.Received(a) + w.Received(b)
  {
    if w.FourBitBus? {
      Received4Append(a, b);
    } else {
      Received8Append(a, b);
    }
  }

  /** The `DataBus` abstraction is faithful: whichever bus is wired, a run
      of successful `write`s makes the display read exactly the written
      (byte, is-data) pairs, in order. */
  lemma {:induction false} WritesDeliver(w: BusWidth, s: LineState, ws: seq<(bv8, bool)>)
    ensures w.Received(Strobes(s, WritesPlan(w, ws))) == ws
    decreases |ws|
  {
    if ws != [] {
      var first, rest := w.WritePlan(ws[0].0, ws[0].1), WritesPlan(w, ws[1..]);
      var s1 := Settle(s, first);
      var l1, l2 := Strobes(s, first), Strobes(s1, rest);
      assert Strobes(s, WritesPlan(w, ws)) == l1 + l2 by {
        SimulateAppend(s, first, rest);
      }
      assert w.Received(l1) == [ws[0]] && (w.FourBitBus? ==> |l1| % 2 == 0) by {
        WriteDelivers(w, s, ws[0].0, ws[0].1);
      }
      assert w.Received(l2) == ws[1..] by {
        WritesDeliver(w, s1, ws[1..]);
      }
      ReceivedAppend(w, l1, l2);
      assert [ws[0]] + ws[1..] == ws;
    }
  }
}
