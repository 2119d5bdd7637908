/**
  The 4-bit parallel bus of an HD44780 controller, seen from the controller's side.

  The driver talks to the display only through platform callbacks; every call is one
  `BusEvent`.  This module gives those events a meaning that does not depend on the
  driver: `Run` replays a trace on the pin levels RS, RW, E and DB7..DB4 and collects
  what the controller takes on each falling edge of E, and `Transfers` pairs the
  nibbles of consecutive pulses into the bytes of 4-bit mode (high nibble first).
*/
module Bus {
  import opened Wrappers

  /** An unsigned 8-bit value (`uint8_t`). */
  type Byte = bv8

  /** One call of a platform callback. */
  datatype BusEvent =
    | InitLines                // configure the RS, RW, E and data lines
    | SetRs(level: Byte)       // drive RS
    | SetRw(level: Byte)       // drive RW
    | SetE(level: Byte)        // drive E
    | SetDir(output: Byte)     // data lines: 1 = output, 0 = input
    | WriteData(value: Byte)   // bits 7..4 are driven onto DB7..DB4
    | ReadData(value: Byte)    // the sampled DB7..DB4, returned in bits 7..4
    | DelayMs(ms: nat)
    | DelayUs(us: nat)

  /** Pin levels between two events, and what the host sampled while E was high. */
  datatype Pins = Pins(rs: Byte, rw: Byte, e: Byte, out: Byte, sample: Option<Byte>)

  /** One E pulse as the controller sees it on the falling edge. */
  datatype Pulse =
    | Latch(rs: Byte, nibble: Byte)          // RW low: the controller takes DB7..DB4 from the host
    | Drive(rs: Byte, sample: Option<Byte>)  // RW high: the controller drives, the host sampled (or not)

  /** One byte transferred in 4-bit mode, or two pulses that do not form one. */
  datatype Transfer = Wr(rs: Byte, value: Byte) | Rd(rs: Byte, value: Byte) | Garbled

  datatype Scan = Scan(pins: Pins, pulses: seq<Pulse>)

  /** Bit 7 of a status read: the controller is still executing an instruction. */
  predicate Busy(status: Byte)
  {
    status & 0x80 != 0
  }

  function Step(p: Pins, ev: BusEvent): Scan
  {
    match ev
    case SetRs(v) => Scan(p.(rs := v), [])
    case SetRw(v) => Scan(p.(rw := v), [])
    case SetE(v) =>
      if p.e == 0 && v != 0 then Scan(p.(e := v, sample := None), [])
      else if p.e != 0 && v == 0 then
        Scan(p.(e := 0), [if p.rw == 0 then Latch(p.rs, p.out >> 4) else Drive(p.rs, p.sample)])
      else Scan(p.(e := v), [])
    case WriteData(v) => Scan(p.(out := v), [])
    case ReadData(v) => if p.e != 0 then Scan(p.(sample := Some(v)), []) else Scan(p, [])
    case _ => Scan(p, [])
  }

  /** Replays a trace from pin state `p`: the final pins and the pulses taken on the way. */
  function Run(p: Pins, t: seq<BusEvent>): Scan
    decreases |t|
  {
    if t == [] then Scan(p, [])
    else
      var first := Step(p, t[0]);
      var rest := Run(first.pins, t[1..]);
      Scan(rest.pins, first.pulses + rest.pulses)
  }

  /** The byte two consecutive pulses form: high nibble first, as in 4-bit mode. */
  function Pair(hi: Pulse, lo: Pulse): Transfer
  {
    match (hi, lo)
    case (Latch(rs, h), Latch(rs', l)) =>
      if rs == rs' then Wr(rs, (h << 4) | (l & 0x0F)) else Garbled
    case (Drive(rs, Some(h)), Drive(rs', Some(l))) =>
      if rs == rs' then Rd(rs, ((h >> 4) << 4) | (l >> 4)) else Garbled
    case _ => Garbled
  }

  function Transfers(ps: seq<Pulse>): seq<Transfer>
    decreases |ps|
  {
    if |ps| == 0 then []
    else if |ps| == 1 then [Garbled]
    else [Pair(ps[0], ps[1])] + Transfers(ps[2..])
  }

  /** From pin state `p`, trace `t` hands the controller exactly `xs` and leaves E low. */
  ghost predicate DeliversFrom(p: Pins, t: seq<BusEvent>, xs: seq<Transfer>)
  {
    Run(p, t).pins.e == 0 && |Run(p, t).pulses| % 2 == 0 && Transfers(Run(p, t).pulses) == xs
  }

  /**
    From every bus state with E low, trace `t` hands the controller exactly the
    transfers `xs` (an even number of pulses) and leaves E low again.
  */
  ghost predicate Delivers(t: seq<BusEvent>, xs: seq<Transfer>)
  {
    forall p: Pins {:trigger DeliversFrom(p, t, xs)} :: p.e == 0 ==> DeliversFrom(p, t, xs)
  }

  /**
    Every byte written to the controller comes right after two status reads (RS low),
    the first of which found the busy flag clear.
  */
  ghost predicate Gated(xs: seq<Transfer>)
  {
    forall i :: 0 <= i < |xs| && xs[i].Wr? ==>
      2 <= i && xs[i - 2].Rd? && xs[i - 1].Rd? && xs[i - 2].rs == 0 && xs[i - 1].rs == 0
      && !Busy(xs[i - 2].value)
  }

  /** The values of the writes with RS = `rs`, in order. */
  function Writes(xs: seq<Transfer>, rs: Byte): (vs: seq<Byte>)
    ensures |vs| <= |xs|
  {
    if xs == [] then []
    else (if xs[0].Wr? && xs[0].rs == rs then [xs[0].value] else []) + Writes(xs[1..], rs)
  }

  /** Regrouping a sequence that grew by two pieces. */
  lemma Regroup<T>(t: seq<T>, a: seq<T>, b: seq<T>)
    ensures t + a + b == t + (a + b)
  {
  }

  /** Regrouping a sequence that grew by three pieces. */
  lemma Regroup3<T>(t: seq<T>, a: seq<T>, b: seq<T>, c: seq<T>)
    ensures t + a + b + c == t + (a + b + c)
  {
  }

  /** Regrouping a sequence that grew by four pieces. */
  lemma Regroup4<T>(t: seq<T>, a: seq<T>, b: seq<T>, c: seq<T>, d: seq<T>)
    ensures t + a + b + c + d == t + (a + b + c + d)
  {
  }

  /** Two one-element sequences joined. */
  lemma JoinTwo<T>(x: T, y: T)
    ensures [x] + [y] == [x, y]
  {
  }

  /** A non-empty sequence is its head followed by its tail. */
  lemma HeadTail<T>(s: seq<T>)
    requires s != []
    ensures [s[0]] + s[1..] == s
  {
  }

  /** A non-empty trace is its first event followed by the rest. */
  lemma RunHead(p: Pins, t: seq<BusEvent>)
    requires t != []
    ensures Run(p, t) == Scan(Run(Step(p, t[0]).pins, t[1..]).pins,
                              Step(p, t[0]).pulses + Run(Step(p, t[0]).pins, t[1..]).pulses)
  {
  }

  lemma {:induction false} RunAppend(p: Pins, t1: seq<BusEvent>, t2: seq<BusEvent>)
    ensures Run(p, t1 + t2).pins == Run(Run(p, t1).pins, t2).pins
    ensures Run(p, t1 + t2).pulses == Run(p, t1).pulses + Run(Run(p, t1).pins, t2).pulses
    decreases |t1|
  {
    if t1 == [] {
      assert t1 + t2 == t2;
    } else {
      var f := Step(p, t1[0]);
      var u := t1[1..];
      assert (t1 + t2)[0] == t1[0];
      assert (t1 + t2)[1..] == u + t2;
      RunHead(p, t1);
      RunHead(p, t1 + t2);
      RunAppend(f.pins, u, t2);
      Regroup(f.pulses, Run(f.pins, u).pulses, Run(Run(f.pins, u).pins, t2).pulses);
    }
  }

  /** `RunAppend` for traces whose runs are already known. */
  lemma RunThen(p: Pins, t1: seq<BusEvent>, s1: Scan, t2: seq<BusEvent>, s2: Scan)
    requires Run(p, t1) == s1 && Run(s1.pins, t2) == s2
    ensures Run(p, t1 + t2) == Scan(s2.pins, s1.pulses + s2.pulses)
  {
    RunAppend(p, t1, t2);
  }

  /** `RunThen` where the first trace takes no pulses. */
  lemma RunAfterQuiet(p: Pins, t1: seq<BusEvent>, q: Pins, t2: seq<BusEvent>, s2: Scan)
    requires Run(p, t1) == Scan(q, []) && Run(q, t2) == s2
    ensures Run(p, t1 + t2) == s2
  {
    RunAppend(p, t1, t2);
    assert [] + s2.pulses == s2.pulses;
  }

  /** `RunThen` where the second trace takes no pulses. */
  lemma RunThenQuiet(p: Pins, t1: seq<BusEvent>, s1: Scan, t2: seq<BusEvent>, q: Pins)
    requires Run(p, t1) == s1 && Run(s1.pins, t2) == Scan(q, [])
    ensures Run(p, t1 + t2) == Scan(q, s1.pulses)
  {
    RunAppend(p, t1, t2);
    assert s1.pulses + [] == s1.pulses;
  }

  /** Running one event is one step. */
  lemma RunOne(p: Pins, ev: BusEvent)
    ensures Run(p, [ev]) == Step(p, ev)
  {
    assert [ev][1..] == [];
    assert Step(p, ev).pulses + [] == Step(p, ev).pulses;
  }

  lemma {:induction false} TransfersAppend(ps1: seq<Pulse>, ps2: seq<Pulse>)
    requires |ps1| % 2 == 0
    ensures Transfers(ps1 + ps2) == Transfers(ps1) + Transfers(ps2)
    decreases |ps1|
  {
    if ps1 == [] {
      assert ps1 + ps2 == ps2;
    } else {
      assert (ps1 + ps2)[2..] == ps1[2..] + ps2;
      TransfersAppend(ps1[2..], ps2);
    }
  }

  lemma PulsesAppend(ps1: seq<Pulse>, ps2: seq<Pulse>, xs1: seq<Transfer>, xs2: seq<Transfer>)
    requires |ps1| % 2 == 0 && Transfers(ps1) == xs1 && |ps2| % 2 == 0 && Transfers(ps2) == xs2
    ensures |ps1 + ps2| % 2 == 0 && Transfers(ps1 + ps2) == xs1 + xs2
  {
    TransfersAppend(ps1, ps2);
  }

  lemma DeliversFromAppend(p: Pins, t1: seq<BusEvent>, xs1: seq<Transfer>, t2: seq<BusEvent>, xs2: seq<Transfer>)
    requires DeliversFrom(p, t1, xs1) && DeliversFrom(Run(p, t1).pins, t2, xs2)
    ensures DeliversFrom(p, t1 + t2, xs1 + xs2)
  {
    var s1 := Run(p, t1);
    var s2 := Run(s1.pins, t2);
    RunAppend(p, t1, t2);
    PulsesAppend(s1.pulses, s2.pulses, xs1, xs2);
  }

  /** Delivery composes: one trace after another delivers one list after the other. */
  lemma DeliversAppend(t1: seq<BusEvent>, xs1: seq<Transfer>, t2: seq<BusEvent>, xs2: seq<Transfer>)
    requires Delivers(t1, xs1) && Delivers(t2, xs2)
    ensures Delivers(t1 + t2, xs1 + xs2)
  {
    forall p: Pins | p.e == 0
      ensures DeliversFrom(p, t1 + t2, xs1 + xs2)
    {
      DeliversFromAppend(p, t1, xs1, t2, xs2);
    }
  }

  lemma {:induction false} GatedAppend(xs1: seq<Transfer>, xs2: seq<Transfer>)
    requires Gated(xs1) && Gated(xs2)
    ensures Gated(xs1 + xs2)
  {
    var xs := xs1 + xs2;
    forall i | 0 <= i < |xs| && xs[i].Wr?
      ensures 2 <= i && xs[i - 2].Rd? && xs[i - 1].Rd? && xs[i - 2].rs == 0 && xs[i - 1].rs == 0
      ensures !Busy(xs[i - 2].value)
    {
      if i >= |xs1| {
        assert xs[i] == xs2[i - |xs1|];
        assert xs[i - 2] == xs2[i - |xs1| - 2] && xs[i - 1] == xs2[i - |xs1| - 1];
      } else {
        assert xs[i] == xs1[i];
      }
    }
  }

  lemma {:induction false} WritesAppend(xs1: seq<Transfer>, xs2: seq<Transfer>, rs: Byte)
    ensures Writes(xs1 + xs2, rs) == Writes(xs1, rs) + Writes(xs2, rs)
    decreases |xs1|
  {
    if xs1 == [] {
      assert xs1 + xs2 == xs2;
    } else {
      assert (xs1 + xs2)[1..] == xs1[1..] + xs2;
      WritesAppend(xs1[1..], xs2, rs);
    }
  }
}
