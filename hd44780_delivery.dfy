/**
  What the controller receives.  Each lemma here replays the calls an operation makes
  (module Hd44780Spec) on the bus model (module Bus) and names the bytes the controller
  takes in: a write hands over exactly the byte written, a read returns exactly the byte
  the controller drove, no instruction or data byte is written before a status read has
  found the busy flag clear, `Init` sends its instruction bytes in order, and `Puts`
  writes the bytes of its string other than line feeds, in order, as data.
*/
module Delivery {
  import opened Wrappers
  import opened Bus
  import opened Hd44780Spec

  // ---------------------------------------------------------------- single transactions

  lemma RunSetup(p: Pins, rs: Byte, rw: Byte, dir: Byte)
    ensures Run(p, [SetRs(rs), SetRw(rw), SetDir(dir)]) == Scan(p.(rs := rs, rw := rw), [])
  {
    var p1 := p.(rs := rs);
    var p2 := p1.(rw := rw);
    RunOne(p, SetRs(rs));
    RunOne(p1, SetRw(rw));
    RunOne(p2, SetDir(dir));
    RunAfterQuiet(p, [SetRs(rs)], p1, [SetRw(rw)], Scan(p2, []));
    RunAfterQuiet(p, [SetRs(rs)] + [SetRw(rw)], p2, [SetDir(dir)], Scan(p2, []));
    assert [SetRs(rs)] + [SetRw(rw)] + [SetDir(dir)] == [SetRs(rs), SetRw(rw), SetDir(dir)];
  }

  /** One E pulse from E low, with `mid` while E is high. */
  lemma RunPulse(p: Pins, mid: BusEvent, q: Pins)
    requires p.e == 0 && Step(p.(e := 1, sample := None), mid) == Scan(q, []) && q.e == 1
    ensures Run(p, [SetE(1), mid, SetE(0)]) ==
      Scan(q.(e := 0), [if q.rw == 0 then Latch(q.rs, q.out >> 4) else Drive(q.rs, q.sample)])
  {
    var p1 := p.(e := 1, sample := None);
    var ps := [if q.rw == 0 then Latch(q.rs, q.out >> 4) else Drive(q.rs, q.sample)];
    RunOne(p, SetE(1));
    RunOne(p1, mid);
    RunOne(q, SetE(0));
    RunAfterQuiet(p, [SetE(1)], p1, [mid], Scan(q, []));
    RunAfterQuiet(p, [SetE(1)] + [mid], q, [SetE(0)], Scan(q.(e := 0), ps));
    assert [SetE(1)] + [mid] + [SetE(0)] == [SetE(1), mid, SetE(0)];
  }

  /** One written nibble: the controller takes bits 7..4 of `v` on the falling edge. */
  lemma RunLatch(p: Pins, v: Byte)
    requires p.e == 0 && p.rw == 0
    ensures Run(p, [WriteData(v)] + Toggle()) == Scan(p.(out := v, sample := None), [Latch(p.rs, v >> 4)])
  {
    var p1 := p.(out := v);
    RunOne(p, WriteData(v));
    RunPulse(p1, DelayUs(1), p1.(e := 1, sample := None));
    RunAfterQuiet(p, [WriteData(v)], p1, Toggle(), Scan(p.(out := v, sample := None), [Latch(p.rs, v >> 4)]));
  }

  /** One read nibble: the host samples `s` while E is high. */
  lemma RunSample(p: Pins, s: Byte)
    requires p.e == 0 && p.rw != 0
    ensures Run(p, [SetE(1), DelayUs(1), ReadData(s), SetE(0)]) == Scan(p.(sample := Some(s)), [Drive(p.rs, Some(s))])
  {
    var p1 := p.(e := 1, sample := None);
    var q := p1.(sample := Some(s));
    var done := Scan(p.(sample := Some(s)), [Drive(p.rs, Some(s))]);
    RunOne(p, SetE(1));
    RunOne(p1, DelayUs(1));
    RunOne(p1, ReadData(s));
    RunOne(q, SetE(0));
    RunAfterQuiet(p1, [ReadData(s)], q, [SetE(0)], done);
    RunAfterQuiet(p1, [DelayUs(1)], p1, [ReadData(s)] + [SetE(0)], done);
    RunAfterQuiet(p, [SetE(1)], p1, [DelayUs(1)] + ([ReadData(s)] + [SetE(0)]), done);
    assert [SetE(1)] + ([DelayUs(1)] + ([ReadData(s)] + [SetE(0)])) == [SetE(1), DelayUs(1), ReadData(s), SetE(0)];
  }

  lemma TransfersOfTwo(x: Pulse, y: Pulse)
    ensures Transfers([x, y]) == [Pair(x, y)]
  {
    assert [x, y][2..] == [];
  }

  /** A write transaction of the two nibbles `v1` and `v2` with RS at level `l`. */
  lemma WriteNibblesRun(p: Pins, l: Byte, v1: Byte, v2: Byte)
    requires p.e == 0
    ensures var t := [SetRs(l), SetRw(0), SetDir(1)] + ([WriteData(v1)] + Toggle())
                     + ([WriteData(v2)] + Toggle()) + [WriteData(0xFF)];
      Run(p, t).pins.e == 0 && Run(p, t).pulses == [Latch(l, v1 >> 4), Latch(l, v2 >> 4)]
  {
    var a := [SetRs(l), SetRw(0), SetDir(1)];
    var hi := [WriteData(v1)] + Toggle();
    var lo := [WriteData(v2)] + Toggle();
    var park := [WriteData(0xFF)];
    var l1 := Latch(l, v1 >> 4);
    var l2 := Latch(l, v2 >> 4);
    var p1 := p.(rs := l, rw := 0);
    var p2 := p1.(out := v1, sample := None);
    var p3 := p2.(out := v2);
    var p4 := p3.(out := 0xFF);
    assert Run(p, a) == Scan(p1, []) by { RunSetup(p, l, 0, 1); }
    assert Run(p1, hi) == Scan(p2, [l1]) by { RunLatch(p1, v1); }
    assert Run(p2, lo) == Scan(p3, [l2]) by { RunLatch(p2, v2); }
    assert Run(p3, park) == Scan(p4, []) by { RunOne(p3, WriteData(0xFF)); }
    assert Run(p, a + hi) == Scan(p2, [l1]) by {
      RunAfterQuiet(p, a, p1, hi, Scan(p2, [l1]));
    }
    assert Run(p, a + hi + lo) == Scan(p3, [l1, l2]) by {
      RunThen(p, a + hi, Scan(p2, [l1]), lo, Scan(p3, [l2]));
      JoinTwo(l1, l2);
    }
    RunThenQuiet(p, a + hi + lo, Scan(p3, [l1, l2]), park, p4);
  }

  /** The two nibbles `Write` puts on DB7..DB4 join back into the byte written. */
  lemma NibblesJoin(b: Byte)
    ensures ((((b & 0xF0) >> 4) << 4) | ((((b << 4) & 0xF0) >> 4) & 0x0F)) == b
  {
  }

  lemma WriteFrom(p: Pins, b: Byte, rs: bool)
    requires p.e == 0
    ensures DeliversFrom(p, WriteEvents(b, rs), [Wr(Level(rs), b)])
  {
    var l1 := Latch(Level(rs), (b & 0xF0) >> 4);
    var l2 := Latch(Level(rs), ((b << 4) & 0xF0) >> 4);
    WriteNibblesRun(p, Level(rs), b & 0xF0, (b << 4) & 0xF0);
    TransfersOfTwo(l1, l2);
    NibblesJoin(b);
  }

  /** Writing `b` hands the controller exactly the byte `b`, with the chosen RS, and nothing else. */
  lemma WriteDelivers(b: Byte, rs: bool)
    ensures Delivers(WriteEvents(b, rs), [Wr(Level(rs), b)])
  {
    forall p: Pins | p.e == 0 ensures DeliversFrom(p, WriteEvents(b, rs), [Wr(Level(rs), b)]) {
      WriteFrom(p, b, rs);
    }
  }

  /** The two samples of a read, each shifted down to its nibble, join into `Combine`. */
  lemma SamplesJoin(s1: Byte, s2: Byte)
    ensures ((s1 >> 4) << 4) | (s2 >> 4) == Combine(s1, s2)
  {
  }

  lemma ReadFrom(p: Pins, rs: bool, s1: Byte, s2: Byte)
    requires p.e == 0
    ensures DeliversFrom(p, ReadEvents(rs, s1, s2), [Rd(Level(rs), Combine(s1, s2))])
  {
    var a := [SetRs(Level(rs)), SetRw(1), SetDir(0)];
    var n1 := [SetE(1), DelayUs(1), ReadData(s1), SetE(0)];
    var gap := [DelayUs(1)];
    var n2 := [SetE(1), DelayUs(1), ReadData(s2), SetE(0)];
    var d1 := Drive(Level(rs), Some(s1));
    var d2 := Drive(Level(rs), Some(s2));
    var p1 := p.(rs := Level(rs), rw := 1);
    var p2 := p1.(sample := Some(s1));
    var p3 := p2.(sample := Some(s2));
    assert Run(p, a + n1) == Scan(p2, [d1]) by {
      RunSetup(p, Level(rs), 1, 0);
      RunSample(p1, s1);
      RunAfterQuiet(p, a, p1, n1, Scan(p2, [d1]));
    }
    assert Run(p, a + n1 + gap) == Scan(p2, [d1]) by {
      RunOne(p2, DelayUs(1));
      RunThenQuiet(p, a + n1, Scan(p2, [d1]), gap, p2);
    }
    assert Run(p, a + n1 + gap + n2) == Scan(p3, [d1, d2]) by {
      RunSample(p2, s2);
      RunThen(p, a + n1 + gap, Scan(p2, [d1]), n2, Scan(p3, [d2]));
      JoinTwo(d1, d2);
    }
    TransfersOfTwo(d1, d2);
    SamplesJoin(s1, s2);
  }

  /** A read returns exactly the byte the controller presented on its two nibbles. */
  lemma ReadDelivers(rs: bool, s1: Byte, s2: Byte)
    ensures Delivers(ReadEvents(rs, s1, s2), [Rd(Level(rs), Combine(s1, s2))])
  {
    forall p: Pins | p.e == 0 ensures DeliversFrom(p, ReadEvents(rs, s1, s2), [Rd(Level(rs), Combine(s1, s2))]) {
      ReadFrom(p, rs, s1, s2);
    }
  }

  lemma DelayDelivers(ev: BusEvent)
    requires ev.DelayUs? || ev.DelayMs?
    ensures Delivers([ev], [])
  {
    forall p: Pins | p.e == 0 ensures DeliversFrom(p, [ev], []) {
      RunOne(p, ev);
    }
  }

  // ---------------------------------------------------------------- busy polling

  /**
    The status reads of a busy poll: every one but the last two reports busy, the
    second to last reports not busy, and the last is the address counter the poll returns.
  */
  function PollTransfers(input: seq<Byte>): (xs: seq<Transfer>)
    requires PollEnds(input)
    ensures |xs| >= 2
    ensures forall i :: 0 <= i < |xs| ==> xs[i].Rd? && xs[i].rs == 0
    ensures forall i :: 0 <= i < |xs| - 2 ==> Busy(xs[i].value)
    ensures !Busy(xs[|xs| - 2].value) && xs[|xs| - 1].value == Polling(input).counter
    decreases |input|
  {
    var c := Combine(input[0], input[1]);
    if Busy(c) then [Rd(0, c)] + PollTransfers(input[2..])
    else [Rd(0, c), Rd(0, Combine(input[2], input[3]))]
  }

  lemma {:induction false} PollDelivers(input: seq<Byte>)
    requires PollEnds(input)
    ensures Delivers(Polling(input).events, PollTransfers(input))
    decreases |input|
  {
    var c := Combine(input[0], input[1]);
    ReadDelivers(false, input[0], input[1]);
    if Busy(c) {
      DelayDelivers(DelayMs(1));
      PollDelivers(input[2..]);
      DeliversAppend(ReadEvents(false, input[0], input[1]), [Rd(0, c)], [DelayMs(1)], []);
      assert [Rd(0, c)] + [] == [Rd(0, c)];
      DeliversAppend(ReadEvents(false, input[0], input[1]) + [DelayMs(1)], [Rd(0, c)],
                     Polling(input[2..]).events, PollTransfers(input[2..]));
    } else {
      assert Polling(input).events == ReadEvents(false, input[0], input[1]) + [DelayUs(2)] + ReadEvents(false, input[2], input[3]);
      assert PollTransfers(input) == [Rd(0, c)] + [Rd(0, Combine(input[2], input[3]))];
      DelayDelivers(DelayUs(2));
      ReadDelivers(false, input[2], input[3]);
      DeliversAppend(ReadEvents(false, input[0], input[1]), [Rd(0, c)], [DelayUs(2)], []);
      assert [Rd(0, c)] + [] == [Rd(0, c)];
      DeliversAppend(ReadEvents(false, input[0], input[1]) + [DelayUs(2)], [Rd(0, c)],
                     ReadEvents(false, input[2], input[3]), [Rd(0, Combine(input[2], input[3]))]);
    }
  }

  // ---------------------------------------------------------------- commands and data

  lemma PollThenWriteGated(input: seq<Byte>, x: Transfer)
    requires PollEnds(input) && x.Wr?
    ensures Gated(PollTransfers(input) + [x])
  {
    var xs := PollTransfers(input) + [x];
    forall i | 0 <= i < |xs| && xs[i].Wr?
      ensures 2 <= i && xs[i - 2].Rd? && xs[i - 1].Rd? && xs[i - 2].rs == 0 && xs[i - 1].rs == 0
      ensures !Busy(xs[i - 2].value)
    {
      assert i == |xs| - 1;
    }
  }

  /** `Command(cmd)`: a busy poll, then `cmd` written as an instruction (RS low), gated on the poll. */
  lemma CommandDelivers(input: seq<Byte>, cmd: Byte)
    requires PollEnds(input)
    ensures Delivers(CommandEffect(input, cmd).events, PollTransfers(input) + [Wr(0, cmd)])
    ensures Gated(PollTransfers(input) + [Wr(0, cmd)])
  {
    PollDelivers(input);
    WriteDelivers(cmd, false);
    DeliversAppend(Polling(input).events, PollTransfers(input), WriteEvents(cmd, false), [Wr(0, cmd)]);
    PollThen(input, Wr(0, cmd));
  }

  /** `Data(b)`: a busy poll, then `b` written as data (RS high), gated on the poll. */
  lemma DataDelivers(input: seq<Byte>, b: Byte)
    requires PollEnds(input)
    ensures Delivers(DataEffect(input, b).events, PollTransfers(input) + [Wr(1, b)])
    ensures Gated(PollTransfers(input) + [Wr(1, b)])
  {
    PollDelivers(input);
    WriteDelivers(b, true);
    DeliversAppend(Polling(input).events, PollTransfers(input), WriteEvents(b, true), [Wr(1, b)]);
    PollThen(input, Wr(1, b));
  }

  lemma PollWrites(input: seq<Byte>, rs: Byte)
    requires PollEnds(input)
    ensures Writes(PollTransfers(input), rs) == []
    decreases |input|
  {
    var xs := PollTransfers(input);
    if Busy(Combine(input[0], input[1])) {
      PollWrites(input[2..], rs);
      assert xs[1..] == PollTransfers(input[2..]);
    } else {
      assert xs[1..][1..] == [];
    }
  }

  /** A poll followed by one write: the write is gated and is the only byte written. */
  lemma PollThen(input: seq<Byte>, x: Transfer)
    requires PollEnds(input) && x.Wr?
    ensures Gated(PollTransfers(input) + [x])
    ensures Writes(PollTransfers(input) + [x], 0) == (if x.rs == 0 then [x.value] else [])
    ensures Writes(PollTransfers(input) + [x], 1) == (if x.rs == 1 then [x.value] else [])
  {
    PollThenWriteGated(input, x);
    assert [x][1..] == [];
    WritesAppend(PollTransfers(input), [x], 0);
    WritesAppend(PollTransfers(input), [x], 1);
    PollWrites(input, 0);
    PollWrites(input, 1);
  }

  lemma Join(head: seq<Transfer>, tail: seq<Transfer>)
    requires Gated(head) && Gated(tail)
    ensures Gated(head + tail)
    ensures Writes(head + tail, 0) == Writes(head, 0) + Writes(tail, 0)
    ensures Writes(head + tail, 1) == Writes(head, 1) + Writes(tail, 1)
  {
    GatedAppend(head, tail);
    WritesAppend(head, tail, 0);
    WritesAppend(head, tail, 1);
  }

  /** What `Command` on each byte of `cmds` hands the controller. */
  function CommandsTransfers(input: seq<Byte>, cmds: seq<Byte>): (xs: seq<Transfer>)
    requires CommandsReady(input, cmds)
    ensures Gated(xs)
    ensures Writes(xs, 0) == cmds && Writes(xs, 1) == []
    decreases |cmds|
  {
    if cmds == [] then []
    else
      var head := PollTransfers(input) + [Wr(0, cmds[0])];
      var tail := CommandsTransfers(CommandEffect(input, cmds[0]).rest, cmds[1..]);
      PollThen(input, Wr(0, cmds[0]));
      Join(head, tail);
      HeadTail(cmds);
      head + tail
  }

  lemma {:induction false} CommandsDelivers(input: seq<Byte>, cmds: seq<Byte>)
    requires CommandsReady(input, cmds)
    ensures Delivers(CommandsEffect(input, cmds).events, CommandsTransfers(input, cmds))
    decreases |cmds|
  {
    if cmds == [] {
      forall p: Pins | p.e == 0 ensures DeliversFrom(p, [], []) { }
    } else {
      var e := CommandEffect(input, cmds[0]);
      CommandDelivers(input, cmds[0]);
      CommandsDelivers(e.rest, cmds[1..]);
      DeliversAppend(e.events, PollTransfers(input) + [Wr(0, cmds[0])],
                     CommandsEffect(e.rest, cmds[1..]).events, CommandsTransfers(e.rest, cmds[1..]));
    }
  }

  /** What `Init` hands the controller once every callback is present. */
  function InitTransfers(input: seq<Byte>, dispAttr: Byte): seq<Transfer>
    requires CommandsReady(input, InitCommands(dispAttr))
  {
    [Wr(0, 0x33), Wr(0, 0x32)] + CommandsTransfers(input, InitCommands(dispAttr))
  }

  /** `Init` hands the controller exactly `InitTransfers`. */
  lemma InitDelivers(input: seq<Byte>, dispAttr: Byte)
    requires CommandsReady(input, InitCommands(dispAttr))
    ensures Delivers(InitEffect(input, dispAttr).events, InitTransfers(input, dispAttr))
  {
    var mode := [Wr(0, 0x33), Wr(0, 0x32)];
    var modeEvents := WriteEvents(0x33, false) + WriteEvents(0x32, false);
    assert Delivers(modeEvents, mode) by {
      WriteDelivers(0x33, false);
      WriteDelivers(0x32, false);
      DeliversAppend(WriteEvents(0x33, false), [Wr(0, 0x33)], WriteEvents(0x32, false), [Wr(0, 0x32)]);
      assert [Wr(0, 0x33)] + [Wr(0, 0x32)] == mode;
    }
    CommandsDelivers(input, InitCommands(dispAttr));
    DeliversAppend(modeEvents, mode, CommandsEffect(input, InitCommands(dispAttr)).events,
                   CommandsTransfers(input, InitCommands(dispAttr)));
  }

  /**
    `Init` with every callback present: the controller receives the instruction bytes
    0x33, 0x32 (unpolled, to enter 4-bit mode), then function set, display off, clear,
    entry mode and the caller's display attributes, in that order, and no data byte;
    every instruction after the first two waits for the busy flag.
  */
  lemma InitWrites(input: seq<Byte>, dispAttr: Byte)
    requires CommandsReady(input, InitCommands(dispAttr))
    ensures var xs := InitTransfers(input, dispAttr);
      Writes(xs, 0) == [0x33, 0x32] + InitCommands(dispAttr) && Writes(xs, 1) == []
      && Gated(xs[2..])
  {
    var cs := CommandsTransfers(input, InitCommands(dispAttr));
    var mode := [Wr(0, 0x33), Wr(0, 0x32)];
    assert Writes(mode, 0) == [0x33, 0x32] && Writes(mode, 1) == [] by {
      assert mode[1..] == [Wr(0, 0x32)];
      assert mode[1..][1..] == [];
    }
    WritesAppend(mode, cs, 0);
    WritesAppend(mode, cs, 1);
    assert (mode + cs)[2..] == cs;
  }

  // ---------------------------------------------------------------- characters and strings

  /** `s` without its line feeds. */
  function WithoutLF(s: seq<Byte>): (r: seq<Byte>)
    ensures LF !in r && |r| <= |s|
  {
    if s == [] then [] else (if s[0] == LF then [] else [s[0]]) + WithoutLF(s[1..])
  }

  lemma {:induction false} WithoutLFAppend(a: seq<Byte>, b: seq<Byte>)
    ensures WithoutLF(a + b) == WithoutLF(a) + WithoutLF(b)
    decreases |a|
  {
    if a == [] {
      assert a + b == b;
    } else {
      var h := if a[0] == LF then [] else [a[0]];
      assert (a + b)[0] == a[0];
      assert (a + b)[1..] == a[1..] + b;
      WithoutLFAppend(a[1..], b);
      Regroup(h, WithoutLF(a[1..]), WithoutLF(b));
    }
  }


  /** What `Putc(c)` hands the controller. */
  function PutcTransfers(input: seq<Byte>, c: Byte): seq<Transfer>
    requires PutcReady(input, c)
  {
    var w := Polling(input);
    if c == LF then PollTransfers(input) + (PollTransfers(w.rest) + [Wr(0, DDRAM + NewLineAddress(w.counter))])
    else PollTransfers(input) + [Wr(1, c)]
  }

  /** `Putc(c)` hands the controller exactly `PutcTransfers`. */
  lemma PutcDelivers(input: seq<Byte>, c: Byte)
    requires PutcReady(input, c)
    ensures Delivers(PutcEffect(input, c).events, PutcTransfers(input, c))
  {
    var w := Polling(input);
    PollDelivers(input);
    if c == LF {
      var cmd := DDRAM + NewLineAddress(w.counter);
      CommandDelivers(w.rest, cmd);
      DeliversAppend(w.events, PollTransfers(input), CommandEffect(w.rest, cmd).events,
                     PollTransfers(w.rest) + [Wr(0, cmd)]);
    } else {
      WriteDelivers(c, true);
      DeliversAppend(w.events, PollTransfers(input), WriteEvents(c, true), [Wr(1, c)]);
    }
  }

  lemma WithoutLFOne(c: Byte)
    ensures WithoutLF([c]) == if c == LF then [] else [c]
  {
    assert [c][1..] == [];
  }

  lemma PutcLineFeed(input: seq<Byte>)
    requires PutcReady(input, LF)
    ensures Gated(PutcTransfers(input, LF))
    ensures Writes(PutcTransfers(input, LF), 1) == [] && |Writes(PutcTransfers(input, LF), 0)| == 1
  {
    var w := Polling(input);
    var cmd := DDRAM + NewLineAddress(w.counter);
    assert Gated(PollTransfers(input)) by {
      var xs := PollTransfers(input);
      forall i | 0 <= i < |xs| ensures !xs[i].Wr? { }
    }
    PollThen(w.rest, Wr(0, cmd));
    Join(PollTransfers(input), PollTransfers(w.rest) + [Wr(0, cmd)]);
    PollWrites(input, 0);
    PollWrites(input, 1);
  }

  /**
    `Putc(c)`: a line feed becomes one instruction, any other byte one data write;
    either write waits for the busy flag.
  */
  lemma PutcGated(input: seq<Byte>, c: Byte)
    requires PutcReady(input, c)
    ensures Gated(PutcTransfers(input, c))
    ensures Writes(PutcTransfers(input, c), 1) == WithoutLF([c])
    ensures |Writes(PutcTransfers(input, c), 0)| + |Writes(PutcTransfers(input, c), 1)| == 1
  {
    WithoutLFOne(c);
    if c == LF {
      PutcLineFeed(input);
    } else {
      PollThen(input, Wr(1, c));
      assert Writes(PutcTransfers(input, c), 1) == [c];
    }
  }

  /**
    What `Putc` on each byte of `cs` hands the controller: every byte of `cs` other than
    a line feed is written as data, in order; each line feed becomes one instruction
    (the row jump); and every write waits for the busy flag.
  */
  function PutsTransfers(input: seq<Byte>, cs: seq<Byte>): (xs: seq<Transfer>)
    requires PutsReady(input, cs)
    ensures Gated(xs)
    ensures Writes(xs, 1) == WithoutLF(cs)
    ensures |Writes(xs, 0)| + |Writes(xs, 1)| == |cs|
    decreases |cs|
  {
    if cs == [] then []
    else
      var head := PutcTransfers(input, cs[0]);
      var tail := PutsTransfers(PutcEffect(input, cs[0]).rest, cs[1..]);
      PutcGated(input, cs[0]);
      Join(head, tail);
      HeadTail(cs);
      WithoutLFAppend([cs[0]], cs[1..]);
      head + tail
  }

  lemma {:induction false} PutsDelivers(input: seq<Byte>, cs: seq<Byte>)
    requires PutsReady(input, cs)
    ensures Delivers(PutsEffect(input, cs).events, PutsTransfers(input, cs))
    decreases |cs|
  {
    if cs == [] {
      forall p: Pins | p.e == 0 ensures DeliversFrom(p, [], []) { }
    } else {
      var e := PutcEffect(input, cs[0]);
      PutcDelivers(input, cs[0]);
      PutsDelivers(e.rest, cs[1..]);
      DeliversAppend(e.events, PutcTransfers(input, cs[0]),
                     PutsEffect(e.rest, cs[1..]).events, PutsTransfers(e.rest, cs[1..]));
    }
  }
}
