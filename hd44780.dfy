/**
  The HD44780 driver: a handler that turns the public calls into platform callback calls.

  The nine callbacks of the C handler are modelled by what they do to the outside
  world: every call is appended to `trace`, and `PlatformReadData` returns the next
  byte of the scripted `input`.  `binding` says which callbacks the caller filled in;
  calling one that is missing would dereference NULL, so the bus operations require
  them.  Each method is proved against the function of module Hd44780Spec that gives
  its calls; module Delivery says what those calls hand the controller.
*/
module Hd44780 {
  import opened Wrappers
  import opened Bus
  import opened Hd44780Spec

  /** `HD44780_Result_t`. */
  datatype Status = Ok | Fail

  /** Which of the nine callbacks of the handler are non-NULL. */
  datatype Binding = Binding(
    initRsRwE: bool, setValRs: bool, setValRw: bool, setValE: bool, setDirData: bool,
    writeData: bool, readData: bool, delayMs: bool, delayUs: bool)
  {
    /** The eight callbacks `Init` insists on; `initRsRwE` is optional. */
    predicate Complete()
    {
      setValRs && setValRw && setValE && setDirData && writeData && readData && delayMs && delayUs
    }

    /** The callback that produces `ev` is present. */
    predicate Has(ev: BusEvent)
    {
      match ev
      case InitLines => initRsRwE
      case SetRs(_) => setValRs
      case SetRw(_) => setValRw
      case SetE(_) => setValE
      case SetDir(_) => setDirData
      case WriteData(_) => writeData
      case ReadData(_) => readData
      case DelayMs(_) => delayMs
      case DelayUs(_) => delayUs
    }
  }

  /** One busy status read of the poll, unfolded. */
  lemma PollingBusy(s: seq<Byte>)
    requires PollEnds(s) && Busy(Combine(s[0], s[1]))
    ensures PollEnds(s[2..])
    ensures Polling(s).events == ReadEvents(false, s[0], s[1]) + [DelayMs(1)] + Polling(s[2..]).events
    ensures Polling(s).counter == Polling(s[2..]).counter && Polling(s).rest == Polling(s[2..]).rest
  {
  }

  /** The last two status reads of the poll, unfolded. */
  lemma PollingReady(s: seq<Byte>)
    requires PollEnds(s) && !Busy(Combine(s[0], s[1]))
    ensures |s| >= 4
    ensures Polling(s).events == ReadEvents(false, s[0], s[1]) + [DelayUs(2)] + ReadEvents(false, s[2], s[3])
    ensures Polling(s).counter == Combine(s[2], s[3]) && Polling(s).rest == s[4..]
  {
  }

  /** A batch of commands that starts with `c`, unfolded. */
  lemma CommandsCons(input: seq<Byte>, c: Byte, cs: seq<Byte>)
    requires CommandsReady(input, [c] + cs)
    ensures PollEnds(input) && CommandsReady(CommandEffect(input, c).rest, cs)
    ensures CommandsEffect(input, [c] + cs).events
         == CommandEffect(input, c).events + CommandsEffect(CommandEffect(input, c).rest, cs).events
    ensures CommandsEffect(input, [c] + cs).rest == CommandsEffect(CommandEffect(input, c).rest, cs).rest
  {
    assert ([c] + cs)[0] == c && ([c] + cs)[1..] == cs;
  }

  /** A batch of a single command. */
  lemma CommandsOne(input: seq<Byte>, c: Byte)
    requires CommandsReady(input, [c])
    ensures PollEnds(input) && CommandsEffect(input, [c]) == CommandEffect(input, c)
  {
    assert [c][1..] == [];
    assert CommandEffect(input, c).events + [] == CommandEffect(input, c).events;
  }

  /** The set-up commands of `Init`, one after another. */
  lemma InitSteps(input: seq<Byte>, dispAttr: Byte)
    requires CommandsReady(input, InitCommands(dispAttr))
    ensures var e1 := CommandEffect(input, FUNCTION_4BIT_2LINES);
      PollEnds(input) && PollEnds(e1.rest)
      && var e2 := CommandEffect(e1.rest, DISP_OFF);
      PollEnds(e2.rest)
      && var e3 := CommandEffect(e2.rest, CLEAR);
      PollEnds(e3.rest)
      && var e4 := CommandEffect(e3.rest, MODE_DEFAULT);
      PollEnds(e4.rest)
      && var e5 := CommandEffect(e4.rest, dispAttr);
      InitEffect(input, dispAttr).events
        == WriteEvents(0x33, false) + WriteEvents(0x32, false) + e1.events + e2.events + e3.events + e4.events + e5.events
      && InitEffect(input, dispAttr).rest == e5.rest
  {
    var tail2 := [MODE_DEFAULT] + [dispAttr];
    var tail3 := [CLEAR] + tail2;
    var tail4 := [DISP_OFF] + tail3;
    CommandsCons(input, FUNCTION_4BIT_2LINES, tail4);
    var e1 := CommandEffect(input, FUNCTION_4BIT_2LINES);
    CommandsCons(e1.rest, DISP_OFF, tail3);
    var e2 := CommandEffect(e1.rest, DISP_OFF);
    CommandsCons(e2.rest, CLEAR, tail2);
    var e3 := CommandEffect(e2.rest, CLEAR);
    CommandsCons(e3.rest, MODE_DEFAULT, [dispAttr]);
    var e4 := CommandEffect(e3.rest, MODE_DEFAULT);
    CommandsOne(e4.rest, dispAttr);
    var e5 := CommandEffect(e4.rest, dispAttr);
    var w := WriteEvents(0x33, false) + WriteEvents(0x32, false);
    Regroup(w + e1.events + e2.events + e3.events, e4.events, e5.events);
    Regroup(w + e1.events + e2.events, e3.events, e4.events + e5.events);
    Regroup(w + e1.events, e2.events, e3.events + (e4.events + e5.events));
    Regroup(w, e1.events, e2.events + (e3.events + (e4.events + e5.events)));
  }

  /** The character at `i` of a string being printed, unfolded. */
  lemma PutsCons(input: seq<Byte>, cs: seq<Byte>, i: nat)
    requires i < |cs| && PutsReady(input, cs[i..])
    ensures PutcReady(input, cs[i]) && PutsReady(PutcEffect(input, cs[i]).rest, cs[i + 1..])
    ensures PutsEffect(input, cs[i..]).events
         == PutcEffect(input, cs[i]).events + PutsEffect(PutcEffect(input, cs[i]).rest, cs[i + 1..]).events
    ensures PutsEffect(input, cs[i..]).rest == PutsEffect(PutcEffect(input, cs[i]).rest, cs[i + 1..]).rest
  {
    assert cs[i..][0] == cs[i] && cs[i..][1..] == cs[i + 1..];
  }

  /**
    Reading the string at `i` while printing it: the byte is there to read, it is the
    NUL that stops `Puts` exactly when everything to print has been printed, and
    otherwise it is the next byte to print.
  */
  lemma PutsStep(s: seq<Byte>, len: Byte, i: nat)
    requires Terminated(s, len) && i <= |PutsChars(s, len)|
    requires len != 0 ==> i < len as int
    ensures i < |s|
    ensures s[i] == NUL <==> i == |PutsChars(s, len)|
    ensures s[i] != NUL ==> PutsChars(s, len)[i] == s[i]
  {
    var cs := PutsChars(s, len);
    if i < |cs| {
      assert cs[i] == s[i] && cs[i] in cs;
    }
  }

  /** One `Putc` of a string being printed takes the printing invariant from `i` to `i + 1`. */
  lemma PutsAdvance(t: seq<BusEvent>, input: seq<Byte>, cs: seq<Byte>, i: nat, goal: seq<BusEvent>)
    requires i < |cs| && PutsReady(input, cs[i..]) && t + PutsEffect(input, cs[i..]).events == goal
    ensures PutcReady(input, cs[i])
    ensures PutsReady(PutcEffect(input, cs[i]).rest, cs[i + 1..])
    ensures t + PutcEffect(input, cs[i]).events + PutsEffect(PutcEffect(input, cs[i]).rest, cs[i + 1..]).events == goal
    ensures PutsEffect(PutcEffect(input, cs[i]).rest, cs[i + 1..]).rest == PutsEffect(input, cs[i..]).rest
  {
    PutsCons(input, cs, i);
    Regroup(t, PutcEffect(input, cs[i]).events, PutsEffect(PutcEffect(input, cs[i]).rest, cs[i + 1..]).events);
  }

  class Handler {
    var lines: Byte
    var length: Byte
    const binding: Binding
    /** Every callback call made so far, in order. */
    var trace: seq<BusEvent>
    /** The samples `PlatformReadData` has still to return. */
    var input: seq<Byte>

    /** A zero-initialised handler whose callbacks are `binding`, on a display that will answer `script`. */
    constructor (binding: Binding, script: seq<Byte>)
      ensures this.binding == binding && trace == [] && input == script
      ensures lines == 0 && length == 0
    {
      this.binding := binding;
      trace := [];
      input := script;
      lines := 0;
      length := 0;
    }

    /** A call of one of the callbacks that return nothing. */
    method Emit(ev: BusEvent)
      requires binding.Has(ev) && !ev.ReadData?
      modifies this`trace
      ensures trace == old(trace) + [ev]
    {
      trace := trace + [ev];
    }

    /** `PlatformInitRsRwE`, which is optional: called when present, skipped otherwise. */
    method InitLinesIfPresent()
      modifies this`trace
      ensures trace == old(trace) + (if binding.initRsRwE then [InitLines] else [])
    {
      if binding.initRsRwE {
        Emit(InitLines);
      }
    }

    /** `PlatformReadData`: the display answers with the next scripted sample. */
    method Sample() returns (v: Byte)
      requires binding.readData && input != []
      modifies this`trace, this`input
      ensures v == old(input)[0] && input == old(input)[1..]
      ensures trace == old(trace) + [ReadData(v)]
    {
      v := input[0];
      input := input[1..];
      trace := trace + [ReadData(v)];
    }

    /** `HD44780_ToggleE`: E high, 1 us, E low. */
    method ToggleE()
      requires binding.Complete()
      modifies this`trace
      ensures trace == old(trace) + Toggle()
    {
      Emit(SetE(1));
      Emit(DelayUs(1));
      Emit(SetE(0));
    }

    /** RS set to the register chosen (instruction low, data high), then R/W and the data direction. */
    method SetLines(rs: bool, rw: Byte, dir: Byte)
      requires binding.Complete()
      modifies this`trace
      ensures trace == old(trace) + [SetRs(Level(rs)), SetRw(rw), SetDir(dir)]
    {
      if rs {
        Emit(SetRs(1));
      } else {
        Emit(SetRs(0));
      }
      Emit(SetRw(rw));
      Emit(SetDir(dir));
    }

    /** One nibble of a write: the byte on the data lines, then an E pulse. */
    method WriteNibble(v: Byte)
      requires binding.Complete()
      modifies this`trace
      ensures trace == old(trace) + ([WriteData(v)] + Toggle())
    {
      Emit(WriteData(v));
      ToggleE();
    }

    /** One E pulse of a read, sampling the data lines while E is high. */
    method ReadNibble() returns (v: Byte)
      requires binding.Complete() && input != []
      modifies this`trace, this`input
      ensures v == old(input)[0] && input == old(input)[1..]
      ensures trace == old(trace) + [SetE(1), DelayUs(1), ReadData(v), SetE(0)]
    {
      Emit(SetE(1));
      Emit(DelayUs(1));
      v := Sample();
      Emit(SetE(0));
    }

    /** `HD44780_Read`: two nibbles, sampled while E is high, high nibble first. */
    method Read(rs: bool) returns (data: Byte)
      requires binding.Complete() && |input| >= 2
      modifies this`trace, this`input
      ensures data == Combine(old(input)[0], old(input)[1])
      ensures trace == old(trace) + ReadEvents(rs, old(input)[0], old(input)[1])
      ensures input == old(input)[2..]
    {
      SetLines(rs, 1, 0);
      var s1 := ReadNibble();
      data := s1 & 0xF0;
      Emit(DelayUs(1));
      var s2 := ReadNibble();
      data := data | (s2 >> 4);
      Regroup4(old(trace), [SetRs(Level(rs)), SetRw(1), SetDir(0)], [SetE(1), DelayUs(1), ReadData(s1), SetE(0)],
               [DelayUs(1)], [SetE(1), DelayUs(1), ReadData(s2), SetE(0)]);
      assert old(input)[1..][1..] == old(input)[2..];
    }

    /** `HD44780_Write`: high nibble, low nibble, then all data lines high. */
    method Write(data: Byte, rs: bool)
      requires binding.Complete()
      modifies this`trace
      ensures trace == old(trace) + WriteEvents(data, rs)
    {
      SetLines(rs, 0, 1);
      WriteNibble(data & 0xF0);
      WriteNibble((data << 4) & 0xF0);
      Emit(WriteData(0xFF));
      Regroup4(old(trace), [SetRs(Level(rs)), SetRw(0), SetDir(1)], [WriteData(data & 0xF0)] + Toggle(),
               [WriteData((data << 4) & 0xF0)] + Toggle(), [WriteData(0xFF)]);
    }

    /**
      `HD44780_WaitBusy`: status reads 1 ms apart while bit 7 is set, then 2 us and one
      more status read, whose byte (the address counter) is returned as read.
    */
    method WaitBusy() returns (c: Byte)
      requires binding.Complete() && PollEnds(input)
      modifies this`trace, this`input
      ensures c == Polling(old(input)).counter
      ensures trace == old(trace) + Polling(old(input)).events
      ensures input == Polling(old(input)).rest
    {
      ghost var s := input;   // the samples of the status read just made
      ghost var t0 := trace;  // the trace before it
      c := Read(false);
      while Busy(c)
        invariant PollEnds(s) && input == s[2..] && c == Combine(s[0], s[1])
        invariant trace == t0 + ReadEvents(false, s[0], s[1])
        invariant t0 + Polling(s).events == old(trace) + Polling(old(input)).events
        invariant Polling(s).counter == Polling(old(input)).counter
        invariant Polling(s).rest == Polling(old(input)).rest
        decreases |input|
      {
        Emit(DelayMs(1));
        PollingBusy(s);
        Regroup3(t0, ReadEvents(false, s[0], s[1]), [DelayMs(1)], Polling(input).events);
        s, t0 := input, trace;
        c := Read(false);
      }
      Emit(DelayUs(2));
      c := Read(false);
      PollingReady(s);
      Regroup3(t0, ReadEvents(false, s[0], s[1]), [DelayUs(2)], ReadEvents(false, s[2], s[3]));
      assert s[2..][2..] == s[4..];
    }

    /** `HD44780_NewLine`: jump to the start of the row after the one holding `pos`. */
    method NewLine(pos: Byte)
      requires binding.Complete() && PollEnds(input)
      modifies this`trace, this`input
      ensures trace == old(trace) + CommandEffect(old(input), DDRAM + NewLineAddress(pos)).events
      ensures input == CommandEffect(old(input), DDRAM + NewLineAddress(pos)).rest
    {
      var _ := Command(DDRAM + NewLineAddress(pos));
    }

    /**
      `HD44780_Init`: run the line-setup hook if there is one; fail, changing nothing
      else, unless the other eight callbacks are all present; otherwise record the
      geometry, force 4-bit mode with two unpolled writes and send the set-up commands.
    */
    method Init(lines: Byte, length: Byte, dispAttr: Byte) returns (r: Status)
      requires binding.Complete() ==> CommandsReady(input, InitCommands(dispAttr))
      modifies this`trace, this`input, this`lines, this`length
      ensures r == Ok <==> binding.Complete()
      ensures r == Fail ==>
        trace == old(trace) + (if binding.initRsRwE then [InitLines] else [])
        && input == old(input) && this.lines == old(this.lines) && this.length == old(this.length)
      ensures r == Ok ==>
        trace == old(trace) + (if binding.initRsRwE then [InitLines] else []) + InitEffect(old(input), dispAttr).events
        && input == InitEffect(old(input), dispAttr).rest && this.lines == lines && this.length == length
    {
      InitLinesIfPresent();
      if !binding.setValRs || !binding.setValRw || !binding.setValE || !binding.setDirData
        || !binding.writeData || !binding.readData || !binding.delayMs || !binding.delayUs
      {
        return Fail;
      }
      this.lines := lines;
      this.length := length;
      Configure(dispAttr);
      Regroup(old(trace), if binding.initRsRwE then [InitLines] else [], InitEffect(old(input), dispAttr).events);
      return Ok;
    }

    /**
      The configuration sequence of `HD44780_Init` once every callback is known to be
      present: force 4-bit mode with two unpolled writes, then the set-up commands.
    */
    method Configure(dispAttr: Byte)
      requires binding.Complete() && CommandsReady(input, InitCommands(dispAttr))
      modifies this`trace, this`input
      ensures trace == old(trace) + InitEffect(old(input), dispAttr).events
      ensures input == InitEffect(old(input), dispAttr).rest
    {
      InitSteps(input, dispAttr);
      Write(0x33, false);
      ghost var acc := WriteEvents(0x33, false);  // what the trace has gained so far
      Write(0x32, false);
      Regroup(old(trace), acc, WriteEvents(0x32, false));
      acc := acc + WriteEvents(0x32, false);
      ghost var i1 := input;
      var _ := Command(FUNCTION_4BIT_2LINES);
      Regroup(old(trace), acc, CommandEffect(i1, FUNCTION_4BIT_2LINES).events);
      acc := acc + CommandEffect(i1, FUNCTION_4BIT_2LINES).events;
      ghost var i2 := input;
      var _ := Command(DISP_OFF);
      Regroup(old(trace), acc, CommandEffect(i2, DISP_OFF).events);
      acc := acc + CommandEffect(i2, DISP_OFF).events;
      ghost var i3 := input;
      var _ := ClearScreen();
      Regroup(old(trace), acc, CommandEffect(i3, CLEAR).events);
      acc := acc + CommandEffect(i3, CLEAR).events;
      ghost var i4 := input;
      var _ := Command(MODE_DEFAULT);
      Regroup(old(trace), acc, CommandEffect(i4, MODE_DEFAULT).events);
      acc := acc + CommandEffect(i4, MODE_DEFAULT).events;
      ghost var i5 := input;
      var _ := Command(dispAttr);
      Regroup(old(trace), acc, CommandEffect(i5, dispAttr).events);
    }

    /** `HD44780_ClearScreen`: the clear-display instruction. */
    method ClearScreen() returns (r: Status)
      requires binding.Complete() && PollEnds(input)
      modifies this`trace, this`input
      ensures r == Ok
      ensures trace == old(trace) + CommandEffect(old(input), CLEAR).events
      ensures input == CommandEffect(old(input), CLEAR).rest
    {
      var _ := Command(CLEAR);
      return Ok;
    }

    /** `HD44780_Home`: the return-home instruction. */
    method Home() returns (r: Status)
      requires binding.Complete() && PollEnds(input)
      modifies this`trace, this`input
      ensures r == Ok
      ensures trace == old(trace) + CommandEffect(old(input), HOME).events
      ensures input == CommandEffect(old(input), HOME).rest
    {
      var _ := Command(HOME);
      return Ok;
    }

    /** `HD44780_GoToXY`: a set-DDRAM-address command for rows 0 to 3; other rows do nothing. */
    method GoToXY(x: Byte, y: Byte) returns (r: Status)
      requires binding.Complete() && (y < 4 ==> PollEnds(input))
      modifies this`trace, this`input
      ensures r == Ok
      ensures GoToXYCommand(x, y).None? ==> trace == old(trace) && input == old(input)
      ensures GoToXYCommand(x, y).Some? ==>
        trace == old(trace) + CommandEffect(old(input), GoToXYCommand(x, y).value).events
        && input == CommandEffect(old(input), GoToXYCommand(x, y).value).rest
    {
      if y == 0 {
        var _ := Command(DDRAM + START_LINE1 + x);
      } else if y == 1 {
        var _ := Command(DDRAM + START_LINE2 + x);
      } else if y == 2 {
        var _ := Command(DDRAM + START_LINE3 + x);
      } else if y == 3 {
        var _ := Command(DDRAM + START_LINE4 + x);
      }
      return Ok;
    }

    /** `HD44780_Putc`: poll for the address counter, then a row jump for '\n' or a data write. */
    method Putc(c: Byte) returns (r: Status)
      requires binding.Complete() && PutcReady(input, c)
      modifies this`trace, this`input
      ensures r == Ok
      ensures trace == old(trace) + PutcEffect(old(input), c).events
      ensures input == PutcEffect(old(input), c).rest
    {
      var pos := WaitBusy();
      if c == LF {
        ghost var i := input;
        NewLine(pos);
        Regroup(old(trace), Polling(old(input)).events, CommandEffect(i, DDRAM + NewLineAddress(pos)).events);
      } else {
        Write(c, true);
        Regroup(old(trace), Polling(old(input)).events, WriteEvents(c, true));
      }
      return Ok;
    }

    /**
      `HD44780_Puts`: `s` is the memory from `Str` on.  With `len == 0` print up to the
      terminating NUL; otherwise print at most `len` bytes, stopping early at a NUL.
    */
    method Puts(s: seq<Byte>, len: Byte) returns (r: Status)
      requires binding.Complete() && Terminated(s, len) && PutsReady(input, PutsChars(s, len))
      modifies this`trace, this`input
      ensures r == Ok
      ensures trace == old(trace) + PutsEffect(old(input), PutsChars(s, len)).events
      ensures input == PutsEffect(old(input), PutsChars(s, len)).rest
    {
      if len == 0 {
        PutsUntilNul(s);
      } else {
        PutsAtMost(s, len);
      }
      return Ok;
    }

    /** The `Len == 0` branch of `HD44780_Puts`: `Putc` on each byte before the NUL. */
    method PutsUntilNul(s: seq<Byte>)
      requires binding.Complete() && Terminated(s, 0) && PutsReady(input, PutsChars(s, 0))
      modifies this`trace, this`input
      ensures trace == old(trace) + PutsEffect(old(input), PutsChars(s, 0)).events
      ensures input == PutsEffect(old(input), PutsChars(s, 0)).rest
    {
      ghost var cs := PutsChars(s, 0);
      ghost var goal := old(trace) + PutsEffect(old(input), cs).events;
      ghost var rest := PutsEffect(old(input), cs).rest;
      var i := 0;
      PutsStep(s, 0, i);
      while s[i] != NUL
        invariant i <= |cs| && i < |s|
        invariant PutsReady(input, cs[i..])
        invariant trace + PutsEffect(input, cs[i..]).events == goal && PutsEffect(input, cs[i..]).rest == rest
        decreases |s| - i
      {
        PutsStep(s, 0, i);
        PutsAdvance(trace, input, cs, i, goal);
        var _ := Putc(s[i]);
        i := i + 1;
        PutsStep(s, 0, i);
      }
      PutsStep(s, 0, i);
      assert cs[i..] == [];
    }

    /** The `Len != 0` branch of `HD44780_Puts`: `Putc` on at most `len` bytes, stopping at a NUL. */
    method PutsAtMost(s: seq<Byte>, len: Byte)
      requires binding.Complete() && len != 0 && Terminated(s, len) && PutsReady(input, PutsChars(s, len))
      modifies this`trace, this`input
      ensures trace == old(trace) + PutsEffect(old(input), PutsChars(s, len)).events
      ensures input == PutsEffect(old(input), PutsChars(s, len)).rest
    {
      ghost var cs := PutsChars(s, len);
      ghost var goal := old(trace) + PutsEffect(old(input), cs).events;
      ghost var rest := PutsEffect(old(input), cs).rest;
      var i := 0;
      var n: nat := len as int;  // `Len`, counted down; the loop stops before it would wrap
      while n != 0
        invariant i + n == len as int && i <= |cs| <= len as int
        invariant PutsReady(input, cs[i..])
        invariant trace + PutsEffect(input, cs[i..]).events == goal && PutsEffect(input, cs[i..]).rest == rest
        decreases n
      {
        n := n - 1;
        PutsStep(s, len, i);
        var c := s[i];
        if c == NUL {
          assert i == |cs|;
          break;
        }
        PutsAdvance(trace, input, cs, i, goal);
        var _ := Putc(c);
        i := i + 1;
      }
      assert cs[i..] == [];
    }

    /** `HD44780_Command`: wait until not busy, then write `cmd` as an instruction. */
    method Command(cmd: Byte) returns (r: Status)
      requires binding.Complete() && PollEnds(input)
      modifies this`trace, this`input
      ensures r == Ok
      ensures trace == old(trace) + CommandEffect(old(input), cmd).events
      ensures input == CommandEffect(old(input), cmd).rest
    {
      var _ := WaitBusy();
      Write(cmd, false);
      Regroup(old(trace), Polling(old(input)).events, WriteEvents(cmd, false));
      return Ok;
    }

    /** `HD44780_Data`: wait until not busy, then write `b` as data, '\n' included. */
    method Data(b: Byte) returns (r: Status)
      requires binding.Complete() && PollEnds(input)
      modifies this`trace, this`input
      ensures r == Ok
      ensures trace == old(trace) + DataEffect(old(input), b).events
      ensures input == DataEffect(old(input), b).rest
    {
      var _ := WaitBusy();
      Write(b, true);
      Regroup(old(trace), Polling(old(input)).events, WriteEvents(b, true));
      return Ok;
    }
  }
}
