/**
  What each operation of the HD44780 driver does, as pure functions.

  The bus-level operations are given as the exact sequence of platform calls they make
  (`WriteEvents`, `ReadEvents`, `Polling`, ...), as functions of the bytes the display
  returns on `ReadData`; `input` is that script of samples, consumed from the front.
  The arithmetic of the driver (nibble split and join, row addresses, the DDRAM
  command byte, the string prefix `Puts` prints) lives here too.
*/
module Hd44780Spec {
  import opened Wrappers
  import opened Bus

  // Instruction bytes (HD44780U instruction set).
  const CLEAR: Byte := 0x01                 // 1 << HD44780_CLR
  const HOME: Byte := 0x02                  // 1 << HD44780_HOME
  const MODE_DEFAULT: Byte := 0x06          // entry mode: increment, no shift
  const FUNCTION_4BIT_2LINES: Byte := 0x28  // function set: 4-bit, two lines, 5x7 dots
  const DDRAM: Byte := 0x80                 // 1 << HD44780_DDRAM: set DDRAM address

  // Display attributes and other commands offered to callers.
  const DISP_OFF: Byte := 0x08
  const DISP_ON: Byte := 0x0C
  const DISP_ON_BLINK: Byte := 0x0D
  const DISP_ON_CURSOR: Byte := 0x0E
  const DISP_ON_CURSOR_BLINK: Byte := 0x0F
  const ENTRY_DEC: Byte := 0x04
  const ENTRY_DEC_SHIFT: Byte := 0x05
  const ENTRY_INC: Byte := 0x06
  const ENTRY_INC_SHIFT: Byte := 0x07
  const MOVE_CURSOR_LEFT: Byte := 0x10
  const MOVE_CURSOR_RIGHT: Byte := 0x14
  const MOVE_DISP_LEFT: Byte := 0x18
  const MOVE_DISP_RIGHT: Byte := 0x1C

  // DDRAM address of the first character of each row.
  const START_LINE1: Byte := 0x00
  const START_LINE2: Byte := 0x40
  const START_LINE3: Byte := 0x14
  const START_LINE4: Byte := 0x54

  const LF: Byte := 0x0A   // '\n'
  const NUL: Byte := 0x00  // string terminator

  /** The bytes `Init` sends through `Command`, in order (written head by head). */
  function InitCommands(dispAttr: Byte): seq<Byte>
  {
    [FUNCTION_4BIT_2LINES] + ([DISP_OFF] + ([CLEAR] + ([MODE_DEFAULT] + [dispAttr])))
  }

  /** The start address of row `y`, counting from 0. */
  function RowStart(y: Byte): Byte
    requires y < 4
  {
    [START_LINE1, START_LINE2, START_LINE3, START_LINE4][y]
  }

  function Level(rs: bool): Byte
  {
    if rs then 1 else 0
  }

  // ---------------------------------------------------------------- nibbles

  /** A byte from two samples of DB7..DB4: the first gives bits 7..4, the second bits 3..0. */
  function Combine(s1: Byte, s2: Byte): (r: Byte)
    ensures r >> 4 == s1 >> 4 && r & 0x0F == s2 >> 4
  {
    (s1 & 0xF0) | (s2 >> 4)
  }

  /** One E pulse with a 1 us hold. */
  function Toggle(): seq<BusEvent>
  {
    [SetE(1), DelayUs(1), SetE(0)]
  }

  /** The calls that write `b` with RS = `rs`: high nibble, low nibble, then all lines high. */
  function WriteEvents(b: Byte, rs: bool): seq<BusEvent>
  {
    [SetRs(Level(rs)), SetRw(0), SetDir(1)]
    + ([WriteData(b & 0xF0)] + Toggle())
    + ([WriteData((b << 4) & 0xF0)] + Toggle())
    + [WriteData(0xFF)]
  }

  /** The calls that read one byte with RS = `rs`, given the two samples returned. */
  function ReadEvents(rs: bool, s1: Byte, s2: Byte): seq<BusEvent>
  {
    [SetRs(Level(rs)), SetRw(1), SetDir(0)]
    + [SetE(1), DelayUs(1), ReadData(s1), SetE(0)]
    + [DelayUs(1)]
    + [SetE(1), DelayUs(1), ReadData(s2), SetE(0)]
  }

  // ---------------------------------------------------------------- busy polling

  /**
    The script lets the busy poll finish: some status read reports bit 7 clear, and
    one more read (the address counter) follows it.
  */
  predicate PollEnds(input: seq<Byte>)
    decreases |input|
  {
    |input| >= 2 &&
    if Busy(Combine(input[0], input[1])) then PollEnds(input[2..]) else |input| >= 4
  }

  datatype Poll = Poll(events: seq<BusEvent>, counter: Byte, rest: seq<Byte>)

  /** The busy poll: status reads one millisecond apart until bit 7 is clear, then the address counter. */
  function Polling(input: seq<Byte>): (w: Poll)
    requires PollEnds(input)
    ensures |w.rest| + 4 <= |input|
    decreases |input|, 1
  {
    AfterStatus(input, Combine(input[0], input[1]))
  }

  /** The rest of the poll once the status read on the first two samples returned `status`. */
  function AfterStatus(input: seq<Byte>, status: Byte): (w: Poll)
    requires PollEnds(input) && status == Combine(input[0], input[1])
    ensures |w.rest| + 4 <= |input|
    decreases |input|, 0
  {
    if Busy(status) then
      var w := Polling(input[2..]);
      Poll(ReadEvents(false, input[0], input[1]) + [DelayMs(1)] + w.events, w.counter, w.rest)
    else
      Poll(ReadEvents(false, input[0], input[1]) + [DelayUs(2)] + ReadEvents(false, input[2], input[3]),
           Combine(input[2], input[3]), input[4..])
  }

  /** The effect of one operation: the calls it makes and the samples it leaves unread. */
  datatype Effect = Effect(events: seq<BusEvent>, rest: seq<Byte>)

  /** `Command(cmd)`: wait until not busy, then write `cmd` as an instruction. */
  function CommandEffect(input: seq<Byte>, cmd: Byte): Effect
    requires PollEnds(input)
  {
    var w := Polling(input);
    Effect(w.events + WriteEvents(cmd, false), w.rest)
  }

  /** `Data(b)`: wait until not busy, then write `b` as data. */
  function DataEffect(input: seq<Byte>, b: Byte): Effect
    requires PollEnds(input)
  {
    var w := Polling(input);
    Effect(w.events + WriteEvents(b, true), w.rest)
  }

  predicate CommandsReady(input: seq<Byte>, cmds: seq<Byte>)
    decreases |cmds|
  {
    cmds == [] || (PollEnds(input) && CommandsReady(CommandEffect(input, cmds[0]).rest, cmds[1..]))
  }

  /** `Command` on each byte of `cmds` in turn. */
  function CommandsEffect(input: seq<Byte>, cmds: seq<Byte>): Effect
    requires CommandsReady(input, cmds)
    decreases |cmds|
  {
    if cmds == [] then Effect([], input)
    else
      var e := CommandEffect(input, cmds[0]);
      var r := CommandsEffect(e.rest, cmds[1..]);
      Effect(e.events + r.events, r.rest)
  }

  /** `Init` once every callback is present: two unpolled mode writes, then the commands. */
  function InitEffect(input: seq<Byte>, dispAttr: Byte): Effect
    requires CommandsReady(input, InitCommands(dispAttr))
  {
    var c := CommandsEffect(input, InitCommands(dispAttr));
    Effect(WriteEvents(0x33, false) + WriteEvents(0x32, false) + c.events, c.rest)
  }

  // ---------------------------------------------------------------- cursor addressing

  /**
    The row start a line feed moves to from address `pos`: each row goes to the next
    one and the fourth back to the first.  The test for the third row comes after the
    test for the second, and is reached by every address from 0x14 up to 0x3F.
  */
  function NewLineAddress(pos: Byte): (a: Byte)
    ensures a == START_LINE2 <==> pos < START_LINE3
    ensures a == START_LINE3 <==> START_LINE2 <= pos < START_LINE4
    ensures a == START_LINE4 <==> START_LINE3 <= pos < START_LINE2
    ensures a == START_LINE1 <==> START_LINE4 <= pos
  {
    if pos < START_LINE3 then START_LINE2
    else if START_LINE2 <= pos && pos < START_LINE4 then START_LINE3
    else if START_LINE3 <= pos && pos < START_LINE2 then START_LINE4
    else START_LINE1
  }

  /**
    The command `GoToXY(x, y)` sends, if any: set DDRAM address to the start of row
    `y` plus `x`.  The sum is truncated to `uint8_t`, that is, taken modulo 256 (`Byte`
    addition wraps): while the address stays below 0x80 the result is a set-DDRAM-address
    instruction for exactly that address.
  */
  function GoToXYCommand(x: Byte, y: Byte): (r: Option<Byte>)
    ensures r.Some? <==> y < 4
    ensures y < 4 ==> r.value == DDRAM + RowStart(y) + x
    ensures y < 4 && x < 0x80 - RowStart(y) ==> r.value == DDRAM | (RowStart(y) + x) && r.value & 0x7F == RowStart(y) + x
  {
    if y == 0 then Some(DDRAM + START_LINE1 + x)
    else if y == 1 then Some(DDRAM + START_LINE2 + x)
    else if y == 2 then Some(DDRAM + START_LINE3 + x)
    else if y == 3 then Some(DDRAM + START_LINE4 + x)
    else None
  }

  // ---------------------------------------------------------------- characters and strings

  predicate PutcReady(input: seq<Byte>, c: Byte)
  {
    PollEnds(input) && (c == LF ==> PollEnds(Polling(input).rest))
  }

  /**
    `Putc(c)`: poll for the address counter; a line feed becomes a jump to the next
    row's start, any other byte is written as data.
  */
  function PutcEffect(input: seq<Byte>, c: Byte): Effect
    requires PutcReady(input, c)
  {
    var w := Polling(input);
    if c == LF then
      var e := CommandEffect(w.rest, DDRAM + NewLineAddress(w.counter));
      Effect(w.events + e.events, e.rest)
    else
      Effect(w.events + WriteEvents(c, true), w.rest)
  }

  predicate PutsReady(input: seq<Byte>, cs: seq<Byte>)
    decreases |cs|
  {
    cs == [] || (PutcReady(input, cs[0]) && PutsReady(PutcEffect(input, cs[0]).rest, cs[1..]))
  }

  /** `Putc` on each byte of `cs` in turn. */
  function PutsEffect(input: seq<Byte>, cs: seq<Byte>): Effect
    requires PutsReady(input, cs)
    decreases |cs|
  {
    if cs == [] then Effect([], input)
    else
      var e := PutcEffect(input, cs[0]);
      var r := PutsEffect(e.rest, cs[1..]);
      Effect(e.events + r.events, r.rest)
  }

  /** The index of the first NUL in `s`, or `|s|` if there is none. */
  function FirstNul(s: seq<Byte>): (n: nat)
    ensures n <= |s|
    ensures forall i :: 0 <= i < n ==> s[i] != NUL
    ensures n < |s| ==> s[n] == NUL
    decreases |s|
  {
    if s == [] || s[0] == NUL then 0 else 1 + FirstNul(s[1..])
  }

  /**
    `Puts(s, len)` reads only memory that `s` holds: with `len == 0` the string must be
    NUL-terminated; otherwise it must hold `len` bytes or a NUL before them.
  */
  predicate Terminated(s: seq<Byte>, len: Byte)
  {
    if len == 0 then FirstNul(s) < |s| else len as int <= |s| || FirstNul(s) < |s|
  }

  function Min(a: int, b: int): int
  {
    if a <= b then a else b
  }

  /**
    The bytes `Puts(s, len)` hands to `Putc`: everything before the first NUL when
    `len == 0`, otherwise the first `len` bytes, cut short by a NUL.
  */
  function PutsChars(s: seq<Byte>, len: Byte): (cs: seq<Byte>)
    requires Terminated(s, len)
    ensures cs <= s && NUL !in cs
    ensures len == 0 ==> |cs| < |s| && s[|cs|] == NUL
    ensures len != 0 ==> |cs| == len as int || (|cs| < len as int && |cs| < |s| && s[|cs|] == NUL)
  {
    s[..if len == 0 then FirstNul(s) else Min(len as int, FirstNul(s))]
  }

  // ---------------------------------------------------------------- properties

  /**
    On a display of four rows of 20 columns, a line feed anywhere in row `y` moves to
    the start of the next row, and one in the last row back to the first.
  */
  lemma NewLineCycles(y: Byte, x: Byte)
    requires y < 4 && x < 20
    ensures NewLineAddress(RowStart(y) + x) == RowStart((y + 1) % 4)
  {
  }

  /**
    `GoToXY` with a column past the end of the DDRAM address space: when the row start
    plus `x` reaches 0x80 (but not 0x100) the byte sent has bit 7 clear, so the controller
    takes it as some other instruction, the sum less 0x80.
  */
  lemma GoToXYOverflow(x: Byte, y: Byte)
    requires y < 4 && x <= 0xFF - RowStart(y) && RowStart(y) + x >= 0x80
    ensures GoToXYCommand(x, y).value & DDRAM == 0
    ensures GoToXYCommand(x, y).value == RowStart(y) + x - 0x80
  {
  }

  /** Column 0x2D of the fourth row sends the clear-display instruction. */
  lemma GoToXYClears()
    ensures GoToXYCommand(0x2D, 3) == Some(CLEAR)
  {
  }

  /**
    The address counter the busy poll returns is the last status read as it came,
    bit 7 included: a display that reports busy again on that read yields 0x80.
  */
  lemma PollingCounterUnmasked()
    ensures Polling([0x00, 0x00, 0x80, 0x00]).counter == 0x80
  {
  }
}
