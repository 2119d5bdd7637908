# HD44780 driver in Dafny

A model of the HD44780 character-LCD driver in `src/HD44780.c`, with proofs about it.
The driver runs the controller in 4-bit mode through nine platform callbacks:
`PlatformInitRsRwE`, `PlatformSetValRs`, `PlatformSetValRw`, `PlatformSetValE`,
`PlatformSetDirData`, `PlatformWriteData`, `PlatformReadData`, `PlatformDelayMs` and
`PlatformDelayUs`. Every other effect of the driver goes through these callbacks.

The project has four modules.

- **`Bus`** (`bus.dfy`) states what a sequence of callback calls means to the controller,
  independently of the driver.
  - Each call is a `BusEvent`.
  - `Run` replays a trace on the levels of RS, RW, E and DB7..DB4. On every falling
    edge of E it records a pulse: a nibble the controller latched (RW low), or a nibble
    it drove while the host sampled the data lines (RW high).
  - `Transfers` pairs consecutive pulses into the bytes of 4-bit mode, high nibble
    first.
  - `Delivers(t, xs)` says that, from any state with E low, trace `t` hands the
    controller exactly the transfers `xs` and leaves E low.
  - `Gated(xs)` says that every byte written comes right after two status reads, the
    first of which found the busy flag (bit 7) clear.
  - `Writes(xs, rs)` lists the bytes written with RS at level `rs`.
- **`Hd44780Spec`** (`hd44780_spec.dfy`) gives each driver operation as a pure
  function: the exact callback calls the operation makes, as a function of the bytes
  `PlatformReadData` returns. It also holds the driver's arithmetic:
  - the nibble join of a read;
  - the row-address table of a line feed;
  - the `GoToXY` command byte, computed modulo 256;
  - the prefix of a string that `Puts` prints.
- **`Hd44780`** (`hd44780.dfy`) is the handler as a class.
  - `trace` records every callback call. `input` is the script of bytes
    `PlatformReadData` will return. `binding` records which callbacks are non-NULL.
    `lines` and `length` are the two fields `Init` stores.
  - Each method is the C function step by step. Its postcondition ties the new trace
    and the new script to the function of `Hd44780Spec` for that operation.
- **`Delivery`** (`hd44780_delivery.dfy`) replays those functions on the bus model.
  It proves:
  - a write hands over exactly the byte written, and a read returns exactly the byte
    the controller drove;
  - every instruction or data byte after `Init`'s two mode writes waits for the busy
    flag;
  - `Init` sends its instruction bytes in order;
  - `Putc` and `Puts` write the bytes of the string other than line feeds, in order,
    as data, and turn each line feed into one instruction.

## Notes on the code

- **`HD44780_NewLine`** (src/HD44780.c:167-182). Its third branch tests a range whose
  bounds look reversed, since row 3 starts below row 2, so it is easy to take it for dead
  code. It is not: addresses 0x14 to 0x3F fail the first two tests and select row 4.
  `Hd44780Spec.NewLineAddress` states each branch's input range as an if-and-only-if.
  `Hd44780Spec.NewLineCycles` proves that a line feed moves from any column of row 1,
  2, 3 or 4 to the start of row 2, 3, 4 or 1 respectively.
- **`HD44780_WaitBusy`** (src/HD44780.c:151-165) returns its last status read as it
  came, busy flag included, although the address counter is only the low 7 bits.
- **`HD44780_GoToXY`** (src/HD44780.c:276-299) adds the row start and `X` in 8 bits. A
  column past the end of the address space therefore becomes another instruction.
  For example, `GoToXY(0x2D, 3)` sends 0x01, which clears the display.

## Model

| member | source | states |
|---|---|---|
| Hd44780.Handler.constructor | src/include/HD44780.h:96-110 | A handler starts with the given callbacks present, an empty trace, the given read script, and `Lines` and `Length` zero. |
| Hd44780.Handler.InitLinesIfPresent | src/HD44780.c:208-209 | `PlatformInitRsRwE` is called exactly when it is non-NULL. |
| Hd44780.Handler.ToggleE | src/HD44780.c:83-89 | One E pulse: E high, 1 us, E low, appended to the trace. |
| Hd44780.Handler.SetLines | src/HD44780.c:96-104 | RS is set to 1 for the data register and 0 for the instruction register, then R/W, then the direction of the data lines. |
| Hd44780.Handler.WriteNibble | src/HD44780.c:140-145 | A nibble write is the byte on the data lines followed by one E pulse. |
| Hd44780.Handler.ReadNibble | src/HD44780.c:105-108 | A nibble read samples the data lines while E is high, takes the next scripted byte and consumes it. |
| Hd44780.Handler.Read | src/HD44780.c:91-119 | The trace grows by exactly the calls of a two-nibble read with the chosen RS. The result is the `Combine` of the two samples, and both samples are consumed. |
| Hd44780.Handler.Write | src/HD44780.c:121-149 | The trace grows by exactly RS, RW=0, output direction, the high nibble and a pulse, the low nibble and a pulse, then 0xFF. |
| Hd44780.Handler.WaitBusy | src/HD44780.c:151-165 | The loop makes exactly the calls of `Polling`: status reads 1 ms apart while bit 7 is set, then 2 us, then one more read. That last read is returned unmasked. |
| Hd44780.Handler.NewLine | src/HD44780.c:167-182 | A line feed is exactly one `Command(0x80 + NewLineAddress(pos))`. |
| Hd44780.Handler.Init | src/HD44780.c:202-235 | Returns OK if and only if all eight required callbacks are present. On failure only the optional hook runs, and the script, `Lines` and `Length` are unchanged. On success the fields are stored and the trace grows by the hook, then `InitEffect`. |
| Hd44780.Handler.Configure | src/HD44780.c:224-232 | The configuration part of `Init`: two unpolled writes of 0x33 and 0x32, then `Command` on 0x28, 0x08, 0x01, 0x06 and the display attributes, in that order. |
| Hd44780.Handler.ClearScreen | src/HD44780.c:244-250 | Exactly `Command(0x01)`; returns OK. |
| Hd44780.Handler.Home | src/HD44780.c:259-265 | Exactly `Command(0x02)`; returns OK. |
| Hd44780.Handler.GoToXY | src/HD44780.c:276-299 | For rows 0 to 3, exactly one `Command` of the byte `GoToXYCommand` gives. For any other row, no callback call at all. Always OK. |
| Hd44780.Handler.Putc | src/HD44780.c:309-325 | A busy poll for the address counter, then a line feed becomes `NewLine` of that counter and any other byte a data write. Always OK. |
| Hd44780.Handler.Puts | src/HD44780.c:338-362 | `Putc` on each byte of `PutsChars(s, len)` in order, and nothing else. Always OK. |
| Hd44780.Handler.PutsUntilNul | src/HD44780.c:343-349 | The `Len == 0` loop calls `Putc` on every byte before the first NUL, proved with a loop invariant against `PutsEffect`. |
| Hd44780.Handler.PutsAtMost | src/HD44780.c:350-359 | The counted loop calls `Putc` on the first `Len` bytes, and stops early at a NUL. |
| Hd44780.Handler.Command | src/HD44780.c:372-379 | A busy poll, then the byte written with RS low. |
| Hd44780.Handler.Data | src/HD44780.c:390-397 | A busy poll, then the byte written with RS high; a line feed is not interpreted. |
| Hd44780Spec.Combine | src/HD44780.c:107-115 | The byte read has bits 7..4 from the first sample and bits 3..0 from bits 7..4 of the second. |
| Hd44780Spec.Polling | src/HD44780.c:156-164 | Every poll uses at least two status reads, so it consumes at least four samples. |
| Hd44780Spec.NewLineAddress | src/HD44780.c:170-177 | Each row start is chosen exactly on its range: 0x40 below 0x14; 0x14 on 0x40..0x53; 0x54 on 0x14..0x3F; 0x00 from 0x54 up. |
| Hd44780Spec.NewLineCycles | src/HD44780.c:170-177 | On four rows of 20 columns, a line feed from any column of a row goes to the start of the next row, and from the last row to the first. |
| Hd44780Spec.GoToXYCommand | src/HD44780.c:278-296 | There is a command exactly for rows 0 to 3. It equals 0x80 + row start + `X` modulo 256. Within the address space it is a set-DDRAM-address instruction for exactly that address. |
| Hd44780Spec.GoToXYOverflow | src/HD44780.c:278-296 | When row start + `X` reaches 0x80 without passing 0xFF, the byte sent has bit 7 clear and equals the sum less 0x80. |
| Hd44780Spec.GoToXYClears | src/HD44780.c:293-294 | Column 0x2D of the fourth row sends 0x01, the clear-display instruction. |
| Hd44780Spec.PollingCounterUnmasked | src/HD44780.c:163-164 | A final status read of 0x80 is returned as 0x80, bit 7 included. |
| Hd44780Spec.FirstNul | src/HD44780.c:345 | The index of the first NUL: no NUL before it, and a NUL at it unless it is the length. |
| Hd44780Spec.PutsChars | src/HD44780.c:343-358 | What `Puts` prints is a NUL-free prefix of the string. With `Len == 0` it ends at the first NUL. Otherwise it has `Len` bytes or ends early at a NUL. |
| Delivery.WriteDelivers | src/HD44780.c:121-149 | From any bus state with E low, a write hands the controller exactly one byte: the byte written, with the chosen RS. E is low again afterwards. |
| Delivery.ReadDelivers | src/HD44780.c:91-119 | A read is exactly one read transfer. Its value is the `Combine` of the samples the controller presented. |
| Delivery.PollTransfers | src/HD44780.c:151-165 | A busy poll is only status reads with RS low. Every one reports busy except the last two. The second to last reports not busy, and the last is the counter returned. |
| Delivery.PollDelivers | src/HD44780.c:151-165 | The calls of a busy poll hand the controller exactly `PollTransfers`. |
| Delivery.CommandDelivers | src/HD44780.c:372-379 | `Command` is the poll's reads and then the instruction byte, and the write is gated on the busy flag. |
| Delivery.DataDelivers | src/HD44780.c:390-397 | `Data` is the poll's reads and then the data byte, and the write is gated on the busy flag. |
| Delivery.CommandsTransfers | src/HD44780.c:228-232 | A run of `Command` calls writes exactly its bytes as instructions, in order, and no data. Every write is gated. |
| Delivery.CommandsDelivers | src/HD44780.c:228-232 | A run of `Command` calls hands the controller exactly `CommandsTransfers`. |
| Delivery.InitDelivers | src/HD44780.c:224-232 | With every callback present, `Init` hands the controller exactly 0x33, 0x32 and then the transfers of its five commands. |
| Delivery.InitWrites | src/HD44780.c:224-232 | `Init` writes the instructions 0x33, 0x32, 0x28, 0x08, 0x01, 0x06 and the display attributes, in that order, and no data byte. Every write after the first two is gated on the busy flag. |
| Delivery.PutcDelivers | src/HD44780.c:309-325 | `Putc` hands the controller exactly `PutcTransfers`. |
| Delivery.PutcGated | src/HD44780.c:309-325 | `Putc` writes exactly one byte, gated on the busy flag. It is a data byte equal to `c` unless `c` is a line feed, which writes no data. |
| Delivery.PutcLineFeed | src/HD44780.c:314-317 | A line feed writes one instruction and no data, and the instruction waits for a second busy poll. |
| Delivery.PutsTransfers | src/HD44780.c:338-362 | The data bytes `Puts` writes are its string without line feeds, in order. Each byte of the string causes exactly one write, and every write is gated. |
| Delivery.PutsDelivers | src/HD44780.c:338-362 | `Puts` hands the controller exactly `PutsTransfers`. |

## Left out

- The platform layers are not part of this model: `HD44780_platform.c` and the ports
  for STM32, ATmega32 and ESP32. Their GPIO and delay code is replaced by the callback
  trace and the read script.
- The example application is not part of this model.
- Timing is not modelled. `DelayMs` and `DelayUs` are trace events carrying their
  argument, not elapsed time. The bus model does not check setup and hold times.
- The busy poll has no bound in the C code. Every operation that polls requires
  `PollEnds` of its read script: some status read reports bit 7 clear, and one more
  read follows. A display that stays busy forever, which would hang the driver, is
  outside the model.
- Calling a NULL callback is undefined behaviour in C. The bus operations require
  `binding.Complete()`, which `Init` checks and the other functions assume.
  `binding` is a constant of the handler, because nothing in the core changes it.
- The `RS` argument of `HD44780_Read` and `HD44780_Write` is a `uint8_t` tested for
  non-zero. It is modelled as a `bool`.
- `Puts` takes the memory from `Str` on as a sequence. `Terminated` requires that it
  holds the bytes the loop reads.
- `char` is treated as an unsigned byte.
- The two writes of 0x33 and 0x32 in `Init` are given their 4-bit meaning on the bus
  model: two latched nibbles per write. Their effect on a controller still in 8-bit
  mode after power-up is not modelled.
- `Hd44780.Handler.Configure`, `Hd44780.Handler.PutsUntilNul` and
  `Hd44780.Handler.PutsAtMost` are parts of `HD44780_Init` and `HD44780_Puts` split
  into methods of their own. Likewise `SetLines`, `WriteNibble` and `ReadNibble` are
  parts of `HD44780_Read` and `HD44780_Write`. The calls they make are the source's,
  in the source's order.
- Hd44780Spec.Polling: its own contract only bounds the samples consumed. What the
  poll does is stated by `Handler.WaitBusy`, `Delivery.PollTransfers` and
  `Delivery.PollDelivers`.
