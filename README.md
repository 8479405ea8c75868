# Emulator2000 core in Dafny

This project models the core of Emulator2000, an emulator for a 4-bit watch
microcontroller. The core has four parts:

- the CPU (`cpu.py`);
- the memory bus (`memory.py`);
- the LCD controller (`display.py`);
- the disassembler (`disasembler.py`).

The CPU has:

- four banks of 32 nibble registers (GR) and sixteen special registers (SR);
- a 12-bit program counter with a return stack three entries deep;
- a carry flag and a zero flag;
- the `bSA` latch, which every instruction shifts a register value into.

It runs two timers (the prescaler and the stopwatch) and the serial port
(ISP). On each `clock` it executes the instruction at PC once the cycle count
of the previous instruction has run out.

The memory bus holds 6 KiB of internal ROM and 2 KiB of external RAM. The RAM
is reached through an 11-bit pointer, SA. The bus also keeps the list of words
written since it was last read.

The LCD controller holds:

- a 40-cell character RAM (DDRAM) and a 40-cell blink RAM (DARAM);
- 16 control registers (DCTRL), reached through the latch address LA;
- a 50 x 28 pixel buffer, drawn either by a scan-counter rasteriser or by
  direct-draw writes.

The disassembler turns the words written to memory into listing lines.

How the model is built:

- Objects whose fields the source updates in place are classes with the same
  fields: `Cpu.CPU`, `MemoryBus.Memory` and `Screen.Display`.
  - The methods of `Cpu.CPU` and `MemoryBus.Memory` name in their `modifies`
    frames the fields they may change, one by one. Their contracts state the
    new value of those fields, mostly through a named predicate or function.
  - The methods of `Screen.Display` that write or tick the controller modify
    `this` and state its whole new `State()` as a `Panel` value.
  - "## Left out" lists the contracts that leave part of the new state
    unstated.
- The register file, the special registers, the display RAMs and the return
  stack are sequences that the methods reassign. The memory image is an
  array written in place.
- Every loop of the source becomes a `for` loop with invariants. Each loop is
  proved against a pure specification function:
  - the multi-digit add and subtract folds `AddDigits` and `SubDigits`, over
    a register window;
  - `Loaded` and `Written` for the serial memory;
  - `PutAll` for display writes;
  - `DirectDrawn` and `ScanDrawn` for pixels.

  Lemmas then give those functions their meaning: the number a window stands
  for, binary and BCD, the round trip through external memory, and the cells
  a run of display writes fills.
- Instruction decoding is one table, `Isa.Decode`. It is proved to agree with
  the per-instruction bit encoding in both directions. The CPU and the
  disassembler both use it.

| file | module | models |
|---|---|---|
| bits.dfy | Bits | nibble bit operations (`&`, `\|`, `^`, `& ~`) |
| arith.dfy | Arith | one-digit and multi-digit binary/BCD add and subtract |
| regfile.dfy | RegFile | register pages and windows that wrap inside an 8-register page |
| cpustate.dfy | CpuState | the `bSA` latch, the LA assembly of `plam`, the return stack |
| isa.dfy | Isa | the opcode table, operand fields, cycle costs, mnemonics |
| operands.dfy | Operands | the windows of the ranged instructions, serial and display runs |
| sysregs.dfy | SysRegs | special-register effects, timers, stopwatch, serial flags, beeper |
| memory.dfy | MemoryBus | `Memory` |
| lcd.dfy | Lcd | display geometry, mirroring, opacity, blink |
| display.dfy | Screen | `Display` and its whole state as the value `Panel` |
| cpu.dfy | Cpu | `CPU`: every instruction, the dispatcher, `clock`, timers, keys, serial port |
| disassembler.dfy | Disassembler | `Disassembler`: register names, number formats, listing text |

Two details of the code that the model keeps:

- The character and blink RAMs have 40 cells (`CHAR_COUNT`). Each DDRAM cell
  holds a whole byte.
- In DMA mode a received byte is written to external memory only when
  transmit-enable (`_ispTransmitEnable`) is clear.

## Model

| member | source | states |
|---|---|---|
| Bits.Mask | cpu.py:180-181 | `1 << i` has bit `i` set and every other bit clear |
| Bits.And4 | cpu.py:600-610 | each bit of `a & b` is set iff it is set in both |
| Bits.Or4 | cpu.py:612-621 | each bit of `a \| b` is set iff it is set in either |
| Bits.Xor4 | cpu.py:623-632 | each bit of `a ^ b` is set iff the operands' bits differ |
| Bits.Clear4 | cpu.py:185-186 | `a & ~m` keeps exactly the bits of `a` that `m` does not have |
| Bits.BitwiseNibble | cpu.py:600-632 | the arithmetic nibble operations agree with the bit-by-bit reference `Bitwise` |
| Bits.SetOneBit | cpu.py:179-183 | or-ing in `1 << i` sets bit `i` and leaves the other three bits unchanged |
| Bits.TestOneBit | cpu.py:1179-1189 | `x & (1 << i)` is non-zero iff bit `i` of `x` is set |
| Bits.ClearAll | cpu.py:1268-1271 | clearing every flag that is set leaves zero |
| Arith.AddDigit | cpu.py:314-340 | a one-digit add: in binary, digit plus 16 times carry is the sum; the carry is out of 15 (binary) or 9 (BCD); BCD digits give a BCD digit |
| Arith.SubDigit | cpu.py:343-371 | a one-digit subtract: the borrow is set iff the minuend is less than subtrahend plus borrow-in; zero iff they are equal; BCD digits give a BCD digit |
| Arith.AddDigits | cpu.py:442-451 | the digit-by-digit carry chain of `adm`/`adbm`, one result digit per window step; its value is stated by `AddDigitsValue` and `AddDigitsDecimal` |
| Arith.SubDigits | cpu.py:490-500 | the digit-by-digit borrow chain of `sbm`/`sbbm`/`cpm`, one result digit per step; its meaning is stated by `SubDigitsValue`, `SubDigitsDecimal`, `SubDigitsBorrow` and `SubDigitsZero` |
| Arith.ShiftUp | cpu.py:724-741 | the window after `rshm`, as long as the window; `ShiftUpValue` states its value |
| Arith.ShiftDown | cpu.py:743-760 | the window after `lshm`, as long as the window; `ShiftDownValue` states its value |
| Arith.AddDigitsValue | cpu.py:434-455 | the `adm` digit fold computes the binary sum of the two windows plus carry-in, and the carry-out is the overflow past `16^n` |
| Arith.AddDigitsDecimal | cpu.py:457-479 | on BCD windows the `adbm` fold gives BCD digits whose decimal value is the decimal sum, with the carry-out at `10^n` |
| Arith.SubDigitsValue | cpu.py:481-503 | the `sbm` fold computes the binary difference, with the borrow-out worth `16^n` |
| Arith.SubDigitsDecimal | cpu.py:506-530 | on BCD windows the `sbbm` fold gives BCD digits whose decimal value is the decimal difference, with the borrow worth `10^n` |
| Arith.SubDigitsFlags | cpu.py:481-530 | the binary and BCD subtractions set the same carry and zero flags |
| Arith.SubDigitsBorrow | cpu.py:545-566 | the borrow out of a multi-digit subtract is set iff the first window's value is below the second's plus the borrow-in (the CF of `cpm`) |
| Arith.SubDigitsZero | cpu.py:545-566 | with no borrow-in, the zero flag is set iff the two windows are equal (the ZF of `cpm`, `sbm`) |
| Arith.DecrementZero | cpu.py:677-698 | `dec` reports zero iff the window held exactly 1 |
| Arith.ShiftUpValue | cpu.py:724-741 | `rshm` multiplies the window by 16, and the top digit falls out |
| Arith.ShiftUpLow | cpu.py:724-741 | `rshm` leaves 16 times the value of the window's lower digits |
| Arith.ShiftDownValue | cpu.py:743-760 | `lshm` divides the window by 16 and drops the remainder |
| RegFile.PageOf | cpu.py:436-438 | `reg & 0xF8` is the start of the 8-register page that holds `reg` |
| RegFile.Slot | cpu.py:443-445 | `page + (gr & 7)` stays inside the page and steps through it cyclically |
| RegFile.Store | cpu.py:442-451 | a window write puts `ds[k]` at step `k` and leaves every other register unchanged |
| RegFile.WindowOfStore | cpu.py:442-451 | reading back a window just written gives the written digits |
| RegFile.StoreWindow | cpu.py:968-985 | writing a window's own contents changes nothing |
| CpuState.Latch | cpu.py:318 | `(bSA >> 4) \| (v << 8)` keeps 12 bits: `v` becomes the top nibble and the old top two nibbles move down |
| CpuState.LatchAll | cpu.py:801-806 | the latch after a run of nibbles stays a 12-bit value; `LatchKeepsLastThree` says which nibbles it holds |
| CpuState.LatchKeepsLastThree | cpu.py:797-811 | after three or more latches the latch holds exactly the last three nibbles, the earliest least significant (the `psam` address) |
| CpuState.LaStep | cpu.py:826 | `(LA >> 4) \| (v << 4)` keeps 8 bits, with `v` on top |
| CpuState.LaAll | cpu.py:820-828 | the LA `plam` assembles stays an 8-bit value; `LaKeepsLastTwo` says which nibbles it holds |
| CpuState.LaKeepsLastTwo | cpu.py:813-832 | the LA that `plam` assembles is the last two registers, the second-to-last low |
| CpuState.Push | cpu.py:1080-1082 | a call pushes the return PC on top and drops the oldest entry beyond three |
| CpuState.PushThenPop | cpu.py:1075-1095 | popping after a push gives back the pushed PC and the previous stack (without its oldest entry if it was full) |
| Isa.DecodeEncodes | cpu.py:54-126 | the dispatch table and sub-dispatchers decode `op` to `m` iff `op` carries `m`'s bit encoding |
| Isa.DecodedEncodes | cpu.py:290-312 | every opcode matches the encoding of the instruction it decodes to |
| Isa.EncodesDecoded | cpu.py:54-126 | an opcode that matches an instruction's encoding decodes to that instruction |
| Isa.Hi | cpu.py:315 | bits 5-9, a register index below 32 |
| Isa.Lo | cpu.py:316 | bits 0-4, a register index below 32 |
| Isa.Sr | cpu.py:764 | bits 0-3, a special-register index below 16 |
| Isa.BankSel | cpu.py:585 | bits 3-4, a bank below 4 |
| Isa.BitSel | cpu.py:1182 | bits 10-11, the bit or constant of `btjr`/`cpjr`, below 4 |
| Isa.Imm8 | cpu.py:912 | the immediate fits in 8 bits; `Isa.Imm8AsMasked` proves it equal to the source's `((op >> 2) & 0xF8) \| (op & 7)` |
| Isa.Imm8AsMasked | cpu.py:912 | that value equals `((op >> 2) & 0xF8) \| (op & 7)` as the source computes it |
| Isa.Target12 | cpu.py:1080 | the `call`/`jmp` target is below 4096 |
| Isa.CondTarget | cpu.py:1139 | a taken conditional jump keeps the 1 KiB bank of PC and takes its low ten bits from `op` |
| Isa.Len | cpu.py:442 | `((lo - hi) & 7) + 1` is between 1 and 8 |
| Isa.LshmCount | cpu.py:748 | the `lshm` count is below 8 |
| Isa.CycleCost | cpu.py:434-760 | ranged instructions cost their window length (1..8); single-register and control ones cost 1; nothing costs more than 8 |
| Isa.ShiftCostsCanBeZero | cpu.py:724-760 | `rshm` and `lshm` with equal register fields cost 0 cycles |
| Isa.Name | disasembler.py:19-91 | each mnemonic of the listing table is 2 to 5 characters |
| Operands.HiPage | cpu.py:438 | the destination page holds `Hi` |
| Operands.LoPage | cpu.py:439 | the source page holds `Lo` |
| Operands.DestSlot | cpu.py:444 | step `k` of the destination window stays in the destination page |
| Operands.SourceSlot | cpu.py:445 | step `k` of the source window stays in the source page |
| Operands.DestWindow | cpu.py:441-444 | the destination window has `Len` registers and starts at GR[Hi] |
| Operands.SourceWindow | cpu.py:441-445 | the source window has `Len` registers and starts at the offset of `Hi` in the source page |
| Operands.StoreDest | cpu.py:442-451 | after the write the destination window reads `ds`, and registers outside it are unchanged |
| Operands.WindowsAt | cpu.py:443-448 | step `k` of each window reads the register that step visits |
| Operands.WriteStep | cpu.py:446-451 | a step's source register has not been overwritten by earlier steps, and one more step is one more register write |
| Operands.StoredAll | cpu.py:442-451 | the writes of every step together are the whole window write |
| Operands.CopyStep | cpu.py:974-981 | during `movm` the digit a step reads has not been overwritten by earlier steps, and copying it stores one more digit of the source window |
| Operands.StoreStep | cpu.py:442-451 | writing digit k into its destination register after the first k extends the window write by one digit |
| Operands.ShiftLeftWindow | cpu.py:743-760 | the `lshm` window runs from offset `op & 7` of the page up to GR[Hi] |
| Operands.ShiftLeftTop | cpu.py:758 | the last step of `lshm` is GR[Hi] itself, which is then cleared |
| Operands.ShiftedLeftEnds | cpu.py:743-760 | the `lshm` moves followed by clearing GR[Hi] leave the window shifted down by one digit |
| Operands.ShiftingUp | cpu.py:729-738 | partway through `rshm`, steps below `j` keep their digits and each step from `j` up holds the digit of the step below |
| Operands.SubProgressStart | cpu.py:490-500 | before the first `sbm` step the bank is untouched, the borrow is the incoming one and the zero flag is set |
| Operands.SubProgressStep | cpu.py:490-500 | one more `sbm` step reads unwritten registers and extends the `SubDigits` fold over the window by one digit |
| Operands.SubProgressDone | cpu.py:490-500 | after every `sbm` step the window holds the `SubDigits` result and the flags are its borrow and zero test |
| Operands.StoredShiftingUpStep | cpu.py:729-738 | one top-down `rshm` move: the two registers it touches still hold their original digits, and copying the lower one up turns the partial shift from step `j + 1` into the one from step `j` |
| Operands.ShiftingDown | cpu.py:748-757 | partway through `lshm`, the window keeps its length; `ShiftingDownEnds` states where the moves end |
| Operands.ShiftingUpEnds | cpu.py:724-741 | the top-down `rshm` moves followed by clearing the first register leave the window shifted up by one digit |
| Operands.ShiftingDownEnds | cpu.py:743-760 | the bottom-up `lshm` moves followed by clearing the top leave the window shifted down |
| Operands.Reversed | cpu.py:730-734 | `rshm` visits (and latches) the window from the top down |
| Operands.StoreLeft | cpu.py:743-760 | after the write the `lshm` window reads `ds`, and the rest of the bank is unchanged |
| Operands.Packed | cpu.py:862-867 | `stsm` byte `k` has window digit `k+1` as its high nibble and digit `k` as its low nibble |
| Operands.Pair | cpu.py:867 | `(hi << 4) \| lo` has `hi` as its high nibble and `lo` as its low nibble |
| Operands.ExternalAddress | memory.py:19-20 | the `k`th access from SA lands in external memory, wrapping at 2048 |
| Operands.Loaded | cpu.py:834-851 | `ldsm` loads one nibble per register of the window |
| Operands.LoadedStep | cpu.py:843-847 | each `ldsm` step after the first loads the high nibble of the next byte |
| Operands.LoadedFirst | cpu.py:839 | the first digit `ldsm` loads is the low nibble of the byte at the external pointer |
| Operands.Written | memory.py:26-28 | a run of external writes keeps the memory size |
| Operands.WrittenWords | memory.py:30-32 | each external write reports the word that holds its byte |
| Operands.WrittenReads | cpu.py:853-869 | after a run of up to 2048 writes each byte reads back at its own address, and internal memory is unchanged |
| Operands.StoreThenLoad | cpu.py:834-869 | `ldsm` from the same SA gives back a window that `stsm` stored |
| Operands.PutAll | display.py:171-173 | a run of `writeDDRAM` calls keeps the display state well formed |
| Operands.PutAllStep | display.py:171-173 | one more byte of the run is one more `writeDDRAM` |
| Operands.PackedStep | cpu.py:862-867 | the byte written at step k of `stsm` is register k as the high nibble over register k-1 as the low nibble |
| Operands.PutAllCells | display.py:171-186 | a run that fits in the character RAM fills consecutive cells from LA on and advances LA by its length |
| Operands.PutStep | display.py:171-182 | one write at an LA inside the character RAM writes that cell and advances LA |
| SysRegs.BeeperCommands | cpu.py:1279-1286 | bit 0 beeps, bit 2 starts the tremolo and bit 1 stops it, in that order |
| SysRegs.Summarize | cpu.py:1246-1249 | SR0 is masked only when the event register has no flag left |
| SysRegs.Acknowledge | cpu.py:1216-1218 | writing SR1 or SR7 clears that register and masks its summary bit in SR0; the others are unchanged |
| SysRegs.ClearFlags | cpu.py:1268-1271 | writing SR9 or SR12 clears exactly the written flags, and SR0's summary bit is masked iff none remain |
| SysRegs.ClearFlagsAll | cpu.py:1268-1271 | writing back the flags just read clears them all and masks the summary bit |
| SysRegs.AfterRead | cpu.py:1203-1211 | reading SR3 or SR4 clears it; reading SR15 clears its bit 0 and keeps its other bits; no other register changes, and any other read changes nothing |
| SysRegs.ReadTwice | cpu.py:1203-1211 | a second read of SR3 or SR4 sees 0 and changes nothing more |
| SysRegs.Raise | cpu.py:236-237 | `x \| bit` when on: one bit raised, the others kept |
| SysRegs.Timer0 | cpu.py:229-247 | a prescaler tick changes only SR0, SR4, SR12 and SR14 |
| SysRegs.Timer0Raises | cpu.py:229-247 | the four SR12 flags are raised exactly at counts divisible by 128, 256 and 1024, and on the SR14 wrap, each only when SR13 does not mask it |
| SysRegs.Timer0Counts | cpu.py:237-242 | SR14 counts every 256 ticks modulo 16, and SR4 counts the unmasked SR14 wraps modulo 4 |
| SysRegs.Timer0Summary | cpu.py:246-247 | SR0 bit 0 is set iff it was set or SR12 holds a flag; the other SR0 bits are kept |
| SysRegs.Timer0Flags | cpu.py:231-245 | the new SR12 as a function of the count and SR12 to SR14 |
| SysRegs.Timer0Nested | cpu.py:229-247 | at a multiple of 1024 with nothing masked, all three periodic flags and SR0 bit 0 are set |
| SysRegs.Timer0Masked | cpu.py:229-247 | with every flag masked, the prescaler raises nothing and SR4 does not count |
| SysRegs.StopwatchTick | cpu.py:249-257 | a hundredth passes: SR10 counts 0..9; on the wrap SR9 bit 2 is set and SR3 counts modulo 4; nothing else changes |
| SysRegs.StopwatchTenths | cpu.py:249-257 | ten hundredths from 0 bring SR10 back to 0 with the tenth flag set |
| SysRegs.StopwatchTicks | cpu.py:249-257 | a run of hundredths keeps all sixteen special registers |
| SysRegs.StopwatchCounts | cpu.py:249-257 | below the wrap, `k` hundredths from a cleared SR10 leave `k` in it |
| SysRegs.Echo | cpu.py:188-191 | a received or sent byte is mirrored into SR5/SR6 and nothing else changes |
| SysRegs.EchoRebuilds | cpu.py:1233-1237 | SR5 and SR6 as the echo leaves them rebuild the byte through the SR5/SR6 write handlers |
| SysRegs.Signal | cpu.py:195-201 | a serial event raises its bit in SR1 and SR0 bit 3 |
| SysRegs.SignalRaises | cpu.py:195-201 | those two bits are raised iff the event happened, and nothing else changes |
| SysRegs.Sent | cpu.py:203-221 | the special registers after one byte goes out |
| SysRegs.SentFlags | cpu.py:203-221 | a finished transmission raises the DMA or register-mode completion bit and SR0 bit 3; with receive on the byte is echoed; otherwise nothing changes |
| SysRegs.WithHigh | cpu.py:1233-1234 | SR5's write replaces the high nibble of the transmit buffer |
| SysRegs.WithLow | cpu.py:1236-1237 | SR6's write replaces the low nibble of the transmit buffer |
| SysRegs.SplitThenJoin | cpu.py:1233-1237 | writing a byte's two nibbles to SR5 and SR6, in either order, yields that byte |
| SysRegs.StopwatchNext | cpu.py:270-274 | key 1 stops a running stopwatch and otherwise starts it; other keys keep the mode |
| SysRegs.StopwatchToggles | cpu.py:270-274 | two presses of key 1 restore a running or stopped stopwatch |
| SysRegs.StopwatchControl | cpu.py:1259-1263 | SR10 bit 0 clear disables the stopwatch; set, it enables a disabled one and keeps any other mode |
| SysRegs.RunBit | cpu.py:1252-1255 | SR10 bit 2 clears the run bit, else bit 3 sets it; the other bits of SR9 are kept |
| MemoryBus.Fit | memory.py:61-62 | an image zero-padded or truncated to the area size, byte for byte |
| MemoryBus.Contents | memory.py:53-58 | no file gives no bytes |
| MemoryBus.Memory.constructor | memory.py:7-12 | SA is 0, both areas hold their fitted images, and every loaded word is listed as written |
| MemoryBus.Memory.Opcode | memory.py:14-16 | the big-endian word at `pc & 0xFFF` |
| MemoryBus.Memory.Length | memory.py:45-46 | the memory is 4096 words |
| MemoryBus.Memory.ReadExternal | memory.py:18-21 | returns the byte at SA and moves SA on, wrapping at 2048 |
| MemoryBus.Memory.ReadNibbleExternal | memory.py:23-24 | the low nibble of the byte at SA, leaving SA alone |
| MemoryBus.Memory.WriteExternal | memory.py:26-28 | stores at SA, lists that word as written and moves SA on |
| MemoryBus.Memory.WriteByte | memory.py:30-32 | stores one byte and lists its word as written |
| MemoryBus.Memory.WriteWord | memory.py:34-37 | stores a big-endian word, so that `Opcode` reads it back |
| MemoryBus.Memory.SetSA | memory.py:39-40 | SA becomes the value's low 11 bits |
| MemoryBus.Memory.GetUpdated | memory.py:48-51 | hands over the written-word list and leaves an empty one |
| MemoryBus.Memory.SetInternal | memory.py:53-63 | internal memory takes the fitted image, external memory is untouched, and the image's words are listed |
| MemoryBus.Memory.SetExternal | memory.py:65-75 | external memory takes the fitted image and internal memory is untouched |
| Lcd.TopReflect | display.py:101-108 | the top half's mirror setting for each 2-bit mode |
| Lcd.BottomReflect | display.py:110-117 | the bottom half's mirror setting for each 2-bit mode |
| Lcd.ReflectModes | display.py:101-117 | the halves' modes 0 and 2 mirror each other, and mode 3 acts as mode 2 |
| Lcd.PixelIndex | display.py:70-72 | the row-major buffer index of a pixel |
| Lcd.DirectRow | display.py:60-70 | the direct-draw row lies on the screen |
| Lcd.DirectCol | display.py:61-72 | the direct-draw column lies on the screen |
| Lcd.DirectColsDistinct | display.py:71-72 | the five bits of a direct draw land in five distinct columns of one cell |
| Lcd.DirectDrawRotation | display.py:62-72 | the top half is drawn where the counter points; the bottom half is turned by 180 degrees |
| Lcd.DirectDotInverse | display.py:71-72 | exactly one bit of the value lands in each column of the cell |
| Lcd.DirectDrawn | display.py:59-73 | the pixel buffer after a direct draw keeps its size; `DirectDrawnDots` states which pixels change |
| Lcd.DirectDrawnDots | display.py:59-73 | a direct draw sets the five cell pixels to the value's low five bits and changes no other pixel |
| Lcd.ScanLineOf | display.py:75-84 | the dot row and character columns a scan counter draws, and when it draws nothing |
| Lcd.ScanRow | display.py:86 | the row of a segment lies on the screen |
| Lcd.ScanSegmentsCover | display.py:75-84 | counters 0, 4 and 8 of a dot row cover columns 0..9 exactly once, and 12 draws nothing |
| Lcd.OpacityOff | display.py:98 | an unlit pixel is invisible iff the contrast is at most 15 |
| Lcd.OpacityOn | display.py:99 | a lit pixel is fully opaque iff the contrast is at least 17 |
| Lcd.OpacityMonotone | display.py:97-99 | an unlit pixel is never darker than a lit one, and both darken as contrast rises |
| Lcd.ContrastStep | display.py:145-153 | contrast goes up or down by one and stays inside 0..32 |
| Lcd.NextBlink | display.py:53-57 | the blink glyph toggles between none and 32 (or 255 in blink mode) |
| Lcd.BlinkPeriod | display.py:53-57 | two toggles give back the shown glyph |
| Screen.InitialPanel | display.py:20-33 | the controller starts at contrast 16 with opacities 6/255 and 240/255 |
| Screen.GlyphCode | display.py:89-93 | a cell shows its own code or the blink glyph |
| Screen.PaintedCells | display.py:88-95 | a drawn segment puts each cell's glyph dot, mirrored as set, in its pixel, and leaves the rest of the buffer unchanged |
| Screen.Painted | display.py:86-95 | the pixel buffer after one scan segment keeps its size; `PaintedCells` states its pixels |
| Screen.ScanDrawn | display.py:75-95 | one rasteriser step paints exactly the segment the counter names |
| Screen.WithContrast | display.py:97-99 | setting the contrast recomputes both opacities |
| Screen.Control | display.py:101-169 | the effect of each of the 16 control handlers: modes, flags, test fill, contrast, clears, redraw and scan reset |
| Screen.SetHalfMode | display.py:101-117 | handlers 0 and 1 change only the mode register and the mirror setting |
| Screen.SetTestFill | display.py:131-137 | handler 6 changes only its flag, the pixels and the opacities |
| Screen.StepContrast | display.py:145-153 | handlers 9 and 10 change only the contrast and the opacities |
| Screen.DirectStep | display.py:176-179 | a triggering write (direct-draw mode, or setting the direct-draw flag) moves the scan counter on by one and draws `DirectDrawn` unless a test fill is on or the counter is past 512; any other write changes nothing |
| Screen.Route | display.py:181-186 | 0..39 write the DDRAM cell, 64..103 write bit 0 to the DARAM cell, 112..127 run control handler `addr - 112`; any other address changes nothing |
| Screen.WriteAt | display.py:175-186 | never moves LA; a RAM address writes exactly its cell; 112..127 run the control handler after the direct-draw half; any other write changes at most one cell, the pixels (`DirectDrawn` when triggered) and the scan counter, which moves iff the write triggers |
| Screen.Put | display.py:171-173 | `WriteAt` at LA, after which LA moves on modulo 256; a write below 40 sets exactly that DDRAM cell |
| Screen.Tick | display.py:192-209 | the tick count goes up and the RAMs, LA and contrast stay; the blink glyph toggles every 1024 ticks; the scan restarts on a blink tick with auto-redraw, is drawn by `ScanDrawn` outside direct-draw and test-fill mode below 512, and moves on as `ScanAdvance` says; direct-draw mode leaves the pixels alone |
| Screen.TickBlink | display.py:195-198 | every 1024 ticks the blink glyph toggles and, with auto-redraw on, the scan counter restarts at 0; nothing else changes |
| Screen.TickDraw | display.py:200-202 | outside direct-draw and test-fill mode, with the display on and the counter below 512, the pixels become `ScanDrawn`; nothing else changes |
| Screen.TickAdvance | display.py:203-209 | the tick count goes up by one and the scan counter and control registers move on as `ScanAdvance` says; nothing else changes |
| Screen.Display.constructor | display.py:20-33 | a new controller is in the initial state |
| Screen.Display.UpdateBlinkChar | display.py:53-57 | toggles the blink glyph |
| Screen.Display.DirectDraw | display.py:59-73 | the loop draws exactly `DirectDrawn` |
| Screen.Display.DrawScanline | display.py:75-95 | the loops draw exactly `ScanDrawn` |
| Screen.Display.DrawCell | display.py:88-95 | one character column's five dots |
| Screen.Display.SetPixelOpacity | display.py:97-99 | both opacities from the contrast |
| Screen.Display.StoreControl | display.py:34-51 | control handler `index` performs `Control` |
| Screen.Display.StoreHalfMode | display.py:101-117 | performs `SetHalfMode` |
| Screen.Display.StoreTestFill | display.py:131-137 | performs `SetTestFill` |
| Screen.Display.StoreContrastStep | display.py:145-153 | performs `StepContrast` |
| Screen.Display.WriteDDRAMaddr | display.py:175-186 | performs `WriteAt` |
| Screen.Display.DirectWrite | display.py:176-179 | performs `DirectStep` |
| Screen.Display.RouteWrite | display.py:181-186 | performs `Route` |
| Screen.Display.WriteDDRAM | display.py:171-173 | performs `Put` |
| Screen.Display.SetLA | display.py:189-190 | sets LA and nothing else |
| Screen.Display.SetDDRAM | display.py:211-212 | a write at the DDRAM offset |
| Screen.Display.SetDARAM | display.py:214-215 | a write at the DARAM offset |
| Screen.Display.SetDCTRL | display.py:217-218 | a write at the DCTRL offset |
| Screen.Display.Clock | display.py:192-209 | performs `Tick` |
| Screen.Display.ClockBlink | display.py:195-198 | performs `TickBlink` |
| Screen.Display.ClockDraw | display.py:200-202 | performs `TickDraw` |
| Screen.Display.ClockAdvance | display.py:203-209 | performs `TickAdvance` |
| Screen.Display.PixelOpacities | display.py:220-222 | one opacity per pixel: the on opacity for a lit pixel and the off opacity otherwise; off is `OpacityOff(contrast)`, on is `OpacityOn(contrast)` or 255 under test fill; every value at most 255/255, a lit pixel at least as dark as an unlit one |
| Screen.Display.Examine | display.py:224-229 | the three RAMs as complete index maps, and LA |
| Cpu.SequentialUnlessFlow | cpu.py:1118-1125 | every non-control instruction moves PC on by one; `wfe` stays put iff no event is pending |
| Cpu.RelativeJumpsForward | cpu.py:1097-1116 | before the 12-bit PC mask, `cpfjr`, `ijmr`, `btjr` and `cpjr` go forward by 1 to 32 words |
| Cpu.ConditionalJumpsStayInBank | cpu.py:1135-1177 | `jz`, `jnz`, `jc` and `jnc` fall through or stay in PC's 1 KiB bank |
| Cpu.CallThenReturn | cpu.py:1075-1095 | `ret` after `call` continues after the call and restores the stack |
| Cpu.CallStep | cpu.py:1075-1085 | `call` jumps to its 12-bit immediate and pushes the PC |
| Cpu.ReturnStep | cpu.py:1087-1095 | `ret` on a non-empty stack pops it and continues after the popped address |
| Cpu.CPU.constructor | cpu.py:21-52 | every register, flag, counter and mode starts at zero, disabled or empty |
| Cpu.CPU.Examine | cpu.py:147-156 | PC, CB, AB, the flags, and every SR and GR as complete index maps |
| Cpu.CPU.SetGR | cpu.py:161-162 | one register takes the value's low four bits |
| Cpu.CPU.SetPC | cpu.py:164-165 | PC takes the low twelve bits |
| Cpu.CPU.SetCB | cpu.py:167-168 | CB takes the low two bits |
| Cpu.CPU.SetAB | cpu.py:170-171 | AB takes the low two bits |
| Cpu.CPU.SetCF | cpu.py:173-174 | CF takes the low bit |
| Cpu.CPU.SetZF | cpu.py:176-177 | ZF takes the low bit |
| Cpu.CPU.AddRegister | cpu.py:314-340 | `add`/`adb`: GR[Hi] becomes the one-digit sum and CF its carry |
| Cpu.CPU.SubtractRegister | cpu.py:343-371 | `sub`/`sbb`: GR[Hi] becomes the one-digit difference; CF is its borrow and ZF says the raw difference was 0 |
| Cpu.CPU.AddImmediate | cpu.py:374-400 | `adi`/`adbi`: the same sum with the immediate |
| Cpu.CPU.SubtractImmediate | cpu.py:403-431 | `sbi`/`sbbi`: the same difference with the immediate |
| Cpu.CPU.Compare | cpu.py:532-578 | `cmp`/`cpi`: ZF iff equal and CF iff less, with the registers unchanged |
| Cpu.CPU.SelectBank | cpu.py:580-598 | `lcrb`/`larb`: CB or AB takes the bank field |
| Cpu.CPU.AndImmediate | cpu.py:600-610 | `andi`: bitwise and; ZF iff the result is 0 |
| Cpu.CPU.OrImmediate | cpu.py:612-621 | `ori`: bitwise or |
| Cpu.CPU.XorImmediate | cpu.py:623-632 | `xori`: bitwise exclusive or |
| Cpu.CPU.Commit | cpu.py:449-453 | the current bank takes the new window and PC moves on by one |
| Cpu.CPU.AddRange | cpu.py:434-479 | `adm`/`adbm`: the destination window becomes the multi-digit sum; CF is its carry; each register is latched |
| Cpu.CPU.IncrementRange | cpu.py:634-675 | `inc`/`incb`: the window plus one |
| Cpu.CPU.AddWindows | cpu.py:442-451 | the loop computes exactly the `AddDigits` fold |
| Cpu.CPU.SubtractRange | cpu.py:481-530 | `sbm`/`sbbm`: the window difference; CF is the borrow; ZF says every step was 0 |
| Cpu.CPU.DecrementRange | cpu.py:677-722 | `dec`/`decb`: the window minus one |
| Cpu.CPU.SubWindows | cpu.py:490-500 | the loop computes exactly the `SubDigits` fold |
| Cpu.CPU.CompareRange | cpu.py:545-566 | `cpm`: the flags of the window subtraction, with the registers unchanged |
| Cpu.CPU.CompareWindows | cpu.py:554-561 | the loop computes the `SubDigits` flags |
| Cpu.CPU.Move | cpu.py:957-966 | `mov`: GR[Hi] takes GR[Lo] |
| Cpu.CPU.LoadImmediate | cpu.py:987-996 | `ldi`: GR[Hi] takes the immediate |
| Cpu.CPU.MoveToAlternate | cpu.py:1015-1024 | `mvac`: register Hi of the alternate bank takes GR[Lo] |
| Cpu.CPU.MoveFromAlternate | cpu.py:1045-1054 | `mvca`: GR[Hi] takes register Lo of the alternate bank |
| Cpu.CPU.MoveRange | cpu.py:968-985 | `movm`: the destination window takes the source window |
| Cpu.CPU.MoveRangeToAlternate | cpu.py:1026-1043 | `mvacm`: the alternate bank's window takes the current bank's source window |
| Cpu.CPU.MoveRangeFromAlternate | cpu.py:1056-1073 | `mvcam`: the current bank's window takes the alternate bank's source window |
| Cpu.CPU.CopyWithin | cpu.py:974-981 | the `movm` loop |
| Cpu.CPU.CopyAcross | cpu.py:1032-1039 | the `mvacm`/`mvcam` loop |
| Cpu.CPU.ClearRange | cpu.py:998-1013 | `clrm`: the window becomes zeros |
| Cpu.CPU.ClearWindow | cpu.py:1004-1009 | the `clrm` loop |
| Cpu.CPU.ShiftRight | cpu.py:724-741 | `rshm`: the window shifted up one digit, costing `Len - 1` |
| Cpu.CPU.ShiftWindowUp | cpu.py:729-738 | the `rshm` loop, latching from the top down |
| Cpu.CPU.ShiftLeft | cpu.py:743-760 | `lshm`: the window shifted down one digit, costing `LshmCount` |
| Cpu.CPU.ShiftWindowDown | cpu.py:748-757 | the `lshm` loop |
| Cpu.CPU.ReadSpecial | cpu.py:762-771 | `in`: GR[Hi] takes the SR and the read's side effect happens |
| Cpu.CPU.WriteSpecial | cpu.py:773-782 | `out`: GR[Hi] is written to the SR |
| Cpu.CPU.WriteSpecialImmediate | cpu.py:784-795 | `outi`: the immediate is written to the SR |
| Cpu.CPU.LatchWindow | cpu.py:801-806 | the latch loop of `psam`/`plam` |
| Cpu.CPU.LatchIntoSA | cpu.py:801-811 | `psam` without the PC step: SA becomes the latch of the window, `LastThree` of it for three or more registers |
| Cpu.CPU.PointSA | cpu.py:797-811 | `psam`: SA becomes the latch, which for a window of three or more is `LastThree` of the window |
| Cpu.CPU.PointLA | cpu.py:813-832 | `plam`: LA becomes the last two registers, unless the window has one register |
| Cpu.CPU.LoadSerial | cpu.py:834-851 | `ldsm`: the window takes `Loaded` and SA moves on by `Len - 1` |
| Cpu.CPU.LoadWindow | cpu.py:839-847 | the `ldsm` body |
| Cpu.CPU.LoadFirst | cpu.py:839 | the first register takes the low nibble at SA |
| Cpu.CPU.LoadRest | cpu.py:842-847 | the `ldsm` loop |
| Cpu.CPU.LoadNext | cpu.py:843-847 | one `ldsm` step |
| Cpu.CPU.ReadHigh | cpu.py:847 | the high nibble of the next byte read |
| Cpu.CPU.StoreSerial | cpu.py:853-869 | `stsm`: external memory gets the `Packed` bytes from SA on; the words are listed; SA moves on |
| Cpu.CPU.SendWindow | cpu.py:858-867 | the `stsm` loop |
| Cpu.CPU.SendNext | cpu.py:858-867 | one `stsm` step: one more packed byte written at the pointer and one more register latched into BSA |
| Cpu.CPU.WriteNext | cpu.py:867 | one external write of the run |
| Cpu.CPU.StoreLcdRange | cpu.py:871-887 | `stlm`: the display receives the `Packed` bytes through `writeDDRAM` |
| Cpu.CPU.ShowWindow | cpu.py:876-885 | the `stlm` loop |
| Cpu.CPU.StoreLcd | cpu.py:889-897 | `stl`: writes `GR \| 0x30`, the ASCII digit of a decimal register |
| Cpu.CPU.PointSAImmediate | cpu.py:899-906 | `psai`: SA takes the opcode's low 11 bits |
| Cpu.CPU.PointLAImmediate | cpu.py:908-915 | `plai`: LA takes the 8-bit immediate |
| Cpu.CPU.CopyToLcd | cpu.py:917-935 | `stls`/`stlsa`: the byte at SA goes to LA or to the immediate address, and SA moves on |
| Cpu.CPU.StoreLcdImmediate | cpu.py:937-955 | `stli`/`stlia`: the immediate goes to LA or to itself as address |
| Cpu.CPU.CallTo | cpu.py:1075-1085 | `call`: PC takes the target and the return PC is pushed |
| Cpu.CPU.Return | cpu.py:1087-1095 | `ret`: pops and continues after the popped PC, or just moves on with an empty stack |
| Cpu.CPU.CompareFourJump | cpu.py:1097-1106 | `cpfjr`: skips `Lo` words iff GR[Hi] is 4 |
| Cpu.CPU.IndexedJump | cpu.py:1108-1116 | `ijmr`: skips GR[Hi] words |
| Cpu.CPU.WaitForEvent | cpu.py:1118-1125 | `wfe`: moves on iff SR0 is non-zero |
| Cpu.CPU.Jump | cpu.py:1127-1133 | `jmp`: PC takes the 12-bit target |
| Cpu.CPU.JumpIf | cpu.py:1135-1177 | `jz`/`jnz`/`jc`/`jnc`: the in-bank target when taken, the next word otherwise |
| Cpu.CPU.BitTestJump | cpu.py:1179-1189 | `btjr`: skips `Lo` words iff the selected bit of GR[Hi] is set |
| Cpu.CPU.CompareJump | cpu.py:1191-1201 | `cpjr`: skips `Lo` words iff GR[Hi] equals the constant |
| Cpu.CPU.ExecuteRegisterAlu | cpu.py:54-126 | the single-register handlers: the cost, PC moves on, and `RegisterAluDone` gives the effect of the decoded mnemonic (`DigitAdded`, `DigitSubtracted`, `Compared`, `BankSelected`, `Anded`, `Ored`, `Xored`) |
| Cpu.CPU.ExecuteDigitArithmetic | cpu.py:54-126 | `add` to `sbbi`: the cost, PC moves on, and the `RegisterAluDone` effect |
| Cpu.CPU.ExecuteCompareLogic | cpu.py:54-126 | `cmp` to `xori`: the cost, PC moves on, and the `RegisterAluDone` effect |
| Cpu.CPU.ExecuteRangeAlu | cpu.py:54-126 | the ranged handlers: the cost, PC moves on, and `RangeAluDone` gives the effect (`WindowAdded`, `WindowSubtracted`, `WindowCompared`, `WindowShiftedUp`, `WindowShiftedDown`) |
| Cpu.CPU.ExecuteRangeArithmetic | cpu.py:54-126 | `adm`, `adbm`, `sbm`, `sbbm` and `cpm`: the window cost, PC moves on, and the `RangeAluDone` effect |
| Cpu.CPU.ExecuteStepShift | cpu.py:54-126 | `inc`, `incb`, `dec`, `decb`, `rshm` and `lshm`: their cost, PC moves on, and the `RangeAluDone` effect |
| Cpu.CPU.ExecuteMove | cpu.py:54-126 | the move handlers: the cost, PC moves on, and `MoveDone` gives the effect (`RegisterMoved`, `WindowMoved`, `WindowCleared`) |
| Cpu.CPU.ExecuteSerial | cpu.py:54-126 | the special-register and serial handlers: the cost, PC moves on, and `SerialDone` gives the effect (`SpecialRead`, `SpecialWritten`, `SAPointed`, `SerialStored`, `SerialLoaded`, `SAPointedAt`) |
| Cpu.CPU.ExecuteLcd | cpu.py:54-126 | the display handlers: the cost, PC moves on, and `LcdDone` gives the effect (`LAPointed`, `LcdRangeStored`, `LcdDigitStored`, `LAPointedAt`, `LcdCopied`, `LcdImmediateStored`) |
| Cpu.CPU.ExecuteLcdDirect | cpu.py:54-126 | `plam`, `stlm`, `stl` and `plai`: the cost, PC moves on, and the `LcdDone` effect |
| Cpu.CPU.ExecuteLcdCopy | cpu.py:54-126 | `stls`, `stlsa`, `stli` and `stlia`: the cost, PC moves on, and the `LcdDone` effect |
| Cpu.CPU.ExecuteFlow | cpu.py:54-126 | the control-flow handlers: cost 1, PC and the stack as `NextPc` and `NextStack` give them, and the latch effect `Latched` |
| Cpu.CPU.ExecuteJump | cpu.py:54-126 | every control-flow instruction but `call` and `ret`: cost 1, PC as `NextPc` gives it, and the latch effect `Latched` |
| Cpu.CPU.DispatchRegisterAlu | cpu.py:54-126 | runs the single-register handler: the cost, PC and the stack as `NextPc` and `NextStack` give them, and `RegisterAluExecuted` (the group effect, with every field outside the group unchanged) |
| Cpu.CPU.DispatchRangeAlu | cpu.py:54-126 | runs the ranged handler: the cost, PC and the stack as `NextPc` and `NextStack` give them, and `RangeAluExecuted` (the group effect, with every field outside the group unchanged) |
| Cpu.CPU.DispatchMove | cpu.py:54-126 | runs the move handler: the cost, PC and the stack as `NextPc` and `NextStack` give them, and `MoveExecuted` (the group effect, with every field outside the group unchanged) |
| Cpu.CPU.DispatchSerial | cpu.py:54-126 | runs the special-register and serial handler: the cost, PC and the stack as `NextPc` and `NextStack` give them, and `SerialExecuted` (the group effect, with every field outside the group unchanged) |
| Cpu.CPU.DispatchLcd | cpu.py:54-126 | runs the display handler: the cost, PC and the stack as `NextPc` and `NextStack` give them, and `LcdExecuted` (the group effect, with every field outside the group unchanged) |
| Cpu.CPU.DispatchFlow | cpu.py:54-126 | runs the control-flow handler: the cost, PC and the stack as `NextPc` and `NextStack` give them, and `FlowExecuted` |
| Cpu.CPU.Account | cpu.py:284-286 | the cost becomes the count and is added to the cycle total, and PC keeps its low 12 bits |
| Cpu.CPU.IssueRegisterAlu | cpu.py:283-286 | issues a single-register opcode: the count and cycle total grow by its cost, PC is `NextPc` masked to 12 bits, the stack `NextStack`, and `RegisterAluExecuted` holds |
| Cpu.CPU.IssueRangeAlu | cpu.py:283-286 | issues a ranged opcode: the count and cycle total grow by its cost, PC is `NextPc` masked to 12 bits, the stack `NextStack`, and `RangeAluExecuted` holds |
| Cpu.CPU.IssueMove | cpu.py:283-286 | issues a move opcode: the count and cycle total grow by its cost, PC is `NextPc` masked to 12 bits, the stack `NextStack`, and `MoveExecuted` holds |
| Cpu.CPU.IssueSerial | cpu.py:283-286 | issues a special-register or serial opcode: the count and cycle total grow by its cost, PC is `NextPc` masked to 12 bits, the stack `NextStack`, and `SerialExecuted` holds |
| Cpu.CPU.IssueLcd | cpu.py:283-286 | issues a display opcode: the count and cycle total grow by its cost, PC is `NextPc` masked to 12 bits, the stack `NextStack`, and `LcdExecuted` holds |
| Cpu.CPU.IssueFlow | cpu.py:283-286 | issues a control-flow opcode: the count and cycle total grow by its cost, PC is `NextPc` masked to 12 bits, the stack `NextStack`, and `FlowExecuted` holds |
| Cpu.CPU.Tick | cpu.py:276-280 | the prescaler count and the serial count go up by one; SR follows `Timer0`, then `StopwatchTick` while the stopwatch runs; every 24th serial tick with a transmission pending and transmit on sends a byte as `Transmitted` says, and otherwise the serial fields are unchanged |
| Cpu.CPU.TickTimers | cpu.py:277-278 | the prescaler count goes up by one; SR follows `Timer0`, then `StopwatchTick` while the stopwatch runs |
| Cpu.CPU.Step | cpu.py:281-288 | while the count is above 1 it goes down by one and nothing else of the machine changes (`Idle`); otherwise the opcode at PC is issued as `Issue` states |
| Cpu.CPU.Issue | cpu.py:283-286 | the opcode at PC costs `CycleCost`, which becomes the count and is added to the cycle total; PC becomes `NextPc` masked to 12 bits, the stack `NextStack`, and every other field changes as `Executed` says for its group |
| Cpu.CPU.Clock | cpu.py:276-288 | one `clock`: both counters go up by one, and either the count runs down with PC unchanged or an instruction issues with its `CycleCost` and PC below 4096 |
| Cpu.CPU.ReadSR | cpu.py:1203-1211 | `srRead` returns the register and applies `AfterRead` |
| Cpu.CPU.WriteSR | cpu.py:1213-1286 | a write to SR `index` has exactly the effect `SrWritten` describes |
| Cpu.CPU.WriteFlags | cpu.py:1213-1277 | the SR handlers that change only special registers |
| Cpu.CPU.WriteSerial | cpu.py:1223-1237 | SR3 to SR6 set the serial mode, the enables and the transmit buffer |
| Cpu.CPU.WriteBeeper | cpu.py:1279-1286 | SR15 issues the beeper commands its bits ask for |
| Cpu.CPU.WriteStopwatchControl | cpu.py:1251-1263 | SR10 sets or clears the run bit, clears the count, and enables or disables the stopwatch |
| Cpu.CPU.Timer0Tick | cpu.py:229-247 | the prescaler count moves on and the special registers follow `Timer0` |
| Cpu.CPU.Timer1Tick | cpu.py:249-257 | while the run bit is set, a hundredth passes on every tick |
| Cpu.CPU.StopwatchKey | cpu.py:259-274 | the stopwatch mode becomes `StopwatchNext` and SR becomes `StopwatchKeyed`: key 0 splits or clears, key 1 starts or stops and keeps the run bit in step |
| Cpu.CPU.BtnPressed | cpu.py:179-183 | SR becomes `Pressed` (the key bit set in SR7 and SR8, SR0 bit 2 raised); a disabled stopwatch stays as it is, and an enabled one reacts as `StopwatchKeyed` and `StopwatchNext` say |
| Cpu.CPU.BtnReleased | cpu.py:185-186 | the key is cleared in SR8 only |
| Cpu.CPU.IspReceive | cpu.py:188-201 | a received byte is echoed, stored in DMA mode with transmit off, and signalled |
| Cpu.CPU.IspTick | cpu.py:203-221 | every 24 ticks a pending transmission with transmit on sends one byte; otherwise nothing changes |
| Cpu.CPU.SendByte | cpu.py:205-221 | one byte goes out as `Transmitted` describes |
| Cpu.CPU.LoadTxBuffer | cpu.py:206-215 | in DMA mode the buffer takes the external byte at SA, SA moves on, and the step reports the end of a 256-byte page; otherwise nothing changes and the transmission ends |
| Disassembler.GrNamesRead | disasembler.py:1-6 | the 32 register names are distinct, and each reads back as its own index |
| Disassembler.SrNamesRead | disasembler.py:8-11 | the 16 special-register names read back as their own index |
| Disassembler.DigitsRoundTrip | disasembler.py:17-18 | the printed digits of a number read back as that number |
| Disassembler.Digits | disasembler.py:17 | `'%X'`/`'%s'` digits form a numeral in the base, with a leading 0 only for 0 |
| Disassembler.Padded | disasembler.py:18 | zero-padding gives the longer of the width and the text, ends with the text and adds only `0`s in front |
| Disassembler.Label | disasembler.py:18 | `'0x%0.3X'`: `0x` and at least three hex digits that read back as the address, with a leading 0 only in a three-digit label |
| Disassembler.PaddedRoundTrip | disasembler.py:18 | hex digits padded to three form a numeral worth the number, with a leading 0 only in a three-digit result |
| Disassembler.Immediate | disasembler.py:17 | `'0x%X'`: `0x` and hex digits that read back as the value, with a leading 0 only for 0 |
| Disassembler.Decimal | disasembler.py:169-172 | `'%s'`: decimal digits that read back as the value, with a leading 0 only for 0 |
| Disassembler.FarLabelIsTarget | disasembler.py:364-385 | the address shown for `call` and `jmp` is where the CPU jumps |
| Disassembler.RelativeLabelIsTarget | disasembler.py:403-413 | the address shown for `cpfjr`, `btjr` and `cpjr` is the CPU's next PC before the 12-bit PC mask when the jump is taken, and PC + 1 when it is not |
| Disassembler.ConditionalLabelIsTarget | disasembler.py:387-401 | the address shown for `jz`, `jnz`, `jc` and `jnc` is where the CPU goes when the jump is taken |
| Disassembler.Operands | disasembler.py:129-413 | the operand text is empty or starts with a space |
| Disassembler.NamesDistinct | disasembler.py:129-413 | no two instructions print the same mnemonic |
| Disassembler.TextNamesInstruction | disasembler.py:93-127 | the first word of a listing line names exactly the instruction the CPU decodes from that opcode |
| Disassembler.Lines | disasembler.py:96-101 | the listing has one entry per written word, holding the opcode and its text |
| Disassembler.Disassemble | disasembler.py:93-103 | empties the written-word list; gives no listing when it was empty, and otherwise the lines of every listed word |

## Left out

- The graphical front end (`ui.py`), the driver loop and debugger edit
  protocol (`watch.py`), and the audio generator (`beeper.py`) are not part
  of this model. Beeper calls are recorded in `Cpu.CPU.beeps`, oldest first.
- The transmit callback becomes the log `Cpu.CPU.transmitted`. The constant
  `linked` says whether a callback was supplied.
- The glyph table (`charset.py`) is not part of this model. `Screen.Display`
  takes it as a constructor argument: 256 glyphs of 7 rows of 5 dots.
- Image files: a path becomes `Option<seq<Byte>>`, the file's bytes or
  `None`. The error message printed for a missing file is not modelled.
- Pixel opacities are floating point in the source. They are modelled as
  numerators over 255.
- The trivial accessors `Memory.SA`, `Memory.examine`, `CPU.PC` and
  `CPU.mcycles` are the fields `sa`, `pc` and `mcycles` themselves.
- Cpu.CPU.BtnPressed: requires a key code below 4. The front end only sends
  keys 0..3, and a larger code would put a bit outside SR7's and SR8's four
  bits.
- Cpu.CPU.WriteSR: takes a value that already fits in four bits. `setSR`'s
  `& 0xF` comes before the handler it models.
- Screen.Display.WriteDDRAMaddr: values written to the display (and to
  memory, in `MemoryBus.Memory.WriteByte`) are bytes. The source's
  `bytearray` and glyph table reject anything larger.
- Cpu.CPU.Clock: states the cycle count, the counters and the bound on PC,
  not the next PC. `Cpu.CPU.Step` states the next PC for the state after the
  timers have ticked.
- Isa.CondTarget: the jump target `(op & 0x3FF) | (0xC00 & pc)` is stated
  arithmetically: the bank `(pc / 1024) % 4` and the offset `op % 1024`. It
  is not written as a bit-mask expression.
- Disassembler.Operands: its contract states only the shape of the operand
  text. The meaning of the text comes from the label, number and name lemmas
  and from `Disassembler.TextNamesInstruction`.
- Disassembler.RelativeLabelIsTarget: relates the listed address to the next
  PC before the 12-bit mask. The listing prints `pc + imd + 1` unmasked, so a
  taken branch at 0xFFF is listed as 0x1000 while the CPU goes to 0x000.
- Cpu.RelativeJumpsForward: the forward distance of 1 to 32 words is stated
  before the 12-bit mask; after the mask a jump near 0xFFF wraps to the start.
- Isa.Name: its own contract bounds only the length of each mnemonic.
  Distinctness is proved separately by `Disassembler.NamesDistinct`.
- Timer 1 doubles its count (`_counter1 += _counter1`), which keeps it at 0.
  The model keeps this as written, so a hundredth passes on every tick while
  the stopwatch runs.
