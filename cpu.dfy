/** The 4-bit core: four banks of 32 nibble registers, sixteen special
    registers, the 12-bit program counter with its 3-deep return stack, the
    carry and zero flags, and the `bSA` latch every instruction feeds. The CPU
    drives the memory bus and the display controller it was built with, runs
    two timers and the serial (ISP) port, and executes one instruction whenever
    the cycle count of the previous one has run out. */
module Cpu {
  import opened Bits
  import opened RegFile
  import opened Arith
  import opened CpuState
  import opened Isa
  import opened Operands
  import opened MemoryBus
  import opened Screen
  import opened SysRegs

  /** What `examine` reports. */
  datatype CpuView = CpuView(pc: nat, cb: nat, ab: nat, cf: Bit, zf: Bit,
                             sr: map<nat, Nibble>, gr: map<nat, map<nat, Nibble>>)

  /** `ispMode` value for transfers straight to and from external memory. */
  const DMA: Bit := 1

  /** The PC after one instruction, before the clock keeps its low 12 bits.
      `v` is GR[Hi] of the current bank, `pending` says SR0 is non-zero, and
      `stack` is the return stack before the instruction. */
  function NextPc(op: Opcode, pc: nat, v: Nibble, zf: Bit, cf: Bit, pending: bool, stack: seq<nat>): nat
  {
    PcAfter(Decode(op), op, pc, v, zf, cf, pending, stack)
  }

  /** `NextPc` for an opcode already decoded to `m`. */
  function PcAfter(m: Mnemonic, op: Opcode, pc: nat, v: Nibble, zf: Bit, cf: Bit, pending: bool, stack: seq<nat>): nat
  {
    match m
    case Call => Target12(op)
    case Ret => (if |stack| > 0 then stack[|stack| - 1] else pc) + 1
    case Cpfjr => pc + 1 + (if v == 4 then Lo(op) else 0)
    case Ijmr => pc + v + 1
    case Wfe => if pending then pc + 1 else pc
    case Jmp => Target12(op)
    case Jz => if zf == 1 then CondTarget(op, pc) else pc + 1
    case Jnz => if zf == 0 then CondTarget(op, pc) else pc + 1
    case Jc => if cf == 1 then CondTarget(op, pc) else pc + 1
    case Jnc => if cf == 0 then CondTarget(op, pc) else pc + 1
    case Btjr => pc + 1 + (if BitOf(v, BitSel(op)) == 1 then Lo(op) else 0)
    case Cpjr => pc + 1 + (if v == BitSel(op) then Lo(op) else 0)
    case _ => pc + 1
  }

  /** The return stack after one instruction: `call` pushes PC (dropping the
      oldest entry when full), `ret` pops when there is something to pop. */
  function NextStack(op: Opcode, pc: nat, stack: seq<nat>): seq<nat>
    requires |stack| <= STACK_SIZE
  {
    StackAfter(Decode(op), pc, stack)
  }

  /** `NextStack` for an opcode already decoded to `m`. */
  function StackAfter(m: Mnemonic, pc: nat, stack: seq<nat>): seq<nat>
    requires |stack| <= STACK_SIZE
  {
    match m
    case Call => Push(stack, pc)
    case Ret => if |stack| > 0 then stack[..|stack| - 1] else stack
    case _ => stack
  }

  /** Only the twelve control-flow instructions leave the sequential path;
      `wfe` stays where it is until an event is pending. */
  lemma SequentialUnlessFlow(op: Opcode, pc: nat, v: Nibble, zf: Bit, cf: Bit, pending: bool, stack: seq<nat>)
    ensures !IsFlow(Decode(op)) ==> NextPc(op, pc, v, zf, cf, pending, stack) == pc + 1
    ensures Decode(op) == Wfe ==> (NextPc(op, pc, v, zf, cf, pending, stack) == pc <==> !pending)
  {
  }

  /** The relative jumps `cpfjr`, `ijmr`, `btjr` and `cpjr` only ever move
      forward, by at most 32 words, before the PC is masked to twelve bits. */
  lemma RelativeJumpsForward(op: Opcode, pc: nat, v: Nibble, zf: Bit, cf: Bit, pending: bool, stack: seq<nat>)
    requires Decode(op) in {Cpfjr, Ijmr, Btjr, Cpjr}
    ensures pc + 1 <= NextPc(op, pc, v, zf, cf, pending, stack) <= pc + 32
  {
  }

  /** A taken `jz`, `jnz`, `jc` or `jnc` stays inside the 1K-word bank of the
      12-bit PC and lands on the low ten bits of the opcode. */
  lemma ConditionalJumpsStayInBank(op: Opcode, pc: nat, v: Nibble, zf: Bit, cf: Bit, pending: bool, stack: seq<nat>)
    requires Decode(op) in {Jz, Jnz, Jc, Jnc}
    ensures var r := NextPc(op, pc, v, zf, cf, pending, stack);
      r == pc + 1 || (r / 1024 == (pc % 4096) / 1024 && r % 1024 == op % 1024)
  {
    var r := NextPc(op, pc, v, zf, cf, pending, stack);
    if r != pc + 1 {
      assert r == CondTarget(op, pc);
      BankOfTwelveBits(pc);
    }
  }

  /** The 1K-word bank of a PC is the same before and after keeping its low
      twelve bits. */
  lemma BankOfTwelveBits(pc: nat)
    ensures (pc % 4096) / 1024 == (pc / 1024) % 4
  {
    var a, b := pc / 4096, pc % 4096;
    assert pc == 1024 * (4 * a + b / 1024) + b % 1024;
  }

  /** A `ret` right after a `call` (with nothing in between touching the
      stack) comes back to the word after the call, and leaves the stack as it
      was unless the call pushed out its oldest entry. */
  lemma CallThenReturn(call: Opcode, ret: Opcode, pc: nat, stack: seq<nat>,
                       v: Nibble, zf: Bit, cf: Bit, pending: bool)
    requires Decode(call) == Call && Decode(ret) == Ret && |stack| <= STACK_SIZE
    ensures var s := NextStack(call, pc, stack);
      NextPc(ret, NextPc(call, pc, v, zf, cf, pending, stack), v, zf, cf, pending, s) == pc + 1 &&
      NextStack(ret, 0, s) == if |stack| < STACK_SIZE then stack else stack[1..]
  {
    CallStep(call, pc, stack, v, zf, cf, pending);
    var s := Push(stack, pc);
    PushThenPop(stack, pc);
    ReturnStep(ret, Target12(call), s, v, zf, cf, pending);
  }

  lemma CallStep(call: Opcode, pc: nat, stack: seq<nat>, v: Nibble, zf: Bit, cf: Bit, pending: bool)
    requires Decode(call) == Call && |stack| <= STACK_SIZE
    ensures NextPc(call, pc, v, zf, cf, pending, stack) == Target12(call)
    ensures NextStack(call, pc, stack) == Push(stack, pc)
  {
  }

  lemma ReturnStep(ret: Opcode, pc: nat, stack: seq<nat>, v: Nibble, zf: Bit, cf: Bit, pending: bool)
    requires Decode(ret) == Ret && 0 < |stack| <= STACK_SIZE
    ensures NextPc(ret, pc, v, zf, cf, pending, stack) == stack[|stack| - 1] + 1
    ensures NextStack(ret, 0, stack) == stack[..|stack| - 1]
  {
  }

  class CPU {
    const memory: Memory
    const display: Display
    /** A transmit callback was supplied. */
    const linked: bool

    var gr: seq<Bank>
    var sr: seq<Nibble>
    var stack: seq<nat>
    var pc: nat
    var cb: nat
    var ab: nat
    var cf: Bit
    var zf: Bit
    var bsa: nat

    var counter0: nat
    var counter1: nat
    var stopwatch: Stopwatch

    var ispCounter: nat
    var ispMode: Bit
    var txEnable: bool
    var rxEnable: bool
    var transmitting: bool
    var txBuffer: Byte

    var executionCounter: int
    var mcycles: nat

    /** Every call made on the beeper, oldest first. */
    var beeps: seq<BeeperCommand>
    /** Every byte handed to the transmit callback, oldest first. */
    var transmitted: seq<Byte>

    ghost predicate Valid()
      reads this, memory, display
    {
      memory.Valid() && display.Valid() &&
      |gr| == BANK_COUNT && |sr| == SR_COUNT && |stack| <= STACK_SIZE &&
      cb < BANK_COUNT && ab < BANK_COUNT && bsa < 4096 &&
      counter1 == 0
    }

    /** A core wired to `memory` and `display`, with every register, flag and
        counter at 0, an empty stack, the stopwatch disabled and the serial
        port idle in register mode. */
    constructor (memory: Memory, display: Display, linked: bool)
      requires memory.Valid() && display.Valid()
      ensures Valid() && this.memory == memory && this.display == display && this.linked == linked
      ensures forall b :: 0 <= b < BANK_COUNT ==> gr[b] == seq(BANK_SIZE, _ => 0)
      ensures sr == seq(SR_COUNT, _ => 0) && stack == []
      ensures pc == 0 && cb == 0 && ab == 0 && cf == 0 && zf == 0 && bsa == 0
      ensures counter0 == 0 && counter1 == 0 && stopwatch == Disabled
      ensures ispCounter == 0 && ispMode == 0 && !txEnable && !rxEnable && !transmitting && txBuffer == 0
      ensures executionCounter == 0 && mcycles == 0 && beeps == [] && transmitted == []
    {
      this.memory := memory;
      this.display := display;
      this.linked := linked;
      var zero: Bank := seq(BANK_SIZE, _ => 0);
      gr := [zero, zero, zero, zero];
      sr := seq(SR_COUNT, _ => 0);
      stack := [];
      pc, cb, ab, cf, zf, bsa := 0, 0, 0, 0, 0, 0;
      counter0, counter1, stopwatch := 0, 0, Disabled;
      ispCounter, ispMode, txEnable, rxEnable, transmitting, txBuffer := 0, 0, false, false, false, 0;
      executionCounter, mcycles := 0, 0;
      beeps, transmitted := [], [];
    }

    /** What `examine` reports: PC, the bank pointers, the flags, and every
        special and general register by index. */
    function Examine(): (v: CpuView)
      reads this, memory, display
      requires Valid()
      ensures v.pc == pc && v.cb == cb && v.ab == ab && v.cf == cf && v.zf == zf
      ensures forall i :: i in v.sr <==> 0 <= i < SR_COUNT
      ensures forall i :: 0 <= i < SR_COUNT ==> v.sr[i] == sr[i]
      ensures forall b :: b in v.gr <==> 0 <= b < BANK_COUNT
      ensures forall b, i :: 0 <= b < BANK_COUNT && 0 <= i < BANK_SIZE ==> i in v.gr[b] && v.gr[b][i] == gr[b][i]
      ensures forall b, i :: 0 <= b < BANK_COUNT && i in v.gr[b] ==> i < BANK_SIZE
    {
      var s := sr;
      var g := gr;
      CpuView(pc, cb, ab, cf, zf,
        map i | 0 <= i < SR_COUNT :: s[i],
        map b | 0 <= b < BANK_COUNT :: map i | 0 <= i < BANK_SIZE :: g[b][i])
    }

    // ---- setters used by the debugger ----

    /** `setGR`: the register takes the low four bits of `value`. */
    method SetGR(bank: nat, index: nat, value: int)
      requires Valid() && bank < BANK_COUNT && index < BANK_SIZE
      modifies this`gr
      ensures Valid() && gr == old(gr)[bank := old(gr[bank])[index := value % 16]]
    {
      gr := gr[bank := gr[bank][index := value % 16]];
    }

    /** `setPC`: the low twelve bits. */
    method SetPC(value: int)
      modifies this`pc
      ensures pc == value % 4096 && pc < 4096
    {
      pc := value % 4096;
    }

    /** `setCB`: the low two bits. */
    method SetCB(value: int)
      requires Valid()
      modifies this`cb
      ensures Valid() && cb == value % 4
    {
      cb := value % 4;
    }

    /** `setAB`: the low two bits. */
    method SetAB(value: int)
      requires Valid()
      modifies this`ab
      ensures Valid() && ab == value % 4
    {
      ab := value % 4;
    }

    /** `setCF`: the low bit. */
    method SetCF(value: int)
      modifies this`cf
      ensures cf == value % 2
    {
      cf := value % 2;
    }

    /** `setZF`: the low bit. */
    method SetZF(value: int)
      modifies this`zf
      ensures zf == value % 2
    {
      zf := value % 2;
    }

    // ---- what each instruction does ----
    // Each instruction's effect, as a relation between the state before and
    // after it, on every field its group of handlers may change; PC, the stack
    // and the cost are stated beside it. The relations read no more than those
    // fields, so they survive the bookkeeping `Issue` does afterwards.

    /** The part of `Valid` the relations below rely on in the state before:
        the register file's shape, memory's shape and a well-formed panel. */
    ghost predicate Shaped()
      reads this, memory, display
    {
      memory.Valid() && PanelValid(display.State()) &&
      |gr| == BANK_COUNT && |sr| == SR_COUNT && cb < BANK_COUNT && ab < BANK_COUNT && bsa < 4096
    }

    /** The latch took GR[Hi] of the current bank, as it was before. */
    twostate predicate Latched(op: Opcode)
      reads this`bsa
    {
      old(Shaped()) && bsa == Latch(old(bsa), old(gr[cb][Hi(op)]))
    }

    twostate predicate KeepsBanks()
      reads this`cb, this`ab
    {
      cb == old(cb) && ab == old(ab)
    }

    twostate predicate KeepsFlags()
      reads this`cf, this`zf
    {
      cf == old(cf) && zf == old(zf)
    }

    /** The serial port, the stopwatch and the beeper log, but not the special
        registers. */
    twostate predicate KeepsSettings()
      reads this`ispMode, this`txEnable, this`rxEnable, this`transmitting, this`txBuffer,
            this`counter1, this`stopwatch, this`beeps
    {
      ispMode == old(ispMode) && txEnable == old(txEnable) && rxEnable == old(rxEnable) &&
      transmitting == old(transmitting) && txBuffer == old(txBuffer) &&
      counter1 == old(counter1) && stopwatch == old(stopwatch) && beeps == old(beeps)
    }

    twostate predicate KeepsPorts()
      reads this`sr, this`ispMode, this`txEnable, this`rxEnable, this`transmitting, this`txBuffer,
            this`counter1, this`stopwatch, this`beeps
    {
      sr == old(sr) && KeepsSettings()
    }

    /** External memory's bytes and the list of written words. */
    twostate predicate KeepsContents()
      reads memory`updated, memory.bytes
    {
      memory.updated == old(memory.updated) && unchanged(memory.bytes)
    }

    twostate predicate KeepsMemory()
      reads memory`sa, memory`updated, memory.bytes
    {
      memory.sa == old(memory.sa) && KeepsContents()
    }

    twostate predicate KeepsDisplay()
      reads display
    {
      unchanged(display)
    }

    /** `add`, `adb`, `adi` and `adbi`: GR[Hi] becomes the one-digit sum with
        `src` and CF its carry. */
    twostate predicate DigitAdded(op: Opcode, src: Nibble, bcd: bool)
      reads this`gr, this`cb, this`ab, this`cf, this`zf, this`bsa
    {
      Latched(op) && KeepsBanks() && zf == old(zf) &&
      var r := AddDigit(old(gr[cb][Hi(op)]), src, 0, bcd);
      gr == old(gr[cb := gr[cb][Hi(op) := r.digit]]) && cf == r.carry
    }

    /** `sub`, `sbb`, `sbi` and `sbbi`: GR[Hi] becomes the one-digit difference
        with `src`; CF is its borrow and ZF says the raw difference was 0. */
    twostate predicate DigitSubtracted(op: Opcode, src: Nibble, bcd: bool)
      reads this`gr, this`cb, this`ab, this`cf, this`zf, this`bsa
    {
      Latched(op) && KeepsBanks() &&
      var r := SubDigit(old(gr[cb][Hi(op)]), src, 0, bcd);
      gr == old(gr[cb := gr[cb][Hi(op) := r.digit]]) && cf == r.borrow && (zf == 1 <==> r.zero)
    }

    /** `cmp` and `cpi`: ZF says GR[Hi] equals `src`, CF that it is smaller. */
    twostate predicate Compared(op: Opcode, src: Nibble)
      reads this`gr, this`cb, this`ab, this`cf, this`zf, this`bsa
    {
      Latched(op) && KeepsBanks() && gr == old(gr) &&
      var d := old(gr[cb][Hi(op)]);
      (zf == 1 <==> d == src) && (cf == 1 <==> d < src)
    }

    /** `lcrb` and `larb`: CB (or AB) takes the bank field. */
    twostate predicate BankSelected(op: Opcode, alternate: bool)
      reads this`gr, this`cb, this`ab, this`cf, this`zf, this`bsa
    {
      Latched(op) && KeepsFlags() && gr == old(gr) &&
      if alternate then ab == BankSel(op) && cb == old(cb) else cb == BankSel(op) && ab == old(ab)
    }

    /** `andi`: each bit of GR[Hi] stays set iff the immediate's is set; ZF
        says the result is 0. */
    twostate predicate Anded(op: Opcode)
      reads this`gr, this`cb, this`ab, this`cf, this`zf, this`bsa
    {
      Latched(op) && KeepsBanks() && cf == old(cf) && |gr| == BANK_COUNT &&
      var r := gr[cb][Hi(op)];
      gr == old(gr[cb := gr[cb][Hi(op) := r]]) && (zf == 1 <==> r == 0) &&
      forall i :: 0 <= i < 4 ==> (BitOf(r, i) == 1 <==> BitOf(old(gr[cb][Hi(op)]), i) == 1 && BitOf(Imm4(op), i) == 1)
    }

    /** `ori`: each bit of GR[Hi] is set iff it was or the immediate's is. */
    twostate predicate Ored(op: Opcode)
      reads this`gr, this`cb, this`ab, this`cf, this`zf, this`bsa
    {
      Latched(op) && KeepsBanks() && KeepsFlags() && |gr| == BANK_COUNT &&
      var r := gr[cb][Hi(op)];
      gr == old(gr[cb := gr[cb][Hi(op) := r]]) &&
      forall i :: 0 <= i < 4 ==> (BitOf(r, i) == 1 <==> BitOf(old(gr[cb][Hi(op)]), i) == 1 || BitOf(Imm4(op), i) == 1)
    }

    /** `xori`: each bit of GR[Hi] flips iff the immediate's is set. */
    twostate predicate Xored(op: Opcode)
      reads this`gr, this`cb, this`ab, this`cf, this`zf, this`bsa
    {
      Latched(op) && KeepsBanks() && KeepsFlags() && |gr| == BANK_COUNT &&
      var r := gr[cb][Hi(op)];
      gr == old(gr[cb := gr[cb][Hi(op) := r]]) &&
      forall i :: 0 <= i < 4 ==> (BitOf(r, i) == 1 <==> BitOf(old(gr[cb][Hi(op)]), i) != BitOf(Imm4(op), i))
    }

    /** `adm`, `adbm`, `inc` and `incb`: the destination window becomes the
        multi-digit sum with the source window (with one, for an increment)
        and CF its carry; every destination register is latched. */
    twostate predicate WindowAdded(op: Opcode, bcd: bool, increment: bool)
      reads this`gr, this`cf, this`zf, this`bsa
    {
      old(Shaped()) && zf == old(zf) &&
      var b := old(gr[cb]);
      var r := if increment then AddDigits(DestWindow(b, op), Zeros(Len(op)), 1, bcd)
               else AddDigits(DestWindow(b, op), SourceWindow(b, op), 0, bcd);
      gr == old(gr[cb := StoreDest(b, op, r.digits)]) && cf == r.carry &&
      bsa == LatchAll(old(bsa), DestWindow(b, op))
    }

    /** `sbm`, `sbbm`, `dec` and `decb`: the destination window becomes the
        multi-digit difference with the source window (with one, for a
        decrement); CF is its borrow and ZF says every step's raw difference
        was 0. */
    twostate predicate WindowSubtracted(op: Opcode, bcd: bool, decrement: bool)
      reads this`gr, this`cf, this`zf, this`bsa
    {
      old(Shaped()) &&
      var b := old(gr[cb]);
      var r := if decrement then SubDigits(DestWindow(b, op), Zeros(Len(op)), 1, bcd)
               else SubDigits(DestWindow(b, op), SourceWindow(b, op), 0, bcd);
      gr == old(gr[cb := StoreDest(b, op, r.digits)]) && cf == r.borrow && (zf == 1 <==> r.zero) &&
      bsa == LatchAll(old(bsa), DestWindow(b, op))
    }

    /** `cpm`: the flags of the window subtraction; no register changes. */
    twostate predicate WindowCompared(op: Opcode)
      reads this`gr, this`cf, this`zf, this`bsa
    {
      old(Shaped()) && gr == old(gr) &&
      var b := old(gr[cb]);
      var r := SubDigits(DestWindow(b, op), SourceWindow(b, op), 0, false);
      cf == r.borrow && (zf == 1 <==> r.zero) && bsa == LatchAll(old(bsa), DestWindow(b, op))
    }

    /** `rshm`: the window shifted up one digit, latched from the top down. */
    twostate predicate WindowShiftedUp(op: Opcode)
      reads this`gr, this`cf, this`zf, this`bsa
    {
      old(Shaped()) && KeepsFlags() &&
      var b := old(gr[cb]);
      var w := DestWindow(b, op);
      gr == old(gr[cb := StoreDest(b, op, ShiftUp(w))]) && bsa == LatchAll(old(bsa), Reversed(w[1..]))
    }

    /** `lshm`: the `lshm` window shifted down one digit, latched from the
        bottom up. */
    twostate predicate WindowShiftedDown(op: Opcode)
      reads this`gr, this`cf, this`zf, this`bsa
    {
      old(Shaped()) && KeepsFlags() &&
      var b := old(gr[cb]);
      var w := ShiftLeftWindow(b, op);
      gr == old(gr[cb := StoreLeft(b, op, ShiftDown(w))]) && bsa == LatchAll(old(bsa), w[..LshmCount(op)])
    }

    /** `mov`, `ldi`, `mvac` and `mvca`: register Hi of the current bank (of
        the alternate bank) takes `v`. */
    twostate predicate RegisterMoved(op: Opcode, alternate: bool, v: Nibble)
      reads this`gr, this`bsa
    {
      Latched(op) &&
      var t := old(if alternate then ab else cb);
      gr == old(gr[t := gr[t][Hi(op) := v]])
    }

    /** `movm`, `mvacm` and `mvcam`: the destination window of the current
        bank (of the alternate bank) takes the source window of `source`;
        the current bank's destination registers are latched. */
    twostate predicate WindowMoved(op: Opcode, alternate: bool, source: Bank)
      reads this`gr, this`bsa
    {
      old(Shaped()) &&
      var t := old(if alternate then ab else cb);
      gr == old(gr[t := StoreDest(gr[t], op, SourceWindow(source, op))]) &&
      bsa == LatchAll(old(bsa), DestWindow(old(gr[cb]), op))
    }

    /** `clrm`: the destination window becomes zeros. */
    twostate predicate WindowCleared(op: Opcode)
      reads this`gr, this`bsa
    {
      old(Shaped()) &&
      gr == old(gr[cb := StoreDest(gr[cb], op, Zeros(Len(op)))]) &&
      bsa == LatchAll(old(bsa), DestWindow(old(gr[cb]), op))
    }

    /** `in`: GR[Hi] takes special register `Sr`, which is read with the side
        effects of a read. */
    twostate predicate SpecialRead(op: Opcode)
      reads this`gr, this`sr, this`bsa, this`ispMode, this`txEnable, this`rxEnable, this`transmitting,
            this`txBuffer, this`counter1, this`stopwatch, this`beeps, memory`sa, memory`updated, memory.bytes
    {
      Latched(op) && KeepsSettings() && KeepsMemory() &&
      gr == old(gr[cb := gr[cb][Hi(op) := sr[Sr(op)]]]) && sr == AfterRead(old(sr), Sr(op))
    }

    /** `out` and `outi`: `v` is written to special register `Sr`. */
    twostate predicate SpecialWritten(op: Opcode, v: Nibble)
      reads this`gr, this`sr, this`bsa, this`ispMode, this`txEnable, this`rxEnable, this`transmitting,
            this`txBuffer, this`counter1, this`stopwatch, this`beeps, memory`sa, memory`updated, memory.bytes
    {
      Latched(op) && KeepsMemory() && gr == old(gr) && SrWritten(Sr(op), v)
    }

    /** `psam`: SA takes the latch after the whole window has been latched. */
    twostate predicate SAPointed(op: Opcode)
      reads this`gr, this`sr, this`bsa, this`ispMode, this`txEnable, this`rxEnable, this`transmitting,
            this`txBuffer, this`counter1, this`stopwatch, this`beeps, memory`sa, memory`updated, memory.bytes
    {
      old(Shaped()) && gr == old(gr) && KeepsPorts() && KeepsContents() &&
      bsa == LatchAll(old(bsa), DestWindow(old(gr[cb]), op)) && memory.sa == bsa % EXTERNAL_SIZE
    }

    /** `stsm`: external memory takes the `Packed` window from SA on, the words
        are listed as written, and SA moves past them. */
    twostate predicate SerialStored(op: Opcode)
      reads this`gr, this`sr, this`bsa, this`ispMode, this`txEnable, this`rxEnable, this`transmitting,
            this`txBuffer, this`counter1, this`stopwatch, this`beeps, memory`sa, memory`updated, memory.bytes
    {
      old(Shaped()) && gr == old(gr) && KeepsPorts() &&
      var w := DestWindow(old(gr[cb]), op);
      memory.bytes[..] == Written(old(memory.bytes[..]), old(memory.sa), Packed(w)) &&
      memory.updated == old(memory.updated) + WrittenWords(old(memory.sa), Len(op) - 1) &&
      bsa == LatchAll(old(bsa), w[1..]) && memory.sa == (old(memory.sa) + Len(op) - 1) % EXTERNAL_SIZE
    }

    /** `ldsm`: the window takes the nibbles `Loaded` reads from SA on, and SA
        moves on by one less than the window's length. */
    twostate predicate SerialLoaded(op: Opcode)
      reads this`gr, this`sr, this`bsa, this`ispMode, this`txEnable, this`rxEnable, this`transmitting,
            this`txBuffer, this`counter1, this`stopwatch, this`beeps, memory`sa, memory`updated, memory.bytes
    {
      old(Shaped()) && KeepsPorts() && KeepsContents() &&
      var b := old(gr[cb]);
      gr == old(gr[cb := StoreDest(b, op, Loaded(memory.bytes[..], memory.sa, Len(op)))]) &&
      bsa == LatchAll(old(bsa), DestWindow(b, op)[1..]) &&
      memory.sa == (old(memory.sa) + (Len(op) - 1)) % EXTERNAL_SIZE
    }

    /** `psai`: SA takes the opcode modulo the size of external memory. */
    twostate predicate SAPointedAt(op: Opcode)
      reads this`gr, this`sr, this`bsa, this`ispMode, this`txEnable, this`rxEnable, this`transmitting,
            this`txBuffer, this`counter1, this`stopwatch, this`beeps, memory`sa, memory`updated, memory.bytes
    {
      Latched(op) && gr == old(gr) && KeepsPorts() && KeepsContents() && memory.sa == op % EXTERNAL_SIZE
    }

    /** `plam`: LA takes the last two registers of the window, unless it has
        only one. */
    twostate predicate LAPointed(op: Opcode)
      reads this`bsa, memory`sa, display
    {
      old(Shaped()) && memory.sa == old(memory.sa) &&
      var w := DestWindow(old(gr[cb]), op);
      var n := |w|;
      bsa == LatchAll(old(bsa), w) &&
      display.State() == if n > 1 then old(display.State()).(la := w[n - 2] as int + 16 * (w[n - 1] as int))
                         else old(display.State())
    }

    /** `stlm`: the display receives the `Packed` window, one `writeDDRAM` per
        byte. */
    twostate predicate LcdRangeStored(op: Opcode)
      reads this`bsa, memory`sa, display
    {
      old(Shaped()) && memory.sa == old(memory.sa) &&
      var w := DestWindow(old(gr[cb]), op);
      display.State() == PutAll(old(display.State()), Packed(w)) && bsa == LatchAll(old(bsa), w[1..])
    }

    /** `stl`: the cell at LA receives the character code of GR[Hi]. */
    twostate predicate LcdDigitStored(op: Opcode)
      reads this`bsa, memory`sa, display
    {
      Latched(op) && memory.sa == old(memory.sa) &&
      display.State() == Put(old(display.State()), old(gr[cb][Hi(op)]) as int + 0x30)
    }

    /** `plai`: LA takes the 8-bit immediate. */
    twostate predicate LAPointedAt(op: Opcode)
      reads this`bsa, memory`sa, display
    {
      Latched(op) && memory.sa == old(memory.sa) && display.State() == old(display.State()).(la := Imm8(op))
    }

    /** `stls` and `stlsa`: the byte at SA goes to the cell at LA (to the
        address the immediate names), and SA moves on. */
    twostate predicate LcdCopied(op: Opcode, addressed: bool)
      reads this`bsa, memory`sa, display
    {
      Latched(op) && memory.sa == (old(memory.sa) + 1) % EXTERNAL_SIZE &&
      var v := old(memory.bytes[EXTERNAL_OFFSET + memory.sa]);
      display.State() == if addressed then WriteAt(old(display.State()), Imm8(op), v)
                         else Put(old(display.State()), v)
    }

    /** `stli` and `stlia`: the 8-bit immediate goes to the cell at LA (to the
        address it names itself). */
    twostate predicate LcdImmediateStored(op: Opcode, addressed: bool)
      reads this`bsa, memory`sa, display
    {
      Latched(op) && memory.sa == old(memory.sa) &&
      display.State() == if addressed then WriteAt(old(display.State()), Imm8(op), Imm8(op))
                         else Put(old(display.State()), Imm8(op))
    }

    // ---- single-register arithmetic and logic ----

    /** `add` (binary) and `adb` (decimal): GR[Hi] += GR[Lo]; CF is the carry out. */
    method AddRegister(op: Opcode, bcd: bool) returns (cost: nat)
      requires Valid()
      modifies this`gr, this`cf, this`bsa, this`pc
      ensures Valid() && cost == 1 && pc == old(pc) + 1
      ensures DigitAdded(op, old(gr[cb][Lo(op)]), bcd)
    {
      var d := gr[cb][Hi(op)];
      bsa := Latch(bsa, d);
      var r := AddDigit(d, gr[cb][Lo(op)], 0, bcd);
      gr := gr[cb := gr[cb][Hi(op) := r.digit]];
      cf := r.carry;
      pc := pc + 1;
      cost := 1;
    }

    /** `sub` (binary) and `sbb` (decimal): GR[Hi] -= GR[Lo]; ZF reports a zero
        difference and CF a borrow. */
    method SubtractRegister(op: Opcode, bcd: bool) returns (cost: nat)
      requires Valid()
      modifies this`gr, this`cf, this`zf, this`bsa, this`pc
      ensures Valid() && cost == 1 && pc == old(pc) + 1
      ensures DigitSubtracted(op, old(gr[cb][Lo(op)]), bcd)
    {
      var d := gr[cb][Hi(op)];
      bsa := Latch(bsa, d);
      var r := SubDigit(d, gr[cb][Lo(op)], 0, bcd);
      gr := gr[cb := gr[cb][Hi(op) := r.digit]];
      zf := if r.zero then 1 else 0;
      cf := r.borrow;
      pc := pc + 1;
      cost := 1;
    }

    /** `adi` (binary) and `adbi` (decimal): GR[Hi] += the 4-bit immediate. */
    method AddImmediate(op: Opcode, bcd: bool) returns (cost: nat)
      requires Valid()
      modifies this`gr, this`cf, this`bsa, this`pc
      ensures Valid() && cost == 1 && pc == old(pc) + 1
      ensures DigitAdded(op, Imm4(op), bcd)
    {
      var d := gr[cb][Hi(op)];
      bsa := Latch(bsa, d);
      var r := AddDigit(d, Imm4(op), 0, bcd);
      gr := gr[cb := gr[cb][Hi(op) := r.digit]];
      cf := r.carry;
      pc := pc + 1;
      cost := 1;
    }

    /** `sbi` (binary) and `sbbi` (decimal): GR[Hi] -= the 4-bit immediate. */
    method SubtractImmediate(op: Opcode, bcd: bool) returns (cost: nat)
      requires Valid()
      modifies this`gr, this`cf, this`zf, this`bsa, this`pc
      ensures Valid() && cost == 1 && pc == old(pc) + 1
      ensures DigitSubtracted(op, Imm4(op), bcd)
    {
      var d := gr[cb][Hi(op)];
      bsa := Latch(bsa, d);
      var r := SubDigit(d, Imm4(op), 0, bcd);
      gr := gr[cb := gr[cb][Hi(op) := r.digit]];
      zf := if r.zero then 1 else 0;
      cf := r.borrow;
      pc := pc + 1;
      cost := 1;
    }

    /** `cmp` (`Lo` is a register) and `cpi` (`Lo` is the immediate): ZF says
        GR[Hi] equals the operand, CF that it is smaller; no register changes. */
    method Compare(op: Opcode, immediate: bool) returns (cost: nat)
      requires Valid()
      modifies this`cf, this`zf, this`bsa, this`pc
      ensures Valid() && cost == 1 && pc == old(pc) + 1
      ensures Compared(op, if immediate then Imm4(op) else old(gr[cb][Lo(op)]))
    {
      var d := gr[cb][Hi(op)];
      bsa := Latch(bsa, d);
      var s := if immediate then Imm4(op) else gr[cb][Lo(op)];
      zf := if d == s then 1 else 0;
      cf := if d < s then 1 else 0;
      pc := pc + 1;
      cost := 1;
    }

    /** `lcrb` and `larb`: CB (or AB) becomes the 2-bit bank field. */
    method SelectBank(op: Opcode, alternate: bool) returns (cost: nat)
      requires Valid()
      modifies this`cb, this`ab, this`bsa, this`pc
      ensures Valid() && cost == 1 && pc == old(pc) + 1
      ensures BankSelected(op, alternate)
    {
      bsa := Latch(bsa, gr[cb][Hi(op)]);
      if alternate {
        ab := BankSel(op);
      } else {
        cb := BankSel(op);
      }
      pc := pc + 1;
      cost := 1;
    }

    /** `andi`: GR[Hi] &= the immediate; ZF reports a zero result. */
    method AndImmediate(op: Opcode) returns (cost: nat)
      requires Valid()
      modifies this`gr, this`zf, this`bsa, this`pc
      ensures Valid() && cost == 1 && pc == old(pc) + 1
      ensures Anded(op)
    {
      var d := gr[cb][Hi(op)];
      bsa := Latch(bsa, d);
      var r := And4(d, Imm4(op));
      gr := gr[cb := gr[cb][Hi(op) := r]];
      zf := if r == 0 then 1 else 0;
      pc := pc + 1;
      cost := 1;
    }

    /** `ori`: GR[Hi] |= the immediate; no flag changes. */
    method OrImmediate(op: Opcode) returns (cost: nat)
      requires Valid()
      modifies this`gr, this`bsa, this`pc
      ensures Valid() && cost == 1 && pc == old(pc) + 1
      ensures Ored(op)
    {
      var d := gr[cb][Hi(op)];
      bsa := Latch(bsa, d);
      gr := gr[cb := gr[cb][Hi(op) := Or4(d, Imm4(op))]];
      pc := pc + 1;
      cost := 1;
    }

    /** `xori`: GR[Hi] ^= the immediate; no flag changes. */
    method XorImmediate(op: Opcode) returns (cost: nat)
      requires Valid()
      modifies this`gr, this`bsa, this`pc
      ensures Valid() && cost == 1 && pc == old(pc) + 1
      ensures Xored(op)
    {
      var d := gr[cb][Hi(op)];
      bsa := Latch(bsa, d);
      gr := gr[cb := gr[cb][Hi(op) := Xor4(d, Imm4(op))]];
      pc := pc + 1;
      cost := 1;
    }

    // ---- ranged arithmetic ----

    /** The end of an instruction that rewrites the current bank: `bank`
        takes its place and PC moves to the next instruction. */
    method Commit(bank: Bank)
      requires Valid()
      modifies this`gr, this`pc
      ensures Valid() && gr == old(gr)[cb := bank] && pc == old(pc) + 1
    {
      gr := gr[cb := bank];
      pc := pc + 1;
    }

    /** `adm` (binary) and `adbm` (decimal): the destination window plus the
        source window, as multi-digit numbers with the least significant digit
        in the first register; CF is the carry out of the last register. Each
        destination register is latched before it is written. */
    method AddRange(op: Opcode, bcd: bool) returns (cost: nat)
      requires Valid()
      modifies this`gr, this`cf, this`bsa, this`pc
      ensures Valid() && cost == Len(op) && pc == old(pc) + 1
      ensures WindowAdded(op, bcd, false)
    {
      var bank := AddWindows(gr[cb], op, bcd, false);
      Commit(bank);
      cost := Len(op);
    }

    /** `inc` (binary) and `incb` (decimal): the destination window plus one;
        CF is the carry out of the last register. */
    method IncrementRange(op: Opcode, bcd: bool) returns (cost: nat)
      requires Valid()
      modifies this`gr, this`cf, this`bsa, this`pc
      ensures Valid() && cost == Len(op) && pc == old(pc) + 1
      ensures WindowAdded(op, bcd, true)
    {
      var bank := AddWindows(gr[cb], op, bcd, true);
      Commit(bank);
      cost := Len(op);
    }

    /** The loop of `adm`, `adbm`, `inc` and `incb` over the current bank `b`:
        at each step, latch the destination register, then add the source
        register (nothing, for an increment) and the carry into it. CF starts
        at 1 for an increment and at 0 otherwise. */
    method AddWindows(b: Bank, op: Opcode, bcd: bool, increment: bool) returns (bank: Bank)
      requires bsa < 4096
      modifies this`cf, this`bsa
      ensures !increment ==>
        var r := AddDigits(DestWindow(b, op), SourceWindow(b, op), 0, bcd);
        bank == StoreDest(b, op, r.digits) && cf == r.carry
      ensures increment ==>
        var r := AddDigits(DestWindow(b, op), Zeros(Len(op)), 1, bcd);
        bank == StoreDest(b, op, r.digits) && cf == r.carry
      ensures bsa == LatchAll(old(bsa), DestWindow(b, op))
    {
      bank := b;
      ghost var dw := DestWindow(b, op);
      ghost var ss := if increment then Zeros(Len(op)) else SourceWindow(b, op);
      var cin: Bit := if increment then 1 else 0;
      cf := cin;
      StoredNothing(b, op);
      for k := 0 to Len(op)
        invariant bsa < 4096
        invariant bank == Stored(b, op, AddDigits(dw[..k], ss[..k], cin, bcd).digits)
        invariant cf == AddDigits(dw[..k], ss[..k], cin, bcd).carry
        invariant bsa == LatchAll(old(bsa), dw[..k])
      {
        ghost var acc := AddDigits(dw[..k], ss[..k], cin, bcd);
        var dst := DestSlot(op, k);
        assert |acc.digits| == k;
        WriteStep(b, op, acc.digits, 0);
        assert bank[dst] == dw[k] && ss[k] == if increment then 0 else bank[SourceSlot(op, k)];
        var r := AddDigit(bank[dst], if increment then 0 else bank[SourceSlot(op, k)], cf, bcd);
        WriteStep(b, op, acc.digits, r.digit);
        LatchPrefix(old(bsa), dw, k);
        AddDigitsPrefix(dw, ss, k, cin, bcd);
        ghost var next := AddDigits(dw[..k + 1], ss[..k + 1], cin, bcd);
        assert next.digits == acc.digits + [r.digit] && next.carry == r.carry;
        bsa := Latch(bsa, bank[dst]);
        bank := bank[dst := r.digit];
        cf := r.carry;
      }
      assert dw[..Len(op)] == dw && ss[..Len(op)] == ss;
    }

    /** `sbm` (binary) and `sbbm` (decimal): the destination window minus the
        source window; CF is the borrow out of the last register and ZF says
        every step's raw difference was 0. */
    method SubtractRange(op: Opcode, bcd: bool) returns (cost: nat)
      requires Valid()
      modifies this`gr, this`cf, this`zf, this`bsa, this`pc
      ensures Valid() && cost == Len(op) && pc == old(pc) + 1
      ensures WindowSubtracted(op, bcd, false)
    {
      var bank := SubWindows(gr[cb], op, bcd, false);
      Commit(bank);
      cost := Len(op);
    }

    /** `dec` (binary) and `decb` (decimal): the destination window minus one;
        CF is the borrow out of the last register and ZF says the window held 1. */
    method DecrementRange(op: Opcode, bcd: bool) returns (cost: nat)
      requires Valid()
      modifies this`gr, this`cf, this`zf, this`bsa, this`pc
      ensures Valid() && cost == Len(op) && pc == old(pc) + 1
      ensures WindowSubtracted(op, bcd, true)
    {
      var bank := SubWindows(gr[cb], op, bcd, true);
      Commit(bank);
      cost := Len(op);
    }

    /** The loop of `sbm`, `sbbm`, `dec` and `decb` over the current bank `b`:
        at each step, latch the destination register, then subtract the source
        register (nothing, for a decrement) and the borrow from it. CF starts
        at 1 for a decrement and at 0 otherwise; ZF starts at 1. */
    method SubWindows(b: Bank, op: Opcode, bcd: bool, decrement: bool) returns (bank: Bank)
      requires bsa < 4096
      modifies this`cf, this`zf, this`bsa
      ensures var r := if decrement then SubDigits(DestWindow(b, op), Zeros(Len(op)), 1, bcd)
                       else SubDigits(DestWindow(b, op), SourceWindow(b, op), 0, bcd);
        bank == StoreDest(b, op, r.digits) && cf == r.borrow && (zf == 1 <==> r.zero)
      ensures bsa == LatchAll(old(bsa), DestWindow(b, op))
    {
      bank := b;
      ghost var dw := DestWindow(b, op);
      ghost var ss := if decrement then Zeros(Len(op)) else SourceWindow(b, op);
      var bin: Bit := if decrement then 1 else 0;
      cf, zf := bin, 1;
      SubProgressStart(b, op, ss, bin, bcd);
      for k := 0 to Len(op)
        invariant bsa < 4096
        invariant SubProgress(b, op, ss, bin, bcd, k, bank, cf, zf)
        invariant bsa == LatchAll(old(bsa), dw[..k])
      {
        SubProgressStep(b, op, ss, bin, bcd, k, bank, cf, zf);
        LatchPrefix(old(bsa), dw, k);
        var dst := DestSlot(op, k);
        var r := SubDigit(bank[dst], if decrement then 0 else bank[SourceSlot(op, k)], cf, bcd);
        bsa := Latch(bsa, bank[dst]);
        bank := bank[dst := r.digit];
        zf := if zf == 1 && r.zero then 1 else 0;
        cf := r.borrow;
      }
      SubProgressDone(b, op, ss, bin, bcd, bank, cf, zf);
      assert dw[..Len(op)] == dw;
    }

    /** `cpm`: compares the destination window with the source window as
        multi-digit numbers without changing either. ZF says they are equal
        and CF that the destination is the smaller. */
    method CompareRange(op: Opcode) returns (cost: nat)
      requires Valid()
      modifies this`cf, this`zf, this`bsa, this`pc
      ensures Valid() && cost == Len(op) && pc == old(pc) + 1
      ensures WindowCompared(op)
    {
      CompareWindows(gr[cb], op);
      pc := pc + 1;
      cost := Len(op);
    }

    /** The loop of `cpm` over the current bank `b`: at each step, latch the
        destination register, then compare it with the source register plus
        the borrow. */
    method CompareWindows(b: Bank, op: Opcode)
      requires bsa < 4096
      modifies this`cf, this`zf, this`bsa
      ensures var r := SubDigits(DestWindow(b, op), SourceWindow(b, op), 0, false);
        cf == r.borrow && (zf == 1 <==> r.zero) && bsa == LatchAll(old(bsa), DestWindow(b, op))
    {
      ghost var dw, sw := DestWindow(b, op), SourceWindow(b, op);
      cf, zf := 0, 1;
      for k := 0 to Len(op)
        invariant bsa < 4096
        invariant cf == SubDigits(dw[..k], sw[..k], 0, false).borrow
        invariant zf == 1 <==> SubDigits(dw[..k], sw[..k], 0, false).zero
        invariant bsa == LatchAll(old(bsa), dw[..k])
      {
        var d, s := b[DestSlot(op, k)], b[SourceSlot(op, k)];
        assert d == dw[k] && s == sw[k];
        LatchPrefix(old(bsa), dw, k);
        SubDigitsPrefix(dw, sw, k, 0, false);
        bsa := Latch(bsa, d);
        zf := if zf == 1 && d == s + cf then 1 else 0;
        cf := if d < s + cf then 1 else 0;
      }
      assert dw[..Len(op)] == dw && sw[..Len(op)] == sw;
    }

    // ---- moves ----

    /** `mov`: GR[Hi] takes the value of GR[Lo]. */
    method Move(op: Opcode) returns (cost: nat)
      requires Valid()
      modifies this`gr, this`bsa, this`pc
      ensures Valid() && cost == 1 && pc == old(pc) + 1
      ensures RegisterMoved(op, false, old(gr[cb][Lo(op)]))
    {
      bsa := Latch(bsa, gr[cb][Hi(op)]);
      gr := gr[cb := gr[cb][Hi(op) := gr[cb][Lo(op)]]];
      pc := pc + 1;
      cost := 1;
    }

    /** `ldi`: GR[Hi] takes the 4-bit immediate. */
    method LoadImmediate(op: Opcode) returns (cost: nat)
      requires Valid()
      modifies this`gr, this`bsa, this`pc
      ensures Valid() && cost == 1 && pc == old(pc) + 1
      ensures RegisterMoved(op, false, Imm4(op))
    {
      bsa := Latch(bsa, gr[cb][Hi(op)]);
      gr := gr[cb := gr[cb][Hi(op) := Imm4(op)]];
      pc := pc + 1;
      cost := 1;
    }

    /** `mvac`: register Hi of the alternate bank takes GR[Lo] of the current
        bank; the latch takes the current bank's GR[Hi]. */
    method MoveToAlternate(op: Opcode) returns (cost: nat)
      requires Valid()
      modifies this`gr, this`bsa, this`pc
      ensures Valid() && cost == 1 && pc == old(pc) + 1
      ensures RegisterMoved(op, true, old(gr[cb][Lo(op)]))
    {
      bsa := Latch(bsa, gr[cb][Hi(op)]);
      gr := gr[ab := gr[ab][Hi(op) := gr[cb][Lo(op)]]];
      pc := pc + 1;
      cost := 1;
    }

    /** `mvca`: GR[Hi] of the current bank takes register Lo of the alternate bank. */
    method MoveFromAlternate(op: Opcode) returns (cost: nat)
      requires Valid()
      modifies this`gr, this`bsa, this`pc
      ensures Valid() && cost == 1 && pc == old(pc) + 1
      ensures RegisterMoved(op, false, old(gr[ab][Lo(op)]))
    {
      bsa := Latch(bsa, gr[cb][Hi(op)]);
      gr := gr[cb := gr[cb][Hi(op) := gr[ab][Lo(op)]]];
      pc := pc + 1;
      cost := 1;
    }

    /** `movm`: the destination window takes the source window of the same bank. */
    method MoveRange(op: Opcode) returns (cost: nat)
      requires Valid()
      modifies this`gr, this`bsa, this`pc
      ensures Valid() && cost == Len(op) && pc == old(pc) + 1
      ensures WindowMoved(op, false, old(gr[cb]))
    {
      var bank := CopyWithin(gr[cb], op);
      Commit(bank);
      cost := Len(op);
    }

    /** `mvacm`: the destination window of the alternate bank takes the source
        window of the current bank; the latch takes the current bank's
        destination registers. */
    method MoveRangeToAlternate(op: Opcode) returns (cost: nat)
      requires Valid()
      modifies this`gr, this`bsa, this`pc
      ensures Valid() && cost == Len(op) && pc == old(pc) + 1
      ensures WindowMoved(op, true, old(gr[cb]))
    {
      var bank;
      if ab == cb {
        bank := CopyWithin(gr[cb], op);
      } else {
        bank := CopyAcross(gr[ab], gr[cb], gr[cb], op);
      }
      gr := gr[ab := bank];
      pc := pc + 1;
      cost := Len(op);
    }

    /** `mvcam`: the destination window of the current bank takes the source
        window of the alternate bank. */
    method MoveRangeFromAlternate(op: Opcode) returns (cost: nat)
      requires Valid()
      modifies this`gr, this`bsa, this`pc
      ensures Valid() && cost == Len(op) && pc == old(pc) + 1
      ensures WindowMoved(op, false, old(gr[ab]))
    {
      var bank;
      if ab == cb {
        bank := CopyWithin(gr[cb], op);
      } else {
        bank := CopyAcross(gr[cb], gr[ab], gr[cb], op);
      }
      Commit(bank);
      cost := Len(op);
    }

    /** The loop of `movm`, and of `mvacm` and `mvcam` when both bank pointers
        name the same bank: at each step, latch the destination register, then
        copy the source register into it. */
    method CopyWithin(b: Bank, op: Opcode) returns (bank: Bank)
      requires bsa < 4096
      modifies this`bsa
      ensures bank == StoreDest(b, op, SourceWindow(b, op))
      ensures bsa == LatchAll(old(bsa), DestWindow(b, op))
    {
      bank := b;
      ghost var dw, sw := DestWindow(b, op), SourceWindow(b, op);
      StoredNothing(b, op);
      for k := 0 to Len(op)
        invariant bsa < 4096
        invariant bank == Stored(b, op, sw[..k])
        invariant bsa == LatchAll(old(bsa), dw[..k])
      {
        var dst := DestSlot(op, k);
        CopyStep(b, op, k);
        LatchPrefix(old(bsa), dw, k);
        bsa := Latch(bsa, bank[dst]);
        bank := bank[dst := bank[SourceSlot(op, k)]];
      }
      assert sw[..Len(op)] == sw && dw[..Len(op)] == dw;
      StoredAll(b, op, sw);
    }

    /** The loop of `mvacm` and `mvcam` between two different banks: at each
        step, latch a destination register of `latched`, then copy the source
        register of `source` into the destination register of `target`.
        `latched` is the current bank: `source` for `mvacm`, `target` for
        `mvcam`, where each register is latched before it is written and so
        still holds its original value. */
    method CopyAcross(target: Bank, source: Bank, latched: Bank, op: Opcode) returns (bank: Bank)
      requires bsa < 4096
      modifies this`bsa
      ensures bank == StoreDest(target, op, SourceWindow(source, op))
      ensures bsa == LatchAll(old(bsa), DestWindow(latched, op))
    {
      bank := target;
      ghost var sw, lw := SourceWindow(source, op), DestWindow(latched, op);
      StoredNothing(target, op);
      for k := 0 to Len(op)
        invariant bsa < 4096
        invariant bank == Stored(target, op, sw[..k])
        invariant bsa == LatchAll(old(bsa), lw[..k])
      {
        var dst := DestSlot(op, k);
        WindowsAt(source, op, k);
        WindowsAt(latched, op, k);
        StoreStep(target, op, sw, k);
        LatchPrefix(old(bsa), lw, k);
        bsa := Latch(bsa, latched[dst]);
        bank := bank[dst := source[SourceSlot(op, k)]];
      }
      assert sw[..Len(op)] == sw && lw[..Len(op)] == lw;
    }

    /** `clrm`: every register of the destination window becomes 0. */
    method ClearRange(op: Opcode) returns (cost: nat)
      requires Valid()
      modifies this`gr, this`bsa, this`pc
      ensures Valid() && cost == Len(op) && pc == old(pc) + 1
      ensures WindowCleared(op)
    {
      var bank := ClearWindow(gr[cb], op);
      Commit(bank);
      cost := Len(op);
    }

    /** The loop of `clrm` over the current bank `b`: at each step, latch the
        destination register, then clear it. */
    method ClearWindow(b: Bank, op: Opcode) returns (bank: Bank)
      requires bsa < 4096
      modifies this`bsa
      ensures bank == StoreDest(b, op, Zeros(Len(op))) && bsa == LatchAll(old(bsa), DestWindow(b, op))
    {
      bank := b;
      ghost var dw, zs := DestWindow(b, op), Zeros(Len(op));
      StoredNothing(b, op);
      for k := 0 to Len(op)
        invariant bsa < 4096
        invariant bank == Stored(b, op, zs[..k])
        invariant bsa == LatchAll(old(bsa), dw[..k])
      {
        var dst := DestSlot(op, k);
        WriteStep(b, op, zs[..k], 0);
        LatchPrefix(old(bsa), dw, k);
        bsa := Latch(bsa, bank[dst]);
        bank := bank[dst := 0];
        assert zs[..k + 1] == zs[..k] + [0];
      }
      assert zs[..Len(op)] == zs && dw[..Len(op)] == dw;
    }

    // ---- shifts ----

    /** `rshm`: every register of the destination window takes the value of the
        one below it, the top value is lost and GR[Hi] becomes 0 (one digit
        up: times 16). The moves run from the top down and each latches the
        register it overwrites; the cost is the number of moves. */
    method ShiftRight(op: Opcode) returns (cost: nat)
      requires Valid()
      modifies this`gr, this`bsa, this`pc
      ensures Valid() && cost == Len(op) - 1 && pc == old(pc) + 1
      ensures WindowShiftedUp(op)
    {
      var bank := ShiftWindowUp(gr[cb], op);
      Commit(bank);
      cost := Len(op) - 1;
    }

    /** The loop of `rshm` over the current bank `b`. */
    method ShiftWindowUp(b: Bank, op: Opcode) returns (bank: Bank)
      requires bsa < 4096
      modifies this`bsa
      ensures var w := DestWindow(b, op);
        bank == StoreDest(b, op, ShiftUp(w)) && bsa == LatchAll(old(bsa), Reversed(w[1..]))
    {
      bank := b;
      ghost var w := DestWindow(b, op);
      ghost var page, start := HiPage(op), Hi(op) % 8;
      StoreWindow(b, page, start, Len(op));
      ShiftingUpEnds(w);
      for j := Len(op) downto 1
        invariant bsa < 4096
        invariant bank == Stored(b, op, ShiftingUp(w, j))
        invariant bsa == LatchAll(old(bsa), Reversed(w[j..]))
      {
        StoredShiftingUpStep(b, op, j);
        LatchSnoc(old(bsa), Reversed(w[j + 1..]), w[j]);
        assert w[j..][1..] == w[j + 1..];
        var dst := DestSlot(op, j);
        var v := bank[DestSlot(op, j - 1)];
        bsa := Latch(bsa, bank[dst]);
        bank := bank[dst := v];
      }
      StoreUpdate(b, page, start, ShiftingUp(w, 1), 0, 0);
      bank := bank[DestSlot(op, 0) := 0];
    }

    /** `lshm`: every register of the window from offset `op & 7` of the page
        up to GR[Hi] takes the value of the one above it, the bottom value is
        lost and GR[Hi] becomes 0 (one digit down: divided by 16). The moves run
        from the bottom up and each latches the register it overwrites; the
        cost is the number of moves. */
    method ShiftLeft(op: Opcode) returns (cost: nat)
      requires Valid()
      modifies this`gr, this`bsa, this`pc
      ensures Valid() && cost == LshmCount(op) && pc == old(pc) + 1
      ensures WindowShiftedDown(op)
    {
      var bank := ShiftWindowDown(gr[cb], op);
      Commit(bank);
      cost := LshmCount(op);
    }

    /** The loop of `lshm` over the current bank `b`. */
    method ShiftWindowDown(b: Bank, op: Opcode) returns (bank: Bank)
      requires bsa < 4096
      modifies this`bsa
      ensures var w := ShiftLeftWindow(b, op);
        bank == StoreLeft(b, op, ShiftDown(w)) && bsa == LatchAll(old(bsa), w[..LshmCount(op)])
    {
      bank := b;
      ghost var w := ShiftLeftWindow(b, op);
      var page, start := HiPage(op), op % 8;
      ShiftedLeftNone(b, op);
      ShiftedLeftEnds(b, op);
      for k := 0 to LshmCount(op)
        invariant bsa < 4096
        invariant bank == ShiftedLeft(b, op, k)
        invariant bsa == LatchAll(old(bsa), w[..k])
      {
        var dst, src := Slot(page, start, k), Slot(page, start, k + 1);
        assert dst < BANK_SIZE && src < BANK_SIZE && |bank| == BANK_SIZE;
        ShiftedLeftStep(b, op, k);
        LatchPrefix(old(bsa), w, k);
        bsa := Latch(bsa, bank[dst]);
        bank := bank[dst := bank[src]];
      }
      bank := bank[Hi(op) := 0];
    }

    // ---- special registers, pointers and serial memory ----

    /** `in`: GR[Hi] takes special register `Sr`, read with the side effects
        of a read. */
    method ReadSpecial(op: Opcode) returns (cost: nat)
      requires Valid()
      modifies this`gr, this`sr, this`bsa, this`pc
      ensures Valid() && cost == 1 && pc == old(pc) + 1
      ensures SpecialRead(op)
    {
      bsa := Latch(bsa, gr[cb][Hi(op)]);
      var v := ReadSR(Sr(op));
      Commit(gr[cb][Hi(op) := v]);
      cost := 1;
    }

    /** `out`: GR[Hi] is latched and written to special register `Sr`. */
    method WriteSpecial(op: Opcode) returns (cost: nat)
      requires Valid()
      modifies this`sr, this`ispMode, this`txEnable, this`rxEnable, this`transmitting, this`txBuffer,
               this`counter1, this`stopwatch, this`beeps, this`bsa, this`pc
      ensures Valid() && cost == 1 && pc == old(pc) + 1
      ensures SpecialWritten(op, old(gr[cb][Hi(op)]))
    {
      var v := gr[cb][Hi(op)];
      bsa := Latch(bsa, v);
      WriteSR(Sr(op), v);
      pc := pc + 1;
      cost := 1;
    }

    /** `outi`: GR[Hi] is latched, and the immediate in bits 6-9 is written to
        special register `Sr`. */
    method WriteSpecialImmediate(op: Opcode) returns (cost: nat)
      requires Valid()
      modifies this`sr, this`ispMode, this`txEnable, this`rxEnable, this`transmitting, this`txBuffer,
               this`counter1, this`stopwatch, this`beeps, this`bsa, this`pc
      ensures Valid() && cost == 1 && pc == old(pc) + 1
      ensures SpecialWritten(op, OutImm(op))
    {
      bsa := Latch(bsa, gr[cb][Hi(op)]);
      WriteSR(Sr(op), OutImm(op));
      pc := pc + 1;
      cost := 1;
    }

    /** The loop of `psam` and `plam` over the window of bank `b`: latch each
        register in turn, and assemble from them the LA value `plam` sends. */
    method LatchWindow(b: Bank, op: Opcode) returns (la: nat)
      requires bsa < 4096
      modifies this`bsa
      ensures bsa == LatchAll(old(bsa), DestWindow(b, op)) && la == LaAll(DestWindow(b, op))
    {
      ghost var w := DestWindow(b, op);
      la := 0;
      for k := 0 to Len(op)
        invariant bsa < 4096
        invariant bsa == LatchAll(old(bsa), w[..k]) && la == LaAll(w[..k])
      {
        var v := b[DestSlot(op, k)];
        WindowsAt(b, op, k);
        LatchPrefix(old(bsa), w, k);
        LaPrefix(w, k);
        bsa := Latch(bsa, v);
        la := LaStep(la, v);
      }
      assert w[..Len(op)] == w;
    }

    /** `psam`: latches each register of the window in turn, then points
        external memory at the latch. With three or more registers that is the
        address the last three spell, the first of them least significant. */
    method PointSA(op: Opcode) returns (cost: nat)
      requires Valid()
      modifies this`bsa, this`pc, memory`sa
      ensures Valid() && cost == Len(op) && pc == old(pc) + 1
      ensures SAPointed(op)
      ensures |DestWindow(gr[cb], op)| >= 3 ==> memory.sa == LastThree(DestWindow(gr[cb], op)) % EXTERNAL_SIZE
    {
      LatchIntoSA(op);
      pc := pc + 1;
      cost := Len(op);
    }

    /** The latching and the pointing `psam` does, on BSA and SA alone. */
    method LatchIntoSA(op: Opcode)
      requires Valid()
      modifies this`bsa, memory`sa
      ensures Valid() && bsa == LatchAll(old(bsa), DestWindow(gr[cb], op)) && memory.sa == bsa % EXTERNAL_SIZE
      ensures |DestWindow(gr[cb], op)| >= 3 ==> memory.sa == LastThree(DestWindow(gr[cb], op)) % EXTERNAL_SIZE
    {
      ghost var w := DestWindow(gr[cb], op);
      var _ := LatchWindow(gr[cb], op);
      memory.SetSA(bsa);
      if Len(op) >= 3 {
        LatchKeepsLastThree(old(bsa), w);
      }
    }

    /** `plam`: latches each register of the window in turn; a window of two or
        more registers then sets the display's LA to the last two, the
        second-to-last as the low nibble. A single register leaves LA alone. */
    method PointLA(op: Opcode) returns (cost: nat)
      requires Valid()
      modifies this`bsa, this`pc, display`la
      ensures Valid() && cost == Len(op) && pc == old(pc) + 1
      ensures LAPointed(op)
    {
      var la := LatchWindow(gr[cb], op);
      if Len(op) > 1 {
        LaKeepsLastTwo(DestWindow(gr[cb], op));
        display.SetLA(la);
      }
      pc := pc + 1;
      cost := Len(op);
    }

    /** `ldsm`: loads the window from external memory (`Loaded`): GR[Hi] takes
        the low nibble of the byte at the pointer, which neither latches nor
        moves the pointer; each further register is latched and then takes the
        high nibble of the next byte read, each read moving the pointer on. */
    method LoadSerial(op: Opcode) returns (cost: nat)
      requires Valid()
      modifies this`gr, this`bsa, this`pc, memory`sa
      ensures Valid() && cost == Len(op) && pc == old(pc) + 1
      ensures SerialLoaded(op)
    {
      var bank := LoadWindow(gr[cb], op);
      Commit(bank);
      cost := Len(op);
    }

    /** `ldsm` over the current bank `b`: the first register, then the rest. */
    method LoadWindow(b: Bank, op: Opcode) returns (bank: Bank)
      requires memory.Valid() && bsa < 4096
      modifies this`bsa, memory`sa
      ensures memory.Valid()
      ensures bank == StoreDest(b, op, Loaded(old(memory.bytes[..]), old(memory.sa), Len(op)))
      ensures bsa == LatchAll(old(bsa), DestWindow(b, op)[1..])
      ensures memory.sa == (old(memory.sa) + (Len(op) - 1)) % EXTERNAL_SIZE
    {
      ghost var m0, sa0 := memory.bytes[..], memory.sa;
      assert sa0 % EXTERNAL_SIZE == sa0;
      bank := LoadFirst(b, op, m0, sa0);
      bank := LoadRest(b, op, m0, sa0, bank);
    }

    /** The first step of `ldsm`: GR[Hi] takes the low nibble of the byte at
        the pointer (`readNibbleExternal`, which leaves the pointer alone). */
    method LoadFirst(b: Bank, op: Opcode, ghost m0: seq<Byte>, ghost sa0: nat) returns (bank: Bank)
      requires memory.Valid() && memory.bytes[..] == m0 && memory.sa == sa0
      ensures bank == Stored(b, op, Loaded(m0, sa0, Len(op))[..1])
    {
      var first := memory.ReadNibbleExternal();
      assert ExternalAddress(sa0, 0) == EXTERNAL_OFFSET + sa0;
      assert first == m0[ExternalAddress(sa0, 0)] % 16;
      LoadedFirst(m0, sa0, Len(op));
      StoredNothing(b, op);
      WriteStep(b, op, [], first);
      bank := b[DestSlot(op, 0) := first];
    }

    /** The loop of `ldsm`: every register of the window after the first. */
    method LoadRest(b: Bank, op: Opcode, ghost m0: seq<Byte>, ghost sa0: nat, bank0: Bank) returns (bank: Bank)
      requires memory.Valid() && bsa < 4096 && memory.bytes[..] == m0 && memory.sa == sa0 % EXTERNAL_SIZE
      requires bank0 == Stored(b, op, Loaded(m0, sa0, Len(op))[..1])
      modifies this`bsa, memory`sa
      ensures memory.Valid()
      ensures bank == StoreDest(b, op, Loaded(m0, sa0, Len(op)))
      ensures bsa == LatchAll(old(bsa), DestWindow(b, op)[1..])
      ensures memory.sa == (sa0 + (Len(op) - 1)) % EXTERNAL_SIZE
    {
      ghost var w := DestWindow(b, op)[1..];
      ghost var ld := Loaded(m0, sa0, Len(op));
      bank := bank0;
      assert w[..0] == [];
      for j := 0 to Len(op) - 1
        invariant bsa < 4096 && ReadSoFar(m0, sa0, j)
        invariant bank == Stored(b, op, ld[..j + 1])
        invariant bsa == LatchAll(old(bsa), w[..j])
      {
        bank := LoadNext(b, op, m0, sa0, j, bank, old(bsa));
      }
      assert ld[..Len(op)] == ld && w[..Len(op) - 1] == w;
      StoredAll(b, op, ld);
    }

    /** One step of the `ldsm` loop: latch register `j + 1` of the window,
        then load it with the high nibble of the byte at the pointer. */
    method LoadNext(b: Bank, op: Opcode, ghost m0: seq<Byte>, ghost sa0: nat, j: nat, bank: Bank, ghost bsa0: nat)
      returns (next: Bank)
      requires ReadSoFar(m0, sa0, j)
      requires j + 1 < Len(op) && bank == Stored(b, op, Loaded(m0, sa0, Len(op))[..j + 1])
      requires bsa0 < 4096 && bsa == LatchAll(bsa0, DestWindow(b, op)[1..][..j])
      modifies this`bsa, memory`sa
      ensures ReadSoFar(m0, sa0, j + 1)
      ensures next == Stored(b, op, Loaded(m0, sa0, Len(op))[..(j + 1) + 1])
      ensures bsa < 4096 && bsa == LatchAll(bsa0, DestWindow(b, op)[1..][..j + 1])
    {
      ghost var ld := Loaded(m0, sa0, Len(op));
      var dst := DestSlot(op, j + 1);
      WriteStep(b, op, ld[..j + 1], ld[j + 1]);
      LatchPrefix(bsa0, DestWindow(b, op)[1..], j);
      bsa := Latch(bsa, bank[dst]);
      var v := ReadHigh(m0, sa0, j);
      next := bank[dst := v];
      LoadedStep(m0, sa0, Len(op), j);
    }

    /** `readExternal() >> 4` during a run of reads over contents `m0` that
        began at pointer `sa0`, `k` bytes in: the high nibble of the byte
        there, and the pointer moves on. */
    method ReadHigh(ghost m0: seq<Byte>, ghost sa0: nat, ghost k: nat) returns (v: Nibble)
      requires ReadSoFar(m0, sa0, k)
      modifies memory`sa
      ensures ReadSoFar(m0, sa0, k + 1)
      ensures v == m0[ExternalAddress(sa0, k)] / 16
    {
      PointerStep(sa0, k);
      var x := memory.ReadExternal();
      v := x / 16;
    }

    /** External memory `k` bytes into a run of reads over contents `m0` that
        began at pointer `sa0`. */
    ghost predicate ReadSoFar(m0: seq<Byte>, sa0: nat, k: nat)
      reads memory, memory.bytes
    {
      memory.Valid() && memory.bytes[..] == m0 && memory.sa == (sa0 + k) % EXTERNAL_SIZE
    }

    /** `stsm`: stores the window to external memory as `Packed` bytes: from
        the second register on, each register is latched and written, as the
        high nibble over its predecessor as the low nibble, to the byte at the
        pointer, which moves on after each byte. */
    method StoreSerial(op: Opcode) returns (cost: nat)
      requires Valid()
      modifies this`bsa, this`pc, memory`sa, memory`updated, memory.bytes
      ensures Valid() && cost == Len(op) && pc == old(pc) + 1
      ensures SerialStored(op)
    {
      SendWindow(gr[cb], op);
      pc := pc + 1;
      cost := Len(op);
    }

    /** The loop of `stsm` over the current bank `b`. */
    method SendWindow(b: Bank, op: Opcode)
      requires memory.Valid() && bsa < 4096
      modifies this`bsa, memory`sa, memory`updated, memory.bytes
      ensures memory.Valid()
      ensures var w := DestWindow(b, op);
        memory.bytes[..] == Written(old(memory.bytes[..]), old(memory.sa), Packed(w)) &&
        memory.updated == old(memory.updated) + WrittenWords(old(memory.sa), Len(op) - 1) &&
        bsa == LatchAll(old(bsa), w[1..])
      ensures memory.sa == (old(memory.sa) + Len(op) - 1) % EXTERNAL_SIZE
    {
      ghost var dw := DestWindow(b, op);
      ghost var w, bs := dw[1..], Packed(dw);
      ghost var m0, sa0, u0 := memory.bytes[..], memory.sa, memory.updated;
      assert bs[..0] == [] && w[..0] == [] && u0 + WrittenWords(sa0, 0) == u0;
      assert WrittenSoFar(m0, sa0, u0, []);
      for k := 1 to Len(op)
        invariant bsa < 4096 && WrittenSoFar(m0, sa0, u0, bs[..k - 1])
        invariant bsa == LatchAll(old(bsa), w[..k - 1])
      {
        SendNext(b, op, k, old(bsa), m0, sa0, u0);
      }
      assert bs[..Len(op) - 1] == bs && w[..Len(op) - 1] == w;
    }

    /** Step `k` of `stsm`: latch register `k` of the window, then write it
        over register `k - 1` as the next byte of the run. */
    method SendNext(b: Bank, op: Opcode, k: nat, ghost bsa0: nat, ghost m0: seq<Byte>, ghost sa0: nat, ghost u0: seq<nat>)
      requires 1 <= k < Len(op) && bsa0 < 4096
      requires WrittenSoFar(m0, sa0, u0, Packed(DestWindow(b, op))[..k - 1])
      requires bsa == LatchAll(bsa0, DestWindow(b, op)[1..][..k - 1])
      modifies this`bsa, memory`sa, memory`updated, memory.bytes
      ensures WrittenSoFar(m0, sa0, u0, Packed(DestWindow(b, op))[..k])
      ensures bsa < 4096 && bsa == LatchAll(bsa0, DestWindow(b, op)[1..][..k])
    {
      ghost var dw := DestWindow(b, op);
      var hi, lo := b[DestSlot(op, k)], b[DestSlot(op, k - 1)];
      WindowsAt(b, op, k);
      WindowsAt(b, op, k - 1);
      PackedStep(dw, k);
      assert dw[1..][k - 1] == hi;
      LatchPrefix(bsa0, dw[1..], k - 1);
      bsa := Latch(bsa, hi);
      WriteNext(m0, sa0, u0, Packed(dw)[..k - 1], Pair(hi, lo));
    }

    /** External memory `|done|` bytes into a run of writes that began at
        pointer `sa0`, over contents `m0` and with change log `u0`. */
    ghost predicate WrittenSoFar(m0: seq<Byte>, sa0: nat, u0: seq<nat>, done: seq<Byte>)
      reads memory, memory.bytes
    {
      memory.Valid() && |m0| == MEM_SIZE &&
      memory.sa == (sa0 + |done|) % EXTERNAL_SIZE &&
      memory.bytes[..] == Written(m0, sa0, done) &&
      memory.updated == u0 + WrittenWords(sa0, |done|)
    }

    /** `writeExternal` of the next byte `v` of a run of writes. */
    method WriteNext(ghost m0: seq<Byte>, ghost sa0: nat, ghost u0: seq<nat>, ghost done: seq<Byte>, v: Byte)
      requires WrittenSoFar(m0, sa0, u0, done)
      modifies memory`sa, memory`updated, memory.bytes
      ensures WrittenSoFar(m0, sa0, u0, done + [v])
    {
      PointerStep(sa0, |done|);
      memory.WriteExternal(v);
      WrittenSnoc(m0, sa0, done, v);
      WrittenWordsStep(sa0, |done|);
      assert u0 + WrittenWords(sa0, |done| + 1) == (u0 + WrittenWords(sa0, |done|)) + [ExternalAddress(sa0, |done|) / 2];
    }

    // ---- display ----

    /** `stlm`: sends the window to the display as `Packed` bytes, the same
        pairs `stsm` stores, one `writeDDRAM` per byte, latching each register
        from the second on. */
    method StoreLcdRange(op: Opcode) returns (cost: nat)
      requires Valid()
      modifies this`bsa, this`pc, display
      ensures Valid() && cost == Len(op) && pc == old(pc) + 1
      ensures LcdRangeStored(op)
    {
      var b := gr[cb];
      ShowWindow(b, op);
      assert gr[cb] == b;
      pc := pc + 1;
      cost := Len(op);
    }

    /** The loop of `stlm` over the current bank `b`. */
    method ShowWindow(b: Bank, op: Opcode)
      requires display.Valid() && bsa < 4096
      modifies this`bsa, display
      ensures display.Valid()
      ensures var w := DestWindow(b, op);
        display.State() == PutAll(old(display.State()), Packed(w)) && bsa == LatchAll(old(bsa), w[1..])
    {
      ghost var dw := DestWindow(b, op);
      ghost var w, bs := dw[1..], Packed(dw);
      ghost var p0 := display.State();
      for k := 1 to Len(op)
        invariant display.Valid() && bsa < 4096
        invariant display.State() == PutAll(p0, bs[..k - 1])
        invariant bsa == LatchAll(old(bsa), w[..k - 1])
      {
        var hi, lo := b[DestSlot(op, k)], b[DestSlot(op, k - 1)];
        WindowsAt(b, op, k);
        WindowsAt(b, op, k - 1);
        LatchPrefix(old(bsa), w, k - 1);
        bsa := Latch(bsa, hi);
        display.WriteDDRAM(Pair(hi, lo));
        PutAllStep(p0, bs, k - 1);
      }
      assert bs[..Len(op) - 1] == bs && w[..Len(op) - 1] == w;
    }

    /** `stl`: the display character code of the digit in GR[Hi] (`| 0x30`,
        ASCII '0' to '?') goes to the cell at LA. */
    method StoreLcd(op: Opcode) returns (cost: nat)
      requires Valid()
      modifies this`bsa, this`pc, display
      ensures Valid() && cost == 1 && pc == old(pc) + 1
      ensures LcdDigitStored(op)
      ensures gr[cb][Hi(op)] <= 9 ==> '0' as int <= gr[cb][Hi(op)] as int + 0x30 <= '9' as int
    {
      var v := gr[cb][Hi(op)];
      bsa := Latch(bsa, v);
      display.WriteDDRAM(v as int + 0x30);
      pc := pc + 1;
      cost := 1;
    }

    /** `psai`: the external pointer takes the opcode itself, modulo the size
        of external memory (its low eleven bits). */
    method PointSAImmediate(op: Opcode) returns (cost: nat)
      requires Valid()
      modifies this`bsa, this`pc, memory`sa
      ensures Valid() && cost == 1 && pc == old(pc) + 1
      ensures SAPointedAt(op)
    {
      bsa := Latch(bsa, gr[cb][Hi(op)]);
      memory.SetSA(op);
      pc := pc + 1;
      cost := 1;
    }

    /** `plai`: the display's LA takes the 8-bit immediate. */
    method PointLAImmediate(op: Opcode) returns (cost: nat)
      requires Valid()
      modifies this`bsa, this`pc, display`la
      ensures Valid() && cost == 1 && pc == old(pc) + 1
      ensures LAPointedAt(op)
    {
      bsa := Latch(bsa, gr[cb][Hi(op)]);
      display.SetLA(Imm8(op));
      pc := pc + 1;
      cost := 1;
    }

    /** `stls` (to the cell at LA) and `stlsa` (to the address the 8-bit
        immediate names): the byte at the external pointer goes to the display,
        and the pointer moves on. */
    method CopyToLcd(op: Opcode, addressed: bool) returns (cost: nat)
      requires Valid()
      modifies this`bsa, this`pc, memory`sa, display
      ensures Valid() && cost == 1 && pc == old(pc) + 1
      ensures LcdCopied(op, addressed)
    {
      bsa := Latch(bsa, gr[cb][Hi(op)]);
      var v := memory.ReadExternal();
      if addressed {
        display.WriteDDRAMaddr(Imm8(op), v);
      } else {
        display.WriteDDRAM(v);
      }
      pc := pc + 1;
      cost := 1;
    }

    /** `stli` (to the cell at LA) and `stlia` (to the address the same
        immediate names): the 8-bit immediate goes to the display. */
    method StoreLcdImmediate(op: Opcode, addressed: bool) returns (cost: nat)
      requires Valid()
      modifies this`bsa, this`pc, display
      ensures Valid() && cost == 1 && pc == old(pc) + 1
      ensures LcdImmediateStored(op, addressed)
    {
      bsa := Latch(bsa, gr[cb][Hi(op)]);
      if addressed {
        display.WriteDDRAMaddr(Imm8(op), Imm8(op));
      } else {
        display.WriteDDRAM(Imm8(op));
      }
      pc := pc + 1;
      cost := 1;
    }

    // ---- control flow ----

    /** `call`: pushes PC (the return goes to the word after it, see
        `Return`) and jumps to the 12-bit target. */
    method CallTo(op: Opcode) returns (cost: nat)
      requires Valid()
      modifies this`bsa, this`pc, this`stack
      ensures Valid() && cost == 1
      ensures Latched(op)
      ensures pc == Target12(op) && stack == Push(old(stack), old(pc))
    {
      bsa := Latch(bsa, gr[cb][Hi(op)]);
      stack := Push(stack, pc);
      pc := Target12(op);
      cost := 1;
    }

    /** `ret`: pops the return address, if there is one, and continues after
        it; with an empty stack it simply moves on. */
    method Return(op: Opcode) returns (cost: nat)
      requires Valid()
      modifies this`bsa, this`pc, this`stack
      ensures Valid() && cost == 1
      ensures Latched(op)
      ensures |old(stack)| > 0 ==>
        pc == old(stack)[|old(stack)| - 1] + 1 && stack == old(stack)[..|old(stack)| - 1]
      ensures |old(stack)| == 0 ==> pc == old(pc) + 1 && stack == []
    {
      bsa := Latch(bsa, gr[cb][Hi(op)]);
      if |stack| > 0 {
        pc := stack[|stack| - 1];
        stack := stack[..|stack| - 1];
      }
      pc := pc + 1;
      cost := 1;
    }

    /** `cpfjr`: skips `Lo` words forward when GR[Hi] holds 4. */
    method CompareFourJump(op: Opcode) returns (cost: nat)
      requires Valid()
      modifies this`bsa, this`pc
      ensures Valid() && cost == 1
      ensures Latched(op)
      ensures pc == old(pc) + 1 + (if old(gr[cb][Hi(op)]) == 4 then Lo(op) else 0)
    {
      bsa := Latch(bsa, gr[cb][Hi(op)]);
      if gr[cb][Hi(op)] == 4 {
        pc := pc + Lo(op);
      }
      pc := pc + 1;
      cost := 1;
    }

    /** `ijmr`: skips as many words forward as GR[Hi] says. */
    method IndexedJump(op: Opcode) returns (cost: nat)
      requires Valid()
      modifies this`bsa, this`pc
      ensures Valid() && cost == 1
      ensures Latched(op)
      ensures pc == old(pc) + old(gr[cb][Hi(op)]) + 1
    {
      bsa := Latch(bsa, gr[cb][Hi(op)]);
      pc := pc + gr[cb][Hi(op)];
      pc := pc + 1;
      cost := 1;
    }

    /** `wfe`: stays on this instruction until some event is pending in SR0. */
    method WaitForEvent(op: Opcode) returns (cost: nat)
      requires Valid()
      modifies this`bsa, this`pc
      ensures Valid() && cost == 1
      ensures Latched(op)
      ensures pc == if old(sr[0]) != 0 then old(pc) + 1 else old(pc)
    {
      bsa := Latch(bsa, gr[cb][Hi(op)]);
      if sr[0] != 0 {
        pc := pc + 1;
      }
      cost := 1;
    }

    /** `jmp`: jumps to the 12-bit target. */
    method Jump(op: Opcode) returns (cost: nat)
      requires Valid()
      modifies this`bsa, this`pc
      ensures Valid() && cost == 1
      ensures Latched(op)
      ensures pc == Target12(op)
    {
      bsa := Latch(bsa, gr[cb][Hi(op)]);
      pc := Target12(op);
      cost := 1;
    }

    /** `jz`, `jnz`, `jc` and `jnc`, with `taken` the flag test: a taken jump
        goes to `CondTarget`, inside the 1K-word bank of PC; otherwise PC
        moves on. */
    method JumpIf(op: Opcode, taken: bool) returns (cost: nat)
      requires Valid()
      modifies this`bsa, this`pc
      ensures Valid() && cost == 1
      ensures Latched(op)
      ensures pc == if taken then CondTarget(op, old(pc)) else old(pc) + 1
    {
      bsa := Latch(bsa, gr[cb][Hi(op)]);
      if taken {
        pc := CondTarget(op, pc);
      } else {
        pc := pc + 1;
      }
      cost := 1;
    }

    /** `btjr`: skips `Lo` words forward when bit `BitSel` of GR[Hi] is set. */
    method BitTestJump(op: Opcode) returns (cost: nat)
      requires Valid()
      modifies this`bsa, this`pc
      ensures Valid() && cost == 1
      ensures Latched(op)
      ensures pc == old(pc) + 1 + (if BitOf(old(gr[cb][Hi(op)]), BitSel(op)) == 1 then Lo(op) else 0)
    {
      var v := gr[cb][Hi(op)];
      bsa := Latch(bsa, v);
      TestOneBit(v, BitSel(op));
      if And4(v, Mask(BitSel(op))) != 0 {
        pc := pc + Lo(op);
      }
      pc := pc + 1;
      cost := 1;
    }

    /** `cpjr`: skips `Lo` words forward when GR[Hi] equals the 2-bit constant
        `BitSel`. */
    method CompareJump(op: Opcode) returns (cost: nat)
      requires Valid()
      modifies this`bsa, this`pc
      ensures Valid() && cost == 1
      ensures Latched(op)
      ensures pc == old(pc) + 1 + (if old(gr[cb][Hi(op)]) == BitSel(op) then Lo(op) else 0)
    {
      bsa := Latch(bsa, gr[cb][Hi(op)]);
      if gr[cb][Hi(op)] == BitSel(op) {
        pc := pc + Lo(op);
      }
      pc := pc + 1;
      cost := 1;
    }

    // ---- dispatch and the clock ----

    /** What `clock` does with an opcode, on every field but PC and the
        stack: the effect of its handler, with every field outside the
        handler's group as it was. */
    twostate predicate Executed(op: Opcode)
      reads this`gr, this`sr, this`cb, this`ab, this`cf, this`zf, this`bsa,
            this`ispMode, this`txEnable, this`rxEnable, this`transmitting, this`txBuffer,
            this`counter1, this`stopwatch, this`beeps, memory`sa, memory`updated, memory.bytes, display
    {
      Dispatched(op, Decode(op))
    }

    /** The handler of mnemonic `m` applied to `op`, by group. */
    twostate predicate Dispatched(op: Opcode, m: Mnemonic)
      reads this`gr, this`sr, this`cb, this`ab, this`cf, this`zf, this`bsa,
            this`ispMode, this`txEnable, this`rxEnable, this`transmitting, this`txBuffer,
            this`counter1, this`stopwatch, this`beeps, memory`sa, memory`updated, memory.bytes, display
    {
      if IsRegisterAlu(m) then RegisterAluExecuted(op, m)
      else if IsRangeAlu(m) then RangeAluExecuted(op, m)
      else if IsMove(m) then MoveExecuted(op, m)
      else if IsSerial(m) then SerialExecuted(op, m)
      else if IsLcd(m) then LcdExecuted(op, m)
      else FlowExecuted(op)
    }

    /** `RegisterAluDone`, with every field outside the group as it was. */
    twostate predicate RegisterAluExecuted(op: Opcode, m: Mnemonic)
      reads this`gr, this`sr, this`cb, this`ab, this`cf, this`zf, this`bsa,
            this`ispMode, this`txEnable, this`rxEnable, this`transmitting, this`txBuffer,
            this`counter1, this`stopwatch, this`beeps, memory`sa, memory`updated, memory.bytes, display
    {
      RegisterAluDone(op, m) && KeepsPorts() && KeepsMemory() && KeepsDisplay()
    }

    /** `RangeAluDone`, with every field outside the group as it was. */
    twostate predicate RangeAluExecuted(op: Opcode, m: Mnemonic)
      reads this`gr, this`sr, this`cb, this`ab, this`cf, this`zf, this`bsa,
            this`ispMode, this`txEnable, this`rxEnable, this`transmitting, this`txBuffer,
            this`counter1, this`stopwatch, this`beeps, memory`sa, memory`updated, memory.bytes, display
    {
      RangeAluDone(op, m) && KeepsBanks() && KeepsPorts() && KeepsMemory() && KeepsDisplay()
    }

    /** `MoveDone`, with every field outside the group as it was. */
    twostate predicate MoveExecuted(op: Opcode, m: Mnemonic)
      reads this`gr, this`sr, this`cb, this`ab, this`cf, this`zf, this`bsa,
            this`ispMode, this`txEnable, this`rxEnable, this`transmitting, this`txBuffer,
            this`counter1, this`stopwatch, this`beeps, memory`sa, memory`updated, memory.bytes, display
    {
      MoveDone(op, m) && KeepsBanks() && KeepsFlags() && KeepsPorts() && KeepsMemory() && KeepsDisplay()
    }

    /** `SerialDone`, with every field outside the group as it was. */
    twostate predicate SerialExecuted(op: Opcode, m: Mnemonic)
      reads this`gr, this`sr, this`cb, this`ab, this`cf, this`zf, this`bsa,
            this`ispMode, this`txEnable, this`rxEnable, this`transmitting, this`txBuffer,
            this`counter1, this`stopwatch, this`beeps, memory`sa, memory`updated, memory.bytes, display
    {
      SerialDone(op, m) && KeepsBanks() && KeepsFlags() && KeepsDisplay()
    }

    /** `LcdDone`, with every field outside the group as it was. */
    twostate predicate LcdExecuted(op: Opcode, m: Mnemonic)
      reads this`gr, this`sr, this`cb, this`ab, this`cf, this`zf, this`bsa,
            this`ispMode, this`txEnable, this`rxEnable, this`transmitting, this`txBuffer,
            this`counter1, this`stopwatch, this`beeps, memory`sa, memory`updated, memory.bytes, display
    {
      LcdDone(op, m) && gr == old(gr) && KeepsBanks() && KeepsFlags() && KeepsPorts() && KeepsContents()
    }

    /** `Latched`, with every field outside the group as it was. */
    twostate predicate FlowExecuted(op: Opcode)
      reads this`gr, this`sr, this`cb, this`ab, this`cf, this`zf, this`bsa,
            this`ispMode, this`txEnable, this`rxEnable, this`transmitting, this`txBuffer,
            this`counter1, this`stopwatch, this`beeps, memory`sa, memory`updated, memory.bytes, display
    {
      Latched(op) && gr == old(gr) && KeepsBanks() && KeepsFlags() && KeepsPorts() && KeepsMemory() &&
      KeepsDisplay()
    }

    /** Nothing but PC, the stack and the cycle bookkeeping changed. */
    twostate predicate Idle()
      reads this`gr, this`sr, this`cb, this`ab, this`cf, this`zf, this`bsa,
            this`ispMode, this`txEnable, this`rxEnable, this`transmitting, this`txBuffer,
            this`counter1, this`stopwatch, this`beeps, memory`sa, memory`updated, memory.bytes, display
    {
      gr == old(gr) && bsa == old(bsa) && KeepsBanks() && KeepsFlags() && KeepsPorts() && KeepsMemory() &&
      KeepsDisplay()
    }

    /** The single-register handlers, by mnemonic. */
    twostate predicate RegisterAluDone(op: Opcode, m: Mnemonic)
      reads this`gr, this`cb, this`ab, this`cf, this`zf, this`bsa
    {
      old(Shaped()) &&
      match m
      case Add => DigitAdded(op, old(gr[cb][Lo(op)]), false)
      case Adb => DigitAdded(op, old(gr[cb][Lo(op)]), true)
      case Sub => DigitSubtracted(op, old(gr[cb][Lo(op)]), false)
      case Sbb => DigitSubtracted(op, old(gr[cb][Lo(op)]), true)
      case Adi => DigitAdded(op, Imm4(op), false)
      case Adbi => DigitAdded(op, Imm4(op), true)
      case Sbi => DigitSubtracted(op, Imm4(op), false)
      case Sbbi => DigitSubtracted(op, Imm4(op), true)
      case Cmp => Compared(op, old(gr[cb][Lo(op)]))
      case Cpi => Compared(op, Imm4(op))
      case Lcrb => BankSelected(op, false)
      case Larb => BankSelected(op, true)
      case Andi => Anded(op)
      case Ori => Ored(op)
      case Xori => Xored(op)
      case _ => false
    }

    /** The ranged arithmetic, step and shift handlers, by mnemonic. */
    twostate predicate RangeAluDone(op: Opcode, m: Mnemonic)
      reads this`gr, this`cf, this`zf, this`bsa
    {
      match m
      case Adm => WindowAdded(op, false, false)
      case Adbm => WindowAdded(op, true, false)
      case Sbm => WindowSubtracted(op, false, false)
      case Sbbm => WindowSubtracted(op, true, false)
      case Cpm => WindowCompared(op)
      case Inc => WindowAdded(op, false, true)
      case Incb => WindowAdded(op, true, true)
      case Dec => WindowSubtracted(op, false, true)
      case Decb => WindowSubtracted(op, true, true)
      case Rshm => WindowShiftedUp(op)
      case Lshm => WindowShiftedDown(op)
      case _ => false
    }

    /** The move handlers, by mnemonic. */
    twostate predicate MoveDone(op: Opcode, m: Mnemonic)
      reads this`gr, this`bsa
    {
      old(Shaped()) &&
      match m
      case Mov => RegisterMoved(op, false, old(gr[cb][Lo(op)]))
      case Movm => WindowMoved(op, false, old(gr[cb]))
      case Ldi => RegisterMoved(op, false, Imm4(op))
      case Clrm => WindowCleared(op)
      case Mvac => RegisterMoved(op, true, old(gr[cb][Lo(op)]))
      case Mvacm => WindowMoved(op, true, old(gr[cb]))
      case Mvca => RegisterMoved(op, false, old(gr[ab][Lo(op)]))
      case Mvcam => WindowMoved(op, false, old(gr[ab]))
      case _ => false
    }

    /** The special-register and serial-memory handlers, by mnemonic. */
    twostate predicate SerialDone(op: Opcode, m: Mnemonic)
      reads this`gr, this`sr, this`bsa, this`ispMode, this`txEnable, this`rxEnable, this`transmitting,
            this`txBuffer, this`counter1, this`stopwatch, this`beeps, memory`sa, memory`updated, memory.bytes
    {
      old(Shaped()) &&
      match m
      case In => SpecialRead(op)
      case Out => SpecialWritten(op, old(gr[cb][Hi(op)]))
      case Outi => SpecialWritten(op, OutImm(op))
      case Psam => SAPointed(op)
      case Stsm => SerialStored(op)
      case Ldsm => SerialLoaded(op)
      case Psai => SAPointedAt(op)
      case _ => false
    }

    /** The display handlers, by mnemonic. */
    twostate predicate LcdDone(op: Opcode, m: Mnemonic)
      reads this`bsa, memory`sa, display
    {
      match m
      case Plam => LAPointed(op)
      case Stlm => LcdRangeStored(op)
      case Stl => LcdDigitStored(op)
      case Plai => LAPointedAt(op)
      case Stls => LcdCopied(op, false)
      case Stlsa => LcdCopied(op, true)
      case Stli => LcdImmediateStored(op, false)
      case Stlia => LcdImmediateStored(op, true)
      case _ => false
    }

    /** What `clock` does first with the single-register arithmetic and logic group: its handler's effect, with every
        field outside the group's frame as it was. */
    method DispatchRegisterAlu(op: Opcode, m: Mnemonic) returns (cost: nat)
      requires Valid() && IsRegisterAlu(m)
      modifies this`gr, this`cb, this`ab, this`cf, this`zf, this`bsa, this`pc
      ensures Valid() && cost == Cost(m, op) && RegisterAluExecuted(op, m)
      ensures pc == PcAfter(m, op, old(pc), old(gr[cb][Hi(op)]), old(zf), old(cf), old(sr[0]) != 0, old(stack))
      ensures stack == StackAfter(m, old(pc), old(stack))
    {
      cost := ExecuteRegisterAlu(op, m);
    }

    /** What `clock` does first with the ranged arithmetic, step and shift group: its handler's effect, with every
        field outside the group's frame as it was. */
    method DispatchRangeAlu(op: Opcode, m: Mnemonic) returns (cost: nat)
      requires Valid() && IsRangeAlu(m)
      modifies this`gr, this`cf, this`zf, this`bsa, this`pc
      ensures Valid() && cost == Cost(m, op) && RangeAluExecuted(op, m)
      ensures pc == PcAfter(m, op, old(pc), old(gr[cb][Hi(op)]), old(zf), old(cf), old(sr[0]) != 0, old(stack))
      ensures stack == StackAfter(m, old(pc), old(stack))
    {
      cost := ExecuteRangeAlu(op, m);
    }

    /** What `clock` does first with the move group: its handler's effect, with every
        field outside the group's frame as it was. */
    method DispatchMove(op: Opcode, m: Mnemonic) returns (cost: nat)
      requires Valid() && IsMove(m)
      modifies this`gr, this`bsa, this`pc
      ensures Valid() && cost == Cost(m, op) && MoveExecuted(op, m)
      ensures pc == PcAfter(m, op, old(pc), old(gr[cb][Hi(op)]), old(zf), old(cf), old(sr[0]) != 0, old(stack))
      ensures stack == StackAfter(m, old(pc), old(stack))
    {
      cost := ExecuteMove(op, m);
    }

    /** What `clock` does first with the special-register and serial-memory group: its handler's effect, with every
        field outside the group's frame as it was. */
    method DispatchSerial(op: Opcode, m: Mnemonic) returns (cost: nat)
      requires Valid() && IsSerial(m)
      modifies this`gr, this`sr, this`bsa, this`pc,
               this`ispMode, this`txEnable, this`rxEnable, this`transmitting, this`txBuffer,
               this`counter1, this`stopwatch, this`beeps,
               memory`sa, memory`updated, memory.bytes
      ensures Valid() && cost == Cost(m, op) && SerialExecuted(op, m)
      ensures pc == PcAfter(m, op, old(pc), old(gr[cb][Hi(op)]), old(zf), old(cf), old(sr[0]) != 0, old(stack))
      ensures stack == StackAfter(m, old(pc), old(stack))
    {
      cost := ExecuteSerial(op, m);
    }

    /** What `clock` does first with the display group: its handler's effect, with every
        field outside the group's frame as it was. */
    method DispatchLcd(op: Opcode, m: Mnemonic) returns (cost: nat)
      requires Valid() && IsLcd(m)
      modifies this`bsa, this`pc, memory`sa, display
      ensures Valid() && cost == Cost(m, op) && LcdExecuted(op, m)
      ensures pc == PcAfter(m, op, old(pc), old(gr[cb][Hi(op)]), old(zf), old(cf), old(sr[0]) != 0, old(stack))
      ensures stack == StackAfter(m, old(pc), old(stack))
    {
      cost := ExecuteLcd(op, m);
    }

    /** What `clock` does first with the control-flow group: its handler's effect, with every
        field outside the group's frame as it was. */
    method DispatchFlow(op: Opcode, m: Mnemonic) returns (cost: nat)
      requires Valid() && IsFlow(m)
      modifies this`stack, this`bsa, this`pc
      ensures Valid() && cost == Cost(m, op) && FlowExecuted(op)
      ensures pc == PcAfter(m, op, old(pc), old(gr[cb][Hi(op)]), old(zf), old(cf), old(sr[0]) != 0, old(stack))
      ensures stack == StackAfter(m, old(pc), old(stack))
    {
      cost := ExecuteFlow(op, m);
    }

    /** What `clock` does after the handler: the count takes its cost, the
        cycle total grows by it and PC keeps its low twelve bits. */
    method Account(cost: nat)
      requires Valid()
      modifies this`executionCounter, this`mcycles, this`pc
      ensures Valid() && executionCounter == cost && mcycles == old(mcycles) + cost
      ensures pc == old(pc) % 4096 && pc < 4096
    {
      executionCounter := cost;
      mcycles := mcycles + cost;
      pc := pc % 4096;
    }

    // In the six `Issue*` methods below, the group's effect predicate is
    // compared with `true` so that it is proved as one postcondition rather
    // than split into one proof obligation per case of its body.

    /** The second half of `clock` for an opcode of the single-register arithmetic and logic group: its
        handler runs, with every field outside the group's frame as it was;
        the count and the cycle total take the cost, and PC keeps its low 12
        bits. */
    method IssueRegisterAlu(op: Opcode, m: Mnemonic)
      requires Valid() && IsRegisterAlu(m)
      modifies this`gr, this`cb, this`ab, this`cf, this`zf, this`bsa, this`pc,
               this`executionCounter, this`mcycles
      ensures Valid() && RegisterAluExecuted(op, m) == true
      ensures executionCounter == Cost(m, op) && mcycles == old(mcycles) + Cost(m, op)
      ensures pc == PcAfter(m, op, old(pc), old(gr[cb][Hi(op)]), old(zf), old(cf), old(sr[0]) != 0, old(stack)) % 4096
      ensures stack == StackAfter(m, old(pc), old(stack))
      ensures counter0 == old(counter0) && ispCounter == old(ispCounter)
    {
      var cost := DispatchRegisterAlu(op, m);
      Account(cost);
    }

    /** The second half of `clock` for an opcode of the ranged arithmetic, step and shift group: its
        handler runs, with every field outside the group's frame as it was;
        the count and the cycle total take the cost, and PC keeps its low 12
        bits. */
    method IssueRangeAlu(op: Opcode, m: Mnemonic)
      requires Valid() && IsRangeAlu(m)
      modifies this`gr, this`cf, this`zf, this`bsa, this`pc,
               this`executionCounter, this`mcycles
      ensures Valid() && RangeAluExecuted(op, m) == true
      ensures executionCounter == Cost(m, op) && mcycles == old(mcycles) + Cost(m, op)
      ensures pc == PcAfter(m, op, old(pc), old(gr[cb][Hi(op)]), old(zf), old(cf), old(sr[0]) != 0, old(stack)) % 4096
      ensures stack == StackAfter(m, old(pc), old(stack))
      ensures counter0 == old(counter0) && ispCounter == old(ispCounter)
    {
      var cost := DispatchRangeAlu(op, m);
      Account(cost);
    }

    /** The second half of `clock` for an opcode of the move group: its
        handler runs, with every field outside the group's frame as it was;
        the count and the cycle total take the cost, and PC keeps its low 12
        bits. */
    method IssueMove(op: Opcode, m: Mnemonic)
      requires Valid() && IsMove(m)
      modifies this`gr, this`bsa, this`pc,
               this`executionCounter, this`mcycles
      ensures Valid() && MoveExecuted(op, m) == true
      ensures executionCounter == Cost(m, op) && mcycles == old(mcycles) + Cost(m, op)
      ensures pc == PcAfter(m, op, old(pc), old(gr[cb][Hi(op)]), old(zf), old(cf), old(sr[0]) != 0, old(stack)) % 4096
      ensures stack == StackAfter(m, old(pc), old(stack))
      ensures counter0 == old(counter0) && ispCounter == old(ispCounter)
    {
      var cost := DispatchMove(op, m);
      Account(cost);
    }

    /** The second half of `clock` for an opcode of the special-register and serial-memory group: its
        handler runs, with every field outside the group's frame as it was;
        the count and the cycle total take the cost, and PC keeps its low 12
        bits. */
    method IssueSerial(op: Opcode, m: Mnemonic)
      requires Valid() && IsSerial(m)
      modifies this`gr, this`sr, this`bsa, this`pc,
               this`ispMode, this`txEnable, this`rxEnable, this`transmitting, this`txBuffer,
               this`counter1, this`stopwatch, this`beeps,
               memory`sa, memory`updated, memory.bytes,
               this`executionCounter, this`mcycles
      ensures Valid() && SerialExecuted(op, m) == true
      ensures executionCounter == Cost(m, op) && mcycles == old(mcycles) + Cost(m, op)
      ensures pc == PcAfter(m, op, old(pc), old(gr[cb][Hi(op)]), old(zf), old(cf), old(sr[0]) != 0, old(stack)) % 4096
      ensures stack == StackAfter(m, old(pc), old(stack))
      ensures counter0 == old(counter0) && ispCounter == old(ispCounter)
    {
      var cost := DispatchSerial(op, m);
      Account(cost);
    }

    /** The second half of `clock` for an opcode of the display group: its
        handler runs, with every field outside the group's frame as it was;
        the count and the cycle total take the cost, and PC keeps its low 12
        bits. */
    method IssueLcd(op: Opcode, m: Mnemonic)
      requires Valid() && IsLcd(m)
      modifies this`bsa, this`pc, memory`sa, display,
               this`executionCounter, this`mcycles
      ensures Valid() && LcdExecuted(op, m) == true
      ensures executionCounter == Cost(m, op) && mcycles == old(mcycles) + Cost(m, op)
      ensures pc == PcAfter(m, op, old(pc), old(gr[cb][Hi(op)]), old(zf), old(cf), old(sr[0]) != 0, old(stack)) % 4096
      ensures stack == StackAfter(m, old(pc), old(stack))
      ensures counter0 == old(counter0) && ispCounter == old(ispCounter)
    {
      var cost := DispatchLcd(op, m);
      Account(cost);
    }

    /** The second half of `clock` for an opcode of the control-flow group: its
        handler runs, with every field outside the group's frame as it was;
        the count and the cycle total take the cost, and PC keeps its low 12
        bits. */
    method IssueFlow(op: Opcode, m: Mnemonic)
      requires Valid() && IsFlow(m)
      modifies this`stack, this`bsa, this`pc,
               this`executionCounter, this`mcycles
      ensures Valid() && FlowExecuted(op) == true
      ensures executionCounter == Cost(m, op) && mcycles == old(mcycles) + Cost(m, op)
      ensures pc == PcAfter(m, op, old(pc), old(gr[cb][Hi(op)]), old(zf), old(cf), old(sr[0]) != 0, old(stack)) % 4096
      ensures stack == StackAfter(m, old(pc), old(stack))
      ensures counter0 == old(counter0) && ispCounter == old(ispCounter)
    {
      var cost := DispatchFlow(op, m);
      Account(cost);
    }

    /** The single-register arithmetic and logic group; `m` is the mnemonic
        `op` decodes to. */
    method ExecuteRegisterAlu(op: Opcode, m: Mnemonic) returns (cost: nat)
      requires Valid() && IsRegisterAlu(m)
      modifies this`gr, this`cb, this`ab, this`cf, this`zf, this`bsa, this`pc
      ensures Valid() && cost == Cost(m, op) && pc == old(pc) + 1
      ensures RegisterAluDone(op, m)
    {
      if m in {Add, Adb, Sub, Sbb, Adi, Adbi, Sbi, Sbbi} {
        cost := ExecuteDigitArithmetic(op, m);
      } else {
        cost := ExecuteCompareLogic(op, m);
      }
    }

    /** The digit additions and subtractions of the single-register group. */
    method ExecuteDigitArithmetic(op: Opcode, m: Mnemonic) returns (cost: nat)
      requires Valid() && m in {Add, Adb, Sub, Sbb, Adi, Adbi, Sbi, Sbbi}
      modifies this`gr, this`cb, this`ab, this`cf, this`zf, this`bsa, this`pc
      ensures Valid() && cost == Cost(m, op) && pc == old(pc) + 1
      ensures RegisterAluDone(op, m)
    {
      match m
      case Add => cost := AddRegister(op, false);
      case Adb => cost := AddRegister(op, true);
      case Sub => cost := SubtractRegister(op, false);
      case Sbb => cost := SubtractRegister(op, true);
      case Adi => cost := AddImmediate(op, false);
      case Adbi => cost := AddImmediate(op, true);
      case Sbi => cost := SubtractImmediate(op, false);
      case Sbbi => cost := SubtractImmediate(op, true);
    }

    /** The comparisons, bank selection and bitwise operations of the single-register group. */
    method ExecuteCompareLogic(op: Opcode, m: Mnemonic) returns (cost: nat)
      requires Valid() && m in {Cmp, Cpi, Lcrb, Larb, Andi, Ori, Xori}
      modifies this`gr, this`cb, this`ab, this`cf, this`zf, this`bsa, this`pc
      ensures Valid() && cost == Cost(m, op) && pc == old(pc) + 1
      ensures RegisterAluDone(op, m)
    {
      match m
      case Cmp => cost := Compare(op, false);
      case Cpi => cost := Compare(op, true);
      case Lcrb => cost := SelectBank(op, false);
      case Larb => cost := SelectBank(op, true);
      case Andi => cost := AndImmediate(op);
      case Ori => cost := OrImmediate(op);
      case Xori => cost := XorImmediate(op);
    }

    /** The ranged arithmetic, step and shift group. */
    method ExecuteRangeAlu(op: Opcode, m: Mnemonic) returns (cost: nat)
      requires Valid() && IsRangeAlu(m)
      modifies this`gr, this`cf, this`zf, this`bsa, this`pc
      ensures Valid() && cost == Cost(m, op) && pc == old(pc) + 1
      ensures RangeAluDone(op, m)
    {
      if m in {Adm, Adbm, Sbm, Sbbm, Cpm} {
        cost := ExecuteRangeArithmetic(op, m);
      } else {
        cost := ExecuteStepShift(op, m);
      }
    }

    /** The ranged additions, subtractions and comparison. */
    method ExecuteRangeArithmetic(op: Opcode, m: Mnemonic) returns (cost: nat)
      requires Valid() && m in {Adm, Adbm, Sbm, Sbbm, Cpm}
      modifies this`gr, this`cf, this`zf, this`bsa, this`pc
      ensures Valid() && cost == Cost(m, op) && pc == old(pc) + 1
      ensures RangeAluDone(op, m)
    {
      assert Cost(m, op) == Len(op);
      match m
      case Adm => cost := AddRange(op, false);
      case Adbm => cost := AddRange(op, true);
      case Sbm => cost := SubtractRange(op, false);
      case Sbbm => cost := SubtractRange(op, true);
      case Cpm => cost := CompareRange(op);
    }

    /** The ranged steps and shifts. */
    method ExecuteStepShift(op: Opcode, m: Mnemonic) returns (cost: nat)
      requires Valid() && m in {Inc, Incb, Dec, Decb, Rshm, Lshm}
      modifies this`gr, this`cf, this`zf, this`bsa, this`pc
      ensures Valid() && cost == Cost(m, op) && pc == old(pc) + 1
      ensures RangeAluDone(op, m)
    {
      match m
      case Inc => cost := IncrementRange(op, false);
      case Incb => cost := IncrementRange(op, true);
      case Dec => cost := DecrementRange(op, false);
      case Decb => cost := DecrementRange(op, true);
      case Rshm => cost := ShiftRight(op);
      case Lshm => cost := ShiftLeft(op);
    }

    /** The move group. */
    method ExecuteMove(op: Opcode, m: Mnemonic) returns (cost: nat)
      requires Valid() && IsMove(m)
      modifies this`gr, this`bsa, this`pc
      ensures Valid() && cost == Cost(m, op) && pc == old(pc) + 1
      ensures MoveDone(op, m)
    {
      match m
      case Mov => cost := Move(op);
      case Movm => cost := MoveRange(op);
      case Ldi => cost := LoadImmediate(op);
      case Clrm => cost := ClearRange(op);
      case Mvac => cost := MoveToAlternate(op);
      case Mvacm => cost := MoveRangeToAlternate(op);
      case Mvca => cost := MoveFromAlternate(op);
      case Mvcam => cost := MoveRangeFromAlternate(op);
    }

    /** The special-register and serial-memory group. */
    method ExecuteSerial(op: Opcode, m: Mnemonic) returns (cost: nat)
      requires Valid() && IsSerial(m)
      modifies this`gr, this`sr, this`bsa, this`pc,
               this`ispMode, this`txEnable, this`rxEnable, this`transmitting, this`txBuffer,
               this`counter1, this`stopwatch, this`beeps,
               memory`sa, memory`updated, memory.bytes
      ensures Valid() && cost == Cost(m, op) && pc == old(pc) + 1
      ensures SerialDone(op, m)
    {
      match m
      case In => cost := ReadSpecial(op);
      case Out => cost := WriteSpecial(op);
      case Outi => cost := WriteSpecialImmediate(op);
      case Psam => cost := PointSA(op);
      case Stsm => cost := StoreSerial(op);
      case Ldsm => cost := LoadSerial(op);
      case Psai => cost := PointSAImmediate(op);
    }

    /** The display group. */
    method ExecuteLcd(op: Opcode, m: Mnemonic) returns (cost: nat)
      requires Valid() && IsLcd(m)
      modifies this`bsa, this`pc, memory`sa, display
      ensures Valid() && cost == Cost(m, op) && pc == old(pc) + 1
      ensures LcdDone(op, m)
    {
      if m in {Plam, Stlm, Stl, Plai} {
        cost := ExecuteLcdDirect(op, m);
      } else {
        cost := ExecuteLcdCopy(op, m);
      }
    }

    /** The display pointer and the stores from registers. */
    method ExecuteLcdDirect(op: Opcode, m: Mnemonic) returns (cost: nat)
      requires Valid() && m in {Plam, Stlm, Stl, Plai}
      modifies this`bsa, this`pc, memory`sa, display
      ensures Valid() && cost == Cost(m, op) && pc == old(pc) + 1
      ensures LcdDone(op, m)
    {
      match m
      case Plam => cost := PointLA(op);
      case Stlm => cost := StoreLcdRange(op);
      case Stl => cost := StoreLcd(op);
      case Plai => cost := PointLAImmediate(op);
    }

    /** The copies from serial memory and the immediate stores. */
    method ExecuteLcdCopy(op: Opcode, m: Mnemonic) returns (cost: nat)
      requires Valid() && m in {Stls, Stlsa, Stli, Stlia}
      modifies this`bsa, this`pc, memory`sa, display
      ensures Valid() && cost == Cost(m, op) && pc == old(pc) + 1
      ensures LcdDone(op, m)
    {
      match m
      case Stls => cost := CopyToLcd(op, false);
      case Stlsa => cost := CopyToLcd(op, true);
      case Stli => cost := StoreLcdImmediate(op, false);
      case Stlia => cost := StoreLcdImmediate(op, true);
    }

    /** The control-flow group: the latch takes GR[Hi], and PC and the stack
        change as `PcAfter` and `StackAfter` say. */
    method ExecuteFlow(op: Opcode, m: Mnemonic) returns (cost: nat)
      requires Valid() && IsFlow(m)
      modifies this`stack, this`bsa, this`pc
      ensures Valid() && cost == 1 && Latched(op)
      ensures pc == PcAfter(m, op, old(pc), old(gr[cb][Hi(op)]), old(zf), old(cf), old(sr[0]) != 0, old(stack))
      ensures stack == StackAfter(m, old(pc), old(stack))
    {
      if m == Call {
        cost := CallTo(op);
      } else if m == Ret {
        cost := Return(op);
      } else {
        cost := ExecuteJump(op, m);
      }
    }

    /** The jumps, which leave the stack alone. */
    method ExecuteJump(op: Opcode, m: Mnemonic) returns (cost: nat)
      requires Valid() && IsFlow(m) && m != Call && m != Ret
      modifies this`bsa, this`pc
      ensures Valid() && cost == 1 && Latched(op)
      ensures pc == PcAfter(m, op, old(pc), old(gr[cb][Hi(op)]), old(zf), old(cf), old(sr[0]) != 0, old(stack))
    {
      match m
      case Cpfjr => cost := CompareFourJump(op);
      case Ijmr => cost := IndexedJump(op);
      case Wfe => cost := WaitForEvent(op);
      case Jmp => cost := Jump(op);
      case Jz => cost := JumpIf(op, zf == 1);
      case Jnz => cost := JumpIf(op, zf == 0);
      case Jc => cost := JumpIf(op, cf == 1);
      case Jnc => cost := JumpIf(op, cf == 0);
      case Btjr => cost := BitTestJump(op);
      case Cpjr => cost := CompareJump(op);
    }

    /** The first half of `clock`: the prescaler, the stopwatch timer and the
        serial clock, in that order. */
    method Tick()
      requires Valid()
      modifies this`counter0, this`counter1, this`sr, this`ispCounter, this`txBuffer,
               this`transmitting, this`transmitted, memory`sa
      ensures Valid()
      ensures counter0 == old(counter0) + 1 && ispCounter == old(ispCounter) + 1
      ensures var s0 := Timer0(counter0, old(sr));
        var s1 := if BitOf(s0[9], 3) == 1 then StopwatchTick(s0) else s0;
        if ispCounter % 24 == 0 && old(transmitting) && txEnable then Transmitted(s1, old(memory.sa), old(txBuffer), old(transmitted))
        else sr == s1 && transmitting == old(transmitting) && txBuffer == old(txBuffer) &&
             transmitted == old(transmitted) && memory.sa == old(memory.sa)
      ensures pc == old(pc) && executionCounter == old(executionCounter) && mcycles == old(mcycles)
    {
      TickTimers();
      IspTick();
    }

    /** The prescaler, then the stopwatch timer on the registers it left. */
    method TickTimers()
      requires Valid()
      modifies this`counter0, this`counter1, this`sr
      ensures Valid() && counter0 == old(counter0) + 1
      ensures var s0 := Timer0(counter0, old(sr));
        sr == if BitOf(s0[9], 3) == 1 then StopwatchTick(s0) else s0
      ensures pc == old(pc) && executionCounter == old(executionCounter) && mcycles == old(mcycles)
    {
      Timer0Tick();
      Timer1Tick();
    }

    /** The second half of `clock`: the count of the running instruction goes
        down by one; once it reaches 0 the opcode at PC is executed, its cost
        becomes the new count and is added to the cycle total, and PC keeps its
        low 12 bits. Returns the count. */
    method Step() returns (count: int)
      requires Valid()
      modifies this`gr, this`sr, this`stack, this`pc, this`cb, this`ab, this`cf, this`zf, this`bsa,
               this`ispMode, this`txEnable, this`rxEnable, this`transmitting, this`txBuffer,
               this`counter1, this`stopwatch, this`beeps, this`executionCounter, this`mcycles,
               memory`sa, memory`updated, memory.bytes, display
      ensures Valid() && count == executionCounter
      ensures old(executionCounter) > 1 ==>
        executionCounter == old(executionCounter) - 1 && mcycles == old(mcycles) &&
        pc == old(pc) && stack == old(stack) && Idle()
      ensures old(executionCounter) <= 1 ==>
        var op := old(memory.Opcode(pc));
        executionCounter == CycleCost(op) && mcycles == old(mcycles) + CycleCost(op) &&
        pc == NextPc(op, old(pc), old(gr[cb][Hi(op)]), old(zf), old(cf), old(sr[0]) != 0, old(stack)) % 4096 &&
        stack == NextStack(op, old(pc), old(stack)) && Executed(op)
      ensures counter0 == old(counter0) && ispCounter == old(ispCounter)
    {
      if executionCounter > 1 {
        executionCounter := executionCounter - 1;
      } else {
        Issue();
      }
      count := executionCounter;
    }

    /** The opcode at PC is executed; its cost becomes the count and is added
        to the cycle total, and PC keeps its low 12 bits. */
    method Issue()
      requires Valid()
      modifies this`gr, this`sr, this`stack, this`pc, this`cb, this`ab, this`cf, this`zf, this`bsa,
               this`ispMode, this`txEnable, this`rxEnable, this`transmitting, this`txBuffer,
               this`counter1, this`stopwatch, this`beeps, this`executionCounter, this`mcycles,
               memory`sa, memory`updated, memory.bytes, display
      ensures Valid()
      ensures var op := old(memory.Opcode(pc));
        executionCounter == CycleCost(op) && mcycles == old(mcycles) + CycleCost(op) &&
        pc == NextPc(op, old(pc), old(gr[cb][Hi(op)]), old(zf), old(cf), old(sr[0]) != 0, old(stack)) % 4096 &&
        stack == NextStack(op, old(pc), old(stack)) && Executed(op)
      ensures counter0 == old(counter0) && ispCounter == old(ispCounter)
    {
      var op := memory.Opcode(pc);
      var m := Decode(op);
      GroupsCover(m);
      if IsRegisterAlu(m) {
        IssueRegisterAlu(op, m);
      } else if IsRangeAlu(m) {
        IssueRangeAlu(op, m);
      } else if IsMove(m) {
        IssueMove(op, m);
      } else if IsSerial(m) {
        IssueSerial(op, m);
      } else if IsLcd(m) {
        IssueLcd(op, m);
      } else {
        IssueFlow(op, m);
      }
    }

    /** `clock`: one tick of the timers and the serial port, then one step of
        the instruction engine. */
    method Clock() returns (count: int)
      requires Valid()
      modifies this`gr, this`sr, this`stack, this`pc, this`cb, this`ab, this`cf, this`zf, this`bsa,
               this`ispMode, this`txEnable, this`rxEnable, this`transmitting, this`txBuffer,
               this`counter0, this`counter1, this`ispCounter, this`transmitted,
               this`stopwatch, this`beeps, this`executionCounter, this`mcycles,
               memory`sa, memory`updated, memory.bytes, display
      ensures Valid() && count == executionCounter
      ensures counter0 == old(counter0) + 1 && ispCounter == old(ispCounter) + 1
      ensures old(executionCounter) > 1 ==>
        executionCounter == old(executionCounter) - 1 && mcycles == old(mcycles) && pc == old(pc)
      ensures old(executionCounter) <= 1 ==>
        executionCounter == CycleCost(old(memory.Opcode(pc))) &&
        mcycles == old(mcycles) + CycleCost(old(memory.Opcode(pc))) && pc < 4096
    {
      Tick();
      count := Step();
    }

    // ---- special-register access ----

    /** `srRead`: the value of special register `index`; reading SR3 or SR4
        clears it, and reading SR15 clears its bit 0. */
    method ReadSR(index: nat) returns (value: Nibble)
      requires Valid() && index < SR_COUNT
      modifies this`sr
      ensures Valid() && value == old(sr[index]) && sr == AfterRead(old(sr), index)
    {
      value := sr[index];
      if index == 3 || index == 4 {
        sr := sr[index := 0];
      }
      if index == 15 {
        sr := sr[15 := Clear4(sr[15], Mask(0))];
      }
    }

    /** What a write of `value` to special register `index` does, as a
        relation between the state before and after. SR0, SR8 and SR11 ignore
        writes; SR1 and SR7 acknowledge their events; SR2 and SR14 clear; SR3
        and SR4 configure the serial port; SR5 and SR6 fill the transmit
        buffer; SR9 and SR12 clear the flags written (SR9 never its run bit);
        SR10 controls the stopwatch; SR13 stores the timer mask; SR15 drives
        the beeper. */
    twostate predicate SrWritten(index: nat, value: Nibble)
      reads this`sr, this`ispMode, this`txEnable, this`rxEnable, this`transmitting, this`txBuffer,
            this`counter1, this`stopwatch, this`beeps
      requires |old(sr)| == SR_COUNT
    {
      FlagsWritten(index, value) && SerialWritten(index, value) &&
      stopwatch == (if index == 10 then StopwatchControl(old(stopwatch), value) else old(stopwatch)) &&
      counter1 == old(counter1) &&
      beeps == (if index == 15 then old(beeps) + BeeperCommands(value) else old(beeps))
    }

    /** The special registers themselves after the write. */
    twostate predicate FlagsWritten(index: nat, value: Nibble)
      reads this`sr
      requires |old(sr)| == SR_COUNT
    {
      if index == 1 then sr == Acknowledge(old(sr), 1, 0x7)
      else if index == 2 then sr == old(sr)[2 := 0]
      else if index == 7 then sr == Acknowledge(old(sr), 7, 0xB)
      else if index == 9 then sr == ClearFlags(old(sr), 9, Clear4(value, Mask(3)), 0xD)
      else if index == 10 then
        sr == old(sr)[9 := RunBit(old(sr[9]), value)][10 := if BitOf(value, 1) == 1 then 0 else old(sr[10])]
      else if index == 12 then sr == ClearFlags(old(sr), 12, value, 0xE)
      else if index == 13 then sr == old(sr)[13 := value]
      else if index == 14 then sr == old(sr)[14 := 0]
      else sr == old(sr)
    }

    /** The serial port's settings and transmit buffer after the write. */
    twostate predicate SerialWritten(index: nat, value: Nibble)
      reads this`ispMode, this`txEnable, this`rxEnable, this`transmitting, this`txBuffer
    {
      (if index == 3 then ispMode == BitOf(value, 0) && txEnable == (BitOf(value, 1) == 1)
       else ispMode == old(ispMode) && txEnable == old(txEnable)) &&
      (if index == 4 then rxEnable == (BitOf(value, 1) == 1) && transmitting == (BitOf(value, 0) == 1)
       else rxEnable == old(rxEnable) && transmitting == old(transmitting)) &&
      txBuffer == (if index == 5 then WithHigh(old(txBuffer), value)
                   else if index == 6 then WithLow(old(txBuffer), value) else old(txBuffer))
    }

    /** `setSR` and the `_srNWrite` handlers: a write of `value` to special
        register `index`. */
    method WriteSR(index: nat, value: Nibble)
      requires Valid() && index < SR_COUNT
      modifies this`sr, this`ispMode, this`txEnable, this`rxEnable, this`transmitting, this`txBuffer,
               this`counter1, this`stopwatch, this`beeps
      ensures Valid() && SrWritten(index, value)
    {
      if 3 <= index <= 6 {
        WriteSerial(index, value);
      } else if index == 10 {
        WriteStopwatchControl(value);
      } else if index == 15 {
        WriteBeeper(value);
      } else {
        WriteFlags(index, value);
      }
    }

    /** The handlers of SR1, SR2, SR7, SR9, SR12, SR13 and SR14, and the
        registers that ignore writes. */
    method WriteFlags(index: nat, value: Nibble)
      requires Valid() && index < SR_COUNT && index != 10
      modifies this`sr
      ensures Valid() && FlagsWritten(index, value)
    {
      if index == 1 {
        sr := sr[1 := 0][0 := And4(sr[0], 0x7)];
      } else if index == 2 {
        sr := sr[2 := 0];
      } else if index == 7 {
        sr := sr[7 := 0][0 := And4(sr[0], 0xB)];
      } else if index == 9 {
        sr := sr[9 := Clear4(sr[9], Clear4(value, Mask(3)))];
        if sr[9] == 0 {
          sr := sr[0 := And4(sr[0], 0xD)];
        }
      } else if index == 12 {
        sr := sr[12 := Clear4(sr[12], value)];
        if sr[12] == 0 {
          sr := sr[0 := And4(sr[0], 0xE)];
        }
      } else if index == 13 {
        sr := sr[13 := value];
      } else if index == 14 {
        sr := sr[14 := 0];
      }
    }

    /** The handlers of SR3 to SR6. */
    method WriteSerial(index: nat, value: Nibble)
      requires 3 <= index <= 6
      modifies this`ispMode, this`txEnable, this`rxEnable, this`transmitting, this`txBuffer
      ensures SerialWritten(index, value)
    {
      if index == 3 {
        ispMode := BitOf(value, 0);
        txEnable := BitOf(value, 1) == 1;
      } else if index == 4 {
        rxEnable := BitOf(value, 1) == 1;
        transmitting := BitOf(value, 0) == 1;
      } else if index == 5 {
        txBuffer := value * 16 + txBuffer % 16;
      } else {
        txBuffer := (txBuffer / 16) * 16 + value;
      }
    }

    /** The SR15 handler: the beeper calls the bits of `value` ask for. */
    method WriteBeeper(value: Nibble)
      modifies this`beeps
      ensures beeps == old(beeps) + BeeperCommands(value)
    {
      if BitOf(value, 0) == 1 {
        beeps := beeps + [Beep];
      }
      if BitOf(value, 2) == 1 {
        beeps := beeps + [StartTremolo];
      }
      if BitOf(value, 1) == 1 {
        beeps := beeps + [StopTremolo];
      }
    }

    /** The SR10 handler: bit 3 sets the stopwatch run bit, bit 2 clears it,
        bit 1 clears the hundredths count, and bit 0 enables (or, clear,
        disables) the stopwatch. */
    method WriteStopwatchControl(value: Nibble)
      requires Valid()
      modifies this`sr, this`counter1, this`stopwatch
      ensures Valid()
      ensures sr == old(sr)[9 := RunBit(old(sr[9]), value)][10 := if BitOf(value, 1) == 1 then 0 else old(sr[10])]
      ensures stopwatch == StopwatchControl(old(stopwatch), value) && counter1 == old(counter1)
    {
      var s9, s10 := sr[9], sr[10];
      if BitOf(value, 3) == 1 {
        s9 := Or4(s9, Mask(3));
      }
      if BitOf(value, 2) == 1 {
        s9 := Clear4(s9, Mask(3));
      }
      if BitOf(value, 1) == 1 {
        s10 := 0;
        counter1 := 0;
      }
      sr := sr[9 := s9][10 := s10];
      if BitOf(value, 0) == 1 {
        if stopwatch == Disabled {
          stopwatch := Enabled;
        }
      } else {
        stopwatch := Disabled;
      }
    }

    // ---- timers, keys and the serial port ----

    /** The prescaler: the count moves on by one, and the special registers
        take the effect `Timer0` describes for the new count. */
    method Timer0Tick()
      requires Valid()
      modifies this`counter0, this`sr
      ensures Valid() && counter0 == old(counter0) + 1 && sr == Timer0(counter0, old(sr))
    {
      counter0 := counter0 + 1;
      sr := Timer0(counter0, sr);
    }

    /** The stopwatch timer. While the run bit (SR9 bit 3) is set, the count
        doubles and a hundredth passes whenever it is a multiple of 38; since
        the count is 0 from the start and every reset sets it to 0, doubling
        keeps it at 0 and a hundredth passes on every tick. */
    method Timer1Tick()
      requires Valid()
      modifies this`counter1, this`sr
      ensures Valid() && sr == if BitOf(old(sr[9]), 3) == 1 then StopwatchTick(old(sr)) else old(sr)
    {
      if BitOf(sr[9], 3) == 1 {
        counter1 := counter1 + counter1;
        if counter1 % 38 == 0 {
          var s10 := sr[10] as int + 1;
          if s10 > 9 {
            sr := sr[10 := 0];
            sr := sr[9 := Or4(sr[9], Mask(2))];
            sr := sr[3 := (sr[3] as int + 1) % 4];
          } else {
            sr := sr[10 := s10];
          }
        }
      }
    }

    /** A key press on the stopwatch: key 0 takes a split while running (SR9
        bit 1, SR11 takes SR10) or clears a stopped count (SR9 bit 0, SR10 and
        the count reset); key 1 starts or stops the stopwatch and sets or
        clears the run bit to match. */
    method StopwatchKey(key: nat)
      requires Valid()
      modifies this`sr, this`counter1, this`stopwatch
      ensures Valid() && stopwatch == StopwatchNext(old(stopwatch), key)
      ensures sr == StopwatchKeyed(old(sr), old(stopwatch), key)
    {
      if key == 0 {
        if stopwatch == Running {
          sr := sr[9 := Or4(sr[9], Mask(1))];
          sr := sr[11 := sr[10]];
        } else if stopwatch == Stopped {
          sr := sr[9 := Or4(sr[9], Mask(0))];
          sr := sr[10 := 0];
          counter1 := 0;
        }
      }
      if key == 1 {
        if stopwatch == Running {
          stopwatch := Stopped;
          sr := sr[9 := Clear4(sr[9], Mask(3))];
        } else {
          stopwatch := Running;
          sr := sr[9 := Or4(sr[9], Mask(3))];
        }
      }
    }

    /** `btnPressed`: key `key` is latched in SR7 (pressed since acknowledged)
        and SR8 (held now), SR0 bit 2 reports it, and an enabled stopwatch
        reacts to it. */
    method BtnPressed(key: nat)
      requires Valid() && key < 4
      modifies this`sr, this`counter1, this`stopwatch
      ensures Valid()
      ensures var s := Pressed(old(sr), key);
        if old(stopwatch) == Disabled then sr == s && stopwatch == Disabled
        else sr == StopwatchKeyed(s, old(stopwatch), key) && stopwatch == StopwatchNext(old(stopwatch), key)
      ensures BitOf(sr[7], key) == 1 && BitOf(sr[8], key) == 1 && BitOf(sr[0], 2) == 1
    {
      sr := sr[7 := Or4(sr[7], Mask(key))][8 := Or4(sr[8], Mask(key))][0 := Or4(sr[0], Mask(2))];
      if stopwatch != Disabled {
        StopwatchKey(key);
      }
    }

    /** `btnReleased`: key `key` is no longer held (SR8). */
    method BtnReleased(key: nat)
      requires Valid() && key < 4
      modifies this`sr
      ensures Valid() && sr == old(sr)[8 := Clear4(old(sr[8]), Mask(key))]
      ensures BitOf(sr[8], key) == 0
    {
      sr := sr[8 := Clear4(sr[8], Mask(key))];
    }

    /** `ispReceive`: a byte arrives on the serial port. Only with receive
        enabled: SR5 and SR6 take its two nibbles; in DMA mode without
        transmit enabled it is stored at the external pointer, and reaching a
        256-byte boundary raises SR1 bit 1 and SR0 bit 3; in register mode
        SR1 bit 0 (bit 2 too with transmit enabled) and SR0 bit 3 are raised. */
    method IspReceive(data: Byte)
      requires Valid()
      modifies this`sr, memory`sa, memory`updated, memory.bytes
      ensures Valid()
      ensures !old(rxEnable) || ispMode != DMA || txEnable ==>
        memory.sa == old(memory.sa) && memory.bytes[..] == old(memory.bytes[..]) && memory.updated == old(memory.updated)
      ensures !old(rxEnable) ==> sr == old(sr)
      ensures old(rxEnable) && ispMode == DMA && !txEnable ==>
        memory.bytes[..] == old(memory.bytes[..])[EXTERNAL_OFFSET + old(memory.sa) := data] &&
        memory.sa == (old(memory.sa) + 1) % EXTERNAL_SIZE &&
        memory.updated == old(memory.updated) + [(EXTERNAL_OFFSET + old(memory.sa)) / 2] &&
        sr == Signal(Echo(old(sr), data), memory.sa % 256 == 0, 1)
      ensures old(rxEnable) && ispMode == DMA && txEnable ==> sr == Echo(old(sr), data)
      ensures old(rxEnable) && ispMode != DMA ==> sr == Signal(Signal(Echo(old(sr), data), true, 0), txEnable, 2)
    {
      if rxEnable {
        var echoed := Echo(sr, data);
        if ispMode == DMA {
          if !txEnable {
            memory.WriteExternal(data);
            sr := Signal(echoed, memory.sa % 256 == 0, 1);
          } else {
            sr := echoed;
          }
        } else {
          sr := Signal(Signal(echoed, true, 0), txEnable, 2);
        }
      }
    }

    /** `_isp`: the serial clock. Every 24 ticks, with a transmission pending
        and transmit enabled, one byte goes out (`SendByte`). */
    method IspTick()
      requires Valid()
      modifies this`ispCounter, this`txBuffer, this`sr, this`transmitting, this`transmitted, memory`sa
      ensures Valid() && ispCounter == old(ispCounter) + 1
      ensures !(ispCounter % 24 == 0 && old(transmitting) && txEnable) ==>
        sr == old(sr) && transmitting == old(transmitting) && txBuffer == old(txBuffer) &&
        transmitted == old(transmitted) && memory.sa == old(memory.sa)
      ensures ispCounter % 24 == 0 && old(transmitting) && txEnable ==> Transmitted(old(sr), old(memory.sa), old(txBuffer), old(transmitted))
      ensures pc == old(pc) && executionCounter == old(executionCounter) && mcycles == old(mcycles)
    {
      ispCounter := ispCounter + 1;
      if ispCounter % 24 == 0 && transmitting && txEnable {
        SendByte();
      }
    }

    /** The effect of sending one byte from registers `sr0`, external pointer
        `sa0`, transmit buffer `buffer0` and log `log0`: in DMA mode the byte at the external
        pointer goes out (the pointer moves on, and reaching a 256-byte
        boundary ends the transmission); in register mode the transmit buffer
        goes out and the transmission ends. The byte is handed to the transmit
        callback when there is one, and `Sent` gives the special registers. */
    ghost predicate Transmitted(sr0: seq<Nibble>, sa0: nat, buffer0: Byte, log0: seq<Byte>)
      reads this`sr, this`ispMode, this`rxEnable, this`transmitting, this`txBuffer, this`transmitted,
            memory`sa, memory.bytes
    {
      |sr0| == SR_COUNT &&
      (ispMode == DMA ==>
         memory.sa < EXTERNAL_SIZE && sa0 < EXTERNAL_SIZE && memory.bytes.Length == MEM_SIZE &&
         txBuffer == memory.bytes[EXTERNAL_OFFSET + sa0] &&
         memory.sa == (sa0 + 1) % EXTERNAL_SIZE &&
         (transmitting <==> memory.sa % 256 != 0)) &&
      (ispMode != DMA ==> txBuffer == buffer0 && !transmitting && memory.sa == sa0) &&
      transmitted == log0 + (if linked then [txBuffer] else []) &&
      sr == Sent(sr0, !transmitting, ispMode == DMA, rxEnable, txBuffer)
    }

    method SendByte()
      requires Valid()
      modifies this`txBuffer, this`sr, this`transmitting, this`transmitted, memory`sa
      ensures Valid() && Transmitted(old(sr), old(memory.sa), old(txBuffer), old(transmitted))
    {
      var done := LoadTxBuffer();
      transmitting := !done;
      if linked {
        transmitted := transmitted + [txBuffer];
      }
      sr := Sent(sr, done, ispMode == DMA, rxEnable, txBuffer);
    }

    /** The byte a transmission step sends: in DMA mode the external byte at
        SA, which moves SA on, the step ending the transmission when SA reaches
        a 256-byte boundary; in register mode the transmit buffer as it is,
        and the transmission ends. */
    method LoadTxBuffer() returns (done: bool)
      requires Valid()
      modifies this`txBuffer, memory`sa
      ensures Valid()
      ensures ispMode == DMA ==>
        old(memory.sa) < EXTERNAL_SIZE && memory.sa < EXTERNAL_SIZE &&
        txBuffer == memory.bytes[EXTERNAL_OFFSET + old(memory.sa)] &&
        memory.sa == (old(memory.sa) + 1) % EXTERNAL_SIZE && done == (memory.sa % 256 == 0)
      ensures ispMode != DMA ==> txBuffer == old(txBuffer) && memory.sa == old(memory.sa) && done
    {
      done := true;
      if ispMode == DMA {
        txBuffer := memory.ReadExternal();
        done := memory.sa % 256 == 0;
      }
    }
  }
}
