/** The instruction set: how a 16-bit opcode is decoded, which operand fields
    it carries, and how many cycles it takes.

    The top six bits select one of 64 slots. Most slots name one instruction;
    six of them hand over to a small second table indexed by one or two more
    opcode bits (bit 9, bits 3-4, bit 3 or bit 4). The CPU and the
    disassembler dispatch through the same two-level table, so one decoder
    serves both. */
module Isa {
  import opened Bits

  /** Every instruction form. */
  datatype Mnemonic =
    | Add | Adb | Sub | Sbb | Adi | Adbi | Sbi | Sbbi
    | Adm | Adbm | Sbm | Sbbm | Cmp | Cpm | Cpi | Lcrb | Larb
    | Andi | Ori | Xori | Inc | Incb | Dec | Decb | Rshm | Lshm
    | In | Out | Outi | Psam | Plam | Stsm | Ldsm | Stlm | Stl
    | Psai | Plai | Stls | Stlsa | Stli | Stlia
    | Mov | Movm | Ldi | Clrm | Mvac | Mvacm | Mvca | Mvcam
    | Call | Ret | Cpfjr | Ijmr | Wfe | Jmp | Jz | Jnz | Jc | Jnc | Btjr | Cpjr

  /** The six slots that dispatch a second time. */
  datatype Group = Bank3C | Step4C | Shift50 | Pointer60 | Serial64 | Lcd7C

  /** One slot of the primary table. */
  datatype Entry = Single(m: Mnemonic) | Twice(g: Group)

  /** The primary table, indexed by `opcode >> 10`. */
  function Table(slot: nat): Entry
    requires slot < 64
  {
    match slot
    case 0 => Single(Add) case 1 => Single(Adb) case 2 => Single(Sub) case 3 => Single(Sbb)
    case 4 => Single(Adi) case 5 => Single(Adbi) case 6 => Single(Sbi) case 7 => Single(Sbbi)
    case 8 => Single(Adm) case 9 => Single(Adbm) case 10 => Single(Sbm) case 11 => Single(Sbbm)
    case 12 => Single(Cmp) case 13 => Single(Cpm) case 14 => Single(Cpi) case 15 => Twice(Bank3C)
    case 16 => Single(Andi) case 17 => Single(Ori) case 18 => Single(Xori) case 19 => Twice(Step4C)
    case 20 => Twice(Shift50) case 21 => Single(In) case 22 => Single(Out) case 23 => Single(Outi)
    case 24 => Twice(Pointer60) case 25 => Twice(Serial64) case 26 => Single(Stlm) case 27 => Single(Stl)
    case 28 => Single(Psai) case 29 => Single(Psai) case 30 => Single(Plai) case 31 => Twice(Lcd7C)
    case 32 => Single(Mov) case 33 => Single(Movm) case 34 => Single(Ldi) case 35 => Single(Clrm)
    case 36 => Single(Mvac) case 37 => Single(Mvacm) case 38 => Single(Mvca) case 39 => Single(Mvcam)
    case 40 => Single(Call) case 41 => Single(Call) case 42 => Single(Call) case 43 => Single(Call)
    case 44 => Single(Ret) case 45 => Single(Cpfjr) case 46 => Single(Ijmr) case 47 => Single(Wfe)
    case 48 => Single(Jmp) case 49 => Single(Jmp) case 50 => Single(Jmp) case 51 => Single(Jmp)
    case 52 => Single(Jz) case 53 => Single(Jnz) case 54 => Single(Jc) case 55 => Single(Jnc)
    case 56 => Single(Btjr) case 57 => Single(Btjr) case 58 => Single(Btjr) case 59 => Single(Btjr)
    case 60 => Single(Cpjr) case 61 => Single(Cpjr) case 62 => Single(Cpjr) case _ => Single(Cpjr)
  }

  /** A 16-bit opcode. */
  type Opcode = x: int | 0 <= x < 0x1_0000

  /** The second-level tables: bit 9 for the bank loads, bits 3-4 for the
      increments and the LCD stores, bit 3 for the shifts and the serial
      moves, bit 4 for the pointer loads. */
  function SubDispatch(g: Group, op: Opcode): Mnemonic
  {
    match g
    case Bank3C => [Lcrb, Larb][(op / 512) % 2]
    case Step4C => [Inc, Incb, Dec, Decb][(op / 8) % 4]
    case Shift50 => [Rshm, Lshm][(op / 8) % 2]
    case Pointer60 => [Psam, Plam][(op / 16) % 2]
    case Serial64 => [Stsm, Ldsm][(op / 8) % 2]
    case Lcd7C => [Stls, Stlsa, Stli, Stlia][(op / 8) % 4]
  }

  /** The instruction an opcode encodes. */
  function Decode(op: Opcode): Mnemonic
  {
    match Table(op / 1024)
    case Single(m) => m
    case Twice(g) => SubDispatch(g, op)
  }

  /** The encoding of each instruction, written per instruction rather than
      per slot: the slots it owns and the second-level bits it needs. */
  predicate Encodes(m: Mnemonic, op: Opcode)
  {
    var slot := op / 1024;
    match m
    case Add => slot == 0
    case Adb => slot == 1
    case Sub => slot == 2
    case Sbb => slot == 3
    case Adi => slot == 4
    case Adbi => slot == 5
    case Sbi => slot == 6
    case Sbbi => slot == 7
    case Adm => slot == 8
    case Adbm => slot == 9
    case Sbm => slot == 10
    case Sbbm => slot == 11
    case Cmp => slot == 12
    case Cpm => slot == 13
    case Cpi => slot == 14
    case Lcrb => slot == 15 && (op / 512) % 2 == 0
    case Larb => slot == 15 && (op / 512) % 2 == 1
    case Andi => slot == 16
    case Ori => slot == 17
    case Xori => slot == 18
    case Inc => slot == 19 && (op / 8) % 4 == 0
    case Incb => slot == 19 && (op / 8) % 4 == 1
    case Dec => slot == 19 && (op / 8) % 4 == 2
    case Decb => slot == 19 && (op / 8) % 4 == 3
    case Rshm => slot == 20 && (op / 8) % 2 == 0
    case Lshm => slot == 20 && (op / 8) % 2 == 1
    case In => slot == 21
    case Out => slot == 22
    case Outi => slot == 23
    case Psam => slot == 24 && (op / 16) % 2 == 0
    case Plam => slot == 24 && (op / 16) % 2 == 1
    case Stsm => slot == 25 && (op / 8) % 2 == 0
    case Ldsm => slot == 25 && (op / 8) % 2 == 1
    case Stlm => slot == 26
    case Stl => slot == 27
    case Psai => slot == 28 || slot == 29
    case Plai => slot == 30
    case Stls => slot == 31 && (op / 8) % 4 == 0
    case Stlsa => slot == 31 && (op / 8) % 4 == 1
    case Stli => slot == 31 && (op / 8) % 4 == 2
    case Stlia => slot == 31 && (op / 8) % 4 == 3
    case Mov => slot == 32
    case Movm => slot == 33
    case Ldi => slot == 34
    case Clrm => slot == 35
    case Mvac => slot == 36
    case Mvacm => slot == 37
    case Mvca => slot == 38
    case Mvcam => slot == 39
    case Call => 40 <= slot < 44
    case Ret => slot == 44
    case Cpfjr => slot == 45
    case Ijmr => slot == 46
    case Wfe => slot == 47
    case Jmp => 48 <= slot < 52
    case Jz => slot == 52
    case Jnz => slot == 53
    case Jc => slot == 54
    case Jnc => slot == 55
    case Btjr => 56 <= slot < 60
    case Cpjr => 60 <= slot < 64
  }

  /** The decoder and the per-instruction encoding agree both ways: every
      opcode decodes to exactly the instruction whose encoding it matches. */
  lemma DecodeEncodes(op: Opcode, m: Mnemonic)
    ensures Decode(op) == m <==> Encodes(m, op)
  {
    DecodedEncodes(op);
    if Encodes(m, op) {
      EncodesDecoded(op, m);
    }
  }

  lemma DecodedEncodes(op: Opcode)
    ensures Encodes(Decode(op), op)
  {
    var row := op / 8192;
    if row == 0 { DecodedEncodesRow0(op); }
    else if row == 1 { DecodedEncodesRow1(op); }
    else if row == 2 { DecodedEncodesRow2(op); }
    else if row == 3 { DecodedEncodesRow3(op); }
    else if row == 4 { DecodedEncodesRow4(op); }
    else if row == 5 { DecodedEncodesRow5(op); }
    else if row == 6 { DecodedEncodesRow6(op); }
    else { DecodedEncodesRow7(op); }
  }

  /** Slots 0 to 7. */
  lemma DecodedEncodesRow0(op: Opcode)
    requires op / 8192 == 0
    ensures Encodes(Decode(op), op)
  {
    assert 0 <= op / 1024 < 8;
    match op / 1024
    case 0 =>
    case 1 =>
    case 2 =>
    case 3 =>
    case 4 =>
    case 5 =>
    case 6 =>
    case _ =>
  }

  /** Slots 8 to 15. */
  lemma DecodedEncodesRow1(op: Opcode)
    requires op / 8192 == 1
    ensures Encodes(Decode(op), op)
  {
    assert 8 <= op / 1024 < 16;
    match op / 1024
    case 8 =>
    case 9 =>
    case 10 =>
    case 11 =>
    case 12 =>
    case 13 =>
    case 14 =>
    case _ =>
  }

  /** Slots 16 to 23. */
  lemma DecodedEncodesRow2(op: Opcode)
    requires op / 8192 == 2
    ensures Encodes(Decode(op), op)
  {
    assert 16 <= op / 1024 < 24;
    match op / 1024
    case 16 =>
    case 17 =>
    case 18 =>
    case 19 =>
    case 20 =>
    case 21 =>
    case 22 =>
    case _ =>
  }

  /** Slots 24 to 31. */
  lemma DecodedEncodesRow3(op: Opcode)
    requires op / 8192 == 3
    ensures Encodes(Decode(op), op)
  {
    assert 24 <= op / 1024 < 32;
    match op / 1024
    case 24 =>
    case 25 =>
    case 26 =>
    case 27 =>
    case 28 =>
    case 29 =>
    case 30 =>
    case _ =>
  }

  /** Slots 32 to 39. */
  lemma DecodedEncodesRow4(op: Opcode)
    requires op / 8192 == 4
    ensures Encodes(Decode(op), op)
  {
    assert 32 <= op / 1024 < 40;
    match op / 1024
    case 32 =>
    case 33 =>
    case 34 =>
    case 35 =>
    case 36 =>
    case 37 =>
    case 38 =>
    case _ =>
  }

  /** Slots 40 to 47. */
  lemma DecodedEncodesRow5(op: Opcode)
    requires op / 8192 == 5
    ensures Encodes(Decode(op), op)
  {
    assert 40 <= op / 1024 < 48;
    match op / 1024
    case 40 =>
    case 41 =>
    case 42 =>
    case 43 =>
    case 44 =>
    case 45 =>
    case 46 =>
    case _ =>
  }

  /** Slots 48 to 55. */
  lemma DecodedEncodesRow6(op: Opcode)
    requires op / 8192 == 6
    ensures Encodes(Decode(op), op)
  {
    assert 48 <= op / 1024 < 56;
    match op / 1024
    case 48 =>
    case 49 =>
    case 50 =>
    case 51 =>
    case 52 =>
    case 53 =>
    case 54 =>
    case _ =>
  }

  /** Slots 56 to 63. */
  lemma DecodedEncodesRow7(op: Opcode)
    requires op / 8192 == 7
    ensures Encodes(Decode(op), op)
  {
    assert 56 <= op / 1024 < 64;
    match op / 1024
    case 56 =>
    case 57 =>
    case 58 =>
    case 59 =>
    case 60 =>
    case 61 =>
    case 62 =>
    case _ =>
  }

  lemma EncodesDecoded(op: Opcode, m: Mnemonic)
    requires Encodes(m, op)
    ensures Decode(op) == m
  {
    var row := op / 8192;
    if row == 0 { EncodesDecodedRow0(op, m); }
    else if row == 1 { EncodesDecodedRow1(op, m); }
    else if row == 2 { EncodesDecodedRow2(op, m); }
    else if row == 3 { EncodesDecodedRow3(op, m); }
    else if row == 4 { EncodesDecodedRow4(op, m); }
    else if row == 5 { EncodesDecodedRow5(op, m); }
    else if row == 6 { EncodesDecodedRow6(op, m); }
    else { EncodesDecodedRow7(op, m); }
  }

  lemma EncodesDecodedRow0(op: Opcode, m: Mnemonic)
    requires op / 8192 == 0 && Encodes(m, op)
    ensures Decode(op) == m
  {
    assert 0 <= op / 1024 < 8;
    match op / 1024
    case 0 =>
    case 1 =>
    case 2 =>
    case 3 =>
    case 4 =>
    case 5 =>
    case 6 =>
    case _ =>
  }

  lemma EncodesDecodedRow1(op: Opcode, m: Mnemonic)
    requires op / 8192 == 1 && Encodes(m, op)
    ensures Decode(op) == m
  {
    assert 8 <= op / 1024 < 16;
    match op / 1024
    case 8 =>
    case 9 =>
    case 10 =>
    case 11 =>
    case 12 =>
    case 13 =>
    case 14 =>
    case _ =>
  }

  lemma EncodesDecodedRow2(op: Opcode, m: Mnemonic)
    requires op / 8192 == 2 && Encodes(m, op)
    ensures Decode(op) == m
  {
    assert 16 <= op / 1024 < 24;
    match op / 1024
    case 16 =>
    case 17 =>
    case 18 =>
    case 19 =>
    case 20 =>
    case 21 =>
    case 22 =>
    case _ =>
  }

  lemma EncodesDecodedRow3(op: Opcode, m: Mnemonic)
    requires op / 8192 == 3 && Encodes(m, op)
    ensures Decode(op) == m
  {
    assert 24 <= op / 1024 < 32;
    match op / 1024
    case 24 =>
    case 25 =>
    case 26 =>
    case 27 =>
    case 28 =>
    case 29 =>
    case 30 =>
    case _ =>
  }

  lemma EncodesDecodedRow4(op: Opcode, m: Mnemonic)
    requires op / 8192 == 4 && Encodes(m, op)
    ensures Decode(op) == m
  {
    assert 32 <= op / 1024 < 40;
    match op / 1024
    case 32 =>
    case 33 =>
    case 34 =>
    case 35 =>
    case 36 =>
    case 37 =>
    case 38 =>
    case _ =>
  }

  lemma EncodesDecodedRow5(op: Opcode, m: Mnemonic)
    requires op / 8192 == 5 && Encodes(m, op)
    ensures Decode(op) == m
  {
    assert 40 <= op / 1024 < 48;
    match op / 1024
    case 40 =>
    case 41 =>
    case 42 =>
    case 43 =>
    case 44 =>
    case 45 =>
    case 46 =>
    case _ =>
  }

  lemma EncodesDecodedRow6(op: Opcode, m: Mnemonic)
    requires op / 8192 == 6 && Encodes(m, op)
    ensures Decode(op) == m
  {
    assert 48 <= op / 1024 < 56;
    match op / 1024
    case 48 =>
    case 49 =>
    case 50 =>
    case 51 =>
    case 52 =>
    case 53 =>
    case 54 =>
    case _ =>
  }

  lemma EncodesDecodedRow7(op: Opcode, m: Mnemonic)
    requires op / 8192 == 7 && Encodes(m, op)
    ensures Decode(op) == m
  {
    assert 56 <= op / 1024 < 64;
    match op / 1024
    case 56 =>
    case 57 =>
    case 58 =>
    case 59 =>
    case 60 =>
    case 61 =>
    case 62 =>
    case _ =>
  }

  // ----- operand fields -----

  /** Bits 5-9: the first (or only) general register. */
  function Hi(op: Opcode): (r: nat)
    ensures r < 32
  {
    (op / 32) % 32
  }

  /** Bits 0-4: the second general register, or the last register of a range. */
  function Lo(op: Opcode): (r: nat)
    ensures r < 32
  {
    op % 32
  }

  /** Bits 1-4: a 4-bit immediate. */
  function Imm4(op: Opcode): (r: Nibble)
  {
    (op / 2) % 16
  }

  /** Bits 6-9: the immediate of `outi`. */
  function OutImm(op: Opcode): (r: Nibble)
  {
    (op / 64) % 16
  }

  /** Bits 0-3: a special register. */
  function Sr(op: Opcode): (r: nat)
    ensures r < 16
  {
    op % 16
  }

  /** Bits 3-4: the bank of `lcrb` and `larb`. */
  function BankSel(op: Opcode): (r: nat)
    ensures r < 4
  {
    (op / 8) % 4
  }

  /** Bits 10-11: the bit tested by `btjr`, the constant compared by `cpjr`. */
  function BitSel(op: Opcode): (r: nat)
    ensures r < 4
  {
    (op / 1024) % 4
  }

  /** Python `((op >> 2) & 0xF8) | (op & 7)`: the 8-bit immediate of `plai`,
      `stlsa`, `stli` and `stlia`. It is the register field on top of the
      three low bits. */
  function Imm8(op: Opcode): (r: nat)
    ensures r < 256
  {
    Hi(op) * 8 + op % 8
  }

  /** The 8-bit immediate written as the source computes it. */
  lemma Imm8AsMasked(op: Opcode)
    ensures Imm8(op) == (op / 4) % 256 - ((op / 4) % 256) % 8 + op % 8
  {
    var q := op / 4;
    var r := q % 256;
    assert q == 256 * (q / 256) + r;
    assert q / 8 == 32 * (q / 256) + r / 8;
    assert op / 32 == q / 8;
    assert (q / 8) % 32 == r / 8;
    assert r - r % 8 == 8 * (r / 8);
  }

  /** Python `op & 0xFFF`: the target of `call` and `jmp`. */
  function Target12(op: Opcode): (r: nat)
    ensures r < 4096
  {
    op % 4096
  }

  /** Python `(op & 0x3FF) | (0xC00 & pc)`: the target of a taken `jz`, `jnz`,
      `jc` or `jnc`. It keeps the 1K-word bank of `pc` (its bits 10 and 11) and
      takes the rest from the opcode. */
  function CondTarget(op: Opcode, pc: nat): (r: nat)
    ensures r < 4096
    ensures r % 1024 == op % 1024
    ensures r / 1024 == (pc / 1024) % 4
  {
    op % 1024 + ((pc / 1024) % 4) * 1024
  }

  // ----- ranges -----

  /** The number of registers a ranged instruction visits: Python
      `((lo - hi) & 7) + 1`, where only the low three bits of the two fields
      matter. */
  function Len(op: Opcode): (r: nat)
    ensures 1 <= r <= 8
  {
    (op % 8 - Hi(op) % 8) % 8 + 1
  }

  /** The number of moves `lshm` makes: Python `(hi - lo) & 7` with the
      fields the other way round from the other ranged forms. */
  function LshmCount(op: Opcode): (r: nat)
    ensures r < 8
  {
    (Hi(op) % 8 - op % 8) % 8
  }

  /** The instructions whose cost is their range length. */
  predicate IsRanged(m: Mnemonic)
  {
    match m
    case Adm | Adbm | Sbm | Sbbm | Cpm | Inc | Incb | Dec | Decb | Psam | Plam | Ldsm | Stsm
       | Stlm | Movm | Clrm | Mvacm | Mvcam => true
    case _ => false
  }

  /** Arithmetic, comparison, logic and bank selection on single registers. */
  predicate IsRegisterAlu(m: Mnemonic)
  {
    match m
    case Add | Adb | Sub | Sbb | Adi | Adbi | Sbi | Sbbi | Cmp | Cpi | Lcrb | Larb | Andi
       | Ori | Xori => true
    case _ => false
  }

  /** Arithmetic, comparison, steps and shifts over register ranges. */
  predicate IsRangeAlu(m: Mnemonic)
  {
    match m
    case Adm | Adbm | Sbm | Sbbm | Cpm | Inc | Incb | Dec | Decb | Rshm | Lshm => true
    case _ => false
  }

  /** Register and range moves inside a bank and across to the alternate one. */
  predicate IsMove(m: Mnemonic)
  {
    match m
    case Mov | Movm | Ldi | Clrm | Mvac | Mvacm | Mvca | Mvcam => true
    case _ => false
  }

  /** Special registers and the serial memory pointer. */
  predicate IsSerial(m: Mnemonic)
  {
    match m
    case In | Out | Outi | Psam | Stsm | Ldsm | Psai => true
    case _ => false
  }

  /** The display: its pointer and its cells. */
  predicate IsLcd(m: Mnemonic)
  {
    match m
    case Plam | Stlm | Stl | Plai | Stls | Stlsa | Stli | Stlia => true
    case _ => false
  }

  /** The instructions that set PC themselves; every other one moves on by one word. */
  predicate IsFlow(m: Mnemonic)
  {
    match m
    case Call | Ret | Cpfjr | Ijmr | Wfe | Jmp | Jz | Jnz | Jc | Jnc | Btjr | Cpjr => true
    case _ => false
  }

  /** The six groups cover every instruction. */
  lemma GroupsCover(m: Mnemonic)
    ensures IsRegisterAlu(m) || IsRangeAlu(m) || IsMove(m) || IsSerial(m) || IsLcd(m) || IsFlow(m)
  {
  }

  /** The cycles an instruction takes, which is what its handler returns: the
      range length for ranged forms, the move count for the two shifts (with no
      `+ 1`, so it can be 0), and 1 for everything else. */
  function CycleCost(op: Opcode): (r: nat)
    ensures r <= 8
    ensures IsRanged(Decode(op)) ==> 1 <= r && r == Len(op)
    ensures Decode(op) == Rshm ==> r == Len(op) - 1
    ensures Decode(op) == Lshm ==> r == LshmCount(op)
    ensures !IsRanged(Decode(op)) && Decode(op) != Rshm && Decode(op) != Lshm ==> r == 1
  {
    Cost(Decode(op), op)
  }

  /** `CycleCost` for an opcode already decoded to `m`. */
  function Cost(m: Mnemonic, op: Opcode): nat
  {
    if IsRanged(m) then Len(op)
    else if m == Rshm then Len(op) - 1
    else if m == Lshm then LshmCount(op)
    else 1
  }

  /** Both shifts can cost nothing: `rshm` and `lshm` with equal low fields. */
  lemma ShiftCostsCanBeZero()
    ensures Decode(0x5000) == Rshm && CycleCost(0x5000) == 0
    ensures Decode(0x5008) == Lshm && CycleCost(0x5008) == 0
  {
  }

  /** The mnemonic as the listing prints it. */
  function Name(m: Mnemonic): (s: string)
    ensures 2 <= |s| <= 5
  {
    match m
    case Add => "add" case Adb => "adb" case Sub => "sub" case Sbb => "sbb"
    case Adi => "adi" case Adbi => "adbi" case Sbi => "sbi" case Sbbi => "sbbi"
    case Adm => "adm" case Adbm => "adbm" case Sbm => "sbm" case Sbbm => "sbbm"
    case Cmp => "cmp" case Cpm => "cpm" case Cpi => "cpi" case Lcrb => "lcrb" case Larb => "larb"
    case Andi => "andi" case Ori => "ori" case Xori => "xori"
    case Inc => "inc" case Incb => "incb" case Dec => "dec" case Decb => "decb"
    case Rshm => "rshm" case Lshm => "lshm"
    case In => "in" case Out => "out" case Outi => "outi"
    case Psam => "psam" case Plam => "plam" case Stsm => "stsm" case Ldsm => "ldsm"
    case Stlm => "stlm" case Stl => "stl"
    case Psai => "psai" case Plai => "plai" case Stls => "stls" case Stlsa => "stlsa"
    case Stli => "stli" case Stlia => "stlia"
    case Mov => "mov" case Movm => "movm" case Ldi => "ldi" case Clrm => "clrm"
    case Mvac => "mvac" case Mvacm => "mvacm" case Mvca => "mvca" case Mvcam => "mvcam"
    case Call => "call" case Ret => "ret" case Cpfjr => "cpfjr" case Ijmr => "ijmr"
    case Wfe => "wfe" case Jmp => "jmp" case Jz => "jz" case Jnz => "jnz"
    case Jc => "jc" case Jnc => "jnc" case Btjr => "btjr" case Cpjr => "cpjr"
  }
}
