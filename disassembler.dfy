/** The disassembler: the text the debugger shows for a 16-bit word at a given
    PC, and the listing of every word written since the previous listing. It
    dispatches through the same two-level table as the CPU (`Isa.Decode`). */
module Disassembler {
  import opened Bits
  import opened Isa
  import opened MemoryBus
  import Cpu

  // ---- register names ----

  /** `GR_STR`: bank letter A to D, then the index 0 to 7 inside the bank. */
  const GR_NAMES: seq<string> := [
    "RA0", "RA1", "RA2", "RA3", "RA4", "RA5", "RA6", "RA7",
    "RB0", "RB1", "RB2", "RB3", "RB4", "RB5", "RB6", "RB7",
    "RC0", "RC1", "RC2", "RC3", "RC4", "RC5", "RC6", "RC7",
    "RD0", "RD1", "RD2", "RD3", "RD4", "RD5", "RD6", "RD7"]

  /** `SR_STR`: `SR1` to `SR15`, with the first one spelled `RS0`. */
  const SR_NAMES: seq<string> := [
    "RS0", "SR1", "SR2", "SR3", "SR4", "SR5", "SR6", "SR7",
    "SR8", "SR9", "SR10", "SR11", "SR12", "SR13", "SR14", "SR15"]

  /** Reads a general-register name back to its index. */
  function GrIndex(s: string): (r: Option<nat>)
    ensures r.Some? ==> r.value < 32
  {
    if |s| == 3 && s[0] == 'R' && 'A' <= s[1] <= 'D' && '0' <= s[2] <= '7'
    then Some(8 * (s[1] as int - 'A' as int) + (s[2] as int - '0' as int))
    else None
  }

  /** Reads a special-register name back to its index. */
  function SrIndex(s: string): Option<nat>
  {
    if s == "RS0" then Some(0)
    else if |s| >= 3 && s[..2] == "SR" && IsNumeral(s[2..], 10) then Some(ValueOf(s[2..], 10))
    else None
  }

  /** Every 5-bit register field has a name, and the name reads back as the
      field, so no two registers share one. */
  lemma GrNamesRead(i: nat)
    requires i < 32
    ensures i < |GR_NAMES| && GrIndex(GR_NAMES[i]) == Some(i)
  {
    // one bank at a time
    if i < 8 {
    } else if i < 16 {
    } else if i < 24 {
    } else {
    }
  }

  /** Every 4-bit special-register field has a name, and the name reads back
      as the field, the misspelt `RS0` included. */
  lemma SrNamesRead(i: nat)
    requires i < 16
    ensures i < |SR_NAMES| && SrIndex(SR_NAMES[i]) == Some(i)
  {
    if i < 10 {
      assert SR_NAMES[i][2..] == [DigitChar(i)];
    } else {
      var t := SR_NAMES[i][2..];
      assert t == ['1', DigitChar(i - 10)];
      assert t[..1] == ['1'] && t[..1][..0] == [];
      assert ValueOf(t[..1], 10) == 1;
    }
  }

  // ---- numbers ----

  /** The character of digit `d`, upper case past 9. */
  function DigitChar(d: nat): (c: char)
    requires d < 16
    ensures DigitValue(c) == d && IsDigit(c, d + 1)
  {
    if d < 10 then ('0' as int + d) as char else ('A' as int + d - 10) as char
  }

  /** The value of one digit character. */
  function DigitValue(c: char): nat
  {
    if '0' <= c <= '9' then c as int - '0' as int
    else if 'A' <= c <= 'F' then c as int - 'A' as int + 10
    else 0
  }

  /** `c` is a digit of `base` (upper-case letters past 9). */
  predicate IsDigit(c: char, base: nat)
  {
    ('0' <= c <= '9' || 'A' <= c <= 'F') && DigitValue(c) < base
  }

  /** `s` is a non-empty string of digits of `base`. */
  predicate IsNumeral(s: string, base: nat)
  {
    |s| > 0 && forall i :: 0 <= i < |s| ==> IsDigit(s[i], base)
  }

  /** The value of a string of digits, most significant first: the reading a
      user makes of the listing. */
  function ValueOf(s: string, base: nat): nat
  {
    if |s| == 0 then 0 else base * ValueOf(s[..|s| - 1], base) + DigitValue(s[|s| - 1])
  }

  /** Python `'%X' % n` (base 16) and `'%s' % n` (base 10): the digits of `n`
      in upper case, without leading zeros. */
  function Digits(n: nat, base: nat): (s: string)
    requires 2 <= base <= 16
    ensures IsNumeral(s, base)
    ensures s[0] == '0' <==> n == 0
    ensures s[0] == '0' ==> |s| == 1
    decreases n
  {
    if n < base then [DigitChar(n)]
    else
      QuotientShrinks(n, base);
      Digits(n / base, base) + [DigitChar(n % base)]
  }

  lemma QuotientShrinks(n: nat, base: nat)
    requires 2 <= base <= n
    ensures 1 <= n / base < n && n % base < base
  {
  }

  /** Python `'%0.3X' % n` and the like: at least `width` characters, padded
      with zeros on the left. */
  function Padded(s: string, width: nat): (r: string)
    ensures |r| == if |s| < width then width else |s|
    ensures r[|r| - |s|..] == s
    ensures forall i :: 0 <= i < |r| - |s| ==> r[i] == '0'
  {
    if |s| < width then seq(width - |s|, _ => '0') + s else s
  }

  /** Reading the digits back gives the number. */
  lemma {:induction false} DigitsRoundTrip(n: nat, base: nat)
    requires 2 <= base <= 16
    ensures ValueOf(Digits(n, base), base) == n
    decreases n
  {
    var s := Digits(n, base);
    if n < base {
      assert s[..0] == [];
    } else {
      QuotientShrinks(n, base);
      var q, r := n / base, n % base;
      DigitsRoundTrip(q, base);
      assert s == Digits(q, base) + [DigitChar(r)];
      assert s[..|s| - 1] == Digits(q, base);
      assert DigitValue(s[|s| - 1]) == r;
      assert n == base * q + r;
    }
  }

  /** Leading zeros do not change the value. */
  lemma {:induction false} ZerosAddNothing(z: string, s: string, base: nat)
    requires forall i :: 0 <= i < |z| ==> z[i] == '0'
    ensures ValueOf(z + s, base) == ValueOf(s, base)
    decreases |s|
  {
    if |s| == 0 {
      ZerosAreZero(z, base);
      assert z + s == z;
    } else {
      ZerosAddNothing(z, s[..|s| - 1], base);
      assert (z + s)[..|z + s| - 1] == z + s[..|s| - 1];
    }
  }

  lemma {:induction false} ZerosAreZero(z: string, base: nat)
    requires forall i :: 0 <= i < |z| ==> z[i] == '0'
    ensures ValueOf(z, base) == 0
    decreases |z|
  {
    if |z| > 0 {
      ZerosAreZero(z[..|z| - 1], base);
    }
  }

  /** `_lblbase`, `'0x%0.3X'`: a code address, at least three hex digits, with
      a leading zero only where it pads the number to three. */
  function Label(n: nat): (s: string)
    ensures |s| >= 5 && s[..2] == "0x"
    ensures IsNumeral(s[2..], 16) && ValueOf(s[2..], 16) == n
    ensures s[2] == '0' ==> |s| == 5
  {
    var p := Padded(Digits(n, 16), 3);
    PaddedRoundTrip(n);
    assert ("0x" + p)[2..] == p;
    "0x" + p
  }

  /** Padding the hex digits of `n` to three keeps a numeral worth `n`, and a
      leading zero only appears in a three-digit result. */
  lemma PaddedRoundTrip(n: nat)
    ensures var p := Padded(Digits(n, 16), 3);
      |p| >= 3 && IsNumeral(p, 16) && ValueOf(p, 16) == n && (p[0] == '0' ==> |p| == 3)
  {
    var d := Digits(n, 16);
    var p := Padded(d, 3);
    DigitsRoundTrip(n, 16);
    ZerosAddNothing(p[..|p| - |d|], d, 16);
    assert p == p[..|p| - |d|] + d;
    forall i | 0 <= i < |p|
      ensures IsDigit(p[i], 16)
    {
      if i >= |p| - |d| {
        assert p[i] == d[i - (|p| - |d|)];
      }
    }
  }

  /** `_base`, `'0x%X'`: an immediate in hex. */
  function Immediate(n: nat): (s: string)
    ensures |s| >= 3 && s[..2] == "0x"
    ensures IsNumeral(s[2..], 16) && ValueOf(s[2..], 16) == n
    ensures s[2] == '0' ==> |s| == 3
  {
    DigitsRoundTrip(n, 16);
    assert ("0x" + Digits(n, 16))[2..] == Digits(n, 16);
    "0x" + Digits(n, 16)
  }

  /** `'%s' % n`: a field in decimal. */
  function Decimal(n: nat): (s: string)
    ensures IsNumeral(s, 10) && ValueOf(s, 10) == n
    ensures s[0] == '0' ==> |s| == 1
  {
    DigitsRoundTrip(n, 10);
    Digits(n, 10)
  }

  // ---- jump targets as the listing shows them ----

  /** `call` and `jmp` show `opcode & 0x1FFF`. */
  function FarLabel(op: Opcode): nat
  {
    op % 8192
  }

  /** `cpfjr`, `btjr` and `cpjr` show `pc + (opcode & 0x1F) + 1`. */
  function RelativeLabel(op: Opcode, pc: nat): nat
  {
    pc + Lo(op) + 1
  }

  /** The 13-bit mask `call` and `jmp` show with keeps the same bits as the
      12-bit target the CPU jumps to: bit 12 is clear in every opcode of
      both. */
  lemma FarLabelIsTarget(op: Opcode)
    requires Decode(op) == Call || Decode(op) == Jmp
    ensures FarLabel(op) == Target12(op)
  {
    DecodeEncodes(op, Decode(op));
  }

  /** A relative branch that is taken goes to the address shown; one that
      is not goes to the next word. Both are the next PC before the CPU keeps
      its low twelve bits: the listing prints the unmasked sum, so a taken
      branch at 0xFFF is shown as 0x1000 and lands on 0x000. */
  lemma RelativeLabelIsTarget(op: Opcode, pc: nat, v: Nibble, zf: Bit, cf: Bit, pending: bool, stack: seq<nat>)
    requires Decode(op) == Cpfjr || Decode(op) == Btjr || Decode(op) == Cpjr
    ensures var taken := match Decode(op)
              case Cpfjr => v == 4
              case Btjr => BitOf(v, BitSel(op)) == 1
              case _ => v == BitSel(op);
      Cpu.NextPc(op, pc, v, zf, cf, pending, stack) == if taken then RelativeLabel(op, pc) else pc + 1
  {
  }

  /** A conditional jump that is taken goes to the address shown. */
  lemma ConditionalLabelIsTarget(op: Opcode, pc: nat, v: Nibble, zf: Bit, cf: Bit, pending: bool, stack: seq<nat>)
    requires Decode(op) in {Jz, Jnz, Jc, Jnc}
    ensures var taken := match Decode(op)
              case Jz => zf == 1
              case Jnz => zf == 0
              case Jc => cf == 1
              case _ => cf == 0;
      Cpu.NextPc(op, pc, v, zf, cf, pending, stack) == if taken then CondTarget(op, pc) else pc + 1
  {
  }

  // ---- one line ----

  /** What follows the mnemonic, per instruction form. Ranged forms show their
      last register as a number: all five bits for `adm`, `adbm`, `sbm`,
      `sbbm`, `cpm` and `mvcam`, the low three bits for the others; `movm` and
      `mvacm` show it as a register name. */
  function Operands(m: Mnemonic, op: Opcode, pc: nat): (s: string)
    ensures |s| == 0 || s[0] == ' '
  {
    var d := GR_NAMES[Hi(op)];
    match m
    case Add | Adb | Sub | Sbb | Cmp | Mov | Mvac | Mvca | Movm | Mvacm =>
      " " + d + ", " + GR_NAMES[Lo(op)]
    case Adi | Adbi | Sbi | Sbbi | Cpi | Andi | Ori | Xori | Ldi =>
      " " + d + ", " + Immediate(Imm4(op))
    case Adm | Adbm | Sbm | Sbbm | Cpm | Mvcam =>
      " " + d + ", " + Decimal(Lo(op))
    case Inc | Incb | Dec | Decb | Rshm | Lshm | Psam | Plam | Ldsm | Stsm | Stlm | Clrm =>
      " " + d + ", " + Decimal(op % 8)
    case Lcrb | Larb => " " + Decimal(BankSel(op))
    case In => " " + d + ", " + SR_NAMES[Sr(op)]
    case Out => " " + SR_NAMES[Sr(op)] + ", " + d
    case Outi => " " + SR_NAMES[Sr(op)] + ", " + Immediate(OutImm(op))
    case Stl | Ijmr => " " + d
    case Psai => " " + Immediate(op % 2048)
    case Plai | Stlsa | Stli | Stlia => " " + Immediate(Imm8(op))
    case Stls | Ret | Wfe => ""
    case Call | Jmp => " " + Label(FarLabel(op))
    case Cpfjr => " " + d + ", " + Label(RelativeLabel(op, pc))
    case Jz | Jnz | Jc | Jnc => " " + Label(CondTarget(op, pc))
    case Btjr | Cpjr => " " + d + ", " + Decimal(BitSel(op)) + ", " + Label(RelativeLabel(op, pc))
  }

  /** The text of the word `op` found at `pc`. */
  function Text(op: Opcode, pc: nat): string
  {
    var m := Decode(op);
    Name(m) + Operands(m, op, pc)
  }

  /** The first word of a line: everything before the first space. */
  function FirstWord(s: string): (w: string)
    ensures |w| <= |s| && w == s[..|w|] && ' ' !in w
    ensures |w| == |s| || s[|w|] == ' '
  {
    if |s| == 0 || s[0] == ' ' then [] else [s[0]] + FirstWord(s[1..])
  }

  /** The mnemonic a word names, if any. */
  ghost function MnemonicOf(w: string): Option<Mnemonic>
  {
    if exists m :: Name(m) == w then Some(NameOf(w)) else None
  }

  /** The instruction named `w`. */
  ghost function NameOf(w: string): (m: Mnemonic)
    requires exists m :: Name(m) == w
    ensures Name(m) == w
  {
    var m :| Name(m) == w; m
  }

  /** No two instructions print the same mnemonic. */
  lemma NamesDistinct(a: Mnemonic, b: Mnemonic)
    ensures Name(a) == Name(b) ==> a == b
  {
    GroupsCover(a);
    if IsRegisterAlu(a) { RegisterAluNamesDistinct(a, b); }
    else if IsRangeAlu(a) { RangeAluNamesDistinct(a, b); }
    else if IsMove(a) { MoveNamesDistinct(a, b); }
    else if IsSerial(a) { SerialNamesDistinct(a, b); }
    else if IsLcd(a) { LcdNamesDistinct(a, b); }
    else { FlowNamesDistinct(a, b); }
  }

  // The same for each group of the first instruction, by the group of the
  // second: a name is compared only with the names of one group at a time.

  lemma RegisterAluNamesDistinct(a: Mnemonic, b: Mnemonic)
    requires IsRegisterAlu(a)
    ensures Name(a) == Name(b) ==> a == b
  {
    GroupsCover(b);
    if IsRegisterAlu(b) { RegisterAluNamesWithin(a, b); }
    else if IsRangeAlu(b) { NamesDifferRegisterAluRangeAlu(a, b); }
    else if IsMove(b) { NamesDifferRegisterAluMove(a, b); }
    else if IsSerial(b) { NamesDifferRegisterAluSerial(a, b); }
    else if IsLcd(b) { NamesDifferRegisterAluLcd(a, b); }
    else { NamesDifferRegisterAluFlow(a, b); }
  }

  lemma RangeAluNamesDistinct(a: Mnemonic, b: Mnemonic)
    requires IsRangeAlu(a)
    ensures Name(a) == Name(b) ==> a == b
  {
    GroupsCover(b);
    if IsRegisterAlu(b) { NamesDifferRegisterAluRangeAlu(b, a); }
    else if IsRangeAlu(b) { RangeAluNamesWithin(a, b); }
    else if IsMove(b) { NamesDifferRangeAluMove(a, b); }
    else if IsSerial(b) { NamesDifferRangeAluSerial(a, b); }
    else if IsLcd(b) { NamesDifferRangeAluLcd(a, b); }
    else { NamesDifferRangeAluFlow(a, b); }
  }

  lemma MoveNamesDistinct(a: Mnemonic, b: Mnemonic)
    requires IsMove(a)
    ensures Name(a) == Name(b) ==> a == b
  {
    GroupsCover(b);
    if IsRegisterAlu(b) { NamesDifferRegisterAluMove(b, a); }
    else if IsRangeAlu(b) { NamesDifferRangeAluMove(b, a); }
    else if IsMove(b) { MoveNamesWithin(a, b); }
    else if IsSerial(b) { NamesDifferMoveSerial(a, b); }
    else if IsLcd(b) { NamesDifferMoveLcd(a, b); }
    else { NamesDifferMoveFlow(a, b); }
  }

  lemma SerialNamesDistinct(a: Mnemonic, b: Mnemonic)
    requires IsSerial(a)
    ensures Name(a) == Name(b) ==> a == b
  {
    GroupsCover(b);
    if IsRegisterAlu(b) { NamesDifferRegisterAluSerial(b, a); }
    else if IsRangeAlu(b) { NamesDifferRangeAluSerial(b, a); }
    else if IsMove(b) { NamesDifferMoveSerial(b, a); }
    else if IsSerial(b) { SerialNamesWithin(a, b); }
    else if IsLcd(b) { NamesDifferSerialLcd(a, b); }
    else { NamesDifferSerialFlow(a, b); }
  }

  lemma LcdNamesDistinct(a: Mnemonic, b: Mnemonic)
    requires IsLcd(a)
    ensures Name(a) == Name(b) ==> a == b
  {
    GroupsCover(b);
    if IsRegisterAlu(b) { NamesDifferRegisterAluLcd(b, a); }
    else if IsRangeAlu(b) { NamesDifferRangeAluLcd(b, a); }
    else if IsMove(b) { NamesDifferMoveLcd(b, a); }
    else if IsSerial(b) { NamesDifferSerialLcd(b, a); }
    else if IsLcd(b) { LcdNamesWithin(a, b); }
    else { NamesDifferLcdFlow(a, b); }
  }

  lemma FlowNamesDistinct(a: Mnemonic, b: Mnemonic)
    requires IsFlow(a)
    ensures Name(a) == Name(b) ==> a == b
  {
    GroupsCover(b);
    if IsRegisterAlu(b) { NamesDifferRegisterAluFlow(b, a); }
    else if IsRangeAlu(b) { NamesDifferRangeAluFlow(b, a); }
    else if IsMove(b) { NamesDifferMoveFlow(b, a); }
    else if IsSerial(b) { NamesDifferSerialFlow(b, a); }
    else if IsLcd(b) { NamesDifferLcdFlow(b, a); }
    else { FlowNamesWithin(a, b); }
  }

  lemma RegisterAluNamesWithin(a: Mnemonic, b: Mnemonic)
    requires IsRegisterAlu(a) && IsRegisterAlu(b)
    ensures Name(a) == Name(b) ==> a == b
  {
  }

  lemma RangeAluNamesWithin(a: Mnemonic, b: Mnemonic)
    requires IsRangeAlu(a) && IsRangeAlu(b)
    ensures Name(a) == Name(b) ==> a == b
  {
  }

  lemma MoveNamesWithin(a: Mnemonic, b: Mnemonic)
    requires IsMove(a) && IsMove(b)
    ensures Name(a) == Name(b) ==> a == b
  {
  }

  lemma SerialNamesWithin(a: Mnemonic, b: Mnemonic)
    requires IsSerial(a) && IsSerial(b)
    ensures Name(a) == Name(b) ==> a == b
  {
  }

  lemma LcdNamesWithin(a: Mnemonic, b: Mnemonic)
    requires IsLcd(a) && IsLcd(b)
    ensures Name(a) == Name(b) ==> a == b
  {
  }

  lemma FlowNamesWithin(a: Mnemonic, b: Mnemonic)
    requires IsFlow(a) && IsFlow(b)
    ensures Name(a) == Name(b) ==> a == b
  {
  }

  lemma NamesDifferRegisterAluRangeAlu(a: Mnemonic, b: Mnemonic)
    requires IsRegisterAlu(a) && IsRangeAlu(b)
    ensures Name(a) != Name(b)
  {
  }

  lemma NamesDifferRegisterAluMove(a: Mnemonic, b: Mnemonic)
    requires IsRegisterAlu(a) && IsMove(b)
    ensures Name(a) != Name(b)
  {
  }

  lemma NamesDifferRegisterAluSerial(a: Mnemonic, b: Mnemonic)
    requires IsRegisterAlu(a) && IsSerial(b)
    ensures Name(a) != Name(b)
  {
  }

  lemma NamesDifferRegisterAluLcd(a: Mnemonic, b: Mnemonic)
    requires IsRegisterAlu(a) && IsLcd(b)
    ensures Name(a) != Name(b)
  {
  }

  lemma NamesDifferRegisterAluFlow(a: Mnemonic, b: Mnemonic)
    requires IsRegisterAlu(a) && IsFlow(b)
    ensures Name(a) != Name(b)
  {
  }

  lemma NamesDifferRangeAluMove(a: Mnemonic, b: Mnemonic)
    requires IsRangeAlu(a) && IsMove(b)
    ensures Name(a) != Name(b)
  {
  }

  lemma NamesDifferRangeAluSerial(a: Mnemonic, b: Mnemonic)
    requires IsRangeAlu(a) && IsSerial(b)
    ensures Name(a) != Name(b)
  {
  }

  lemma NamesDifferRangeAluLcd(a: Mnemonic, b: Mnemonic)
    requires IsRangeAlu(a) && IsLcd(b)
    ensures Name(a) != Name(b)
  {
  }

  lemma NamesDifferRangeAluFlow(a: Mnemonic, b: Mnemonic)
    requires IsRangeAlu(a) && IsFlow(b)
    ensures Name(a) != Name(b)
  {
  }

  lemma NamesDifferMoveSerial(a: Mnemonic, b: Mnemonic)
    requires IsMove(a) && IsSerial(b)
    ensures Name(a) != Name(b)
  {
  }

  lemma NamesDifferMoveLcd(a: Mnemonic, b: Mnemonic)
    requires IsMove(a) && IsLcd(b)
    ensures Name(a) != Name(b)
  {
  }

  lemma NamesDifferMoveFlow(a: Mnemonic, b: Mnemonic)
    requires IsMove(a) && IsFlow(b)
    ensures Name(a) != Name(b)
  {
  }

  lemma NamesDifferSerialLcd(a: Mnemonic, b: Mnemonic)
    requires IsSerial(a) && IsLcd(b)
    ensures Name(a) != Name(b)
  {
  }

  lemma NamesDifferSerialFlow(a: Mnemonic, b: Mnemonic)
    requires IsSerial(a) && IsFlow(b)
    ensures Name(a) != Name(b)
  {
  }

  lemma NamesDifferLcdFlow(a: Mnemonic, b: Mnemonic)
    requires IsLcd(a) && IsFlow(b)
    ensures Name(a) != Name(b)
  {
  }

  /** The first word of every line reads back as the instruction the CPU
      executes for that word. */
  lemma TextNamesInstruction(op: Opcode, pc: nat)
    ensures MnemonicOf(FirstWord(Text(op, pc))) == Some(Decode(op))
  {
    var m := Decode(op);
    var n := Name(m);
    var t := Text(op, pc);
    var w := FirstWord(t);
    NameHasNoSpace(m);
    FirstWordOfPrefix(n, Operands(m, op, pc));
    NamesDistinct(NameOf(w), m);
  }

  lemma NameHasNoSpace(m: Mnemonic)
    ensures ' ' !in Name(m)
  {
    GroupsCover(m);
    if IsRegisterAlu(m) || IsRangeAlu(m) || IsMove(m) { AluMoveNamesHaveNoSpace(m); }
    else { OtherNamesHaveNoSpace(m); }
  }

  lemma AluMoveNamesHaveNoSpace(m: Mnemonic)
    requires IsRegisterAlu(m) || IsRangeAlu(m) || IsMove(m)
    ensures ' ' !in Name(m)
  {
  }

  lemma OtherNamesHaveNoSpace(m: Mnemonic)
    requires !(IsRegisterAlu(m) || IsRangeAlu(m) || IsMove(m))
    ensures ' ' !in Name(m)
  {
  }

  lemma {:induction false} FirstWordOfPrefix(a: string, b: string)
    requires ' ' !in a && (|b| == 0 || b[0] == ' ')
    ensures FirstWord(a + b) == a
    decreases |a|
  {
    if |a| > 0 {
      assert (a + b)[1..] == a[1..] + b;
      FirstWordOfPrefix(a[1..], b);
    } else {
      assert a + b == b;
    }
  }

  // ---- the listing ----

  /** One listing entry: the opcode and its text. */
  datatype Line = Line(opcode: nat, text: string)

  /** What `disassemble` returns: nothing when no word was written since the
      previous call, otherwise an entry for every written word. */
  datatype Listing = NoChanges | Listing(lines: map<nat, Line>)

  /** The entry for word `pc` of `memory`. */
  function LineAt(memory: Memory, pc: nat): Line
    reads memory, memory.bytes
    requires memory.Valid()
  {
    var op := memory.Opcode(pc);
    Line(op, Text(op, pc))
  }

  /** The entries for the words `pcs` of `memory`, a later entry for the same
      word replacing an earlier one. */
  function Lines(memory: Memory, pcs: seq<nat>): (lines: map<nat, Line>)
    reads memory, memory.bytes
    requires memory.Valid()
    ensures forall pc :: pc in lines <==> pc in pcs
    ensures forall pc :: pc in lines ==> lines[pc] == LineAt(memory, pc)
  {
    if |pcs| == 0 then map[]
    else Lines(memory, pcs[..|pcs| - 1])[pcs[|pcs| - 1] := LineAt(memory, pcs[|pcs| - 1])]
  }

  /** `disassemble`: takes the written-word list from the memory bus (which
      starts a new one) and lists each of those words. */
  method Disassemble(memory: Memory) returns (r: Listing)
    requires memory.Valid()
    modifies memory`updated
    ensures memory.Valid() && memory.updated == []
    ensures |old(memory.updated)| == 0 ==> r == NoChanges
    ensures |old(memory.updated)| > 0 ==> r == Listing(Lines(memory, old(memory.updated)))
  {
    var pcs := memory.GetUpdated();
    if |pcs| == 0 {
      return NoChanges;
    }
    var lines: map<nat, Line> := map[];
    for i := 0 to |pcs|
      invariant lines == Lines(memory, pcs[..i])
    {
      assert pcs[..i + 1][..i] == pcs[..i];
      lines := lines[pcs[i] := LineAt(memory, pcs[i])];
    }
    assert pcs[..|pcs|] == pcs;
    r := Listing(lines);
  }
}
