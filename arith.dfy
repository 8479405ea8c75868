/** Nibble arithmetic of the ALU: one digit step with carry or borrow (binary or
    decimal-adjusted), the multi-digit folds that the ranged instructions
    compute, and what those folds mean as numbers.

    A window of registers is read as a number whose step-0 register is the
    least significant digit: carries and borrows move from step k to step k+1. */
module Arith {
  import opened Bits

  function Pow16(n: nat): (r: nat)
    ensures r >= 1
  {
    if n == 0 then 1 else 16 * Pow16(n - 1)
  }

  function Pow10(n: nat): (r: nat)
    ensures r >= 1
  {
    if n == 0 then 1 else 10 * Pow10(n - 1)
  }

  /** The number a digit sequence stands for in base 16, step 0 least significant. */
  function Val(ds: seq<Nibble>): nat
  {
    if |ds| == 0 then 0 else ds[0] + 16 * Val(ds[1..])
  }

  /** Every digit is a decimal digit 0..9. */
  predicate Decimal(ds: seq<Nibble>)
  {
    forall k :: 0 <= k < |ds| ==> ds[k] <= 9
  }

  /** The number a decimal digit sequence stands for, step 0 least significant. */
  function Dec(ds: seq<Nibble>): nat
  {
    if |ds| == 0 then 0 else ds[0] + 10 * Dec(ds[1..])
  }

  /** n digits hold a value below 16^n. */
  lemma {:induction false} ValBound(ds: seq<Nibble>)
    ensures Val(ds) < Pow16(|ds|)
  {
    if |ds| > 0 {
      ValBound(ds[1..]);
    }
  }

  /** n decimal digits hold a value below 10^n. */
  lemma {:induction false} DecBound(ds: seq<Nibble>)
    requires Decimal(ds)
    ensures Dec(ds) < Pow10(|ds|)
  {
    if |ds| > 0 {
      assert Decimal(ds[1..]);
      DecBound(ds[1..]);
    }
  }

  /** Appending a digit adds it at the next power of 16. */
  lemma {:induction false} ValSnoc(ds: seq<Nibble>, d: Nibble)
    ensures Val(ds + [d]) == Val(ds) + d * Pow16(|ds|)
  {
    if |ds| > 0 {
      assert (ds + [d])[1..] == ds[1..] + [d];
      ValSnoc(ds[1..], d);
      assert 16 * (d * Pow16(|ds| - 1)) == d * Pow16(|ds|);
    }
  }

  /** Two digit sequences of one length with the same value are the same sequence. */
  lemma {:induction false} ValInjective(xs: seq<Nibble>, ys: seq<Nibble>)
    requires |xs| == |ys| && Val(xs) == Val(ys)
    ensures xs == ys
  {
    if |xs| > 0 {
      assert xs[0] == Val(xs) % 16 && ys[0] == Val(ys) % 16;
      ValInjective(xs[1..], ys[1..]);
      assert xs == [xs[0]] + xs[1..] && ys == [ys[0]] + ys[1..];
    }
  }

  /** The digit and outgoing carry of one addition step. */
  datatype Carry = Carry(digit: Nibble, carry: Bit)

  /** One step of `add`/`adm` (binary) or `adb`/`adbm` (decimal): the sum of two
      digits and an incoming carry; a decimal step that overflows 9 subtracts 10
      before the result is masked to four bits. */
  function AddDigit(d: Nibble, s: Nibble, c: Bit, bcd: bool): (r: Carry)
    ensures !bcd ==> r.digit + 16 * r.carry == d + s + c
    ensures r.carry == 1 <==> d + s + c > (if bcd then 9 else 15)
    ensures bcd && d <= 9 && s <= 9 ==> r.digit <= 9 && r.digit + 10 * r.carry == d + s + c
  {
    var sum := d + s + c;
    var carry := if sum > (if bcd then 9 else 15) then 1 else 0;
    Carry((sum - (if bcd then 10 else 0) * carry) % 16, carry)
  }

  /** The digit, outgoing borrow and zero test of one subtraction step. */
  datatype Borrow = Borrow(digit: Nibble, borrow: Bit, zero: bool)

  /** One step of `sub`/`sbm` (binary) or `sbb`/`sbbm` (decimal): the difference
      of two digits less an incoming borrow; a decimal step that goes negative
      subtracts a further 6 before the result is masked to four bits. `zero`
      reports that the raw difference was 0. */
  function SubDigit(d: Nibble, s: Nibble, b: Bit, bcd: bool): (r: Borrow)
    ensures !bcd ==> r.digit == d - s - b + 16 * r.borrow
    ensures r.borrow == 1 <==> d < s + b
    ensures r.zero <==> d == s + b
    ensures bcd && d <= 9 && s <= 9 ==> r.digit <= 9 && r.digit == d - s - b + 10 * r.borrow
  {
    var raw := d - s - b;
    var borrow := if raw < 0 then 1 else 0;
    Borrow((raw - (if bcd then 6 else 0) * borrow) % 16, borrow, raw == 0)
  }

  /** The digits and final carry of a ranged addition. */
  datatype Sum = Sum(digits: seq<Nibble>, carry: Bit)

  /** A ranged addition: AddDigit at step 0, then the rest of the window with
      that step's carry. */
  function AddDigits(ds: seq<Nibble>, ss: seq<Nibble>, cin: Bit, bcd: bool): (r: Sum)
    requires |ds| == |ss|
    ensures |r.digits| == |ds|
  {
    if |ds| == 0 then Sum([], cin)
    else
      var step := AddDigit(ds[0], ss[0], cin, bcd);
      var rest := AddDigits(ds[1..], ss[1..], step.carry, bcd);
      Sum([step.digit] + rest.digits, rest.carry)
  }

  /** Extending both windows by one step extends the ranged addition by one
      AddDigit: the order in which the instruction's loop computes it. */
  lemma {:induction false} AddDigitsSnoc(ds: seq<Nibble>, ss: seq<Nibble>, d: Nibble, s: Nibble, cin: Bit, bcd: bool)
    requires |ds| == |ss|
    ensures var prev := AddDigits(ds, ss, cin, bcd);
      var step := AddDigit(d, s, prev.carry, bcd);
      AddDigits(ds + [d], ss + [s], cin, bcd) == Sum(prev.digits + [step.digit], step.carry)
  {
    if |ds| > 0 {
      var first := AddDigit(ds[0], ss[0], cin, bcd);
      assert (ds + [d])[1..] == ds[1..] + [d] && (ss + [s])[1..] == ss[1..] + [s];
      AddDigitsSnoc(ds[1..], ss[1..], d, s, first.carry, bcd);
    }
  }

  /** The ranged addition over the first `k + 1` steps is the one over the
      first `k` steps followed by one AddDigit. */
  lemma AddDigitsPrefix(ds: seq<Nibble>, ss: seq<Nibble>, k: nat, cin: Bit, bcd: bool)
    requires |ds| == |ss| && k < |ds|
    ensures var prev := AddDigits(ds[..k], ss[..k], cin, bcd);
      var step := AddDigit(ds[k], ss[k], prev.carry, bcd);
      AddDigits(ds[..k + 1], ss[..k + 1], cin, bcd) == Sum(prev.digits + [step.digit], step.carry)
  {
    AddDigitsSnoc(ds[..k], ss[..k], ds[k], ss[k], cin, bcd);
    assert ds[..k + 1] == ds[..k] + [ds[k]] && ss[..k + 1] == ss[..k] + [ss[k]];
  }

  /** The digits, final borrow and all-zero flag of a ranged subtraction. */
  datatype Difference = Difference(digits: seq<Nibble>, borrow: Bit, zero: bool)

  /** A ranged subtraction: SubDigit at step 0, then the rest of the window with
      that step's borrow; `zero` holds while every raw step difference was 0. */
  function SubDigits(ds: seq<Nibble>, ss: seq<Nibble>, bin: Bit, bcd: bool): (r: Difference)
    requires |ds| == |ss|
    ensures |r.digits| == |ds|
  {
    if |ds| == 0 then Difference([], bin, true)
    else
      var step := SubDigit(ds[0], ss[0], bin, bcd);
      var rest := SubDigits(ds[1..], ss[1..], step.borrow, bcd);
      Difference([step.digit] + rest.digits, rest.borrow, step.zero && rest.zero)
  }

  /** Extending both windows by one step extends the ranged subtraction by one
      SubDigit, in the order the instruction's loop computes it. */
  lemma {:induction false} SubDigitsSnoc(ds: seq<Nibble>, ss: seq<Nibble>, d: Nibble, s: Nibble, bin: Bit, bcd: bool)
    requires |ds| == |ss|
    ensures var prev := SubDigits(ds, ss, bin, bcd);
      var step := SubDigit(d, s, prev.borrow, bcd);
      SubDigits(ds + [d], ss + [s], bin, bcd) == Difference(prev.digits + [step.digit], step.borrow, prev.zero && step.zero)
  {
    if |ds| > 0 {
      var first := SubDigit(ds[0], ss[0], bin, bcd);
      assert (ds + [d])[1..] == ds[1..] + [d] && (ss + [s])[1..] == ss[1..] + [s];
      SubDigitsSnoc(ds[1..], ss[1..], d, s, first.borrow, bcd);
    }
  }

  /** The ranged subtraction over the first `k + 1` steps is the one over the
      first `k` steps followed by one SubDigit. */
  lemma SubDigitsPrefix(ds: seq<Nibble>, ss: seq<Nibble>, k: nat, bin: Bit, bcd: bool)
    requires |ds| == |ss| && k < |ds|
    ensures var prev := SubDigits(ds[..k], ss[..k], bin, bcd);
      var step := SubDigit(ds[k], ss[k], prev.borrow, bcd);
      SubDigits(ds[..k + 1], ss[..k + 1], bin, bcd) == Difference(prev.digits + [step.digit], step.borrow, prev.zero && step.zero)
  {
    SubDigitsSnoc(ds[..k], ss[..k], ds[k], ss[k], bin, bcd);
    assert ds[..k + 1] == ds[..k] + [ds[k]] && ss[..k + 1] == ss[..k] + [ss[k]];
  }

  /** One positional step: a digit with an outgoing carry `c` for the value
      `x` at the lowest place, and the higher places summing to `rest` with a
      final carry `k` at weight `p`, make the whole. */
  lemma Positional(base: int, digit: int, c: int, x: int, restVal: int, k: int, rest: int, p: int)
    requires digit + base * c == x
    requires restVal + k * p == rest + c
    ensures (digit + base * restVal) + k * (base * p) == x + base * rest
  {
    assert k * (base * p) == base * (k * p);
    assert base * restVal + base * (k * p) == base * (rest + c);
  }

  /** The same step for a subtraction, where `b` and `k` are borrows. */
  lemma PositionalBorrow(base: int, digit: int, b: int, x: int, restVal: int, k: int, rest: int, p: int)
    requires digit - base * b == x
    requires restVal - k * p == rest - b
    ensures (digit + base * restVal) - k * (base * p) == x + base * rest
  {
    assert k * (base * p) == base * (k * p);
    assert base * restVal - base * (k * p) == base * (rest - b);
  }

  /** A binary ranged addition adds the two windows as base-16 numbers; the final
      carry is the digit that does not fit. */
  lemma {:induction false} AddDigitsValue(ds: seq<Nibble>, ss: seq<Nibble>, cin: Bit)
    requires |ds| == |ss|
    ensures var r := AddDigits(ds, ss, cin, false);
      Val(r.digits) + r.carry * Pow16(|ds|) == Val(ds) + Val(ss) + cin
  {
    if |ds| > 0 {
      var step := AddDigit(ds[0], ss[0], cin, false);
      var rest := AddDigits(ds[1..], ss[1..], step.carry, false);
      AddDigitsValue(ds[1..], ss[1..], step.carry);
      var r := AddDigits(ds, ss, cin, false);
      assert r.digits[1..] == rest.digits;
      Positional(16, step.digit, step.carry, ds[0] + ss[0] + cin, Val(rest.digits), rest.carry,
                 Val(ds[1..]) + Val(ss[1..]), Pow16(|ds| - 1));
    }
  }

  /** A decimal ranged addition of decimal digits adds the windows as decimal
      numbers and leaves decimal digits. */
  lemma {:induction false} AddDigitsDecimal(ds: seq<Nibble>, ss: seq<Nibble>, cin: Bit)
    requires |ds| == |ss| && Decimal(ds) && Decimal(ss)
    ensures var r := AddDigits(ds, ss, cin, true);
      Decimal(r.digits) && Dec(r.digits) + r.carry * Pow10(|ds|) == Dec(ds) + Dec(ss) + cin
  {
    if |ds| > 0 {
      var step := AddDigit(ds[0], ss[0], cin, true);
      var rest := AddDigits(ds[1..], ss[1..], step.carry, true);
      assert Decimal(ds[1..]) && Decimal(ss[1..]);
      AddDigitsDecimal(ds[1..], ss[1..], step.carry);
      var r := AddDigits(ds, ss, cin, true);
      assert r.digits[1..] == rest.digits;
      Positional(10, step.digit, step.carry, ds[0] + ss[0] + cin, Dec(rest.digits), rest.carry,
                 Dec(ds[1..]) + Dec(ss[1..]), Pow10(|ds| - 1));
    }
  }

  /** A binary ranged subtraction subtracts the windows as base-16 numbers modulo
      16^n, the final borrow standing for the 16^n that was borrowed. */
  lemma {:induction false} SubDigitsValue(ds: seq<Nibble>, ss: seq<Nibble>, bin: Bit)
    requires |ds| == |ss|
    ensures var r := SubDigits(ds, ss, bin, false);
      Val(r.digits) == Val(ds) - Val(ss) - bin + r.borrow * Pow16(|ds|)
  {
    if |ds| > 0 {
      var step := SubDigit(ds[0], ss[0], bin, false);
      var rest := SubDigits(ds[1..], ss[1..], step.borrow, false);
      SubDigitsValue(ds[1..], ss[1..], step.borrow);
      var r := SubDigits(ds, ss, bin, false);
      assert r.digits[1..] == rest.digits;
      PositionalBorrow(16, step.digit, step.borrow, ds[0] - ss[0] - bin, Val(rest.digits), rest.borrow,
                 Val(ds[1..]) - Val(ss[1..]), Pow16(|ds| - 1));
    }
  }

  /** A decimal ranged subtraction of decimal digits subtracts the windows as
      decimal numbers modulo 10^n and leaves decimal digits. */
  lemma {:induction false} SubDigitsDecimal(ds: seq<Nibble>, ss: seq<Nibble>, bin: Bit)
    requires |ds| == |ss| && Decimal(ds) && Decimal(ss)
    ensures var r := SubDigits(ds, ss, bin, true);
      Decimal(r.digits) && Dec(r.digits) == Dec(ds) - Dec(ss) - bin + r.borrow * Pow10(|ds|)
  {
    if |ds| > 0 {
      var step := SubDigit(ds[0], ss[0], bin, true);
      var rest := SubDigits(ds[1..], ss[1..], step.borrow, true);
      assert Decimal(ds[1..]) && Decimal(ss[1..]);
      SubDigitsDecimal(ds[1..], ss[1..], step.borrow);
      var r := SubDigits(ds, ss, bin, true);
      assert r.digits[1..] == rest.digits;
      PositionalBorrow(10, step.digit, step.borrow, ds[0] - ss[0] - bin, Dec(rest.digits), rest.borrow,
                 Dec(ds[1..]) - Dec(ss[1..]), Pow10(|ds| - 1));
    }
  }

  /** The borrow and zero flags of a ranged subtraction do not depend on the
      decimal adjustment, which only changes the stored digits. */
  lemma {:induction false} SubDigitsFlags(ds: seq<Nibble>, ss: seq<Nibble>, bin: Bit)
    requires |ds| == |ss|
    ensures SubDigits(ds, ss, bin, true).borrow == SubDigits(ds, ss, bin, false).borrow
    ensures SubDigits(ds, ss, bin, true).zero == SubDigits(ds, ss, bin, false).zero
  {
    if |ds| > 0 {
      SubDigitsFlags(ds[1..], ss[1..], SubDigit(ds[0], ss[0], bin, false).borrow);
    }
  }

  /** The final borrow of a ranged subtraction or compare (binary or decimal) is
      set exactly when the minuend window is below the subtrahend window plus the
      incoming borrow, as base-16 numbers. */
  lemma SubDigitsBorrow(ds: seq<Nibble>, ss: seq<Nibble>, bin: Bit, bcd: bool)
    requires |ds| == |ss|
    ensures SubDigits(ds, ss, bin, bcd).borrow == 1 <==> Val(ds) < Val(ss) + bin
  {
    var r := SubDigits(ds, ss, bin, false);
    SubDigitsValue(ds, ss, bin);
    SubDigitsFlags(ds, ss, bin);
    ValBound(r.digits);
    ValBound(ds);
    ValBound(ss);
  }

  /** With no incoming borrow the zero flag of a ranged subtraction or compare is
      set exactly when the two windows are equal, digit for digit. */
  lemma {:induction false} SubDigitsZero(ds: seq<Nibble>, ss: seq<Nibble>, bcd: bool)
    requires |ds| == |ss|
    ensures SubDigits(ds, ss, 0, bcd).zero <==> ds == ss
  {
    if |ds| > 0 {
      SubDigitsZero(ds[1..], ss[1..], bcd);
      assert ds == [ds[0]] + ds[1..] && ss == [ss[0]] + ss[1..];
    }
  }

  /** Decrementing a window (subtracting zeros with an incoming borrow of 1)
      leaves the zero flag set exactly when the window held the value 1, that is,
      when the result is 0. */
  lemma DecrementZero(ds: seq<Nibble>, bcd: bool)
    requires |ds| >= 1
    ensures SubDigits(ds, Zeros(|ds|), 1, bcd).zero <==> Val(ds) == 1
  {
    var zs := Zeros(|ds|);
    assert zs[1..] == Zeros(|ds| - 1);
    SubDigitsZero(ds[1..], zs[1..], bcd);
    ZerosValue(|ds| - 1);
    if Val(ds[1..]) == 0 {
      ValInjective(ds[1..], zs[1..]);
    }
  }

  /** A window of n zeros. */
  function Zeros(n: nat): (zs: seq<Nibble>)
    ensures |zs| == n
  {
    seq(n, _ => 0)
  }

  /** A window of zeros stands for 0. */
  lemma {:induction false} ZerosValue(n: nat)
    ensures Val(Zeros(n)) == 0
  {
    if n > 0 {
      assert Zeros(n)[1..] == Zeros(n - 1);
      ZerosValue(n - 1);
    }
  }

  /** The window after `rshm`: every digit moves one step up, the top digit is
      lost and step 0 becomes 0. */
  function ShiftUp(w: seq<Nibble>): (r: seq<Nibble>)
    requires |w| >= 1
    ensures |r| == |w|
  {
    [0] + w[..|w| - 1]
  }

  /** The window after `lshm`: every digit moves one step down, the step-0 digit
      is lost and the top step becomes 0. */
  function ShiftDown(w: seq<Nibble>): (r: seq<Nibble>)
    requires |w| >= 1
    ensures |r| == |w|
  {
    w[1..] + [0]
  }

  /** `rshm` multiplies the window by 16; the top digit is the part that no
      longer fits. */
  lemma ShiftUpValue(w: seq<Nibble>)
    requires |w| >= 1
    ensures Val(ShiftUp(w)) + w[|w| - 1] * Pow16(|w|) == 16 * Val(w)
  {
    var n := |w| - 1;
    ShiftUpLow(w);
    ValLast(w);
    TimesSixteen(w[n], n);
  }

  lemma ShiftUpLow(w: seq<Nibble>)
    requires |w| >= 1
    ensures Val(ShiftUp(w)) == 16 * Val(w[..|w| - 1])
  {
    assert ShiftUp(w)[1..] == w[..|w| - 1];
  }

  /** The top digit of a window counts at the highest power of 16. */
  lemma ValLast(w: seq<Nibble>)
    requires |w| >= 1
    ensures Val(w) == Val(w[..|w| - 1]) + w[|w| - 1] * Pow16(|w| - 1)
  {
    assert w == w[..|w| - 1] + [w[|w| - 1]];
    ValSnoc(w[..|w| - 1], w[|w| - 1]);
  }

  lemma TimesSixteen(d: nat, n: nat)
    ensures d * Pow16(n + 1) == 16 * (d * Pow16(n))
  {
  }

  /** `lshm` divides the window by 16, dropping the remainder. */
  lemma ShiftDownValue(w: seq<Nibble>)
    requires |w| >= 1
    ensures Val(ShiftDown(w)) == Val(w) / 16
  {
    ValSnoc(w[1..], 0);
  }
}
