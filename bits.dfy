/** Machine widths and the bitwise operators of the 4-bit core, stated on integers.

    Python's `&`, `|`, `^` and `~` on the chip's nibbles are modelled bit by bit:
    each operator is defined through the four bits of its operands, and its
    contract says what it does to every bit. */
module Bits {

  /** A single bit: the flags CF and ZF, blink flags, pixels. */
  type Bit = x: int | 0 <= x < 2

  /** A 4-bit value: general and special registers. */
  type Nibble = x: int | 0 <= x < 16

  /** An 8-bit value: memory cells, display cells. */
  type Byte = x: int | 0 <= x < 256

  datatype Option<T> = None | Some(value: T)

  /** Python `max(x, y)` / `min(x, y)` on integers. */
  function Max(x: int, y: int): int { if x >= y then x else y }
  function Min(x: int, y: int): int { if x <= y then x else y }

  /** Bit `i` (0 = least significant) of a nibble. */
  function BitOf(x: Nibble, i: nat): Bit
    requires i < 4
  {
    if i == 0 then x % 2
    else if i == 1 then (x / 2) % 2
    else if i == 2 then (x / 4) % 2
    else (x / 8) % 2
  }

  /** The number whose binary digits, least significant first, are `bs`. */
  function Assemble(bs: seq<Bit>): nat
  {
    if |bs| == 0 then 0 else bs[0] + 2 * Assemble(bs[1..])
  }

  /** Four digits assemble to their weighted sum. */
  lemma AssembleFour(b0: Bit, b1: Bit, b2: Bit, b3: Bit)
    ensures Assemble([b0, b1, b2, b3]) == b0 + 2 * b1 + 4 * b2 + 8 * b3
  {
    assert [b3][1..] == [];
    assert Assemble([b3]) == b3;
    assert [b2, b3][1..] == [b3];
    assert Assemble([b2, b3]) == b2 + 2 * b3;
    assert [b1, b2, b3][1..] == [b2, b3];
    assert Assemble([b1, b2, b3]) == b1 + 2 * b2 + 4 * b3;
    assert [b0, b1, b2, b3][1..] == [b1, b2, b3];
  }

  /** The nibble whose bits are b0 (least significant) .. b3. It is built by
      `Assemble` so that the solver does not expand every bitwise result into
      arithmetic; its contract is all a caller needs. */
  function FromBits(b0: Bit, b1: Bit, b2: Bit, b3: Bit): (r: Nibble)
    ensures BitOf(r, 0) == b0 && BitOf(r, 1) == b1
    ensures BitOf(r, 2) == b2 && BitOf(r, 3) == b3
  {
    AssembleFour(b0, b1, b2, b3);
    Assemble([b0, b1, b2, b3])
  }

  /** A nibble is the weighted sum of its bits. */
  lemma Decompose(x: Nibble)
    ensures x == BitOf(x, 0) + 2 * BitOf(x, 1) + 4 * BitOf(x, 2) + 8 * BitOf(x, 3)
  {
    var h := x / 2;
    var q := h / 2;
    assert x == x % 2 + 2 * h;
    assert h == h % 2 + 2 * q;
    assert q == q % 2 + 2 * (q / 2);
    assert x / 4 == q && x / 8 == q / 2;
  }

  /** A nibble is determined by its four bits. */
  lemma BitsDetermine(x: Nibble, y: Nibble)
    requires forall i :: 0 <= i < 4 ==> BitOf(x, i) == BitOf(y, i)
    ensures x == y
  {
    Decompose(x);
    Decompose(y);
    assert BitOf(x, 0) == BitOf(y, 0) && BitOf(x, 1) == BitOf(y, 1);
    assert BitOf(x, 2) == BitOf(y, 2) && BitOf(x, 3) == BitOf(y, 3);
  }

  /** `1 << i` for a bit position of a nibble. */
  function Mask(i: nat): (r: Nibble)
    requires i < 4
    ensures forall j :: 0 <= j < 4 ==> BitOf(r, j) == if j == i then 1 else 0
  {
    if i == 0 then 1 else if i == 1 then 2 else if i == 2 then 4 else 8
  }

  /** Python `a & b` on nibbles. */
  function And4(a: Nibble, b: Nibble): (r: Nibble)
    ensures BitOf(r, 0) == 1 <==> BitOf(a, 0) == 1 && BitOf(b, 0) == 1
    ensures BitOf(r, 1) == 1 <==> BitOf(a, 1) == 1 && BitOf(b, 1) == 1
    ensures BitOf(r, 2) == 1 <==> BitOf(a, 2) == 1 && BitOf(b, 2) == 1
    ensures BitOf(r, 3) == 1 <==> BitOf(a, 3) == 1 && BitOf(b, 3) == 1
  {
    BitwiseNibble(AndOp, a, b);
    Bitwise(AndOp, a, b, 4)
  }

  /** Python `a | b` on nibbles. */
  function Or4(a: Nibble, b: Nibble): (r: Nibble)
    ensures BitOf(r, 0) == 1 <==> BitOf(a, 0) == 1 || BitOf(b, 0) == 1
    ensures BitOf(r, 1) == 1 <==> BitOf(a, 1) == 1 || BitOf(b, 1) == 1
    ensures BitOf(r, 2) == 1 <==> BitOf(a, 2) == 1 || BitOf(b, 2) == 1
    ensures BitOf(r, 3) == 1 <==> BitOf(a, 3) == 1 || BitOf(b, 3) == 1
  {
    BitwiseNibble(OrOp, a, b);
    Bitwise(OrOp, a, b, 4)
  }

  /** Python `a ^ b` on nibbles. */
  function Xor4(a: Nibble, b: Nibble): (r: Nibble)
    ensures BitOf(r, 0) == 1 <==> BitOf(a, 0) != BitOf(b, 0)
    ensures BitOf(r, 1) == 1 <==> BitOf(a, 1) != BitOf(b, 1)
    ensures BitOf(r, 2) == 1 <==> BitOf(a, 2) != BitOf(b, 2)
    ensures BitOf(r, 3) == 1 <==> BitOf(a, 3) != BitOf(b, 3)
  {
    BitwiseNibble(XorOp, a, b);
    Bitwise(XorOp, a, b, 4)
  }

  /** Python `a & ~m` on a nibble: the bits of `m` are cleared in `a`. */
  function Clear4(a: Nibble, m: Nibble): (r: Nibble)
    ensures BitOf(r, 0) == 1 <==> BitOf(a, 0) == 1 && BitOf(m, 0) == 0
    ensures BitOf(r, 1) == 1 <==> BitOf(a, 1) == 1 && BitOf(m, 1) == 0
    ensures BitOf(r, 2) == 1 <==> BitOf(a, 2) == 1 && BitOf(m, 2) == 0
    ensures BitOf(r, 3) == 1 <==> BitOf(a, 3) == 1 && BitOf(m, 3) == 0
  {
    BitwiseNibble(ClearOp, a, m);
    Bitwise(ClearOp, a, m, 4)
  }

  /** The four operators the core applies bit by bit; `ClearOp` is `a & ~b`. */
  datatype BitOp = AndOp | OrOp | XorOp | ClearOp

  function Apply(op: BitOp, a: Bit, b: Bit): Bit
  {
    match op
    case AndOp => if a == 1 && b == 1 then 1 else 0
    case OrOp => if a == 1 || b == 1 then 1 else 0
    case XorOp => if a != b then 1 else 0
    case ClearOp => if a == 1 && b == 0 then 1 else 0
  }

  /** `op` applied to the low `n` bits of `a` and `b`, one bit at a time. */
  function Bitwise(op: BitOp, a: nat, b: nat, n: nat): nat
    decreases n
  {
    if n == 0 then 0 else Apply(op, a % 2, b % 2) + 2 * Bitwise(op, a / 2, b / 2, n - 1)
  }

  lemma BitwiseNibble(op: BitOp, a: Nibble, b: Nibble)
    ensures Bitwise(op, a, b, 4) ==
      FromBits(Apply(op, BitOf(a, 0), BitOf(b, 0)), Apply(op, BitOf(a, 1), BitOf(b, 1)),
               Apply(op, BitOf(a, 2), BitOf(b, 2)), Apply(op, BitOf(a, 3), BitOf(b, 3)))
  {
    var a1, b1 := a / 2, b / 2;
    var a2, b2 := a1 / 2, b1 / 2;
    var a3, b3 := a2 / 2, b2 / 2;
    assert a / 4 == a2 && a / 8 == a3 && b / 4 == b2 && b / 8 == b3;
    assert Bitwise(op, a3, b3, 1) == Apply(op, a3 % 2, b3 % 2);
    assert Bitwise(op, a2, b2, 2) == Apply(op, a2 % 2, b2 % 2) + 2 * Bitwise(op, a3, b3, 1);
    assert Bitwise(op, a1, b1, 3) == Apply(op, a1 % 2, b1 % 2) + 2 * Bitwise(op, a2, b2, 2);
    AssembleFour(Apply(op, BitOf(a, 0), BitOf(b, 0)), Apply(op, BitOf(a, 1), BitOf(b, 1)),
                 Apply(op, BitOf(a, 2), BitOf(b, 2)), Apply(op, BitOf(a, 3), BitOf(b, 3)));
  }

  /** Setting a single bit with `|` leaves every other bit as it was. */
  lemma SetOneBit(a: Nibble, i: nat)
    requires i < 4
    ensures BitOf(Or4(a, Mask(i)), i) == 1
    ensures forall j :: 0 <= j < 4 && j != i ==> BitOf(Or4(a, Mask(i)), j) == BitOf(a, j)
  {
  }

  /** A nonzero result of `x & (1 << i)` is exactly bit `i` being set. */
  lemma TestOneBit(x: Nibble, i: nat)
    requires i < 4
    ensures And4(x, Mask(i)) != 0 <==> BitOf(x, i) == 1
  {
    var r := And4(x, Mask(i));
    if BitOf(x, i) == 1 {
      assert BitOf(r, i) == 1;
    } else {
      forall j | 0 <= j < 4 ensures BitOf(r, j) == BitOf(0, j) {
      }
      BitsDetermine(r, 0);
    }
  }

  /** Clearing every bit that is set leaves zero: the read-and-clear registers rely on it. */
  lemma ClearAll(a: Nibble)
    ensures Clear4(a, a) == 0
  {
    forall j | 0 <= j < 4 ensures BitOf(Clear4(a, a), j) == BitOf(0, j) {
    }
    BitsDetermine(Clear4(a, a), 0);
  }
}
