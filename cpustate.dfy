/** Pure pieces of the CPU state that several instructions share: the rolling
    12-bit `bSA` latch, the 8-bit value `plam` assembles for the display's LA,
    and the 3-deep return stack. */
module CpuState {
  import opened Bits

  const STACK_SIZE := 3

  /** `bSA = (bSA >> 4) | (v << 8)`: the latch shifts down by one nibble and
      takes `v` as its top nibble. The two halves occupy disjoint bits, so the
      `|` is a sum. */
  function Latch(bsa: nat, v: Nibble): (r: nat)
    requires bsa < 4096
    ensures r < 4096
    ensures r / 256 == v && r % 256 == bsa / 16
  {
    bsa / 16 + v * 256
  }

  /** The latch after taking the nibbles `vs` in order. */
  function LatchAll(bsa: nat, vs: seq<Nibble>): (r: nat)
    requires bsa < 4096
    ensures r < 4096
  {
    if |vs| == 0 then bsa else Latch(LatchAll(bsa, vs[..|vs| - 1]), vs[|vs| - 1])
  }

  /** The 12-bit value the last three nibbles of `vs` spell, the earliest of
      them least significant. */
  function LastThree(vs: seq<Nibble>): nat
    requires |vs| >= 3
  {
    vs[|vs| - 3] as int + 16 * (vs[|vs| - 2] as int) + 256 * (vs[|vs| - 1] as int)
  }

  /** Once three or more nibbles have been latched, the latch holds exactly the
      last three, the newest in the top nibble; whatever it held before is gone. */
  lemma LatchKeepsLastThree(bsa: nat, vs: seq<Nibble>)
    requires bsa < 4096 && |vs| >= 3
    ensures LatchAll(bsa, vs) == LastThree(vs)
  {
    var n := |vs|;
    var x0 := LatchAll(bsa, vs[..n - 3]);
    assert vs[..n - 1][..n - 2] == vs[..n - 2];
    assert vs[..n - 2][..n - 3] == vs[..n - 3];
    var x1 := Latch(x0, vs[n - 3]);
    assert LatchAll(bsa, vs[..n - 2]) == x1;
    var x2 := Latch(x1, vs[n - 2]);
    assert LatchAll(bsa, vs[..n - 1]) == x2;
    assert x2 == vs[n - 3] as int * 16 + x0 / 256 + (vs[n - 2] as int) * 256;
  }

  /** `LA = (LA >> 4) | (v << 4)`, the step `plam` repeats over its window:
      the low nibble takes the previous high nibble and the high nibble is `v`. */
  function LaStep(la: nat, v: Nibble): (r: nat)
    requires la < 256
    ensures r < 256
    ensures r / 16 == v && r % 16 == la / 16
  {
    la / 16 + v * 16
  }

  /** The LA value `plam` assembles from the window values `vs`, starting at 0. */
  function LaAll(vs: seq<Nibble>): (r: nat)
    ensures r < 256
  {
    if |vs| == 0 then 0 else LaStep(LaAll(vs[..|vs| - 1]), vs[|vs| - 1])
  }

  /** With at least two registers, `plam` sends the last two: the second-to-last
      as the low nibble and the last as the high nibble. */
  lemma LaKeepsLastTwo(vs: seq<Nibble>)
    requires |vs| >= 2
    ensures LaAll(vs) == vs[|vs| - 2] as int + 16 * (vs[|vs| - 1] as int)
  {
    var n := |vs|;
    assert vs[..n - 1][..n - 2] == vs[..n - 2];
    assert LaAll(vs[..n - 1]) == LaStep(LaAll(vs[..n - 2]), vs[n - 2]);
  }

  /** `call`'s push: append the return address and, if the stack then holds
      more than three entries, drop the oldest. */
  function Push(stack: seq<nat>, pc: nat): (r: seq<nat>)
    requires |stack| <= STACK_SIZE
    ensures |r| == if |stack| < STACK_SIZE then |stack| + 1 else STACK_SIZE
    ensures r[|r| - 1] == pc
    ensures r == (stack + [pc])[|stack| + 1 - |r|..]
  {
    var s := stack + [pc];
    if |s| > STACK_SIZE then s[1..] else s
  }

  /** Popping right after a push gives back the address pushed and the stack as
      it was, except that a full stack has lost its oldest entry. */
  lemma PushThenPop(stack: seq<nat>, pc: nat)
    requires |stack| <= STACK_SIZE
    ensures var r := Push(stack, pc);
      r[|r| - 1] == pc &&
      r[..|r| - 1] == if |stack| < STACK_SIZE then stack else stack[1..]
  {
  }

  /** Latching one more nibble of a sequence is one more Latch. */
  lemma LatchPrefix(bsa: nat, vs: seq<Nibble>, k: nat)
    requires bsa < 4096 && k < |vs|
    ensures LatchAll(bsa, vs[..k + 1]) == Latch(LatchAll(bsa, vs[..k]), vs[k])
  {
    assert vs[..k + 1][..k] == vs[..k];
  }

  /** Latching one more nibble is one more Latch. */
  lemma LatchSnoc(bsa: nat, vs: seq<Nibble>, v: Nibble)
    requires bsa < 4096
    ensures LatchAll(bsa, vs + [v]) == Latch(LatchAll(bsa, vs), v)
  {
    assert (vs + [v])[..|vs|] == vs;
  }

  /** Taking one more nibble into LA is one more LaStep. */
  lemma LaPrefix(vs: seq<Nibble>, k: nat)
    requires k < |vs|
    ensures LaAll(vs[..k + 1]) == LaStep(LaAll(vs[..k]), vs[k])
  {
    assert vs[..k + 1][..k] == vs[..k];
  }
}
