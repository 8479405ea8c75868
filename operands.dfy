/** The operands of the ranged instructions, as values: the register windows
    they read and write, the bytes `stsm` and `stlm` send, the nibbles `ldsm`
    loads back, and the run of external-memory and display writes they make. */
module Operands {
  import opened Bits
  import opened RegFile
  import opened Isa
  import opened Arith
  import opened MemoryBus
  import opened Lcd
  import opened Screen

  /** `grHi & 0xF8`: the page the destination window lives in. */
  function HiPage(op: Opcode): (page: nat)
    ensures IsPage(page) && page <= Hi(op) < page + 8
  {
    PageOf(Hi(op))
  }

  /** `grLo & 0xF8`: the page the source window lives in. */
  function LoPage(op: Opcode): (page: nat)
    ensures IsPage(page) && page <= Lo(op) < page + 8
  {
    PageOf(Lo(op))
  }

  /** The register step `k` of the destination window visits. */
  function DestSlot(op: Opcode, k: nat): (reg: nat)
    requires k < 8
    ensures HiPage(op) <= reg < HiPage(op) + 8 && reg < BANK_SIZE
  {
    Slot(HiPage(op), Hi(op) % 8, k)
  }

  /** The register step `k` of the source window visits. */
  function SourceSlot(op: Opcode, k: nat): (reg: nat)
    requires k < 8
    ensures LoPage(op) <= reg < LoPage(op) + 8 && reg < BANK_SIZE
  {
    Slot(LoPage(op), Hi(op) % 8, k)
  }

  /** The bank part-way through a ranged write: `ds` stored over the first
      `|ds|` registers of the destination window. */
  function Stored(b: Bank, op: Opcode, ds: seq<Nibble>): (r: Bank)
    requires |ds| <= Len(op)
    ensures forall k :: 0 <= k < |ds| ==> r[DestSlot(op, k)] == ds[k]
  {
    Store(b, HiPage(op), Hi(op) % 8, ds)
  }

  /** The destination window: `Len(op)` registers from `Hi`, wrapping inside its page. */
  function DestWindow(b: Bank, op: Opcode): (w: seq<Nibble>)
    ensures |w| == Len(op) && w[0] == b[Hi(op)]
  {
    Window(b, HiPage(op), Hi(op) % 8, Len(op))
  }

  /** The source window: the same offsets as the destination, in the page of `Lo`. */
  function SourceWindow(b: Bank, op: Opcode): (w: seq<Nibble>)
    ensures |w| == Len(op) && w[0] == b[LoPage(op) + Hi(op) % 8]
  {
    Window(b, LoPage(op), Hi(op) % 8, Len(op))
  }

  /** The bank after writing `ds` over the destination window. */
  function StoreDest(b: Bank, op: Opcode, ds: seq<Nibble>): (r: Bank)
    requires |ds| == Len(op)
    ensures DestWindow(r, op) == ds
    ensures forall reg :: 0 <= reg < BANK_SIZE && !InWindow(reg, HiPage(op), Hi(op) % 8, Len(op)) ==> r[reg] == b[reg]
  {
    WindowOfStore(b, HiPage(op), Hi(op) % 8, ds);
    Store(b, HiPage(op), Hi(op) % 8, ds)
  }

  /** Step `k` of each window reads the register that step visits. */
  lemma WindowsAt(b: Bank, op: Opcode, k: nat)
    requires k < Len(op)
    ensures DestWindow(b, op)[k] == b[DestSlot(op, k)]
    ensures SourceWindow(b, op)[k] == b[SourceSlot(op, k)]
  {
  }

  /** Nothing is stored before the first step. */
  lemma StoredNothing(b: Bank, op: Opcode)
    ensures Stored(b, op, []) == b
  {
    StoreEmpty(b, HiPage(op), Hi(op) % 8);
  }

  /** Part-way through a ranged write, the registers of the next step of both
      windows still hold their original values (a register is written only at
      its own step, after it has been read), and writing the next destination
      register extends the stored digits by one. */
  lemma WriteStep(b: Bank, op: Opcode, ds: seq<Nibble>, x: Nibble)
    requires |ds| < Len(op)
    ensures Stored(b, op, ds)[DestSlot(op, |ds|)] == DestWindow(b, op)[|ds|]
    ensures Stored(b, op, ds)[SourceSlot(op, |ds|)] == SourceWindow(b, op)[|ds|]
    ensures Stored(b, op, ds)[DestSlot(op, |ds|) := x] == Stored(b, op, ds + [x])
  {
    var page, start := HiPage(op), Hi(op) % 8;
    StoreBeyond(b, page, start, ds, page, |ds|);
    StoreBeyond(b, page, start, ds, LoPage(op), |ds|);
    StoreSnoc(b, page, start, ds, x);
  }

  /** Step `k` of a copy inside one bank (`movm`): the registers it reads and
      latches still hold their original values, and writing the source value
      stores one more digit of the source window. */
  lemma CopyStep(b: Bank, op: Opcode, k: nat)
    requires k < Len(op)
    ensures var sw := SourceWindow(b, op);
      var done := Stored(b, op, sw[..k]);
      done[SourceSlot(op, k)] == sw[k] && done[DestSlot(op, k)] == DestWindow(b, op)[k] &&
      done[DestSlot(op, k) := sw[k]] == Stored(b, op, sw[..k + 1])
  {
    var sw := SourceWindow(b, op);
    WriteStep(b, op, sw[..k], sw[k]);
    assert sw[..k + 1] == sw[..k] + [sw[k]];
  }

  /** Writing digit `k` of `ds` after the first `k` stores the first `k + 1`. */
  lemma StoreStep(b: Bank, op: Opcode, ds: seq<Nibble>, k: nat)
    requires k < |ds| <= Len(op)
    ensures Stored(b, op, ds[..k])[DestSlot(op, k) := ds[k]] == Stored(b, op, ds[..k + 1])
  {
    WriteStep(b, op, ds[..k], ds[k]);
    assert ds[..k + 1] == ds[..k] + [ds[k]];
  }

  /** Once every step has written, the whole destination window is stored. */
  lemma StoredAll(b: Bank, op: Opcode, ds: seq<Nibble>)
    requires |ds| == Len(op)
    ensures Stored(b, op, ds) == StoreDest(b, op, ds)
  {
  }

  /** The window `lshm` shifts: from offset `op & 7` of the page of `Hi` up to `Hi` itself. */
  function ShiftLeftWindow(b: Bank, op: Opcode): (w: seq<Nibble>)
    ensures |w| == LshmCount(op) + 1
    ensures w[0] == b[HiPage(op) + op % 8] && w[|w| - 1] == b[Hi(op)]
  {
    ShiftLeftTop(op);
    Window(b, HiPage(op), op % 8, LshmCount(op) + 1)
  }

  /** The last step of the `lshm` window is GR[Hi] itself. */
  lemma ShiftLeftTop(op: Opcode)
    ensures Slot(HiPage(op), op % 8, LshmCount(op)) == Hi(op)
  {
  }

  /** The bank part-way through `lshm`: the first `k` moves done. */
  function ShiftedLeft(b: Bank, op: Opcode, k: nat): (r: Bank)
    requires k <= LshmCount(op)
  {
    Store(b, HiPage(op), op % 8, ShiftingDown(ShiftLeftWindow(b, op), k))
  }

  /** Move `k` of `lshm`: the register it overwrites and the one above it still
      hold their original values, and the move extends the done part by one.
      Once every move is done, clearing GR[Hi] completes the shift. */
  lemma ShiftedLeftStep(b: Bank, op: Opcode, k: nat)
    requires k < LshmCount(op)
    ensures var w := ShiftLeftWindow(b, op);
      var s := Slot(HiPage(op), op % 8, k);
      var t := Slot(HiPage(op), op % 8, k + 1);
      ShiftedLeft(b, op, k)[s] == w[k] && ShiftedLeft(b, op, k)[t] == w[k + 1] &&
      ShiftedLeft(b, op, k)[s := w[k + 1]] == ShiftedLeft(b, op, k + 1)
  {
    var w := ShiftLeftWindow(b, op);
    var page, start := HiPage(op), op % 8;
    StoreUpdate(b, page, start, ShiftingDown(w, k), k, w[k + 1]);
    ShiftingDownStep(w, k);
    SlotOffset(page, start, k);
    SlotOffset(page, start, k + 1);
  }

  lemma ShiftedLeftNone(b: Bank, op: Opcode)
    ensures ShiftedLeft(b, op, 0) == b
  {
    var w := ShiftLeftWindow(b, op);
    assert ShiftingDown(w, 0) == w;
    StoreWindow(b, HiPage(op), op % 8, LshmCount(op) + 1);
  }

  lemma ShiftedLeftEnds(b: Bank, op: Opcode)
    ensures ShiftedLeft(b, op, LshmCount(op))[Hi(op) := 0] == StoreLeft(b, op, ShiftDown(ShiftLeftWindow(b, op)))
  {
    var w := ShiftLeftWindow(b, op);
    var page, start, m := HiPage(op), op % 8, LshmCount(op);
    ShiftingDownEnds(w);
    StoreUpdate(b, page, start, ShiftingDown(w, m), m, 0);
    ShiftLeftTop(op);
  }

  /** The sequence in reverse order. */
  function Reversed(s: seq<Nibble>): (r: seq<Nibble>)
    ensures |r| == |s|
    ensures forall i :: 0 <= i < |s| ==> r[i] == s[|s| - 1 - i]
  {
    if |s| == 0 then [] else Reversed(s[1..]) + [s[0]]
  }

  /** The window part-way through `rshm`, once the steps from `j` up have
      each taken the value of the step below: the steps below `j` still hold
      their own values. */
  function ShiftingUp(w: seq<Nibble>, j: nat): (r: seq<Nibble>)
    requires 1 <= j <= |w|
    ensures |r| == |w|
    ensures forall p :: 0 <= p < j ==> r[p] == w[p]
    ensures forall p :: j <= p < |w| ==> r[p] == w[p - 1]
  {
    w[..j] + w[j - 1..|w| - 1]
  }

  /** One more move of `rshm`: step `j - 1` takes the value of the step below. */
  lemma ShiftingUpStep(w: seq<Nibble>, j: nat)
    requires 2 <= j <= |w|
    ensures ShiftingUp(w, j)[j - 1 := w[j - 2]] == ShiftingUp(w, j - 1)
  {
  }

  /** Before `rshm` moves anything the window is as it was; once every step
      from 1 up has moved, clearing step 0 gives the shifted window. */
  lemma ShiftingUpEnds(w: seq<Nibble>)
    requires |w| >= 1
    ensures ShiftingUp(w, |w|) == w
    ensures ShiftingUp(w, 1)[0 := 0] == ShiftUp(w)
  {
  }

  /** Part-way through a ranged subtraction of `ss` from the destination
      window: the first `k` registers hold the difference of the first `k`
      digits, `borrow` is its borrow and `zf` says it was 0 at every step. */
  ghost predicate SubProgress(b: Bank, op: Opcode, ss: seq<Nibble>, bin: Bit, bcd: bool,
                              k: nat, bank: Bank, borrow: Bit, zf: Bit)
  {
    |ss| == Len(op) && k <= Len(op) &&
    var acc := SubDigits(DestWindow(b, op)[..k], ss[..k], bin, bcd);
    bank == Stored(b, op, acc.digits) && borrow == acc.borrow && (zf == 1 <==> acc.zero)
  }

  /** Before the first step nothing is stored, the borrow is the incoming one
      and every step so far was 0. */
  lemma SubProgressStart(b: Bank, op: Opcode, ss: seq<Nibble>, bin: Bit, bcd: bool)
    requires |ss| == Len(op)
    ensures SubProgress(b, op, ss, bin, bcd, 0, b, bin, 1)
  {
    StoredNothing(b, op);
    assert DestWindow(b, op)[..0] == [] && ss[..0] == [];
  }

  /** One step: the next registers of both windows still hold their own
      digits, and storing that step's difference extends the progress by one
      register. */
  lemma SubProgressStep(b: Bank, op: Opcode, ss: seq<Nibble>, bin: Bit, bcd: bool,
                        k: nat, bank: Bank, borrow: Bit, zf: Bit)
    requires k < Len(op) && SubProgress(b, op, ss, bin, bcd, k, bank, borrow, zf)
    ensures bank[DestSlot(op, k)] == DestWindow(b, op)[k]
    ensures bank[SourceSlot(op, k)] == SourceWindow(b, op)[k]
    ensures var r := SubDigit(DestWindow(b, op)[k], ss[k], borrow, bcd);
      SubProgress(b, op, ss, bin, bcd, k + 1, bank[DestSlot(op, k) := r.digit], r.borrow,
                  if zf == 1 && r.zero then 1 else 0)
  {
    var dw := DestWindow(b, op);
    var acc := SubDigits(dw[..k], ss[..k], bin, bcd);
    var r := SubDigit(dw[k], ss[k], borrow, bcd);
    WriteStep(b, op, acc.digits, r.digit);
    SubDigitsPrefix(dw, ss, k, bin, bcd);
  }

  /** After the last step the window holds the whole difference. */
  lemma SubProgressDone(b: Bank, op: Opcode, ss: seq<Nibble>, bin: Bit, bcd: bool,
                        bank: Bank, borrow: Bit, zf: Bit)
    requires SubProgress(b, op, ss, bin, bcd, Len(op), bank, borrow, zf)
    ensures var r := SubDigits(DestWindow(b, op), ss, bin, bcd);
      bank == StoreDest(b, op, r.digits) && borrow == r.borrow && (zf == 1 <==> r.zero)
  {
    assert DestWindow(b, op)[..Len(op)] == DestWindow(b, op) && ss[..Len(op)] == ss;
  }

  /** One move of `rshm` on the stored window: step `j - 1` still holds its
      own value, step `j` holds its own until it takes that one. */
  lemma StoredShiftingUpStep(b: Bank, op: Opcode, j: nat)
    requires 1 <= j < Len(op)
    ensures var w := DestWindow(b, op); var bank := Stored(b, op, ShiftingUp(w, j + 1));
      bank[DestSlot(op, j - 1)] == w[j - 1] && bank[DestSlot(op, j)] == w[j] &&
      bank[DestSlot(op, j) := w[j - 1]] == Stored(b, op, ShiftingUp(w, j))
  {
    var w := DestWindow(b, op);
    StoreUpdate(b, HiPage(op), Hi(op) % 8, ShiftingUp(w, j + 1), j, w[j - 1]);
    ShiftingUpStep(w, j + 1);
  }

  /** The window part-way through `lshm`, once the first `k` steps have each
      taken the value of the step above: the steps from `k` up still hold
      their own values. */
  function ShiftingDown(w: seq<Nibble>, k: nat): (r: seq<Nibble>)
    requires k < |w|
    ensures |r| == |w|
  {
    w[1..k + 1] + w[k..]
  }

  /** One more move of `lshm`: step `k` takes the value of the step above. */
  lemma ShiftingDownStep(w: seq<Nibble>, k: nat)
    requires k + 1 < |w|
    ensures ShiftingDown(w, k)[k := w[k + 1]] == ShiftingDown(w, k + 1)
  {
  }

  /** Before `lshm` moves anything the window is as it was; once every step
      below the top has moved, clearing the top gives the shifted window. */
  lemma ShiftingDownEnds(w: seq<Nibble>)
    requires |w| >= 1
    ensures ShiftingDown(w, 0) == w
    ensures ShiftingDown(w, |w| - 1)[|w| - 1 := 0] == ShiftDown(w)
  {
  }

  /** The bank after writing `ds` over the window `lshm` shifts. */
  function StoreLeft(b: Bank, op: Opcode, ds: seq<Nibble>): (r: Bank)
    requires |ds| == LshmCount(op) + 1
    ensures ShiftLeftWindow(r, op) == ds
    ensures forall reg :: 0 <= reg < BANK_SIZE && !InWindow(reg, HiPage(op), op % 8, |ds|) ==> r[reg] == b[reg]
  {
    WindowOfStore(b, HiPage(op), op % 8, ds);
    Store(b, HiPage(op), op % 8, ds)
  }

  /** The bytes `stsm` and `stlm` send for a window: from the second register on,
      each register as the high nibble over its predecessor as the low nibble. */
  function Packed(w: seq<Nibble>): (bs: seq<Byte>)
    requires |w| >= 1
    ensures |bs| == |w| - 1
    ensures forall k :: 0 <= k < |bs| ==> bs[k] / 16 == w[k + 1] && bs[k] % 16 == w[k]
  {
    seq(|w| - 1, k requires 0 <= k < |w| - 1 => Pair(w[k + 1], w[k]))
  }

  /** The bytes sent for a window grow one pair at a time: register `k` over
      register `k - 1`. */
  lemma PackedStep(w: seq<Nibble>, k: nat)
    requires 1 <= k < |w|
    ensures Packed(w)[..k - 1] + [Pair(w[k], w[k - 1])] == Packed(w)[..k]
  {
    assert Packed(w)[k - 1] == Pair(w[k], w[k - 1]);
  }

  /** `(hi << 4) | lo`: the two nibbles occupy disjoint bits, so the `|` is a sum. */
  function Pair(hi: Nibble, lo: Nibble): (b: Byte)
    ensures b / 16 == hi && b % 16 == lo
  {
    hi * 16 + lo
  }

  /** Address of the external byte `i` places past the pointer `sa`; the pointer
      wraps inside the external area. */
  function ExternalAddress(sa: nat, i: nat): (addr: nat)
    ensures EXTERNAL_OFFSET <= addr < MEM_SIZE
  {
    EXTERNAL_OFFSET + (sa + i) % EXTERNAL_SIZE
  }

  /** The window `ldsm` loads from the bytes at the pointer: the low nibble of
      the first byte, then the high nibble of each byte in turn. */
  function Loaded(mem: seq<Byte>, sa: nat, n: nat): (w: seq<Nibble>)
    requires |mem| == MEM_SIZE
    ensures |w| == n
  {
    seq(n, k requires 0 <= k < n =>
      if k == 0 then mem[ExternalAddress(sa, 0)] % 16 else mem[ExternalAddress(sa, k - 1)] / 16)
  }

  /** The first step of `ldsm` loads the low nibble of the byte at the pointer. */
  lemma LoadedFirst(mem: seq<Byte>, sa: nat, n: nat)
    requires |mem| == MEM_SIZE && 1 <= n
    ensures Loaded(mem, sa, n)[..1] == [mem[ExternalAddress(sa, 0)] % 16]
  {
    assert Loaded(mem, sa, n)[0] == mem[ExternalAddress(sa, 0)] % 16;
  }

  /** Each step of `ldsm` after the first loads the high nibble of the next byte. */
  lemma LoadedStep(mem: seq<Byte>, sa: nat, n: nat, j: nat)
    requires |mem| == MEM_SIZE && j + 1 < n
    ensures Loaded(mem, sa, n)[..j + 2] == Loaded(mem, sa, n)[..j + 1] + [mem[ExternalAddress(sa, j)] / 16]
  {
  }

  /** External memory after writing `bs` one byte at a time from the pointer on. */
  function Written(mem: seq<Byte>, sa: nat, bs: seq<Byte>): (r: seq<Byte>)
    requires |mem| == MEM_SIZE
    ensures |r| == MEM_SIZE
  {
    if |bs| == 0 then mem
    else Written(mem, sa, bs[..|bs| - 1])[ExternalAddress(sa, |bs| - 1) := bs[|bs| - 1]]
  }

  /** Word indices a run of `n` external writes from `sa` reports as changed. */
  function WrittenWords(sa: nat, n: nat): (r: seq<nat>)
    ensures |r| == n
    ensures forall k :: 0 <= k < n ==> 2 * r[k] <= ExternalAddress(sa, k) < 2 * r[k] + 2
  {
    seq(n, k requires 0 <= k < n => ExternalAddress(sa, k) / 2)
  }

  /** The external pointer `k` bytes into a run, moved on by one byte. */
  lemma PointerStep(sa: nat, k: nat)
    ensures ((sa + k) % EXTERNAL_SIZE + 1) % EXTERNAL_SIZE == (sa + k + 1) % EXTERNAL_SIZE
  {
  }

  /** One more byte of a run of external writes is one more single write. */
  lemma WrittenSnoc(mem: seq<Byte>, sa: nat, bs: seq<Byte>, x: Byte)
    requires |mem| == MEM_SIZE
    ensures Written(mem, sa, bs + [x]) == Written(mem, sa, bs)[ExternalAddress(sa, |bs|) := x]
  {
    assert (bs + [x])[..|bs|] == bs;
  }

  /** One more external write reports one more word. */
  lemma WrittenWordsStep(sa: nat, k: nat)
    ensures WrittenWords(sa, k + 1) == WrittenWords(sa, k) + [ExternalAddress(sa, k) / 2]
  {
  }

  /** A run of at most 2048 external writes can be read back byte for byte,
      and leaves the internal (program) memory untouched. */
  lemma {:induction false} WrittenReads(mem: seq<Byte>, sa: nat, bs: seq<Byte>)
    requires |mem| == MEM_SIZE && |bs| <= EXTERNAL_SIZE
    ensures forall j :: 0 <= j < |bs| ==> Written(mem, sa, bs)[ExternalAddress(sa, j)] == bs[j]
    ensures Written(mem, sa, bs)[..INTERNAL_SIZE] == mem[..INTERNAL_SIZE]
  {
    if |bs| > 0 {
      var n := |bs| - 1;
      WrittenReads(mem, sa, bs[..n]);
      forall j | 0 <= j < n
        ensures ExternalAddress(sa, j) != ExternalAddress(sa, n)
      {
        ModDistinct(sa, j, n);
      }
    }
  }

  /** Two offsets below 2048 past the same pointer name different bytes. */
  lemma ModDistinct(sa: nat, i: nat, j: nat)
    requires i < j < EXTERNAL_SIZE
    ensures (sa + i) % EXTERNAL_SIZE != (sa + j) % EXTERNAL_SIZE
  {
  }

  /** `ldsm` reads back what `stsm` stored: with the pointer reset to where the
      store began, a window of two or more registers comes back unchanged. */
  lemma StoreThenLoad(mem: seq<Byte>, sa: nat, w: seq<Nibble>)
    requires |mem| == MEM_SIZE && 2 <= |w| <= 8
    ensures Loaded(Written(mem, sa, Packed(w)), sa, |w|) == w
  {
    var bs := Packed(w);
    var m := Written(mem, sa, bs);
    WrittenReads(mem, sa, bs);
    var l := Loaded(m, sa, |w|);
    forall k | 0 <= k < |w| ensures l[k] == w[k] {
      if k == 0 {
        assert m[ExternalAddress(sa, 0)] == bs[0];
      } else {
        assert m[ExternalAddress(sa, k - 1)] == bs[k - 1];
      }
    }
  }

  /** The panel after `writeDDRAM` of each byte of `bs` in turn. */
  function PutAll(p: Panel, bs: seq<Byte>): (r: Panel)
    requires PanelValid(p)
    ensures PanelValid(r)
  {
    if |bs| == 0 then p else Put(PutAll(p, bs[..|bs| - 1]), bs[|bs| - 1])
  }

  /** One more byte of a run of display writes is one more Put. */
  lemma PutAllStep(p: Panel, bs: seq<Byte>, k: nat)
    requires PanelValid(p) && k < |bs|
    ensures PutAll(p, bs[..k + 1]) == Put(PutAll(p, bs[..k]), bs[k])
  {
    assert bs[..k + 1][..k] == bs[..k];
  }

  /** A run of display writes from an LA inside the character RAM lands in
      consecutive cells, leaves the other cells alone, and moves LA just past
      the run. */
  lemma {:induction false} PutAllCells(p: Panel, bs: seq<Byte>)
    requires PanelValid(p) && 0 <= p.la && p.la + |bs| <= CHAR_COUNT
    ensures PutAll(p, bs).la == p.la + |bs|
    ensures PutAll(p, bs).ddram == p.ddram[..p.la] + bs + p.ddram[p.la + |bs|..]
  {
    if |bs| > 0 {
      var n := |bs| - 1;
      PutAllCells(p, bs[..n]);
      var q := PutAll(p, bs[..n]);
      PutStep(q, bs[n]);
      Splice(p.ddram, p.la, bs[..n], bs[n]);
      assert bs[..n] + [bs[n]] == bs;
    }
  }

  /** One display write at an LA inside the character RAM. */
  lemma PutStep(q: Panel, v: Byte)
    requires PanelValid(q) && 0 <= q.la < CHAR_COUNT
    ensures Put(q, v).ddram == q.ddram[q.la := v] && Put(q, v).la == q.la + 1
  {
  }

  /** Writing just past a spliced run extends the run. */
  lemma Splice(d: seq<Byte>, at: nat, bs: seq<Byte>, x: Byte)
    requires at + |bs| < |d|
    ensures (d[..at] + bs + d[at + |bs|..])[at + |bs| := x] == d[..at] + (bs + [x]) + d[at + |bs| + 1..]
  {
  }
}
