/** The general-register file: four banks of 32 nibble registers, and the
    circular windows inside an 8-register page that the ranged instructions
    walk over.

    A ranged instruction names a first register `h` and a last offset; it visits
    `page + ((h + k) & 7)` for k = 0, 1, ..., so the window wraps around inside
    the page of `h` and never leaves it. */
module RegFile {
  import opened Bits

  const BANK_COUNT := 4
  const BANK_SIZE := 32

  /** One register bank. */
  type Bank = s: seq<Nibble> | |s| == BANK_SIZE witness seq(32, _ => 0)

  /** The first register of an 8-register page. */
  predicate IsPage(page: int)
  {
    page == 0 || page == 8 || page == 16 || page == 24
  }

  /** Python `reg & 0xF8` on a 5-bit register index. */
  function PageOf(reg: nat): (page: nat)
    requires reg < BANK_SIZE
    ensures IsPage(page) && page <= reg < page + 8
  {
    reg - reg % 8
  }

  /** The register visited at step `k` of a window that starts at offset `start`
      of `page`: Python `page + ((start + k) & 7)`. */
  function Slot(page: nat, start: nat, k: nat): (r: nat)
    requires IsPage(page) && start < 8 && k < 8
    ensures page <= r < page + 8 && r < BANK_SIZE
    ensures r % 8 == (start + k) % 8
  {
    page + if start + k < 8 then start + k else start + k - 8
  }

  /** The step at which a window starting at offset `start` visits `reg`. */
  function Offset(reg: nat, start: nat): nat
    requires start < 8
  {
    var low := reg % 8;
    if low >= start then low - start else low + 8 - start
  }

  /** `reg` is one of the first `n` registers of the window. */
  predicate InWindow(reg: nat, page: nat, start: nat, n: nat)
    requires start < 8
  {
    reg - reg % 8 == page && Offset(reg, start) < n
  }

  /** Step `k` of a window visits a register whose offset is `k`, in its own page. */
  lemma SlotOffset(page: nat, start: nat, k: nat)
    requires IsPage(page) && start < 8 && k < 8
    ensures Offset(Slot(page, start, k), start) == k
    ensures Slot(page, start, k) - Slot(page, start, k) % 8 == page
  {
  }

  /** The values of the first `n` registers of a window, in visiting order. */
  function Window(b: Bank, page: nat, start: nat, n: nat): (w: seq<Nibble>)
    requires IsPage(page) && start < 8 && n <= 8
    ensures |w| == n
  {
    seq(n, k requires 0 <= k < n => b[Slot(page, start, k)])
  }

  /** The bank after writing `ds[k]` into step `k` of a window, for every k. */
  function Store(b: Bank, page: nat, start: nat, ds: seq<Nibble>): (r: Bank)
    requires IsPage(page) && start < 8 && |ds| <= 8
    ensures forall k :: 0 <= k < |ds| ==> r[Slot(page, start, k)] == ds[k]
    ensures forall reg :: 0 <= reg < BANK_SIZE && !InWindow(reg, page, start, |ds|) ==> r[reg] == b[reg]
  {
    forall k | 0 <= k < |ds| ensures InWindow(Slot(page, start, k), page, start, |ds|) {
      SlotOffset(page, start, k);
    }
    seq(BANK_SIZE, reg requires 0 <= reg < BANK_SIZE =>
      if InWindow(reg, page, start, |ds|) then ds[Offset(reg, start)] else b[reg])
  }

  /** Reading back a window just stored gives the stored digits. */
  lemma WindowOfStore(b: Bank, page: nat, start: nat, ds: seq<Nibble>)
    requires IsPage(page) && start < 8 && |ds| <= 8
    ensures Window(Store(b, page, start, ds), page, start, |ds|) == ds
  {
  }

  /** Storing a window's own contents changes nothing. */
  lemma StoreWindow(b: Bank, page: nat, start: nat, n: nat)
    requires IsPage(page) && start < 8 && n <= 8
    ensures Store(b, page, start, Window(b, page, start, n)) == b
  {
    var r := Store(b, page, start, Window(b, page, start, n));
    forall reg | 0 <= reg < BANK_SIZE ensures r[reg] == b[reg] {
      if InWindow(reg, page, start, n) {
        assert reg == Slot(page, start, Offset(reg, start));
      }
    }
  }

  /** Storing one more digit is a single register write at the next step of the window. */
  lemma StoreSnoc(b: Bank, page: nat, start: nat, ds: seq<Nibble>, x: Nibble)
    requires IsPage(page) && start < 8 && |ds| < 8
    ensures Store(b, page, start, ds + [x]) == Store(b, page, start, ds)[Slot(page, start, |ds|) := x]
  {
    var lhs := Store(b, page, start, ds + [x]);
    var rhs := Store(b, page, start, ds)[Slot(page, start, |ds|) := x];
    SlotOffset(page, start, |ds|);
    forall reg | 0 <= reg < BANK_SIZE ensures lhs[reg] == rhs[reg] {
      if InWindow(reg, page, start, |ds| + 1) {
        assert reg == Slot(page, start, Offset(reg, start));
      }
    }
  }

  /** A register at a step not yet written (in this page or in any other) still
      holds its old value: what lets a ranged loop read its operands from the
      bank it is writing. */
  lemma StoreBeyond(b: Bank, page: nat, start: nat, ds: seq<Nibble>, other: nat, k: nat)
    requires IsPage(page) && IsPage(other) && start < 8 && |ds| <= k < 8
    ensures Store(b, page, start, ds)[Slot(other, start, k)] == b[Slot(other, start, k)]
  {
    SlotOffset(other, start, k);
  }

  /** The empty store is the identity. */
  lemma StoreEmpty(b: Bank, page: nat, start: nat)
    requires IsPage(page) && start < 8
    ensures Store(b, page, start, []) == b
  {
  }

  /** Overwriting step `k` of a stored window is storing the window with its
      digit `k` replaced: how a loop that moves registers inside the window
      keeps the bank described as one Store. */
  lemma StoreUpdate(b: Bank, page: nat, start: nat, ds: seq<Nibble>, k: nat, x: Nibble)
    requires IsPage(page) && start < 8 && k < |ds| <= 8
    ensures Store(b, page, start, ds)[Slot(page, start, k) := x] == Store(b, page, start, ds[k := x])
  {
    var lhs := Store(b, page, start, ds)[Slot(page, start, k) := x];
    var rhs := Store(b, page, start, ds[k := x]);
    SlotOffset(page, start, k);
    forall reg | 0 <= reg < BANK_SIZE ensures lhs[reg] == rhs[reg] {
      if InWindow(reg, page, start, |ds|) {
        assert reg == Slot(page, start, Offset(reg, start));
      }
    }
  }
}
