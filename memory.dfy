/** The memory bus: 8192 bytes, 6144 of internal program memory followed by
    2048 of external data memory, an 11-bit auto-incrementing external pointer
    SA, and the list of word indices written since the list was last drained. */
module MemoryBus {
  import opened Bits

  const INTERNAL_SIZE := 6144
  const EXTERNAL_OFFSET := 6144
  const EXTERNAL_SIZE := 2048
  const MEM_SIZE := 8192

  /** An image zero-padded or truncated to `size` bytes. */
  function Fit(image: seq<Byte>, size: nat): (r: seq<Byte>)
    ensures |r| == size
    ensures forall i :: 0 <= i < size ==> r[i] == if i < |image| then image[i] else 0
  {
    if |image| >= size then image[..size] else image + seq(size - |image|, _ => 0)
  }

  /** The bytes of an optional image file: none at all when there is no file. */
  function Contents(image: Option<seq<Byte>>): (r: seq<Byte>)
    ensures image.None? ==> r == []
    ensures image.Some? ==> r == image.value
  {
    if image.Some? then image.value else []
  }

  /** Python `range(n)`. */
  function Range(n: nat): (r: seq<nat>)
    ensures |r| == n && forall i :: 0 <= i < n ==> r[i] == i
  {
    seq(n, i => i)
  }

  class Memory {
    /** The whole address space; its size never changes. */
    const bytes: array<Byte>
    /** The external pointer. */
    var sa: nat
    /** Word indices (`addr >> 1`) of every write since the last drain, oldest first. */
    var updated: seq<nat>

    ghost predicate Valid()
      reads this
    {
      bytes.Length == MEM_SIZE && sa < EXTERNAL_SIZE
    }

    /** A bus loaded with an internal and an external image (empty when there is
        no file); every word index of both images is marked written. */
    constructor (internal: Option<seq<Byte>>, external: Option<seq<Byte>>)
      ensures Valid() && fresh(bytes)
      ensures sa == 0
      ensures bytes[..INTERNAL_SIZE] == Fit(Contents(internal), INTERNAL_SIZE)
      ensures bytes[EXTERNAL_OFFSET..] == Fit(Contents(external), EXTERNAL_SIZE)
      ensures updated == Range(Max(|Contents(internal)|, INTERNAL_SIZE) / 2) +
                         Range((EXTERNAL_OFFSET + Max(|Contents(external)|, EXTERNAL_SIZE)) / 2)
    {
      bytes := new Byte[MEM_SIZE](_ => 0);
      sa := 0;
      updated := [];
      new;
      SetInternal(internal);
      SetExternal(external);
    }

    /** The big-endian opcode of word `pc & 0xFFF`. */
    function Opcode(pc: nat): (op: nat)
      reads bytes
      requires bytes.Length == MEM_SIZE
      ensures op < 65536
      ensures op / 256 == bytes[2 * (pc % 4096)] && op % 256 == bytes[2 * (pc % 4096) + 1]
    {
      var addr := 2 * (pc % 4096);
      (bytes[addr] as int) * 256 + bytes[addr + 1] as int
    }

    /** Python `length()`: the number of 16-bit words, which stays 4096. */
    function Length(): (n: nat)
      reads this
      requires Valid()
      ensures 2 * n == MEM_SIZE
    {
      bytes.Length / 2
    }

    /** The external byte at SA; SA moves on by one, wrapping at 2048. */
    method ReadExternal() returns (value: Byte)
      requires Valid()
      modifies this`sa
      ensures Valid()
      ensures value == bytes[EXTERNAL_OFFSET + old(sa)]
      ensures sa == (old(sa) + 1) % EXTERNAL_SIZE
    {
      value := bytes[EXTERNAL_OFFSET + sa];
      sa := (sa + 1) % EXTERNAL_SIZE;
    }

    /** The low nibble of the external byte at SA; SA does not move. */
    method ReadNibbleExternal() returns (value: Nibble)
      requires Valid()
      ensures value == bytes[EXTERNAL_OFFSET + sa] % 16
    {
      value := bytes[EXTERNAL_OFFSET + sa] % 16;
    }

    /** Stores `value` at the external byte SA and moves SA on by one. */
    method WriteExternal(value: Byte)
      requires Valid()
      modifies this`sa, this`updated, bytes
      ensures Valid()
      ensures bytes[..] == old(bytes[..])[EXTERNAL_OFFSET + old(sa) := value]
      ensures sa == (old(sa) + 1) % EXTERNAL_SIZE
      ensures updated == old(updated) + [(EXTERNAL_OFFSET + old(sa)) / 2]
    {
      WriteByte(EXTERNAL_OFFSET + sa, value);
      sa := (sa + 1) % EXTERNAL_SIZE;
    }

    /** Stores one byte and marks its word written. */
    method WriteByte(addr: nat, value: Byte)
      requires Valid() && addr < MEM_SIZE
      modifies this`updated, bytes
      ensures bytes[..] == old(bytes[..])[addr := value]
      ensures updated == old(updated) + [addr / 2]
    {
      bytes[addr] := value;
      updated := updated + [addr / 2];
    }

    /** Stores `value` big-endian at `addr`, `addr + 1` (the high byte first) and
        marks the word of `addr` written; at an even address that is exactly the
        opcode the word then fetches. */
    method WriteWord(addr: nat, value: int)
      requires Valid() && addr + 1 < MEM_SIZE
      modifies this`updated, bytes
      ensures bytes[..] == old(bytes[..])[addr := (value / 256) % 256][addr + 1 := value % 256]
      ensures updated == old(updated) + [addr / 2]
      ensures addr % 2 == 0 ==> Opcode(addr / 2) == value % 65536
    {
      bytes[addr] := (value / 256) % 256;
      bytes[addr + 1] := value % 256;
      updated := updated + [addr / 2];
      if addr % 2 == 0 {
        assert 2 * ((addr / 2) % 4096) == addr;
        SplitWord(value);
      }
    }

    lemma SplitWord(value: int)
      ensures ((value / 256) % 256) * 256 + value % 256 == value % 65536
    {
      var q := value / 256;
      assert value == q * 256 + value % 256;
      assert q == (q / 256) * 256 + q % 256;
      assert value == (q / 256) * 65536 + (q % 256) * 256 + value % 256;
    }

    /** Python `setSA(value)`: SA becomes `value & 0x7FF`. */
    method SetSA(value: int)
      requires Valid()
      modifies this`sa
      ensures Valid() && sa == value % EXTERNAL_SIZE
    {
      sa := value % EXTERNAL_SIZE;
    }

    /** Hands over the written-word list and starts a new, empty one. */
    method GetUpdated() returns (list: seq<nat>)
      modifies this`updated
      ensures list == old(updated) && updated == []
    {
      list := updated;
      updated := [];
    }

    /** Loads the internal region from `image`, zero-padded or truncated to 6144
        bytes, leaving the external region alone; every word of the padded image
        is marked written. */
    method SetInternal(image: Option<seq<Byte>>)
      requires bytes.Length == MEM_SIZE
      modifies this`updated, bytes
      ensures bytes[..INTERNAL_SIZE] == Fit(Contents(image), INTERNAL_SIZE)
      ensures bytes[EXTERNAL_OFFSET..] == old(bytes[EXTERNAL_OFFSET..])
      ensures updated == old(updated) + Range(Max(|Contents(image)|, INTERNAL_SIZE) / 2)
    {
      var fitted := Fit(Contents(image), INTERNAL_SIZE);
      for i := 0 to INTERNAL_SIZE
        invariant updated == old(updated)
        invariant bytes[..i] == fitted[..i]
        invariant forall j :: i <= j < MEM_SIZE ==> bytes[j] == old(bytes[j])
      {
        bytes[i] := fitted[i];
        assert bytes[..i + 1] == fitted[..i + 1];
      }
      updated := updated + Range(Max(|Contents(image)|, INTERNAL_SIZE) / 2);
    }

    /** Loads the external region from `image`, zero-padded or truncated to 2048
        bytes, leaving the internal region alone; the word indices from 0 up to
        the end of the padded image, counted from the start of memory, are marked
        written. */
    method SetExternal(image: Option<seq<Byte>>)
      requires bytes.Length == MEM_SIZE
      modifies this`updated, bytes
      ensures bytes[..INTERNAL_SIZE] == old(bytes[..INTERNAL_SIZE])
      ensures bytes[EXTERNAL_OFFSET..] == Fit(Contents(image), EXTERNAL_SIZE)
      ensures updated == old(updated) + Range((EXTERNAL_OFFSET + Max(|Contents(image)|, EXTERNAL_SIZE)) / 2)
    {
      var fitted := Fit(Contents(image), EXTERNAL_SIZE);
      for i := 0 to EXTERNAL_SIZE
        invariant updated == old(updated)
        invariant forall j :: 0 <= j < EXTERNAL_OFFSET ==> bytes[j] == old(bytes[j])
        invariant bytes[EXTERNAL_OFFSET..EXTERNAL_OFFSET + i] == fitted[..i]
        invariant forall j :: EXTERNAL_OFFSET + i <= j < MEM_SIZE ==> bytes[j] == old(bytes[j])
      {
        bytes[EXTERNAL_OFFSET + i] := fitted[i];
        assert bytes[EXTERNAL_OFFSET..EXTERNAL_OFFSET + i + 1] == fitted[..i + 1];
      }
      updated := updated + Range((EXTERNAL_OFFSET + Max(|Contents(image)|, EXTERNAL_SIZE)) / 2);
    }
  }
}
