/**
  Readable memory and checked reads (src/art/memory.rs and the readers of src/art/layout.rs), on a
  64-bit arm64 target: pointers carry a tag in their top byte, which the hardware ignores.
*/
module ArtMemory {
  import opened Wrappers

  const ADDRESS_SPACE: nat := 0x1_0000_0000_0000_0000
  const UNTAGGED: nat := 0x0100_0000_0000_0000
  const POINTER_SIZE: nat := 8

  type Word = x: nat | x < ADDRESS_SPACE
  type U32 = x: nat | x < 0x1_0000_0000
  type U8 = x: nat | x < 0x100
  type U16 = x: nat | x < 0x1_0000

  /** Clears the tag: the mask 0x00ff_ffff_ffff_ffff. */
  function Normalize(address: Word): (r: Word)
    ensures r < UNTAGGED && r <= address
  {
    address % UNTAGGED
  }

  /** Pointer arithmetic wraps at the width of a pointer. */
  function Offset(address: Word, offset: nat): Word {
    (address + offset) % ADDRESS_SPACE
  }

  datatype MemoryRange = MemoryRange(start: Word, end: Word, writable: bool, executable: bool)
  {
    predicate Covers(address: Word, length: nat) {
      Normalize(start) <= address && address + length <= Normalize(end)
    }
  }

  /** The readable ranges of the process, and what a load of each width at an untagged address gives. */
  datatype Memory = Memory(ranges: seq<MemoryRange>, u16: nat -> U16, u32: nat -> U32, u64: nat -> Word)
  {
    predicate Contains(address: Word, length: nat) {
      var a := Normalize(address);
      a + length < ADDRESS_SPACE && exists range <- ranges :: range.Covers(a, length)
    }

    predicate ContainsExecutable(address: Word, length: nat) {
      var a := Normalize(address);
      a + length < ADDRESS_SPACE && exists range <- ranges :: range.executable && range.Covers(a, length)
    }

    predicate ContainsWritable(address: Word, length: nat) {
      var a := Normalize(address);
      a + length < ADDRESS_SPACE && exists range <- ranges :: range.writable && range.Covers(a, length)
    }

    // The loads themselves may only be made inside a readable range.

    function Load2(address: Word): U16
      requires Contains(address, 2)
    {
      u16(Normalize(address))
    }

    function Load4(address: Word): U32
      requires Contains(address, 4)
    {
      u32(Normalize(address))
    }

    function Load8(address: Word): Word
      requires Contains(address, 8)
    {
      u64(Normalize(address))
    }

    function ReadU16(pointer: Word): Option<U16> {
      if Contains(Normalize(pointer), 2) then Some(Load2(Normalize(pointer))) else None
    }

    function ReadU32(pointer: Word): Option<U32> {
      if Contains(Normalize(pointer), 4) then Some(Load4(Normalize(pointer))) else None
    }

    function ReadUsize(pointer: Word): Option<Word> {
      if Contains(Normalize(pointer), 8) then Some(Load8(Normalize(pointer))) else None
    }
  }

  // Loads of bytes, as the target orders them: the least significant first.

  function U16Of(bytes: nat -> U8, a: nat): U16 {
    bytes(a) + 0x100 * bytes(a + 1)
  }

  function U32Of(bytes: nat -> U8, a: nat): U32 {
    U16Of(bytes, a) + 0x1_0000 * U16Of(bytes, a + 2)
  }

  function U64Of(bytes: nat -> U8, a: nat): Word {
    U32Of(bytes, a) + 0x1_0000_0000 * U32Of(bytes, a + 4)
  }

  /** The memory of a process: every load, of whatever width, is made of the bytes there. */
  function OfBytes(ranges: seq<MemoryRange>, bytes: nat -> U8): Memory {
    Memory(ranges, (a: nat) => U16Of(bytes, a), (a: nat) => U32Of(bytes, a), (a: nat) => U64Of(bytes, a))
  }

  /** A native module's address range; both ends are compared without their tags. */
  datatype ModuleRange = ModuleRange(start: Word, end: Word)
  {
    predicate Contains(address: Word) {
      Normalize(start) <= Normalize(address) < Normalize(end)
    }
  }

  /** Adding to a tagged address moves the address and keeps the tag, while no bit reaches the tag. */
  lemma NormalizeOffset(address: Word, i: nat)
    requires Normalize(address) + i < UNTAGGED
    ensures address + i < ADDRESS_SPACE
    ensures Offset(address, i) == address + i
    ensures Normalize(Offset(address, i)) == Normalize(address) + i
  {}

  /** One check on a block covers every field of it, tag or no tag. */
  lemma BlockCoversFields(m: Memory, address: Word, n: nat, i: nat, k: nat)
    requires m.Contains(address, n) && i + k <= n
    ensures address + i < ADDRESS_SPACE
    ensures Offset(address, i) == address + i
    ensures Normalize(Offset(address, i)) == Normalize(address) + i
    ensures m.Contains(Offset(address, i), k)
  {}

  /** So the checked reads of a block's fields always answer. */
  lemma BlockFieldsRead(m: Memory, address: Word, n: nat, i: nat)
    requires m.Contains(address, n)
    ensures i + 2 <= n ==> m.ReadU16(Offset(address, i)).Some?
    ensures i + 4 <= n ==> m.ReadU32(Offset(address, i)).Some?
    ensures i + 8 <= n ==> m.ReadUsize(Offset(address, i)).Some?
  {
    if i + 2 <= n {
      BlockCoversFields(m, address, n, i, 2);
    }
    if i + 4 <= n {
      BlockCoversFields(m, address, n, i, 4);
    }
    if i + 8 <= n {
      BlockCoversFields(m, address, n, i, 8);
    }
  }

  /** Executable and writable memory, as this module knows it, is readable. */
  lemma PermissionsImplyReadable(m: Memory, address: Word, length: nat)
    ensures m.ContainsExecutable(address, length) ==> m.Contains(address, length)
    ensures m.ContainsWritable(address, length) ==> m.Contains(address, length)
  {}
}
