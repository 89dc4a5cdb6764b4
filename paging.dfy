/** The flat page table and its entries (src/kernel/paging.rs).

    An entry is a 64-bit word.  The flag bits V/R/W/X/U/G/A/D are bits 0-7, as
    in the PTE format of section 4.3.1 of the RISC-V Privileged Architecture,
    but the physical address is kept from bit 20 upward and `set_flags` clears
    bits 12-19; the model follows those masks, not the standard's PPN field.
    The table index is bits 20:12 of the virtual address (VPN[0] of Sv39).
    `PageTableEntry` is a copyable one-word struct, so each `set_*` method is
    the function computing the entry's new value; the table's 512 entries are
    an array updated in place. */
module Paging {
  import opened Wrappers
  import opened Riscv
  import Memory

  const PTE_V: Word := 1 << 0
  const PTE_R: Word := 1 << 1
  const PTE_W: Word := 1 << 2
  const PTE_X: Word := 1 << 3
  const PTE_U: Word := 1 << 4
  const PTE_G: Word := 1 << 5
  const PTE_A: Word := 1 << 6
  const PTE_D: Word := 1 << 7

  /** The bits of an entry that hold the physical address. */
  const PHYS_ADDR_MASK: Word := 0xFFFFFFFFFFF00000
  /** The bits of a virtual address kept as the offset within the page. */
  const PAGE_OFFSET_MASK: Word := 0xFFF

  const ENTRY_COUNT: nat := 512
  const PAGE_SIZE: nat := 4096
  /** `size_of::<PageTable>()`: 512 entries of 8 bytes. */
  const PAGE_TABLE_BYTES: nat := 4096

  function IsValid(pte: Word): (b: bool)
    ensures b <==> (pte >> 0) & 1 == 1
  {
    pte & PTE_V != 0
  }

  function IsReadable(pte: Word): (b: bool)
    ensures b <==> (pte >> 1) & 1 == 1
  {
    pte & PTE_R != 0
  }

  function IsWritable(pte: Word): (b: bool)
    ensures b <==> (pte >> 2) & 1 == 1
  {
    pte & PTE_W != 0
  }

  function IsExecutable(pte: Word): (b: bool)
    ensures b <==> (pte >> 3) & 1 == 1
  {
    pte & PTE_X != 0
  }

  function IsUserAccessible(pte: Word): (b: bool)
    ensures b <==> (pte >> 4) & 1 == 1
  {
    pte & PTE_U != 0
  }

  /** `get_physical_address`: bits 20 and up of the entry, the rest zero. */
  function PhysicalAddress(pte: Word): (a: Word)
    ensures a >> 20 == pte >> 20
    ensures a & 0xFFFFF == 0
  {
    pte & PHYS_ADDR_MASK
  }

  /** `set_physical_address`: keeps bits 0-11, takes bits 20 and up from
      `addr`, and leaves bits 12-19 zero. */
  function SetPhysicalAddress(pte: Word, addr: Word): (r: Word)
    ensures r & 0xFFF == pte & 0xFFF
    ensures r >> 20 == addr >> 20
    ensures (r >> 12) & 0xFF == 0
  {
    (pte & 0x0000000000000FFF) | (addr & PHYS_ADDR_MASK)
  }

  /** `set_flags`: keeps bits 20 and up, writes the low 12 bits of `flags`
      into bits 0-11, and zeroes bits 12-19. */
  function SetFlags(pte: Word, flags: Word): (r: Word)
    ensures r >> 20 == pte >> 20
    ensures r & 0xFFF == flags & 0xFFF
    ensures (r >> 12) & 0xFF == 0
  {
    (pte & PHYS_ADDR_MASK) | (flags & 0xFFF)
  }

  /** `set_valid`: bit 0 set or cleared, every other bit kept. */
  function SetValid(pte: Word, valid: bool): (r: Word)
    ensures IsValid(r) == valid
    ensures r & !PTE_V == pte & !PTE_V
  {
    if valid then pte | PTE_V else pte & !PTE_V
  }

  /** `set_readable`: bit 1 set or cleared, every other bit kept. */
  function SetReadable(pte: Word, readable: bool): (r: Word)
    ensures IsReadable(r) == readable
    ensures r & !PTE_R == pte & !PTE_R
  {
    if readable then pte | PTE_R else pte & !PTE_R
  }

  /** `set_writable`: bit 2 set or cleared, every other bit kept. */
  function SetWritable(pte: Word, writable: bool): (r: Word)
    ensures IsWritable(r) == writable
    ensures r & !PTE_W == pte & !PTE_W
  {
    if writable then pte | PTE_W else pte & !PTE_W
  }

  /** `set_executable`: bit 3 set or cleared, every other bit kept. */
  function SetExecutable(pte: Word, executable: bool): (r: Word)
    ensures IsExecutable(r) == executable
    ensures r & !PTE_X == pte & !PTE_X
  {
    if executable then pte | PTE_X else pte & !PTE_X
  }

  /** `set_user_accessible`: bit 4 set or cleared, every other bit kept. */
  function SetUserAccessible(pte: Word, user: bool): (r: Word)
    ensures IsUserAccessible(r) == user
    ensures r & !PTE_U == pte & !PTE_U
  {
    if user then pte | PTE_U else pte & !PTE_U
  }

  /** The table index `(vaddr >> 12) & 0x1FF`: always below 512, so the
      `vpn >= 512` guards of `map_page`, `unmap_page` and `translate` never
      fire. */
  function Vpn(vaddr: Word): (i: nat)
    ensures i < ENTRY_COUNT
  {
    VpnBits(vaddr);
    ((vaddr >> 12) & 0x1FF) as nat
  }

  /** The bit-level fact behind `Vpn`'s bound. */
  lemma VpnBits(vaddr: Word)
    ensures (vaddr >> 12) & 0x1FF < 512
  {
  }

  /** The entry `map_page` stores: address, then flags, then the V bit. */
  function MapEntry(pte: Word, paddr: Word, flags: Word): Word {
    SetValid(SetFlags(SetPhysicalAddress(pte, paddr), flags), true)
  }

  /** What `translate` makes of one entry: the entry's physical address with
      the page offset of `vaddr`, if the entry is valid. */
  function TranslateEntry(pte: Word, vaddr: Word): (r: Option<Word>)
    ensures r.Some? <==> IsValid(pte)
    ensures r.Some? ==> r.value >> 20 == pte >> 20 && r.value & 0xFFF == vaddr & 0xFFF
  {
    if IsValid(pte) then
      TranslatedBits(pte, vaddr);
      Some(PhysicalAddress(pte) | (vaddr & PAGE_OFFSET_MASK))
    else None
  }

  /** The bit-level facts behind `TranslateEntry`'s contract. */
  lemma TranslatedBits(pte: Word, vaddr: Word)
    ensures var a := PhysicalAddress(pte) | (vaddr & PAGE_OFFSET_MASK);
            a >> 20 == pte >> 20 && a & 0xFFF == vaddr & 0xFFF
  {
    var high := pte & 0xFFFFFFFFFFF00000;
    var low := vaddr & 0xFFF;
    assert PhysicalAddress(pte) | (vaddr & PAGE_OFFSET_MASK) == high | low;
    OrBits(high, low);
    MaskBits(pte, vaddr);
  }

  /** How `|` distributes over the two fields of a translated address. */
  lemma OrBits(x: Word, y: Word)
    ensures (x | y) >> 20 == (x >> 20) | (y >> 20)
    ensures (x | y) & 0xFFF == (x & 0xFFF) | (y & 0xFFF)
  {
  }

  /** What the two masks keep of each field. */
  lemma MaskBits(pte: Word, vaddr: Word)
    ensures (pte & 0xFFFFFFFFFFF00000) >> 20 == pte >> 20
    ensures (pte & 0xFFFFFFFFFFF00000) & 0xFFF == 0
    ensures (vaddr & 0xFFF) >> 20 == 0
    ensures (vaddr & 0xFFF) & 0xFFF == vaddr & 0xFFF
  {
  }

  /** A mapped entry translates any address of its page to the mapped
      address's bits 20 and up joined with the address's page offset: bits
      12-19 of the physical address are lost. */
  lemma MapThenTranslateEntry(pte: Word, paddr: Word, flags: Word, vaddr: Word)
    ensures TranslateEntry(MapEntry(pte, paddr, flags), vaddr) ==
            Some((paddr & 0xFFFFFFFFFFF00000) | (vaddr & 0xFFF))
  {
    MappedEntryBits(pte, paddr, flags);
  }

  /** The bit-level fact behind `MapThenTranslateEntry`. */
  lemma MappedEntryBits(pte: Word, paddr: Word, flags: Word)
    ensures ((((pte & 0xFFF) | (paddr & 0xFFFFFFFFFFF00000)) & 0xFFFFFFFFFFF00000) | (flags & 0xFFF) | 1)
            & 0xFFFFFFFFFFF00000 == paddr & 0xFFFFFFFFFFF00000
  {
  }

  /** An entry whose V bit is cleared translates nothing. */
  lemma UnmapThenTranslateEntry(pte: Word, vaddr: Word)
    ensures TranslateEntry(SetValid(pte, false), vaddr) == None
  {
  }

  /** `translate` on a table given as its 512 entries. */
  function Lookup(entries: seq<Word>, vaddr: Word): (r: Option<Word>)
    requires |entries| == ENTRY_COUNT
    ensures r.Some? <==> IsValid(entries[Vpn(vaddr)])
  {
    TranslateEntry(entries[Vpn(vaddr)], vaddr)
  }

  /** After `map_page(v, p, f)`, every address with the same index as `v`
      translates to p's bits 20 and up with its own page offset, and every
      address with another index translates as before. */
  lemma MapThenLookup(entries: seq<Word>, vaddr: Word, paddr: Word, flags: Word, other: Word)
    requires |entries| == ENTRY_COUNT
    ensures var after := entries[Vpn(vaddr) := MapEntry(entries[Vpn(vaddr)], paddr, flags)];
            Lookup(after, other) ==
            if Vpn(other) == Vpn(vaddr) then Some((paddr & 0xFFFFFFFFFFF00000) | (other & 0xFFF))
            else Lookup(entries, other)
  {
    if Vpn(other) == Vpn(vaddr) {
      MapThenTranslateEntry(entries[Vpn(vaddr)], paddr, flags, other);
    }
  }

  /** After `unmap_page(v)`, no address with the index of `v` translates,
      and every address with another index translates as before. */
  lemma UnmapThenLookup(entries: seq<Word>, vaddr: Word, other: Word)
    requires |entries| == ENTRY_COUNT
    ensures var after := entries[Vpn(vaddr) := SetValid(entries[Vpn(vaddr)], false)];
            Lookup(after, other) ==
            if Vpn(other) == Vpn(vaddr) then None else Lookup(entries, other)
  {
    if Vpn(other) == Vpn(vaddr) {
      UnmapThenTranslateEntry(entries[Vpn(vaddr)], other);
    }
  }

  /** Mapping 0x10000000 to 0x20000000 and translating 0x10000000 gives
      0x20000000 back, whatever the table held before. */
  lemma MapTranslateExample(entries: seq<Word>, flags: Word)
    requires |entries| == ENTRY_COUNT
    ensures var v := 0x10000000;
            Lookup(entries[Vpn(v) := MapEntry(entries[Vpn(v)], 0x20000000, flags)], v) == Some(0x20000000)
  {
    MapThenLookup(entries, 0x10000000, 0x20000000, flags, 0x10000000);
    assert (0x20000000 as Word & 0xFFFFFFFFFFF00000) | (0x10000000 as Word & 0xFFF) == 0x20000000;
  }

  /** A page table: 512 entries updated in place. */
  class PageTable {
    const entries: array<Word>

    /** `PageTable::new` reads whatever the allocated memory holds; the
        initial entries are a parameter. */
    constructor (initial: seq<Word>)
      requires |initial| == ENTRY_COUNT
      ensures entries[..] == initial && fresh(entries)
    {
      entries := new Word[ENTRY_COUNT](i requires 0 <= i < ENTRY_COUNT => initial[i]);
    }

    /** `map_page`: the entry at the address's index gets the physical
        address, the flags and the V bit; no other entry changes. */
    method MapPage(vaddr: Word, paddr: Word, flags: Word) returns (ok: bool)
      requires entries.Length == ENTRY_COUNT
      modifies entries
      ensures ok
      ensures entries[..] == old(entries[..])[Vpn(vaddr) := MapEntry(old(entries[Vpn(vaddr)]), paddr, flags)]
    {
      var vpn := Vpn(vaddr);
      var pte := entries[vpn];
      pte := SetPhysicalAddress(pte, paddr);
      pte := SetFlags(pte, flags);
      pte := SetValid(pte, true);
      entries[vpn] := pte;
      ok := true;
    }

    /** `unmap_page`: clears only the V bit of the entry at the address's
        index. */
    method UnmapPage(vaddr: Word) returns (ok: bool)
      requires entries.Length == ENTRY_COUNT
      modifies entries
      ensures ok
      ensures entries[..] == old(entries[..])[Vpn(vaddr) := SetValid(old(entries[Vpn(vaddr)]), false)]
    {
      var vpn := Vpn(vaddr);
      entries[vpn] := SetValid(entries[vpn], false);
      ok := true;
    }

    /** `translate`. */
    function Translate(vaddr: Word): (r: Option<Word>)
      requires entries.Length == ENTRY_COUNT
      reads entries
      ensures r == Lookup(entries[..], vaddr)
      ensures r.Some? <==> IsValid(entries[Vpn(vaddr)])
    {
      TranslateEntry(entries[Vpn(vaddr)], vaddr)
    }
  }

  /** One line of the report `map_memory` and `unmap_memory` print: the
      virtual address reached and the bytes covered by this step. */
  datatype Chunk = Chunk(vaddr: nat, size: nat)

  /** The steps the byte-range loops take over `remaining` bytes from
      `vaddr`: whole pages, then what is left. */
  function Chunks(vaddr: nat, remaining: nat): (cs: seq<Chunk>)
    decreases remaining
  {
    if remaining == 0 then []
    else
      var step := if remaining >= PAGE_SIZE then PAGE_SIZE else remaining;
      [Chunk(vaddr, step)] + Chunks(vaddr + step, remaining - step)
  }

  /** The loops take ceil(size / 4096) steps; step i starts 4096 * i bytes
      in and covers min(4096, what is left), so together they cover exactly
      [vaddr, vaddr + size). */
  lemma {:induction false} ChunksCoverRange(vaddr: nat, size: nat)
    ensures var cs := Chunks(vaddr, size);
            |cs| == (size + PAGE_SIZE - 1) / PAGE_SIZE &&
            forall i :: 0 <= i < |cs| ==>
              cs[i].vaddr == vaddr + PAGE_SIZE * i &&
              cs[i].size == if size - PAGE_SIZE * i >= PAGE_SIZE then PAGE_SIZE else size - PAGE_SIZE * i
    decreases size
  {
    if size > 0 {
      var step := if size >= PAGE_SIZE then PAGE_SIZE else size;
      ChunksCoverRange(vaddr + step, size - step);
      var rest := Chunks(vaddr + step, size - step);
      assert Chunks(vaddr, size) == [Chunk(vaddr, step)] + rest;
      if size < PAGE_SIZE {
        assert rest == [];
      }
      forall i | 0 < i < 1 + |rest|
        ensures ([Chunk(vaddr, step)] + rest)[i].vaddr == vaddr + PAGE_SIZE * i
      {
        assert ([Chunk(vaddr, step)] + rest)[i] == rest[i - 1];
      }
    }
  }

  /** The total size of a run of steps. */
  function TotalSize(cs: seq<Chunk>): nat {
    if cs == [] then 0 else cs[0].size + TotalSize(cs[1..])
  }

  /** The step sizes add up to the requested size, and the last step ends at
      vaddr + size: the loops stop with `current_vaddr` = vaddr + size. */
  lemma {:induction false} ChunksEndAtRangeEnd(vaddr: nat, size: nat)
    ensures TotalSize(Chunks(vaddr, size)) == size
    ensures size > 0 ==> var cs := Chunks(vaddr, size);
                         cs[|cs| - 1].vaddr + cs[|cs| - 1].size == vaddr + size
    decreases size
  {
    if size > 0 {
      var step := if size >= PAGE_SIZE then PAGE_SIZE else size;
      ChunksEndAtRangeEnd(vaddr + step, size - step);
      var rest := Chunks(vaddr + step, size - step);
      assert Chunks(vaddr, size) == [Chunk(vaddr, step)] + rest;
      assert ([Chunk(vaddr, step)] + rest)[1..] == rest;
    }
  }

  /** The virtual memory manager.  `init` builds a page table and drops it,
      so the root table stays unset. */
  class VirtualMemoryManager {
    var rootPageTable: Option<PageTable>

    constructor ()
      ensures rootPageTable == None
    {
      rootPageTable := None;
    }

    /** `init`: succeeds iff the allocator can supply a page table's 4096
        bytes; the table itself is discarded. */
    method Init(alloc: Memory.Allocator) returns (ok: bool)
      requires alloc.Valid()
      modifies alloc
      ensures alloc.Valid()
      ensures (alloc.State(), ok) == (Memory.AllocateFrom(old(alloc.State()), PAGE_TABLE_BYTES).0,
                                      Memory.AllocateFrom(old(alloc.State()), PAGE_TABLE_BYTES).1.Some?)
      ensures rootPageTable == old(rootPageTable)
    {
      var ptr := alloc.Allocate(PAGE_TABLE_BYTES);
      ok := ptr.Some?;
    }

    /** `map_memory`: walks the range page by page, reporting each step with
        the physical address reached, and returns true.  No table is
        touched and `flags` is unused. */
    method MapMemory(vaddr: nat, paddr: nat, size: nat, flags: Word)
      returns (ok: bool, steps: seq<Chunk>, physical: seq<nat>)
      ensures ok
      ensures steps == Chunks(vaddr, size)
      ensures |physical| == |steps|
      ensures forall i :: 0 <= i < |steps| ==> physical[i] + vaddr == paddr + steps[i].vaddr
    {
      var currentVaddr: nat := vaddr;
      var currentPaddr: nat := paddr;
      var remaining: nat := size;
      steps, physical := [], [];
      while remaining > 0
        invariant currentVaddr == vaddr + (size - remaining) && currentPaddr == paddr + (size - remaining)
        invariant remaining <= size
        invariant Chunks(vaddr, size) == steps + Chunks(currentVaddr, remaining)
        invariant |physical| == |steps|
        invariant forall i :: 0 <= i < |steps| ==> physical[i] + vaddr == paddr + steps[i].vaddr
      {
        var mapSize := if remaining >= PAGE_SIZE then PAGE_SIZE else remaining;
        steps := steps + [Chunk(currentVaddr, mapSize)];
        physical := physical + [currentPaddr];
        currentVaddr := currentVaddr + mapSize;
        currentPaddr := currentPaddr + mapSize;
        remaining := remaining - mapSize;
      }
      assert steps + [] == steps;
      ok := true;
    }

    /** `unmap_memory`: walks the range page by page, reporting each step,
        and returns true.  No table is touched. */
    method UnmapMemory(vaddr: nat, size: nat) returns (ok: bool, steps: seq<Chunk>)
      ensures ok
      ensures steps == Chunks(vaddr, size)
    {
      var currentVaddr: nat := vaddr;
      var remaining: nat := size;
      steps := [];
      while remaining > 0
        invariant Chunks(vaddr, size) == steps + Chunks(currentVaddr, remaining)
      {
        var unmapSize := if remaining >= PAGE_SIZE then PAGE_SIZE else remaining;
        steps := steps + [Chunk(currentVaddr, unmapSize)];
        currentVaddr := currentVaddr + unmapSize;
        remaining := remaining - unmapSize;
      }
      assert steps + [] == steps;
      ok := true;
    }
  }
}
