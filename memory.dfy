/** The bump allocator and the byte helpers (src/kernel/memory.rs).

    The allocator hands out 8-byte-rounded blocks from `next_free` upward and
    never reclaims them.  Its three fields are also read as a `Heap` value, and
    `AllocateFrom` is the specification the `allocate` method is proved against.
    Memory that the raw-pointer helpers write is an array of bytes indexed by
    address. */
module Memory {
  import opened Wrappers

  const PAGE_SIZE: nat := 4096

  /** The allocator's fields: heap bounds and the next free address. */
  datatype Heap = Heap(start: nat, end: nat, nextFree: nat)

  /** The allocator's invariant: `next_free` stays within the heap. */
  predicate HeapValid(h: Heap) {
    h.start <= h.nextFree <= h.end
  }

  /** `(size + 7) & !7`: the request rounded up to a multiple of 8. */
  function AlignedSize(size: nat): (a: nat)
    ensures a % 8 == 0
    ensures size <= a < size + 8
  {
    var blocks := (size + 7) / 8;
    assert blocks * 8 <= size + 7 < blocks * 8 + 8;
    blocks * 8
  }

  /** `available`: the bytes between `next_free` and the end of the heap. */
  function Available(h: Heap): (n: nat)
    requires HeapValid(h)
    ensures h.nextFree + n == h.end
  {
    h.end - h.nextFree
  }

  /** `allocate` on the heap value: the block handed out and the heap
      afterwards.  It fails, and changes nothing, when the rounded request
      does not fit below `heap_end`. */
  function AllocateFrom(h: Heap, size: nat): (r: (Heap, Option<nat>))
    ensures r.1.None? <==> h.nextFree + AlignedSize(size) > h.end
    ensures r.1.None? ==> r.0 == h
    ensures r.1.Some? ==> r.1.value == h.nextFree && r.0 == h.(nextFree := h.nextFree + AlignedSize(size))
    ensures HeapValid(h) ==> HeapValid(r.0)
    ensures HeapValid(h) && r.1.Some? ==> Available(r.0) == Available(h) - AlignedSize(size)
  {
    var aligned := AlignedSize(size);
    if h.nextFree + aligned > h.end then (h, None)
    else (h.(nextFree := h.nextFree + aligned), Some(h.nextFree))
  }

  /** A run of `allocate` calls, one per request, from heap `h`: the heap
      afterwards and the result of each call. */
  function AllocateAll(h: Heap, sizes: seq<nat>): (r: (Heap, seq<Option<nat>>))
    ensures |r.1| == |sizes|
    ensures r.0.start == h.start && r.0.end == h.end && r.0.nextFree >= h.nextFree
    decreases |sizes|
  {
    if sizes == [] then (h, [])
    else
      var (h1, p) := AllocateFrom(h, sizes[0]);
      var (h2, ps) := AllocateAll(h1, sizes[1..]);
      (h2, [p] + ps)
  }

  /** Every block a run hands out lies within [next_free, final next_free),
      and blocks handed out later lie wholly above earlier ones, so no two
      successful allocations overlap. */
  lemma {:induction false} AllocationsDisjointAndIncreasing(h: Heap, sizes: seq<nat>)
    requires HeapValid(h)
    ensures var (h', ps) := AllocateAll(h, sizes);
            HeapValid(h') &&
            (forall i :: 0 <= i < |ps| && ps[i].Some? ==>
               h.nextFree <= ps[i].value && ps[i].value + AlignedSize(sizes[i]) <= h'.nextFree) &&
            (forall i, j :: 0 <= i < j < |ps| && ps[i].Some? && ps[j].Some? ==>
               ps[i].value + AlignedSize(sizes[i]) <= ps[j].value)
    decreases |sizes|
  {
    if sizes != [] {
      var (h1, p) := AllocateFrom(h, sizes[0]);
      AllocationsDisjointAndIncreasing(h1, sizes[1..]);
      var (h2, ps) := AllocateAll(h1, sizes[1..]);
      assert AllocateAll(h, sizes) == (h2, [p] + ps);
      forall i | 0 < i < |sizes| && ([p] + ps)[i].Some?
        ensures h1.nextFree <= ([p] + ps)[i].value
      {
        assert ([p] + ps)[i] == ps[i - 1];
        assert sizes[1..][i - 1] == sizes[i];
      }
    }
  }

  /** With an 8-aligned `next_free`, every address a run hands out is
      8-aligned, because each step advances by a multiple of 8. */
  lemma {:induction false} AllocatedAddressesAligned(h: Heap, sizes: seq<nat>)
    requires h.nextFree % 8 == 0
    ensures var (h', ps) := AllocateAll(h, sizes);
            h'.nextFree % 8 == 0 &&
            forall i :: 0 <= i < |ps| && ps[i].Some? ==> ps[i].value % 8 == 0
    decreases |sizes|
  {
    if sizes != [] {
      var (h1, p) := AllocateFrom(h, sizes[0]);
      AllocatedAddressesAligned(h1, sizes[1..]);
      var (h2, ps) := AllocateAll(h1, sizes[1..]);
      assert AllocateAll(h, sizes) == (h2, [p] + ps);
      forall i | 0 < i < |sizes| && ([p] + ps)[i].Some?
        ensures ([p] + ps)[i].value % 8 == 0
      {
        assert ([p] + ps)[i] == ps[i - 1];
      }
    }
  }

  /** The bump allocator. */
  class Allocator {
    var heapStart: nat
    var heapEnd: nat
    var nextFree: nat

    function State(): Heap
      reads this
    {
      Heap(heapStart, heapEnd, nextFree)
    }

    ghost predicate Valid()
      reads this
    {
      HeapValid(State())
    }

    /** `Allocator::new`: an empty heap at address 0. */
    constructor ()
      ensures Valid() && State() == Heap(0, 0, 0)
    {
      heapStart, heapEnd, nextFree := 0, 0, 0;
    }

    /** `init`: the heap is [start, start + size) and nothing is handed out. */
    method Init(start: nat, size: nat)
      modifies this
      ensures Valid() && State() == Heap(start, start + size, start)
    {
      heapStart := start;
      heapEnd := start + size;
      nextFree := start;
    }

    /** `allocate`: proved against `AllocateFrom`. */
    method Allocate(size: nat) returns (ptr: Option<nat>)
      requires Valid()
      modifies this
      ensures Valid()
      ensures (State(), ptr) == AllocateFrom(old(State()), size)
    {
      var aligned := (size + 7) / 8 * 8;
      if nextFree + aligned > heapEnd {
        return None;
      }
      ptr := Some(nextFree);
      nextFree := nextFree + aligned;
    }

    /** `deallocate`: memory is never reclaimed. */
    method Deallocate(ptr: nat, size: nat)
      ensures unchanged(this)
    {
    }

    /** `available`. */
    function AvailableBytes(): (n: nat)
      requires Valid()
      reads this
      ensures n == Available(State())
      ensures nextFree + n == heapEnd
    {
      heapEnd - nextFree
    }
  }

  /** `allocate_string`: reserves |s| + 1 bytes, copies `s` there and writes
      the terminating 0.  `ram` is memory indexed by address. */
  method AllocateString(alloc: Allocator, ram: array<bv8>, s: seq<bv8>) returns (ptr: Option<nat>)
    requires alloc.Valid() && alloc.heapEnd <= ram.Length
    modifies alloc, ram
    ensures alloc.Valid() && alloc.heapEnd <= ram.Length
    ensures (alloc.State(), ptr) == AllocateFrom(old(alloc.State()), |s| + 1)
    ensures ptr.None? ==> ram[..] == old(ram[..])
    ensures ptr.Some? ==> ptr.value + |s| + 1 <= ram.Length &&
                          ram[..] == old(ram[..ptr.value]) + s + [0] + old(ram[ptr.value + |s| + 1..])
  {
    var size := |s| + 1;
    ptr := alloc.Allocate(size);
    if ptr.Some? {
      var base := ptr.value;
      var i := 0;
      while i < |s|
        modifies ram
        invariant 0 <= i <= |s|
        invariant forall k :: 0 <= k < i ==> ram[base + k] == s[k]
        invariant forall k :: 0 <= k < ram.Length && !(base <= k < base + i) ==> ram[k] == old(ram[k])
      {
        ram[base + i] := s[i];
        i := i + 1;
      }
      ram[base + |s|] := 0;
      assert ram[..] == old(ram[..base]) + s + [0] + old(ram[base + |s| + 1..]);
    }
  }

  /** `memcpy`: the first `size` bytes of `dst` become those of `src`; the
      rest of `dst` is untouched.  The two slices may not overlap. */
  method Memcpy(dst: array<bv8>, src: array<bv8>, size: nat)
    requires size <= dst.Length && size <= src.Length && dst != src
    modifies dst
    ensures dst[..] == src[..size] + old(dst[size..])
  {
    var i := 0;
    while i < size
      invariant 0 <= i <= size
      invariant forall k :: 0 <= k < i ==> dst[k] == src[k]
      invariant forall k :: i <= k < dst.Length ==> dst[k] == old(dst[k])
    {
      dst[i] := src[i];
      i := i + 1;
    }
    assert dst[..] == src[..size] + old(dst[size..]);
  }

  /** `memset`: the first `size` bytes become `value`; the rest are untouched. */
  method Memset(ptr: array<bv8>, value: bv8, size: nat)
    requires size <= ptr.Length
    modifies ptr
    ensures ptr[..] == seq(size, _ => value) + old(ptr[size..])
  {
    var i := 0;
    while i < size
      invariant 0 <= i <= size
      invariant forall k :: 0 <= k < i ==> ptr[k] == value
      invariant forall k :: i <= k < ptr.Length ==> ptr[k] == old(ptr[k])
    {
      ptr[i] := value;
      i := i + 1;
    }
  }
}
