/** The allocator of 21_HeapAllocation/1_heap.c: a heap of 1024 bytes
    whose headers (size, is_free, next pointer) take 24 bytes. Requests
    are rounded up to a multiple of 8. `my_malloc` is first-fit from
    `free_list` and splits, and `my_free` only marks. Pointers into the
    heap are byte offsets, and a NULL `next` is `None`. The header array
    and the ghost block list are as in `HeapV2`. */
module HeapV1 {
  import opened Wrappers
  import opened HeapLayout

  const HeapSize: nat := 1024
  /** `sizeof(BlockHeader)` on a 64-bit target: an 8-byte `size_t`, a
      4-byte `int` padded to 8, an 8-byte pointer. */
  const HeaderSize: nat := 24
  const Alignment: nat := 8
  /** The range of `size_t`. */
  const SizeRange: nat := 0x1_0000_0000_0000_0000

  /** `ALIGN(size)` as written: `size + 7` is computed in `size_t`, so it
      wraps for the last seven values; masking with `~7` rounds down to a
      multiple of 8. */
  function AlignAsWritten(size: nat): (r: nat)
    requires size < SizeRange
    ensures r % Alignment == 0 && r < SizeRange
  {
    (size + Alignment - 1) % SizeRange / Alignment * Alignment
  }

  /** The rounding the macro means: the least multiple of 8 that is at
      least `size`. */
  function Align(size: nat): (r: nat)
    ensures r % Alignment == 0 && size <= r < size + Alignment
  {
    (size + Alignment - 1) / Alignment * Alignment
  }

  /** No smaller multiple of 8 covers `size`. */
  lemma {:induction false} AlignLeast(size: nat, m: nat)
    requires m % Alignment == 0 && size <= m
    ensures Align(size) <= m
  {
  }

  /** The macro is right as long as `size + 7` does not wrap. */
  lemma {:induction false} AlignAsWrittenAgrees(size: nat)
    requires size + Alignment - 1 < SizeRange
    ensures AlignAsWritten(size) == Align(size)
  {
  }

  /** For the last seven `size_t` values the macro gives 0. */
  lemma {:induction false} AlignAsWrittenWraps(size: nat)
    requires SizeRange - Alignment < size < SizeRange
    ensures AlignAsWritten(size) == 0
  {
    assert (size + Alignment - 1) % SizeRange == size + Alignment - 1 - SizeRange;
  }

  /** Under the tiling a block's header lies inside the heap. */
  lemma {:induction false} FieldsFit(bs: seq<Block>, k: nat)
    requires Tiled(bs, HeaderSize, HeapSize) && k < |bs|
    ensures End(bs[k], HeaderSize) <= HeapSize
  {
    InsideHeap(bs, HeaderSize, HeapSize);
  }

  datatype Header = Header(size: nat, isFree: bool, next: Option<nat>)

  function Read(h: Header): View
  {
    View(h.size, h.isFree, h.next)
  }

  /** The initial heap after `init_heap`: one free block of 1000 bytes. */
  function Initial(): (bs: seq<Block>)
    ensures Tiled(bs, HeaderSize, HeapSize)
  {
    [Block(0, HeapSize - HeaderSize, true)]
  }

  /** With the macro as written, a request of `SIZE_MAX` bytes on the
      fresh heap is served from the free block of 1000 bytes; with the
      intended rounding nothing serves it. */
  lemma {:induction false} HugeRequestServed()
    ensures FirstFit(Initial(), AlignAsWritten(SizeRange - 1)) == Some(0)
    ensures FirstFit(Initial(), Align(SizeRange - 1)) == None
  {
    AlignAsWrittenWraps(SizeRange - 1);
    assert Fits(Initial()[0], 0);
  }

  class Heap {
    /** `heap`: the header found at each offset. */
    const heap: array<Header>
    /** `free_list`: NULL until `init_heap`, then the first block. */
    var freeList: Option<nat>
    /** The block list the headers link, from `free_list`. */
    ghost var blocks: seq<Block>

    ghost predicate Valid()
      reads this, heap
    {
      heap.Length == HeapSize && freeList == Some(0) &&
      Tiled(blocks, HeaderSize, HeapSize) && Stored(heap[..], blocks, Read)
    }

    /** The static array, all zero, and a NULL `free_list`. */
    constructor ()
      ensures fresh(heap) && heap.Length == HeapSize && freeList == None
      ensures forall o :: 0 <= o < HeapSize ==> heap[o] == Header(0, false, None)
    {
      heap := new Header[HeapSize](_ => Header(0, false, None));
      freeList := None;
    }

    /** `init_heap`: `free_list` points at offset 0, where one free block
        of 1000 bytes ends the list. */
    method InitHeap()
      requires heap.Length == HeapSize
      modifies this, heap
      ensures Valid() && blocks == Initial()
      ensures heap[0] == Header(HeapSize - HeaderSize, true, None)
      ensures forall o :: 0 < o < HeapSize ==> heap[o] == old(heap[o])
    {
      freeList := Some(0);
      heap[0] := Header(HeapSize - HeaderSize, true, None);
      blocks := Initial();
      assert ViewOf(blocks, 0) == Read(heap[0]);
    }

    /** The branch of `my_malloc` that takes block k at offset `current`:
        split it when more than a header would be left, then mark it
        allocated. */
    method Take(current: nat, size: nat, ghost k: nat)
      requires Valid() && k < |blocks| && current == blocks[k].offset && Fits(blocks[k], size)
      modifies this, heap
      ensures Valid() && blocks == Allocate(old(blocks), k, size, HeaderSize)
    {
      StoredAt(heap[..], blocks, Read, k);
      FieldsFit(blocks, k);
      ghost var h0 := heap[..];
      var remaining := heap[current].size - size;
      if remaining > HeaderSize {
        var newOffset := current + HeaderSize + size;
        ghost var y := Header(remaining - HeaderSize, true, heap[current].next);
        ghost var x := heap[current].(next := Some(newOffset), size := size, isFree := false);
        StoredSplit(h0, blocks, HeaderSize, HeapSize, Read, k, size, x, y);
        heap[newOffset] := Header(remaining - HeaderSize, true, heap[current].next);
        heap[current] := heap[current].(next := Some(newOffset), size := size);
        heap[current] := heap[current].(isFree := false);
        assert heap[..] == h0[newOffset := y][current := x];
      } else {
        ghost var x := heap[current].(isFree := false);
        StoredSetFree(h0, blocks, HeaderSize, Read, k, false, x);
        heap[current] := heap[current].(isFree := false);
        assert heap[..] == h0[current := x];
      }
      AllocateTiled(blocks, k, size, HeaderSize, HeapSize);
      blocks := Allocate(blocks, k, size, HeaderSize);
    }

    /** `my_malloc(size)`: NULL for a request of 0 bytes or before
        `init_heap`; otherwise the payload offset of the first free block
        of at least `Align(size)` bytes, taken and split as `Allocate`
        says, or NULL with nothing changed. */
    method Malloc(size: nat) returns (p: Option<nat>)
      requires size < SizeRange
      requires freeList.Some? ==> Valid()
      modifies this, heap
      ensures freeList == old(freeList) && (freeList.Some? ==> Valid())
      ensures size == 0 || old(freeList).None? ==> p.None? && blocks == old(blocks) && heap[..] == old(heap[..])
      ensures size > 0 && old(freeList).Some? ==>
                var k := FirstFit(old(blocks), Align(size));
                if k.None? then p.None? && blocks == old(blocks) && heap[..] == old(heap[..])
                else p == Some(old(blocks)[k.value].offset + HeaderSize) &&
                     blocks == Allocate(old(blocks), k.value, Align(size), HeaderSize)
    {
      if size == 0 {
        return None;
      }
      var aligned := Align(size);
      var current := freeList;
      ghost var i: nat := 0;
      while current.Some?
        invariant freeList == old(freeList) && (freeList.Some? ==> Valid())
        invariant blocks == old(blocks) && heap[..] == old(heap[..])
        invariant freeList.None? ==> current.None?
        invariant freeList.Some? ==> i <= |blocks| && (current.Some? <==> i < |blocks|)
        invariant current.Some? ==> current.value == blocks[i].offset
        invariant forall j :: 0 <= j < i && j < |blocks| ==> !Fits(blocks[j], aligned)
        decreases |blocks| - i
      {
        StoredAt(heap[..], blocks, Read, i);
        FieldsFit(blocks, i);
        if heap[current.value].isFree && heap[current.value].size >= aligned {
          Take(current.value, aligned, i);
          return Some(current.value + HeaderSize);
        }
        current := heap[current.value].next;
        i := i + 1;
      }
      return None;
    }

    /** `my_free(ptr)`: NULL changes nothing; otherwise the block whose
        payload starts at `ptr` is marked free, and no block is merged. */
    method Free(p: Option<nat>)
      requires Valid()
      requires p.Some? ==> exists k :: 0 <= k < |blocks| && blocks[k].offset + HeaderSize == p.value
      modifies this, heap
      ensures Valid()
      ensures p.None? ==> blocks == old(blocks) && heap[..] == old(heap[..])
      ensures p.Some? ==> forall k :: 0 <= k < |old(blocks)| && old(blocks)[k].offset + HeaderSize == p.value ==>
                            blocks == MarkFree(old(blocks), k)
    {
      if p.None? {
        return;
      }
      ghost var k :| 0 <= k < |blocks| && blocks[k].offset + HeaderSize == p.value;
      var blockOffset := p.value - HeaderSize;
      StoredAt(heap[..], blocks, Read, k);
      ghost var h0 := heap[..];
      ghost var x := heap[blockOffset].(isFree := true);
      StoredSetFree(h0, blocks, HeaderSize, Read, k, true, x);
      heap[blockOffset] := heap[blockOffset].(isFree := true);
      assert heap[..] == h0[blockOffset := x];
      MarkFreeTiled(blocks, k, HeaderSize, HeapSize);
      Ordered(blocks, HeaderSize);
      blocks := MarkFree(blocks, k);
    }
  }
}
