/** The allocator of 21_HeapAllocation/v2_heap.c: a heap of 128 bytes,
    3-byte headers of `uint8_t` fields (size, is_free, next offset with 0
    for none), first-fit `my_malloc` from offset 0, `my_free` that only
    marks, and `coalesce_memory`, which joins neighbouring free blocks.
    The header array holds, at each offset, the header the bytes there
    spell; the ghost list `blocks` is the list those headers link. */
module HeapV2 {
  import opened Wrappers
  import opened HeapLayout

  const HeapSize: nat := 128
  /** `sizeof(BlockHeader)`: three `uint8_t`. */
  const HeaderSize: nat := 3

  datatype Header = Header(size: nat, isFree: bool, next: nat)

  /** A header as a list element: a next offset of 0 ends the list. */
  function Read(h: Header): View
  {
    View(h.size, h.isFree, if h.next == 0 then None else Some(h.next))
  }

  /** Under the tiling every field fits in a `uint8_t` and no offset sum
      of the source wraps. */
  lemma {:induction false} FieldsFit(bs: seq<Block>, k: nat)
    requires Tiled(bs, HeaderSize, HeapSize) && k < |bs|
    ensures bs[k].offset < 256 && bs[k].size < 256 && End(bs[k], HeaderSize) <= HeapSize
  {
    InsideHeap(bs, HeaderSize, HeapSize);
  }

  class Heap {
    /** `heap`: the header found at each offset. */
    const heap: array<Header>
    /** The block list the headers link, from offset 0. */
    ghost var blocks: seq<Block>

    ghost predicate Valid()
      reads this, heap
    {
      heap.Length == HeapSize && Tiled(blocks, HeaderSize, HeapSize) && Stored(heap[..], blocks, Read)
    }

    /** The static array, all zero before `init_heap`. */
    constructor ()
      ensures fresh(heap) && heap.Length == HeapSize
      ensures forall o :: 0 <= o < HeapSize ==> heap[o] == Header(0, false, 0)
    {
      heap := new Header[HeapSize](_ => Header(0, false, 0));
    }

    /** `init_heap`: one free block of 125 bytes at offset 0, last in the
        list. */
    method InitHeap()
      requires heap.Length == HeapSize
      modifies this, heap
      ensures Valid() && blocks == [Block(0, HeapSize - HeaderSize, true)]
      ensures heap[0] == Header(HeapSize - HeaderSize, true, 0)
      ensures forall o :: 0 < o < HeapSize ==> heap[o] == old(heap[o])
    {
      heap[0] := Header(HeapSize - HeaderSize, true, 0);
      blocks := [Block(0, HeapSize - HeaderSize, true)];
      assert ViewOf(blocks, 0) == Read(heap[0]);
    }

    /** The branch of `my_malloc` that takes block k at offset `current`:
        split it when more than a header would be left, then mark it
        allocated. */
    method Take(current: nat, size: nat, ghost k: nat)
      requires Valid() && k < |blocks| && current == blocks[k].offset && Fits(blocks[k], size)
      modifies this, heap
      ensures Valid() && blocks == Allocate(old(blocks), k, size, HeaderSize)
    {
      StoredAt(heap[..], blocks, Read, k);
      FieldsFit(blocks, k);
      ghost var h0 := heap[..];
      var remaining := heap[current].size - size;
      if remaining > HeaderSize {
        var newOffset := current + HeaderSize + size;
        ghost var y := Header(remaining - HeaderSize, true, heap[current].next);
        ghost var x := heap[current].(next := newOffset, size := size, isFree := false);
        StoredSplit(h0, blocks, HeaderSize, HeapSize, Read, k, size, x, y);
        heap[newOffset] := Header(remaining - HeaderSize, true, heap[current].next);
        heap[current] := heap[current].(next := newOffset, size := size);
        heap[current] := heap[current].(isFree := false);
        assert heap[..] == h0[newOffset := y][current := x];
      } else {
        ghost var x := heap[current].(isFree := false);
        StoredSetFree(h0, blocks, HeaderSize, Read, k, false, x);
        heap[current] := heap[current].(isFree := false);
        assert heap[..] == h0[current := x];
      }
      AllocateTiled(blocks, k, size, HeaderSize, HeapSize);
      blocks := Allocate(blocks, k, size, HeaderSize);
    }

    /** `my_malloc(size)`: the payload offset of the first free block
        large enough, taken and split as `Allocate` says, or NULL (none)
        with nothing changed. */
    method Malloc(size: nat) returns (p: Option<nat>)
      requires Valid() && size < 256
      modifies this, heap
      ensures Valid()
      ensures var k := FirstFit(old(blocks), size);
              if k.None? then p.None? && blocks == old(blocks) && heap[..] == old(heap[..])
              else p == Some(old(blocks)[k.value].offset + HeaderSize) &&
                   blocks == Allocate(old(blocks), k.value, size, HeaderSize)
    {
      var current: nat := 0;
      ghost var i: nat := 0;
      while current < HeapSize
        invariant Valid() && blocks == old(blocks) && heap[..] == old(heap[..])
        invariant i < |blocks| && current == blocks[i].offset && current < HeapSize
        invariant forall j :: 0 <= j < i ==> !Fits(blocks[j], size)
        decreases |blocks| - i
      {
        StoredAt(heap[..], blocks, Read, i);
        if heap[current].isFree && heap[current].size >= size {
          Take(current, size, i);
          return Some(current + HeaderSize);
        }
        current := heap[current].next;
        if current == 0 {
          break;
        }
        FieldsFit(blocks, i + 1);
        i := i + 1;
      }
      return None;
    }

    /** `my_free(ptr)`: NULL changes nothing; otherwise the block whose
        payload starts at `ptr` is marked free, and nothing else changes. */
    method Free(p: Option<nat>)
      requires Valid()
      requires p.Some? ==> exists k :: 0 <= k < |blocks| && blocks[k].offset + HeaderSize == p.value
      modifies this, heap
      ensures Valid()
      ensures p.None? ==> blocks == old(blocks) && heap[..] == old(heap[..])
      ensures p.Some? ==> forall k :: 0 <= k < |old(blocks)| && old(blocks)[k].offset + HeaderSize == p.value ==>
                            blocks == MarkFree(old(blocks), k)
    {
      if p.None? {
        return;
      }
      ghost var k :| 0 <= k < |blocks| && blocks[k].offset + HeaderSize == p.value;
      var blockOffset := p.value - HeaderSize;
      StoredAt(heap[..], blocks, Read, k);
      ghost var h0 := heap[..];
      ghost var x := heap[blockOffset].(isFree := true);
      StoredSetFree(h0, blocks, HeaderSize, Read, k, true, x);
      heap[blockOffset] := heap[blockOffset].(isFree := true);
      assert heap[..] == h0[blockOffset := x];
      MarkFreeTiled(blocks, k, HeaderSize, HeapSize);
      Ordered(blocks, HeaderSize);
      blocks := MarkFree(blocks, k);
    }

    /** One merge of `coalesce_memory`: the block at `block` (block i of
        the list) absorbs the next one. */
    method MergeAt(block: nat, ghost i: nat)
      requires Valid() && i + 1 < |blocks| && block == blocks[i].offset
      requires blocks[i].free && blocks[i + 1].free
      modifies this, heap
      ensures Valid() && blocks == MergeNext(old(blocks), i, HeaderSize)
    {
      StoredAt(heap[..], blocks, Read, i);
      StoredAt(heap[..], blocks, Read, i + 1);
      FieldsFit(blocks, i + 1);
      ghost var h0 := heap[..];
      var nextBlock := heap[block].next;
      ghost var x := heap[block].(size := heap[block].size + HeaderSize + heap[nextBlock].size, next := heap[nextBlock].next);
      StoredMerge(h0, blocks, HeaderSize, Read, i, x);
      heap[block] := heap[block].(size := heap[block].size + HeaderSize + heap[nextBlock].size);
      heap[block] := heap[block].(next := heap[nextBlock].next);
      assert heap[..] == h0[block := x];
      MergeNextTiled(blocks, i, HeaderSize, HeapSize);
      blocks := MergeNext(blocks, i, HeaderSize);
    }

    /** `coalesce_memory`: the list becomes `Coalesce` of what it was, so
        no two neighbours are both free and the allocated blocks stay as
        they were. */
    method CoalesceMemory()
      requires Valid()
      modifies this, heap
      ensures Valid() && blocks == Coalesce(old(blocks), HeaderSize)
    {
      var block: nat := 0;
      ghost var i: nat := 0;
      assert blocks[..0] + blocks[0..] == blocks;
      while (StoredAt(heap[..], blocks, Read, i); heap[block].next != 0)
        invariant Valid() && i < |blocks| && block == blocks[i].offset
        invariant Coalesce(old(blocks), HeaderSize) == blocks[..i] + Coalesce(blocks[i..], HeaderSize)
        decreases |blocks| - i
      {
        StoredAt(heap[..], blocks, Read, i + 1);
        var nextBlock := heap[block].next;
        if heap[block].isFree && heap[nextBlock].isFree {
          CoalesceMergeStep(blocks, i, HeaderSize);
          MergeAt(block, i);
        } else {
          CoalescePassStep(blocks, i, HeaderSize);
          block := nextBlock;
          i := i + 1;
        }
      }
      CoalesceLast(blocks, i, HeaderSize);
    }
  }
}
