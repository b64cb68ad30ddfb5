/** The allocator of 21_HeapAllocation/v3_heap.c: a heap of 64 bytes and
    4-byte headers of `uint8_t` fields (size, is_free, next offset with 0
    for none, ref_count). `my_malloc` is first-fit from offset 0 and sets
    the count to 1. `my_free` merges the freed block with its successor
    when that one is free. `increment_ref` and `decrement_ref` keep the
    count, and the last `decrement_ref` frees the block. The header array
    and the ghost block list are as in `HeapV2`. */
module HeapV3 {
  import opened Wrappers
  import opened HeapLayout

  const HeapSize: nat := 64
  /** `sizeof(BlockHeader)`: four `uint8_t`. */
  const HeaderSize: nat := 4

  /** A `uint8_t`. */
  type Byte = b: nat | b < 256

  datatype Header = Header(size: nat, isFree: bool, next: nat, refCount: Byte)

  /** A header as a list element; the reference count is not part of the
      list. */
  function Read(h: Header): View
  {
    View(h.size, h.isFree, if h.next == 0 then None else Some(h.next))
  }

  /** Under the tiling every field fits in a `uint8_t` and no offset sum
      of the source wraps. */
  lemma {:induction false} FieldsFit(bs: seq<Block>, k: nat)
    requires Tiled(bs, HeaderSize, HeapSize) && k < |bs|
    ensures bs[k].offset < 256 && bs[k].size < 256 && End(bs[k], HeaderSize) <= HeapSize
  {
    InsideHeap(bs, HeaderSize, HeapSize);
  }

  /** The pointer `p` is the payload of block k. */
  predicate PayloadOf(bs: seq<Block>, k: nat, p: nat)
  {
    k < |bs| && bs[k].offset + HeaderSize == p
  }

  /** Under the tiling a pointer is the payload of at most one block. */
  lemma {:induction false} PayloadUnique(bs: seq<Block>, j: nat, k: nat, p: nat)
    requires Tiled(bs, HeaderSize, HeapSize) && PayloadOf(bs, j, p) && PayloadOf(bs, k, p)
    ensures j == k
  {
    SameOffset(bs, HeaderSize, j, k);
  }

  /** When only block k's header and, after a split, the new block's
      header differ, every other block's header is as it was. */
  lemma {:induction false} OtherBlocksKept(bs: seq<Block>, k: nat, size: nat, h0: seq<Header>, h1: seq<Header>)
    requires Tiled(bs, HeaderSize, HeapSize) && k < |bs| && Fits(bs[k], size)
    requires |h0| == HeapSize && |h1| == HeapSize
    requires forall o :: 0 <= o < HeapSize && o != bs[k].offset &&
                         !(Splits(bs[k], size, HeaderSize) && o == bs[k].offset + HeaderSize + size) ==>
               h1[o] == h0[o]
    ensures forall j :: 0 <= j < |bs| && j != k ==> var o := bs[j].offset; o < HeapSize && h1[o] == h0[o]
  {
    InsideHeap(bs, HeaderSize, HeapSize);
    if Splits(bs[k], size, HeaderSize) {
      InsideNoOther(bs, HeaderSize, k, bs[k].offset + HeaderSize + size);
    }
    forall j | 0 <= j < |bs| && j != k
      ensures bs[j].offset != bs[k].offset
    {
      if bs[j].offset == bs[k].offset {
        SameOffset(bs, HeaderSize, j, k);
      }
    }
  }

  class Heap {
    /** `heap`: the header found at each offset. */
    const heap: array<Header>
    /** The block list the headers link, from offset 0. */
    ghost var blocks: seq<Block>

    ghost predicate Valid()
      reads this, heap
    {
      heap.Length == HeapSize && Tiled(blocks, HeaderSize, HeapSize) && Stored(heap[..], blocks, Read)
    }

    /** The reference count in the header of the block whose payload is
        at `p`. */
    function RefCount(p: nat): Byte
      requires heap.Length == HeapSize && HeaderSize <= p < HeapSize + HeaderSize
      reads this, heap
    {
      heap[p - HeaderSize].refCount
    }

    /** The static array, all zero before `init_heap`. */
    constructor ()
      ensures fresh(heap) && heap.Length == HeapSize
      ensures forall o :: 0 <= o < HeapSize ==> heap[o] == Header(0, false, 0, 0)
    {
      heap := new Header[HeapSize](_ => Header(0, false, 0, 0));
    }

    /** `init_heap`: one free block of 60 bytes at offset 0, last in the
        list, with no references. */
    method InitHeap()
      requires heap.Length == HeapSize
      modifies this, heap
      ensures Valid() && blocks == [Block(0, HeapSize - HeaderSize, true)]
      ensures heap[0] == Header(HeapSize - HeaderSize, true, 0, 0)
      ensures forall o :: 0 < o < HeapSize ==> heap[o] == old(heap[o])
    {
      heap[0] := Header(HeapSize - HeaderSize, true, 0, 0);
      blocks := [Block(0, HeapSize - HeaderSize, true)];
      assert ViewOf(blocks, 0) == Read(heap[0]);
    }

    /** The branch of `my_malloc` that takes block k at offset `current`:
        split it when more than a header would be left, the new block
        with no references, then mark it allocated with one reference. */
    method Take(current: nat, size: nat, ghost k: nat)
      requires Valid() && k < |blocks| && current == blocks[k].offset && Fits(blocks[k], size)
      modifies this, heap
      ensures Valid() && blocks == Allocate(old(blocks), k, size, HeaderSize)
      ensures current < HeapSize && heap[current].refCount == 1
      ensures Splits(old(blocks)[k], size, HeaderSize) ==>
                current + HeaderSize + size < HeapSize && heap[current + HeaderSize + size].refCount == 0
      ensures forall o :: 0 <= o < HeapSize && o != current &&
                          !(Splits(old(blocks)[k], size, HeaderSize) && o == current + HeaderSize + size) ==>
                heap[o] == old(heap[o])
    {
      StoredAt(heap[..], blocks, Read, k);
      FieldsFit(blocks, k);
      ghost var h0 := heap[..];
      var remaining := heap[current].size - size;
      if remaining > HeaderSize {
        var newOffset := current + HeaderSize + size;
        ghost var y := Header(remaining - HeaderSize, true, heap[current].next, 0);
        ghost var x := heap[current].(next := newOffset, size := size, isFree := false, refCount := 1);
        StoredSplit(h0, blocks, HeaderSize, HeapSize, Read, k, size, x, y);
        heap[newOffset] := Header(remaining - HeaderSize, true, heap[current].next, 0);
        heap[current] := heap[current].(next := newOffset, size := size);
        heap[current] := heap[current].(isFree := false, refCount := 1);
        assert heap[..] == h0[newOffset := y][current := x];
      } else {
        ghost var x := heap[current].(isFree := false, refCount := 1);
        StoredSetFree(h0, blocks, HeaderSize, Read, k, false, x);
        heap[current] := heap[current].(isFree := false, refCount := 1);
        assert heap[..] == h0[current := x];
      }
      AllocateTiled(blocks, k, size, HeaderSize, HeapSize);
      blocks := Allocate(blocks, k, size, HeaderSize);
    }

    /** `my_malloc(size)`: the payload offset of the first free block
        large enough, taken and split as `Allocate` says and holding one
        reference, or NULL (none) with nothing changed. */
    method Malloc(size: nat) returns (p: Option<nat>)
      requires Valid() && size < 256
      modifies this, heap
      ensures Valid()
      ensures var k := FirstFit(old(blocks), size);
              if k.None? then p.None? && blocks == old(blocks) && heap[..] == old(heap[..])
              else p == Some(old(blocks)[k.value].offset + HeaderSize) && p.value < HeapSize + HeaderSize &&
                   blocks == Allocate(old(blocks), k.value, size, HeaderSize) &&
                   RefCount(p.value) == 1
      // The headers of the other blocks, and so their counts, stay as they were.
      ensures p.Some? ==> forall j :: 0 <= j < |old(blocks)| && old(blocks)[j].offset + HeaderSize != p.value ==>
                var o := old(blocks)[j].offset; o < HeapSize && heap[o] == old(heap[o])
    {
      var current: nat := 0;
      ghost var i: nat := 0;
      while current < HeapSize
        invariant Valid() && blocks == old(blocks) && heap[..] == old(heap[..])
        invariant i < |blocks| && current == blocks[i].offset && current < HeapSize
        invariant forall j :: 0 <= j < i ==> !Fits(blocks[j], size)
        decreases |blocks| - i
      {
        StoredAt(heap[..], blocks, Read, i);
        if heap[current].isFree && heap[current].size >= size {
          ghost var h0 := heap[..];
          Take(current, size, i);
          OtherBlocksKept(old(blocks), i, size, h0, heap[..]);
          return Some(current + HeaderSize);
        }
        current := heap[current].next;
        if current == 0 {
          break;
        }
        FieldsFit(blocks, i + 1);
        i := i + 1;
      }
      return None;
    }

    /** `my_free(ptr)` on the payload of block k: an allocated block is
        freed and merged with its successor when that one is free, as
        `FreeAndMerge` says; a free block is left alone. Only block k's
        header changes, and its count stays. */
    method FreeBlock(p: nat, ghost k: nat)
      requires Valid() && PayloadOf(blocks, k, p)
      modifies this, heap
      ensures Valid() && blocks == FreeAndMerge(old(blocks), k, HeaderSize)
      ensures p < HeapSize + HeaderSize && RefCount(p) == old(RefCount(p))
      ensures forall o :: 0 <= o < HeapSize && o != p - HeaderSize ==> heap[o] == old(heap[o])
    {
      var blockOffset := p - HeaderSize;
      StoredAt(heap[..], blocks, Read, k);
      FieldsFit(blocks, k);
      if !heap[blockOffset].isFree {
        var nextBlock := heap[blockOffset].next;
        if nextBlock != 0 {
          StoredAt(heap[..], blocks, Read, k + 1);
          if heap[nextBlock].isFree {
            MergeFreed(blockOffset, k);
            return;
          }
        }
        MarkFreed(blockOffset, k);
      }
    }

    /** The branch of `my_free` whose block has a free successor: the
        block is marked free and absorbs the successor's header and
        payload. */
    method MergeFreed(blockOffset: nat, ghost k: nat)
      requires Valid() && k + 1 < |blocks| && blockOffset == blocks[k].offset
      requires !blocks[k].free && blocks[k + 1].free
      modifies this, heap
      ensures Valid() && blocks == FreeAndMerge(old(blocks), k, HeaderSize)
      ensures blockOffset < HeapSize && heap[blockOffset].refCount == old(heap[blockOffset].refCount)
      ensures forall o :: 0 <= o < HeapSize && o != blockOffset ==> heap[o] == old(heap[o])
    {
      StoredAt(heap[..], blocks, Read, k);
      StoredAt(heap[..], blocks, Read, k + 1);
      FieldsFit(blocks, k);
      FieldsFit(blocks, k + 1);
      ghost var h0 := heap[..];
      heap[blockOffset] := heap[blockOffset].(isFree := true);
      var nextBlock := heap[blockOffset].next;
      ghost var x := h0[blockOffset].(isFree := true, size := h0[blockOffset].size + HeaderSize + h0[nextBlock].size,
                                      next := h0[nextBlock].next);
      StoredMerge(h0, blocks, HeaderSize, Read, k, x);
      heap[blockOffset] := heap[blockOffset].(size := heap[blockOffset].size + HeaderSize + heap[nextBlock].size);
      heap[blockOffset] := heap[blockOffset].(next := heap[nextBlock].next);
      assert heap[..] == h0[blockOffset := x];
      FreeAndMergeTiled(blocks, k, HeaderSize, HeapSize);
      blocks := MergeNext(blocks, k, HeaderSize);
    }

    /** The branch of `my_free` whose block is last or has an allocated
        successor: the block is only marked free. */
    method MarkFreed(blockOffset: nat, ghost k: nat)
      requires Valid() && k < |blocks| && blockOffset == blocks[k].offset && !blocks[k].free
      requires !(k + 1 < |blocks| && blocks[k + 1].free)
      modifies this, heap
      ensures Valid() && blocks == FreeAndMerge(old(blocks), k, HeaderSize)
      ensures blockOffset < HeapSize && heap[blockOffset].refCount == old(heap[blockOffset].refCount)
      ensures forall o :: 0 <= o < HeapSize && o != blockOffset ==> heap[o] == old(heap[o])
    {
      StoredAt(heap[..], blocks, Read, k);
      FieldsFit(blocks, k);
      ghost var h0 := heap[..];
      ghost var x := h0[blockOffset].(isFree := true);
      StoredSetFree(h0, blocks, HeaderSize, Read, k, true, x);
      heap[blockOffset] := heap[blockOffset].(isFree := true);
      assert heap[..] == h0[blockOffset := x];
      FreeAndMergeTiled(blocks, k, HeaderSize, HeapSize);
      blocks := MarkFree(blocks, k);
    }

    /** `my_free(ptr)`: NULL changes nothing; otherwise the block whose
        payload starts at `ptr` is freed as `FreeBlock` says. */
    method Free(p: Option<nat>)
      requires Valid()
      requires p.Some? ==> exists k :: PayloadOf(blocks, k, p.value)
      modifies this, heap
      ensures Valid()
      ensures p.None? ==> blocks == old(blocks) && heap[..] == old(heap[..])
      ensures p.Some? ==> forall k :: PayloadOf(old(blocks), k, p.value) ==> blocks == FreeAndMerge(old(blocks), k, HeaderSize)
      ensures p.Some? ==> HeaderSize <= p.value < HeapSize + HeaderSize && RefCount(p.value) == old(RefCount(p.value))
      ensures p.Some? ==> forall o :: 0 <= o < HeapSize && o + HeaderSize != p.value ==> heap[o] == old(heap[o])
    {
      if p.None? {
        return;
      }
      ghost var k :| PayloadOf(blocks, k, p.value);
      forall j | PayloadOf(blocks, j, p.value)
        ensures j == k
      {
        PayloadUnique(blocks, j, k, p.value);
      }
      FreeBlock(p.value, k);
    }

    /** `increment_ref(ptr)`: NULL changes nothing; otherwise the count of
        the block whose payload starts at `ptr` goes up by one, wrapping
        at 256 as a `uint8_t` does, and nothing else changes. */
    method IncrementRef(p: Option<nat>)
      requires Valid()
      requires p.Some? ==> exists k :: PayloadOf(blocks, k, p.value)
      modifies heap
      ensures Valid() && blocks == old(blocks)
      ensures p.None? ==> heap[..] == old(heap[..])
      ensures p.Some? ==> p.value < HeapSize + HeaderSize && RefCount(p.value) == (old(RefCount(p.value)) + 1) % 256
      ensures p.Some? ==> forall o :: 0 <= o < HeapSize && o != p.value - HeaderSize ==> heap[o] == old(heap[o])
    {
      if p.None? {
        return;
      }
      ghost var k :| PayloadOf(blocks, k, p.value);
      var blockOffset := p.value - HeaderSize;
      StoredAt(heap[..], blocks, Read, k);
      ghost var h0 := heap[..];
      ghost var x := heap[blockOffset].(refCount := (heap[blockOffset].refCount + 1) % 256);
      StoredRewrite(h0, blocks, HeaderSize, Read, k, x);
      heap[blockOffset] := heap[blockOffset].(refCount := (heap[blockOffset].refCount + 1) % 256);
      assert heap[..] == h0[blockOffset := x];
    }

    /** `decrement_ref(ptr)`: NULL or a count of 0 changes nothing;
        otherwise the count goes down by one, and the block is freed
        exactly when it reaches 0. */
    method DecrementRef(p: Option<nat>)
      requires Valid()
      requires p.Some? ==> exists k :: PayloadOf(blocks, k, p.value)
      modifies this, heap
      ensures Valid()
      ensures p.None? ==> blocks == old(blocks) && heap[..] == old(heap[..])
      ensures p.Some? ==> p.value < HeapSize + HeaderSize &&
                          (old(RefCount(p.value)) == 0 ==> blocks == old(blocks) && heap[..] == old(heap[..])) &&
                          (old(RefCount(p.value)) > 0 ==> RefCount(p.value) == old(RefCount(p.value)) - 1) &&
                          (old(RefCount(p.value)) > 1 ==> blocks == old(blocks)) &&
                          (old(RefCount(p.value)) == 1 ==>
                             forall k :: PayloadOf(old(blocks), k, p.value) ==> blocks == FreeAndMerge(old(blocks), k, HeaderSize))
      ensures p.Some? ==> forall o :: 0 <= o < HeapSize && o + HeaderSize != p.value ==> heap[o] == old(heap[o])
    {
      if p.None? {
        return;
      }
      ghost var k :| PayloadOf(blocks, k, p.value);
      forall j | PayloadOf(blocks, j, p.value)
        ensures j == k
      {
        PayloadUnique(blocks, j, k, p.value);
      }
      var blockOffset := p.value - HeaderSize;
      StoredAt(heap[..], blocks, Read, k);
      if heap[blockOffset].refCount > 0 {
        ghost var h0 := heap[..];
        ghost var x := heap[blockOffset].(refCount := heap[blockOffset].refCount - 1);
        StoredRewrite(h0, blocks, HeaderSize, Read, k, x);
        heap[blockOffset] := heap[blockOffset].(refCount := heap[blockOffset].refCount - 1);
        assert heap[..] == h0[blockOffset := x];
        if heap[blockOffset].refCount == 0 {
          FreeBlock(p.value, k);
        }
      }
    }
  }

  /** Two allocations of 4 bytes from a fresh heap, then the second one
      released: the first block keeps its one reference. */
  method ReleaseSecond(h: Heap) returns (p: Option<nat>, q: Option<nat>)
    requires h.Valid() && h.blocks == [Block(0, HeapSize - HeaderSize, true)]
    modifies h, h.heap
    ensures h.Valid() && p == Some(4) && q == Some(12)
    ensures h.RefCount(4) == 1 && h.RefCount(12) == 0
  {
    assert FirstFit(h.blocks, 4) == Some(0);
    p := h.Malloc(4);
    assert h.blocks == [Block(0, 4, false), Block(8, 52, true)];
    assert FirstFit(h.blocks, 4) == Some(1);
    q := h.Malloc(4);
    assert PayloadOf(h.blocks, 1, 12);
    h.DecrementRef(q);
  }
}
