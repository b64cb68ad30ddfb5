/** What the three allocators of 21_HeapAllocation have in common: the
    heap is cut into blocks, each a header of `hs` bytes followed by `size`
    bytes of payload, listed in address order. The list starts at offset 0,
    each block begins where the one before it ends, and the last one ends
    at the end of the heap. A request is served first-fit, and the block
    found is split when what is left over can hold a header and at least
    one byte. Freeing marks a block, and merging joins a free block with
    the free block that follows it. */
module HeapLayout {
  import opened Wrappers

  /** A block: where its header starts, its payload size, and whether it
      is free. */
  datatype Block = Block(offset: nat, size: nat, free: bool)

  /** What a header says about its block: size, free flag and the offset
      of the next block (none for the last). */
  datatype View = View(size: nat, free: bool, next: Option<nat>)

  /** The first byte after the block. */
  function End(b: Block, hs: nat): nat
  {
    b.offset + hs + b.size
  }

  /** Each block begins where the one before it ends. */
  predicate Chained(bs: seq<Block>, hs: nat)
  {
    forall k :: 0 <= k < |bs| - 1 ==> bs[k + 1].offset == End(bs[k], hs)
  }

  /** The blocks cover the heap of `heapSize` bytes exactly. */
  predicate Tiled(bs: seq<Block>, hs: nat, heapSize: nat)
  {
    |bs| > 0 && bs[0].offset == 0 && Chained(bs, hs) && End(bs[|bs| - 1], hs) == heapSize
  }

  /** The bytes the blocks take, headers included. */
  function Footprint(bs: seq<Block>, hs: nat): nat
  {
    if |bs| == 0 then 0 else hs + bs[0].size + Footprint(bs[1..], hs)
  }

  lemma {:induction false} ChainedTail(bs: seq<Block>, hs: nat)
    requires |bs| > 0 && Chained(bs, hs)
    ensures Chained(bs[1..], hs)
  {
    forall k | 0 <= k < |bs[1..]| - 1
      ensures bs[1..][k + 1].offset == End(bs[1..][k], hs)
    {
      assert bs[1..][k + 1] == bs[k + 2] && bs[1..][k] == bs[k + 1];
    }
  }

  /** A chain of blocks ends its footprint after its first offset. */
  lemma {:induction false} ChainFootprint(bs: seq<Block>, hs: nat)
    requires |bs| > 0 && Chained(bs, hs)
    ensures End(bs[|bs| - 1], hs) == bs[0].offset + Footprint(bs, hs)
    decreases |bs|
  {
    if |bs| > 1 {
      ChainedTail(bs, hs);
      ChainFootprint(bs[1..], hs);
      assert bs[1..][0] == bs[1] && bs[1..][|bs| - 2] == bs[|bs| - 1];
    }
  }

  /** The invariant every operation keeps: headers and payloads together
      take exactly the heap. */
  lemma {:induction false} TiledFootprint(bs: seq<Block>, hs: nat, heapSize: nat)
    requires Tiled(bs, hs, heapSize)
    ensures Footprint(bs, hs) == heapSize
  {
    ChainFootprint(bs, hs);
  }

  lemma {:induction false} OrderedPair(bs: seq<Block>, hs: nat, j: nat, k: nat)
    requires Chained(bs, hs) && j < k < |bs|
    ensures End(bs[j], hs) <= bs[k].offset
    decreases k - j
  {
    if j + 1 < k {
      OrderedPair(bs, hs, j + 1, k);
    }
  }

  /** Blocks do not overlap: every block ends before the next ones
      start. */
  lemma {:induction false} Ordered(bs: seq<Block>, hs: nat)
    requires Chained(bs, hs)
    ensures forall j, k :: 0 <= j < k < |bs| ==> End(bs[j], hs) <= bs[k].offset
  {
    forall j, k | 0 <= j < k < |bs|
      ensures End(bs[j], hs) <= bs[k].offset
    {
      OrderedPair(bs, hs, j, k);
    }
  }

  /** Every block of a tiling lies inside the heap. */
  lemma {:induction false} InsideHeap(bs: seq<Block>, hs: nat, heapSize: nat)
    requires Tiled(bs, hs, heapSize)
    ensures forall k :: 0 <= k < |bs| ==> End(bs[k], hs) <= heapSize
  {
    Ordered(bs, hs);
    forall k | 0 <= k < |bs| - 1
      ensures End(bs[k], hs) <= heapSize
    {
      assert End(bs[k], hs) <= bs[|bs| - 1].offset;
    }
  }

  /** The header at a block, as the list says it must read. */
  function ViewOf(bs: seq<Block>, k: nat): View
    requires k < |bs|
  {
    View(bs[k].size, bs[k].free, if k + 1 < |bs| then Some(bs[k + 1].offset) else None)
  }

  /** The header array `h` holds, at each block's offset, a header that
      reads as the list says. */
  predicate Stored<H>(h: seq<H>, bs: seq<Block>, view: H -> View)
  {
    forall k {:trigger ViewOf(bs, k)} :: 0 <= k < |bs| ==> bs[k].offset < |h| && view(h[bs[k].offset]) == ViewOf(bs, k)
  }

  /** A block that can serve a request of `size` bytes. */
  predicate Fits(b: Block, size: nat)
  {
    b.free && b.size >= size
  }

  /** The first block, from index `i` on, that can serve the request. */
  function FirstFitFrom(bs: seq<Block>, size: nat, i: nat): (r: Option<nat>)
    requires i <= |bs|
    ensures r.Some? ==> i <= r.value < |bs| && Fits(bs[r.value], size) &&
                        forall j :: i <= j < r.value ==> !Fits(bs[j], size)
    ensures r.None? ==> forall j :: i <= j < |bs| ==> !Fits(bs[j], size)
    decreases |bs| - i
  {
    if i == |bs| then None
    else if Fits(bs[i], size) then Some(i)
    else FirstFitFrom(bs, size, i + 1)
  }

  /** First fit: the first free block in list order large enough, or none
      when no block is. */
  function FirstFit(bs: seq<Block>, size: nat): (r: Option<nat>)
    ensures r.Some? <==> exists k :: 0 <= k < |bs| && Fits(bs[k], size)
    ensures r.Some? ==> r.value < |bs| && Fits(bs[r.value], size) &&
                        forall j :: 0 <= j < r.value ==> !Fits(bs[j], size)
  {
    FirstFitFrom(bs, size, 0)
  }

  /** Whether serving `size` bytes from `b` splits it: only when the rest
      is larger than a header. */
  predicate Splits(b: Block, size: nat, hs: nat)
    requires b.size >= size
  {
    b.size - size > hs
  }

  /** The block list after block k serves `size` bytes: k is taken, and
      when it splits, a free block of the remaining bytes less a header
      follows it. */
  function Allocate(bs: seq<Block>, k: nat, size: nat, hs: nat): seq<Block>
    requires k < |bs| && Fits(bs[k], size)
  {
    var b := bs[k];
    if Splits(b, size, hs) then
      bs[..k] + [Block(b.offset, size, false), Block(b.offset + hs + size, b.size - size - hs, true)] + bs[k + 1..]
    else
      bs[k := b.(free := false)]
  }

  /** The list after a split: block k shrunk and taken, the rest after
      it, and every other block moved up by one. */
  lemma {:induction false} SplitShape(bs: seq<Block>, k: nat, size: nat, hs: nat)
    requires k < |bs| && Fits(bs[k], size) && Splits(bs[k], size, hs)
    ensures var r := Allocate(bs, k, size, hs);
            |r| == |bs| + 1 &&
            r[k] == Block(bs[k].offset, size, false) &&
            r[k + 1] == Block(bs[k].offset + hs + size, bs[k].size - size - hs, true) &&
            (forall j :: 0 <= j < k ==> r[j] == bs[j]) &&
            (forall j :: k + 1 < j < |r| ==> r[j] == bs[j - 1])
  {
    var b := bs[k];
    var pair := [Block(b.offset, size, false), Block(b.offset + hs + size, b.size - size - hs, true)];
    var front := bs[..k] + pair;
    var r := front + bs[k + 1..];
    assert r == Allocate(bs, k, size, hs);
    assert r[k] == front[k] == pair[0] && r[k + 1] == front[k + 1] == pair[1];
    forall j | 0 <= j < k
      ensures r[j] == bs[j]
    {
      assert r[j] == front[j] == bs[..k][j];
    }
    forall j | k + 1 < j < |r|
      ensures r[j] == bs[j - 1]
    {
      assert r[j] == bs[k + 1..][j - k - 2];
    }
  }

  lemma {:induction false} SplitChained(bs: seq<Block>, k: nat, size: nat, hs: nat)
    requires Chained(bs, hs) && k < |bs| && Fits(bs[k], size) && Splits(bs[k], size, hs)
    ensures Chained(Allocate(bs, k, size, hs), hs)
  {
    var r := Allocate(bs, k, size, hs);
    SplitShape(bs, k, size, hs);
    forall j | 0 <= j < |r| - 1
      ensures r[j + 1].offset == End(r[j], hs)
    {
      if j > k + 1 {
        assert r[j] == bs[j - 1] && r[j + 1] == bs[j];
      } else if j == k + 1 {
        assert r[j + 1] == bs[k + 1];
      } else if j + 1 < k {
        assert r[j] == bs[j] && r[j + 1] == bs[j + 1];
      } else if j + 1 == k {
        assert r[j] == bs[j];
      }
    }
  }

  /** Allocation keeps the tiling, takes block k at the same offset with
      at least the bytes asked for (exactly those when it splits, with the
      rest a free block right after it), and leaves every other block as
      it was. */
  lemma {:induction false} AllocateTiled(bs: seq<Block>, k: nat, size: nat, hs: nat, heapSize: nat)
    requires Tiled(bs, hs, heapSize) && k < |bs| && Fits(bs[k], size)
    ensures var r := Allocate(bs, k, size, hs);
            Tiled(r, hs, heapSize) && k < |r| && r[k].offset == bs[k].offset && !r[k].free && r[k].size >= size &&
            (forall j :: 0 <= j < k ==> r[j] == bs[j])
    ensures Splits(bs[k], size, hs) ==>
              var r := Allocate(bs, k, size, hs);
              |r| == |bs| + 1 && r[k].size == size && r[k + 1] == Block(End(r[k], hs), bs[k].size - size - hs, true) &&
              (forall j :: k < j < |bs| ==> r[j + 1] == bs[j])
    ensures !Splits(bs[k], size, hs) ==> Allocate(bs, k, size, hs) == bs[k := bs[k].(free := false)]
  {
    AllocateKeeps(bs, k, size, hs, heapSize);
    AllocateSplits(bs, k, size, hs);
  }

  lemma {:induction false} AllocateKeeps(bs: seq<Block>, k: nat, size: nat, hs: nat, heapSize: nat)
    requires Tiled(bs, hs, heapSize) && k < |bs| && Fits(bs[k], size)
    ensures var r := Allocate(bs, k, size, hs);
            Tiled(r, hs, heapSize) && k < |r| && r[k].offset == bs[k].offset && !r[k].free && r[k].size >= size &&
            (forall j :: 0 <= j < k ==> r[j] == bs[j])
  {
    if Splits(bs[k], size, hs) {
      SplitTiled(bs, k, size, hs, heapSize);
    } else {
      MarkTaken(bs, k, hs);
    }
  }

  lemma {:induction false} AllocateSplits(bs: seq<Block>, k: nat, size: nat, hs: nat)
    requires k < |bs| && Fits(bs[k], size)
    ensures Splits(bs[k], size, hs) ==>
              var r := Allocate(bs, k, size, hs);
              |r| == |bs| + 1 && r[k].size == size && r[k + 1] == Block(End(r[k], hs), bs[k].size - size - hs, true) &&
              (forall j :: k < j < |bs| ==> r[j + 1] == bs[j])
  {
  }

  lemma {:induction false} SplitTiled(bs: seq<Block>, k: nat, size: nat, hs: nat, heapSize: nat)
    requires Tiled(bs, hs, heapSize) && k < |bs| && Fits(bs[k], size) && Splits(bs[k], size, hs)
    ensures Tiled(Allocate(bs, k, size, hs), hs, heapSize)
  {
    SplitShape(bs, k, size, hs);
    SplitChained(bs, k, size, hs);
    SplitLast(bs, Allocate(bs, k, size, hs), k, size, hs);
  }

  /** After a split the last block is the old last one, or the new free
      block when k was last. */
  lemma {:induction false} SplitLast(bs: seq<Block>, r: seq<Block>, k: nat, size: nat, hs: nat)
    requires k < |bs| && |r| == |bs| + 1 && bs[k].size >= size + hs
    requires r[k] == Block(bs[k].offset, size, false)
    requires r[k + 1] == Block(bs[k].offset + hs + size, bs[k].size - size - hs, true)
    requires forall j :: k + 1 < j < |r| ==> r[j] == bs[j - 1]
    ensures End(r[|r| - 1], hs) == End(bs[|bs| - 1], hs)
  {
    if k + 1 < |bs| {
      assert r[|r| - 1] == bs[|bs| - 1];
    }
  }

  lemma {:induction false} MarkTaken(bs: seq<Block>, k: nat, hs: nat)
    requires Chained(bs, hs) && k < |bs|
    ensures var r := bs[k := bs[k].(free := false)];
            Chained(r, hs) && r[|r| - 1].offset == bs[|bs| - 1].offset && r[|r| - 1].size == bs[|bs| - 1].size
  {
    var r := bs[k := bs[k].(free := false)];
    assert forall j :: 0 <= j < |bs| ==> r[j].offset == bs[j].offset && r[j].size == bs[j].size;
  }

  /** Block k marked free. */
  function MarkFree(bs: seq<Block>, k: nat): (r: seq<Block>)
    requires k < |bs|
    ensures |r| == |bs| && r[k].free && r[k].offset == bs[k].offset && r[k].size == bs[k].size
    ensures forall j :: 0 <= j < |bs| && j != k ==> r[j] == bs[j]
  {
    bs[k := bs[k].(free := true)]
  }

  lemma {:induction false} MarkFreeTiled(bs: seq<Block>, k: nat, hs: nat, heapSize: nat)
    requires Tiled(bs, hs, heapSize) && k < |bs|
    ensures Tiled(MarkFree(bs, k), hs, heapSize)
  {
    var r := MarkFree(bs, k);
    assert forall j :: 0 <= j < |bs| ==> r[j].offset == bs[j].offset && r[j].size == bs[j].size;
  }

  /** Block k absorbs block k + 1, header included, and is free. */
  function MergeNext(bs: seq<Block>, k: nat, hs: nat): seq<Block>
    requires k + 1 < |bs|
  {
    bs[..k] + [Block(bs[k].offset, bs[k].size + hs + bs[k + 1].size, true)] + bs[k + 2..]
  }

  /** Merging keeps the tiling: the merged block ends where the absorbed
      one did; every other block stays. */
  lemma {:induction false} MergeNextTiled(bs: seq<Block>, k: nat, hs: nat, heapSize: nat)
    requires Tiled(bs, hs, heapSize) && k + 1 < |bs|
    ensures var r := MergeNext(bs, k, hs);
            Tiled(r, hs, heapSize) && |r| == |bs| - 1 &&
            r[k] == Block(bs[k].offset, bs[k].size + hs + bs[k + 1].size, true) &&
            End(r[k], hs) == End(bs[k + 1], hs) &&
            (forall j :: 0 <= j < k ==> r[j] == bs[j]) &&
            (forall j :: k < j < |r| ==> r[j] == bs[j + 1])
  {
    var r := MergeNext(bs, k, hs);
    forall j | 0 <= j < |r| - 1
      ensures r[j + 1].offset == End(r[j], hs)
    {
      if j > k {
        assert r[j] == bs[j + 1] && r[j + 1] == bs[j + 2];
      } else if j < k {
        assert r[j] == bs[j] && r[j + 1] == (if j + 1 == k then r[k] else bs[j + 1]);
      } else {
        assert r[j + 1] == bs[j + 2];
      }
    }
    assert r[|r| - 1] == (if k + 2 < |bs| then bs[|bs| - 1] else r[k]);
  }

  /** The pass of `coalesce_memory`: from the first block on, a free block
      followed by a free block absorbs it and is looked at again; any other
      block is passed. */
  function Coalesce(bs: seq<Block>, hs: nat): (r: seq<Block>)
    ensures |bs| > 0 ==> |r| > 0 && r[0].offset == bs[0].offset && r[0].free == bs[0].free
    decreases |bs|
  {
    if |bs| <= 1 then bs
    else if bs[0].free && bs[1].free then Coalesce([Block(bs[0].offset, bs[0].size + hs + bs[1].size, true)] + bs[2..], hs)
    else [bs[0]] + Coalesce(bs[1..], hs)
  }

  /** No free block is followed by a free block. */
  predicate NoAdjacentFree(bs: seq<Block>)
  {
    forall k :: 0 <= k < |bs| - 1 ==> !(bs[k].free && bs[k + 1].free)
  }

  /** The allocated blocks, in order. */
  function Allocated(bs: seq<Block>): seq<Block>
  {
    if |bs| == 0 then [] else (if bs[0].free then [] else [bs[0]]) + Allocated(bs[1..])
  }

  /** After the pass no two neighbours are both free. */
  lemma {:induction false} CoalesceNoAdjacentFree(bs: seq<Block>, hs: nat)
    ensures NoAdjacentFree(Coalesce(bs, hs))
    decreases |bs|
  {
    if |bs| <= 1 {
    } else if bs[0].free && bs[1].free {
      CoalesceNoAdjacentFree([Block(bs[0].offset, bs[0].size + hs + bs[1].size, true)] + bs[2..], hs);
    } else {
      CoalesceNoAdjacentFree(bs[1..], hs);
      var rest := Coalesce(bs[1..], hs);
      var r := [bs[0]] + rest;
      forall k | 0 <= k < |r| - 1
        ensures !(r[k].free && r[k + 1].free)
      {
        if k > 0 {
          assert r[k] == rest[k - 1] && r[k + 1] == rest[k];
        } else {
          assert bs[1..][0] == bs[1];
        }
      }
    }
  }

  /** The pass leaves the allocated blocks exactly as they were. */
  lemma {:induction false} CoalesceKeepsAllocated(bs: seq<Block>, hs: nat)
    ensures Allocated(Coalesce(bs, hs)) == Allocated(bs)
    decreases |bs|
  {
    if |bs| <= 1 {
    } else if bs[0].free && bs[1].free {
      var m := [Block(bs[0].offset, bs[0].size + hs + bs[1].size, true)] + bs[2..];
      CoalesceKeepsAllocated(m, hs);
      assert m[1..] == bs[2..] == bs[1..][1..];
    } else {
      CoalesceKeepsAllocated(bs[1..], hs);
      assert ([bs[0]] + Coalesce(bs[1..], hs))[1..] == Coalesce(bs[1..], hs);
    }
  }

  /** The pass keeps the tiling, so the footprint stays the heap size. */
  lemma {:induction false} CoalesceTiled(bs: seq<Block>, hs: nat, heapSize: nat)
    requires Tiled(bs, hs, heapSize)
    ensures Tiled(Coalesce(bs, hs), hs, heapSize)
  {
    CoalesceChained(bs, hs);
  }

  /** Merging the first two blocks of a chain keeps a chain with the same end. */
  lemma {:induction false} MergedChained(bs: seq<Block>, hs: nat)
    requires |bs| > 1 && Chained(bs, hs)
    ensures var m := [Block(bs[0].offset, bs[0].size + hs + bs[1].size, true)] + bs[2..];
            Chained(m, hs) && End(m[|m| - 1], hs) == End(bs[|bs| - 1], hs)
  {
    var m := [Block(bs[0].offset, bs[0].size + hs + bs[1].size, true)] + bs[2..];
    forall j | 0 <= j < |m| - 1
      ensures m[j + 1].offset == End(m[j], hs)
    {
      if j > 0 {
        assert m[j] == bs[j + 1] && m[j + 1] == bs[j + 2];
      } else {
        assert m[1] == bs[2];
      }
    }
    assert m[|m| - 1] == (if |bs| > 2 then bs[|bs| - 1] else m[0]);
  }

  /** A block put in front of a chain that starts where it ends is a chain. */
  lemma {:induction false} ConsChained(b: Block, rest: seq<Block>, hs: nat)
    requires |rest| > 0 && Chained(rest, hs) && rest[0].offset == End(b, hs)
    ensures Chained([b] + rest, hs) && ([b] + rest)[|rest|] == rest[|rest| - 1]
  {
    var r := [b] + rest;
    forall j | 0 <= j < |r| - 1
      ensures r[j + 1].offset == End(r[j], hs)
    {
      if j > 0 {
        assert r[j] == rest[j - 1] && r[j + 1] == rest[j];
      }
    }
  }

  /** The pass over a chain is a chain with the same start and end. */
  lemma {:induction false} CoalesceChained(bs: seq<Block>, hs: nat)
    requires |bs| > 0 && Chained(bs, hs)
    ensures var r := Coalesce(bs, hs);
            Chained(r, hs) && End(r[|r| - 1], hs) == End(bs[|bs| - 1], hs)
    decreases |bs|
  {
    if |bs| > 1 {
      if bs[0].free && bs[1].free {
        MergedChained(bs, hs);
        CoalesceChained([Block(bs[0].offset, bs[0].size + hs + bs[1].size, true)] + bs[2..], hs);
      } else {
        ChainedTail(bs, hs);
        CoalesceChained(bs[1..], hs);
        assert bs[1..][0] == bs[1] && bs[1..][|bs| - 2] == bs[|bs| - 1];
        ConsChained(bs[0], Coalesce(bs[1..], hs), hs);
      }
    }
  }

  /** Distinct blocks of a chain start at distinct offsets. */
  lemma {:induction false} DistinctOffsets(bs: seq<Block>, hs: nat, k: nat)
    requires Chained(bs, hs) && hs > 0 && k < |bs|
    ensures forall j :: 0 <= j < |bs| && j < k ==> End(bs[j], hs) <= bs[k].offset
    ensures forall j :: k < j < |bs| ==> End(bs[k], hs) <= bs[j].offset
  {
    Ordered(bs, hs);
  }

  /** Rewriting the header of block k with the free flag `f` stores the
      list with block k so marked. */
  lemma {:induction false} StoredSetFree<H>(h: seq<H>, bs: seq<Block>, hs: nat, view: H -> View, k: nat, f: bool, x: H)
    requires Stored(h, bs, view) && Chained(bs, hs) && hs > 0 && k < |bs|
    requires view(x) == ViewOf(bs, k).(free := f)
    ensures Stored(h[bs[k].offset := x], bs[k := bs[k].(free := f)], view)
  {
    var r := bs[k := bs[k].(free := f)];
    var h' := h[bs[k].offset := x];
    forall j | 0 <= j < |r|
      ensures r[j].offset < |h'| && view(h'[r[j].offset]) == ViewOf(r, j)
    {
      StoredAt(h, bs, view, j);
      StoredAt(h, bs, view, k);
      if j < k {
        OrderedPair(bs, hs, j, k);
      } else if j > k {
        OrderedPair(bs, hs, k, j);
      }
      assert ViewOf(r, j) == if j == k then ViewOf(bs, k).(free := f) else ViewOf(bs, j);
    }
  }

  /** One instance of `Stored`. */
  lemma {:induction false} StoredAt<H>(h: seq<H>, bs: seq<Block>, view: H -> View, j: nat)
    requires Stored(h, bs, view) && j < |bs|
    ensures bs[j].offset < |h| && view(h[bs[j].offset]) == ViewOf(bs, j)
  {
  }

  /** Block j of the list after the split reads right after the two
      header writes. */
  lemma {:induction false} SplitAt<H>(h: seq<H>, bs: seq<Block>, hs: nat, heapSize: nat, view: H -> View,
                                      k: nat, size: nat, x: H, y: H, j: nat)
    requires Stored(h, bs, view) && Tiled(bs, hs, heapSize) && |h| == heapSize && hs > 0
    requires k < |bs| && Fits(bs[k], size) && Splits(bs[k], size, hs)
    requires view(y) == View(bs[k].size - size - hs, true, ViewOf(bs, k).next)
    requires view(x) == View(size, false, Some(bs[k].offset + hs + size))
    requires bs[k].offset + hs + size < |h|
    requires j < |bs| + 1
    ensures var r := Allocate(bs, k, size, hs);
            var h' := h[bs[k].offset + hs + size := y][bs[k].offset := x];
            r[j].offset < |h'| && view(h'[r[j].offset]) == ViewOf(r, j)
  {
    var r := Allocate(bs, k, size, hs);
    var n := bs[k].offset + hs + size;
    SplitShape(bs, k, size, hs);
    if j < k {
      SplitBefore(h, bs, hs, view, r, k, n, x, y, j);
    } else if j == k {
    } else if j == k + 1 {
      StoredAt(h, bs, view, k);
      SplitNew(h, bs, view, r, k, n, x, y);
    } else {
      InsideHeap(bs, hs, heapSize);
      SplitAfter(h, bs, hs, view, r, k, n, x, y, j);
    }
  }

  /** A block before the split one reads as it did. */
  lemma {:induction false} SplitBefore<H>(h: seq<H>, bs: seq<Block>, hs: nat, view: H -> View, r: seq<Block>,
                                          k: nat, n: nat, x: H, y: H, j: nat)
    requires Stored(h, bs, view) && Chained(bs, hs) && hs > 0 && j < k < |bs| && |r| == |bs| + 1
    requires n > bs[k].offset && n < |h|
    requires r[j] == bs[j] && r[j + 1].offset == bs[j + 1].offset
    ensures r[j].offset < |h[n := y][bs[k].offset := x]| && view(h[n := y][bs[k].offset := x][r[j].offset]) == ViewOf(r, j)
  {
    OrderedPair(bs, hs, j, k);
    StoredAt(h, bs, view, j);
    assert ViewOf(r, j) == ViewOf(bs, j);
  }

  /** The new free block reads with the rest of block k's list after it. */
  lemma {:induction false} SplitNew<H>(h: seq<H>, bs: seq<Block>, view: H -> View, r: seq<Block>,
                                       k: nat, n: nat, x: H, y: H)
    requires k < |bs| && |r| == |bs| + 1 && n > bs[k].offset && n < |h|
    requires r[k + 1].offset == n && r[k + 1].free && view(y) == View(r[k + 1].size, true, ViewOf(bs, k).next)
    requires k + 1 < |bs| ==> r[k + 2] == bs[k + 1]
    ensures r[k + 1].offset < |h[n := y][bs[k].offset := x]| && view(h[n := y][bs[k].offset := x][r[k + 1].offset]) == ViewOf(r, k + 1)
  {
    assert h[n := y][bs[k].offset := x][n] == y;
    assert ViewOf(r, k + 1) == View(r[k + 1].size, true, ViewOf(bs, k).next);
  }

  /** A block after the split one reads as it did. */
  lemma {:induction false} SplitAfter<H>(h: seq<H>, bs: seq<Block>, hs: nat, view: H -> View, r: seq<Block>,
                                         k: nat, n: nat, x: H, y: H, j: nat)
    requires Stored(h, bs, view) && Chained(bs, hs) && k + 1 < j < |bs| + 1 && |r| == |bs| + 1
    requires bs[k].offset < n < End(bs[k], hs) && n < |h| && End(bs[j - 1], hs) <= |h|
    requires r[j] == bs[j - 1] && (j < |bs| ==> r[j + 1] == bs[j])
    ensures r[j].offset < |h[n := y][bs[k].offset := x]| && view(h[n := y][bs[k].offset := x][r[j].offset]) == ViewOf(r, j)
  {
    OrderedPair(bs, hs, k, j - 1);
    StoredAt(h, bs, view, j - 1);
    assert ViewOf(r, j) == ViewOf(bs, j - 1);
  }

  /** Writing the new free block's header, then block k's, stores the
      list after the split. */
  lemma {:induction false} StoredSplit<H>(h: seq<H>, bs: seq<Block>, hs: nat, heapSize: nat, view: H -> View,
                                          k: nat, size: nat, x: H, y: H)
    requires Stored(h, bs, view) && Tiled(bs, hs, heapSize) && |h| == heapSize && hs > 0
    requires k < |bs| && Fits(bs[k], size) && Splits(bs[k], size, hs)
    requires view(y) == View(bs[k].size - size - hs, true, ViewOf(bs, k).next)
    requires view(x) == View(size, false, Some(bs[k].offset + hs + size))
    ensures bs[k].offset + hs + size < |h|
    ensures Stored(h[bs[k].offset + hs + size := y][bs[k].offset := x], Allocate(bs, k, size, hs), view)
  {
    var r := Allocate(bs, k, size, hs);
    InsideHeap(bs, hs, heapSize);
    assert End(bs[k], hs) <= heapSize;
    SplitShape(bs, k, size, hs);
    forall j | 0 <= j < |r|
      ensures r[j].offset < |h[bs[k].offset + hs + size := y][bs[k].offset := x]| &&
              view(h[bs[k].offset + hs + size := y][bs[k].offset := x][r[j].offset]) == ViewOf(r, j)
    {
      SplitAt(h, bs, hs, heapSize, view, k, size, x, y, j);
    }
  }

  /** Block j of the merged list reads right after the header write. */
  lemma {:induction false} MergeAt<H>(h: seq<H>, bs: seq<Block>, hs: nat, view: H -> View, k: nat, x: H, j: nat)
    requires Stored(h, bs, view) && Chained(bs, hs) && hs > 0 && k + 1 < |bs|
    requires view(x) == View(bs[k].size + hs + bs[k + 1].size, true, ViewOf(bs, k + 1).next)
    requires j < |bs| - 1
    ensures var r := MergeNext(bs, k, hs);
            var h' := h[bs[k].offset := x];
            r[j].offset < |h'| && view(h'[r[j].offset]) == ViewOf(r, j)
  {
    var r := MergeNext(bs, k, hs);
    StoredAt(h, bs, view, k);
    StoredAt(h, bs, view, k + 1);
    if j < k {
      OrderedPair(bs, hs, j, k);
      StoredAt(h, bs, view, j);
      assert r[j] == bs[j];
      assert r[j + 1].offset == bs[j + 1].offset;
      assert ViewOf(r, j) == ViewOf(bs, j);
    } else if j == k {
      if k + 2 < |bs| {
        assert r[k + 1] == bs[k + 2];
      }
    } else {
      OrderedPair(bs, hs, k, j + 1);
      StoredAt(h, bs, view, j + 1);
      assert r[j] == bs[j + 1];
      if j + 1 < |r| {
        assert r[j + 1] == bs[j + 2];
      }
      assert ViewOf(r, j) == ViewOf(bs, j + 1);
    }
  }

  /** Rewriting block k's header to cover block k + 1 stores the merged
      list. */
  lemma {:induction false} StoredMerge<H>(h: seq<H>, bs: seq<Block>, hs: nat, view: H -> View, k: nat, x: H)
    requires Stored(h, bs, view) && Chained(bs, hs) && hs > 0 && k + 1 < |bs|
    requires view(x) == View(bs[k].size + hs + bs[k + 1].size, true, ViewOf(bs, k + 1).next)
    ensures Stored(h[bs[k].offset := x], MergeNext(bs, k, hs), view)
  {
    var r := MergeNext(bs, k, hs);
    assert |r| == |bs| - 1;
    forall j | 0 <= j < |r|
      ensures r[j].offset < |h[bs[k].offset := x]| && view(h[bs[k].offset := x][r[j].offset]) == ViewOf(r, j)
    {
      MergeAt(h, bs, hs, view, k, x, j);
    }
  }

  /** One merge of the pass at block i leaves what the pass gives. */
  lemma {:induction false} CoalesceMergeStep(bs: seq<Block>, i: nat, hs: nat)
    requires i + 1 < |bs| && bs[i].free && bs[i + 1].free
    ensures MergeNext(bs, i, hs)[..i] == bs[..i]
    ensures Coalesce(MergeNext(bs, i, hs)[i..], hs) == Coalesce(bs[i..], hs)
  {
    var m := Block(bs[i].offset, bs[i].size + hs + bs[i + 1].size, true);
    assert MergeNext(bs, i, hs)[i..] == [m] + bs[i + 2..];
    assert bs[i..][0] == bs[i] && bs[i..][1] == bs[i + 1] && bs[i..][2..] == bs[i + 2..];
  }

  /** Passing block i moves it to the finished part. */
  lemma {:induction false} CoalescePassStep(bs: seq<Block>, i: nat, hs: nat)
    requires i + 1 < |bs| && !(bs[i].free && bs[i + 1].free)
    ensures bs[..i] + Coalesce(bs[i..], hs) == bs[..i + 1] + Coalesce(bs[i + 1..], hs)
  {
    assert bs[i..][0] == bs[i] && bs[i..][1] == bs[i + 1] && bs[i..][1..] == bs[i + 1..];
    assert bs[..i + 1] == bs[..i] + [bs[i]];
  }

  /** At the last block the pass is over. */
  lemma {:induction false} CoalesceLast(bs: seq<Block>, i: nat, hs: nat)
    requires i + 1 == |bs|
    ensures bs[..i] + Coalesce(bs[i..], hs) == bs
  {
    assert bs[..i] + bs[i..] == bs;
  }

  /** Rewriting block k's header with one that reads the same keeps the
      list stored. */
  lemma {:induction false} StoredRewrite<H>(h: seq<H>, bs: seq<Block>, hs: nat, view: H -> View, k: nat, x: H)
    requires Stored(h, bs, view) && Chained(bs, hs) && hs > 0 && k < |bs|
    requires view(x) == ViewOf(bs, k)
    ensures Stored(h[bs[k].offset := x], bs, view)
  {
    StoredSetFree(h, bs, hs, view, k, bs[k].free, x);
    assert bs[k := bs[k].(free := bs[k].free)] == bs;
  }

  /** Freeing block k with an eager merge: nothing when it is already
      free; otherwise it is marked free and absorbs the next block when
      that one is free too. */
  function FreeAndMerge(bs: seq<Block>, k: nat, hs: nat): seq<Block>
    requires k < |bs|
  {
    if bs[k].free then bs
    else if k + 1 < |bs| && bs[k + 1].free then MergeNext(bs, k, hs)
    else MarkFree(bs, k)
  }

  /** Freeing with a merge keeps the tiling, so the headers and sizes
      still add up to the heap; block k is free where it was, and the
      blocks before it are as they were. */
  lemma {:induction false} FreeAndMergeTiled(bs: seq<Block>, k: nat, hs: nat, heapSize: nat)
    requires Tiled(bs, hs, heapSize) && k < |bs|
    ensures var r := FreeAndMerge(bs, k, hs);
            Tiled(r, hs, heapSize) && Footprint(r, hs) == heapSize &&
            k < |r| && r[k].free && r[k].offset == bs[k].offset &&
            (forall j :: 0 <= j < k ==> r[j] == bs[j])
  {
    var r := FreeAndMerge(bs, k, hs);
    if bs[k].free {
    } else if k + 1 < |bs| && bs[k + 1].free {
      MergeNextTiled(bs, k, hs, heapSize);
    } else {
      MarkFreeTiled(bs, k, hs, heapSize);
    }
    TiledFootprint(r, hs, heapSize);
  }

  lemma {:induction false} AllocatedConcat(s: seq<Block>, t: seq<Block>)
    ensures Allocated(s + t) == Allocated(s) + Allocated(t)
    decreases |s|
  {
    if |s| > 0 {
      AllocatedConcat(s[1..], t);
      assert (s + t)[1..] == s[1..] + t;
    } else {
      assert s + t == t;
    }
  }

  /** Freeing an allocated block k takes exactly that block out of the
      allocated ones: a merge only ever absorbs a free block. */
  lemma {:induction false} FreeAndMergeAllocated(bs: seq<Block>, k: nat, hs: nat)
    requires k < |bs| && !bs[k].free
    ensures Allocated(FreeAndMerge(bs, k, hs)) == Allocated(bs[..k]) + Allocated(bs[k + 1..])
  {
    if k + 1 < |bs| && bs[k + 1].free {
      var m := Block(bs[k].offset, bs[k].size + hs + bs[k + 1].size, true);
      AllocatedAround(bs[..k], m, bs[k + 2..]);
      assert bs[k + 1..] == [] + [bs[k + 1]] + bs[k + 2..];
      AllocatedAround([], bs[k + 1], bs[k + 2..]);
    } else {
      var b := Block(bs[k].offset, bs[k].size, true);
      assert MarkFree(bs, k) == bs[..k] + [b] + bs[k + 1..];
      AllocatedAround(bs[..k], b, bs[k + 1..]);
    }
  }

  /** A free block between two lists adds nothing to the allocated ones. */
  lemma {:induction false} AllocatedAround(pre: seq<Block>, x: Block, post: seq<Block>)
    requires x.free
    ensures Allocated(pre + [x] + post) == Allocated(pre) + Allocated(post)
  {
    AllocatedConcat(pre + [x], post);
    AllocatedConcat(pre, [x]);
    assert Allocated([x]) == [];
  }

  /** No two blocks of a chain share an offset. */
  /** An offset strictly inside block k, past its first byte, is the
      offset of no block. */
  lemma {:induction false} InsideNoOther(bs: seq<Block>, hs: nat, k: nat, o: nat)
    requires Chained(bs, hs) && hs > 0 && k < |bs| && bs[k].offset < o < End(bs[k], hs)
    ensures forall j :: 0 <= j < |bs| ==> bs[j].offset != o
  {
    forall j | 0 <= j < |bs|
      ensures bs[j].offset != o
    {
      if j < k {
        OrderedPair(bs, hs, j, k);
      } else if k < j {
        OrderedPair(bs, hs, k, j);
      }
    }
  }

  lemma {:induction false} SameOffset(bs: seq<Block>, hs: nat, j: nat, k: nat)
    requires Chained(bs, hs) && hs > 0 && j < |bs| && k < |bs| && bs[j].offset == bs[k].offset
    ensures j == k
  {
    if j < k {
      OrderedPair(bs, hs, j, k);
    } else if k < j {
      OrderedPair(bs, hs, k, j);
    }
  }
}
