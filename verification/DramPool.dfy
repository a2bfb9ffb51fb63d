/** src/tiered.rs: the host-memory pool, a second copy of the range allocator over addresses. */
module DramPools {
  import opened Common
  import opened Ranges
  import opened RangeOps
  import opened RangeEdits
  import opened RangeAlloc

  /** A pool hands out addresses `base + off` for the offsets of a `RangeAllocator`. */
  datatype Pool = Pool(base: nat, node: nat, heap: Heap) {
    function End(): nat { base + heap.capacity }
  }

  ghost function PoolAllocate(p: Pool, bytes: nat): (Pool, Result<nat>) {
    match AllocateSpec(p.heap, bytes)
    case (h, Ok(off)) => (p.(heap := h), Ok(p.base + off))
    case (h, Err(e)) => (p.(heap := h), Err(e))
  }

  ghost function PoolFree(p: Pool, ptr: nat, bytes: nat): Pool {
    if ptr < p.base || p.End() <= ptr then p
    else p.(heap := FreeSpec(p.heap, ptr - p.base, bytes))
  }

  /** Above the pool's base, `free` is the range allocator's, also where the pool's own upper
    * guard fires: the range allocator rejects such a range too. */
  lemma PoolFreeIsTranslatedFree(p: Pool, ptr: nat, bytes: nat)
    requires p.base <= ptr
    ensures PoolFree(p, ptr, bytes) == p.(heap := FreeSpec(p.heap, ptr - p.base, bytes))
  {
    if p.End() <= ptr {
      FreeIgnoresIff(p.heap, ptr - p.base, bytes);
    }
  }

  lemma PoolAllocateThenFree(p: Pool, bytes: nat)
    requires PoolAllocate(p, bytes).1.Ok?
    ensures PoolFree(PoolAllocate(p, bytes).0, PoolAllocate(p, bytes).1.value, bytes) == p
  {
    AllocateThenFree(p.heap, bytes);
    PoolFreeIsTranslatedFree(PoolAllocate(p, bytes).0, PoolAllocate(p, bytes).1.value, bytes);
  }

  class DramPool {
    const numaNode: nat
    const basePtr: nat
    const capacity: nat
    var offset: nat
    var freeBlocks: seq<Block>

    predicate Valid()
      reads this
    {
      Inv(RawHeap(capacity, offset, freeBlocks))
    }

    function State(): Pool
      requires Valid()
      reads this
    {
      Pool(basePtr, numaNode, RawHeap(capacity, offset, freeBlocks))
    }

    constructor (numaNode: nat, basePtr: nat, capacity: nat)
      ensures Valid() && State() == Pool(basePtr, numaNode, Empty(capacity))
    {
      this.numaNode, this.basePtr, this.capacity := numaNode, basePtr, capacity;
      offset, freeBlocks := 0, [];
    }

    /** `used`: bytes handed out, as a count of live cells. */
    function UsedBytes(): (u: int)
      requires Valid()
      reads this
      ensures u == |Cells(State().heap)|
    {
      UsedCountsCells(State().heap);
      Used(State().heap)
    }

    method Allocate(bytes: nat) returns (r: Result<nat>)
      requires Valid()
      modifies this
      ensures Valid()
      ensures (State(), r) == PoolAllocate(old(State()), bytes)
    {
      var aligned := Align(bytes);
      var best := ScanBestFit(freeBlocks, aligned);
      if best.Some? {
        var i := best.value;
        var b := freeBlocks[i];
        ghost var carved := Carved(State().heap, i, aligned);
        CarvedKeepsInv(State().heap, i, aligned);
        CarvedIsAllocateSpec(State().heap, bytes);
        if b.len == aligned {
          freeBlocks := freeBlocks[..i] + freeBlocks[i + 1..];
        } else {
          freeBlocks := freeBlocks[i := Block(b.off + aligned, b.len - aligned)];
        }
        assert RawHeap(capacity, offset, freeBlocks) == carved;
        return Ok(basePtr + b.off);
      }
      if capacity < offset + aligned {
        return Err(DramOom(aligned, capacity - UsedBytes(), capacity));
      }
      BumpIsAllocateSpec(State().heap, bytes);
      var ptr := basePtr + offset;
      offset := offset + aligned;
      return Ok(ptr);
    }

    method Free(ptr: nat, bytes: nat)
      requires Valid()
      modifies this
      ensures Valid()
      ensures State() == PoolFree(old(State()), ptr, bytes)
    {
      if ptr < basePtr || basePtr + capacity <= ptr { return; }
      var off := ptr - basePtr;
      var len := Align(bytes);
      var pos := PartitionPoint(freeBlocks, off);
      EditedIsFreeSpec(State().heap, pos, off, bytes);
      if len == 0 || offset < off + len { return; }
      if pos < |freeBlocks| && freeBlocks[pos].off < off + len { return; }
      if 0 < pos && off < freeBlocks[pos - 1].End() { return; }
      Park(pos, off, len);
    }

    /** The list surgery of `free`, once its guards have passed. */
    method Park(pos: nat, off: nat, len: nat)
      requires pos <= |freeBlocks| && 0 < len
      requires 0 < pos ==> freeBlocks[pos - 1].End() <= off
      modifies this`offset, this`freeBlocks
      ensures RawHeap(capacity, offset, freeBlocks) == Edited(old(RawHeap(capacity, offset, freeBlocks)), pos, off, len)
    {
      ParkedIsEdited(RawHeap(capacity, offset, freeBlocks), pos, off, len);
      freeBlocks := freeBlocks[..pos] + [Block(off, len)] + freeBlocks[pos..];
      freeBlocks := CoalesceRight(freeBlocks, pos);
      var idx: nat;
      freeBlocks, idx := CoalesceLeft(freeBlocks, pos);

      // A block that reaches the mark is cut off with it.
      var top := freeBlocks[idx];
      if top.End() == offset {
        offset := top.off;
        freeBlocks := freeBlocks[..idx] + freeBlocks[idx + 1..];
      }
    }
  }
}
