/** `allocate` and `free` as changes of the set of bytes handed out, and the laws they obey. */
module RangeOps {
  import opened Common
  import opened Ranges

  /** The leftmost of the tightest blocks that hold `n` bytes. */
  predicate IsBestFit(bs: seq<Block>, n: nat, r: Option<nat>) {
    match r
    case None => forall j :: 0 <= j < |bs| ==> bs[j].len < n
    case Some(i) =>
      && i < |bs| && n <= bs[i].len
      && (forall j :: 0 <= j < |bs| && n <= bs[j].len ==> bs[i].len <= bs[j].len)
      && (forall j :: 0 <= j < i && n <= bs[j].len ==> bs[i].len < bs[j].len)
  }

  function BestFit(bs: seq<Block>, n: nat): (r: Option<nat>)
    ensures IsBestFit(bs, n, r)
  {
    if bs == [] then None
    else
      var last := |bs| - 1;
      var r := BestFit(bs[..last], n);
      if n <= bs[last].len && (r.None? || bs[last].len < bs[r.value].len) then Some(last) else r
  }

  lemma BestFitIsUnique(bs: seq<Block>, n: nat, r: Option<nat>)
    requires IsBestFit(bs, n, r)
    ensures r == BestFit(bs, n)
  {
    var s := BestFit(bs, n);
    if r.Some? && s.Some? {
      assert n <= bs[r.value].len && n <= bs[s.value].len;
    }
  }

  /** Where `n` (aligned) bytes are placed: the best-fitting hole, else the top. */
  function Place(h: Heap, n: nat): Option<nat> {
    match BestFit(h.blocks, n)
    case Some(i) => Some(h.blocks[i].off)
    case None => if h.offset + n <= h.capacity then Some(h.offset) else None
  }

  lemma PlaceIsVacant(h: Heap, n: nat)
    requires Place(h, n).Some?
    ensures Place(h, n).value + n <= h.capacity
    ensures Range(Place(h, n).value, n) !! Cells(h)
  {
    var r := BestFit(h.blocks, n);
    if r.Some? {
      forall p | p in Range(Place(h, n).value, n) ensures p !in Cells(h) {
        assert At(h.blocks, r.value, p);
      }
    }
  }

  ghost function Take(h: Heap, a: nat, n: nat): (r: Heap)
    requires a + n <= h.capacity
    ensures r.capacity == h.capacity && Cells(r) == Cells(h) + Range(a, n)
  {
    FromCells(h.capacity, Cells(h) + Range(a, n))
  }

  ghost function Release(h: Heap, a: nat, n: nat): (r: Heap)
    ensures r.capacity == h.capacity && Cells(r) == Cells(h) - Range(a, n)
  {
    FromCells(h.capacity, Cells(h) - Range(a, n))
  }

  /** `allocate`: the bytes at the chosen place become live; on failure nothing changes. */
  ghost function AllocateSpec(h: Heap, bytes: nat): (Heap, Result<nat>) {
    var n := Align(bytes);
    match Place(h, n)
    case Some(a) => PlaceIsVacant(h, n); (Take(h, a, n), Ok(a))
    case None => (h, Err(DramOom(n, h.capacity - Used(h), h.capacity)))
  }

  /** `free`: a non-empty range whose bytes are all live stops being live; anything else is ignored. */
  ghost function FreeSpec(h: Heap, off: nat, bytes: nat): Heap {
    var n := Align(bytes);
    if 0 < n && Range(off, n) <= Cells(h) then Release(h, off, n) else h
  }

  predicate Overlaps(bs: seq<Block>, i: int, off: nat, n: nat) {
    0 <= i < |bs| && bs[i].off < off + n && off < bs[i].End()
  }

  /** The guards `free` tests are exact: it ignores a call if and only if the aligned length is
    * zero, the range passes the mark, or it overlaps some free block. */
  lemma FreeIgnoresIff(h: Heap, off: nat, bytes: nat)
    ensures FreeSpec(h, off, bytes) == h <==>
      || Align(bytes) == 0
      || h.offset < off + Align(bytes)
      || exists i :: Overlaps(h.blocks, i, off, Align(bytes))
  {
    var n := Align(bytes);
    if 0 < n && off + n <= h.offset {
      if i :| Overlaps(h.blocks, i, off, n) {
        var p := if off < h.blocks[i].off then h.blocks[i].off else off;
        assert At(h.blocks, i, p) && p in Range(off, n);
      } else {
        forall p | p in Range(off, n) ensures p in Cells(h) {
          assert forall i :: At(h.blocks, i, p) ==> Overlaps(h.blocks, i, off, n);
        }
        assert off in Range(off, n);
      }
    } else if 0 < n {
      assert off + n - 1 in Range(off, n);
    }
  }

  /** A vacant run that starts below the mark lies inside one free block. */
  lemma VacantRunHasBlock(h: Heap, a: nat, n: nat)
    requires a < h.offset && 0 < n && Range(a, n) !! Cells(h)
    ensures exists i :: 0 <= i < |h.blocks| && n <= h.blocks[i].len
  {
    assert a in Range(a, n);
    var i :| At(h.blocks, i, a);
    BlockEdges(h, i);
    assert h.blocks[i].End() !in Range(a, n);
  }

  lemma VacantRunIsPlaced(h: Heap, a: nat, n: nat)
    requires a + n <= h.capacity && Range(a, n) !! Cells(h)
    ensures Place(h, n).Some?
  {
    if a < h.offset && 0 < n {
      VacantRunHasBlock(h, a, n);
    }
  }

  /** Allocation is complete: it succeeds exactly when some run of the aligned size is vacant. */
  lemma AllocateSucceedsIff(h: Heap, bytes: nat)
    ensures AllocateSpec(h, bytes).1.Ok? <==>
      exists a: nat :: a + Align(bytes) <= h.capacity && Range(a, Align(bytes)) !! Cells(h)
  {
    var n := Align(bytes);
    if Place(h, n).Some? { PlaceIsVacant(h, n); }
    forall a: nat | a + n <= h.capacity && Range(a, n) !! Cells(h) ensures Place(h, n).Some? {
      VacantRunIsPlaced(h, a, n);
    }
  }

  /** Freeing what was just allocated restores the exact state. */
  lemma AllocateThenFree(h: Heap, bytes: nat)
    requires AllocateSpec(h, bytes).1.Ok?
    ensures FreeSpec(AllocateSpec(h, bytes).0, AllocateSpec(h, bytes).1.value, bytes) == h
  {
    var n := Align(bytes);
    PlaceIsVacant(h, n);
    var (t, r) := AllocateSpec(h, bytes);
    var f := FreeSpec(t, r.value, bytes);
    assert Cells(f) == Cells(h);
    Canonical(f, h);
  }

  /** A zero-byte allocation succeeds and changes nothing. */
  lemma AllocateNothing(h: Heap)
    ensures AllocateSpec(h, 0).1.Ok? && AllocateSpec(h, 0).0 == h
  {
    PlaceIsVacant(h, 0);
    Canonical(AllocateSpec(h, 0).0, h);
  }

  // ------------------------------------------------- what `offset` and the list are

  /** The mark is one past the greatest live byte, or 0 when nothing is live. */
  lemma MarkIsGreatestEnd(h: Heap)
    ensures forall p :: p in Cells(h) ==> p < h.offset
    ensures if Cells(h) == {} then h.offset == 0 else 0 < h.offset && h.offset - 1 in Cells(h)
  {
    if 0 < h.offset { TopIsLive(h); }
  }

  /** Vacant bytes with a live byte (or the region's start) before and a live byte after. */
  ghost predicate MaximalGap(cells: set<nat>, b: Block) {
    && 0 < b.len
    && Range(b.off, b.len) !! cells
    && (b.off == 0 || b.off - 1 in cells)
    && b.End() in cells
  }

  lemma BlockIsGap(h: Heap, i: nat)
    requires i < |h.blocks|
    ensures MaximalGap(Cells(h), h.blocks[i])
  {
    BlockEdges(h, i);
    var b := h.blocks[i];
    forall p | p in Range(b.off, b.len) ensures p !in Cells(h) { assert At(h.blocks, i, p); }
  }

  lemma GapIsBlock(h: Heap, b: Block)
    requires MaximalGap(Cells(h), b)
    ensures b in h.blocks
  {
    assert b.off in Range(b.off, b.len);
    assert b.End() < h.offset;
    var i :| At(h.blocks, i, b.off);
    BlockIsGap(h, i);
    var c := h.blocks[i];
    assert b.off > 0 ==> b.off - 1 !in Range(c.off, c.len);
    assert b.End() !in Range(c.off, c.len);
    assert c.End() !in Range(b.off, b.len);
  }

  /** The free list holds exactly the maximal gaps below the mark. */
  lemma BlocksAreMaximalGaps(h: Heap, b: Block)
    ensures b in h.blocks <==> MaximalGap(Cells(h), b)
  {
    if b in h.blocks {
      var i :| 0 <= i < |h.blocks| && h.blocks[i] == b;
      BlockIsGap(h, i);
    }
    if MaximalGap(Cells(h), b) { GapIsBlock(h, b); }
  }

  // -------------------------------------------------------------- `used()`

  lemma RangeSize(a: nat, n: nat)
    ensures |Range(a, n)| == n
  {
    if 0 < n {
      RangeSize(a, n - 1);
      assert Range(a, n) == Range(a, n - 1) + {a + n - 1};
    }
  }

  ghost function FreeCells(bs: seq<Block>): (s: set<nat>)
    ensures forall p: nat :: p in s <==> InFree(bs, p)
  {
    if bs == [] then {}
    else
      var (rest, b) := (bs[..|bs| - 1], bs[|bs| - 1]);
      assert bs == rest + [b];
      assert forall p: nat :: InFree(bs, p) <==> InFree(rest, p) || b.Has(p) by {
        forall p: nat ensures InFree(bs, p) <==> InFree(rest, p) || b.Has(p) { InFreeLast(rest, b, p); }
      }
      FreeCells(rest) + Range(b.off, b.len)
  }

  lemma {:induction false} FreeCellsSize(bs: seq<Block>)
    requires Coalesced(bs)
    ensures |FreeCells(bs)| == SumLen(bs)
  {
    if bs != [] {
      var (rest, b) := (bs[..|bs| - 1], bs[|bs| - 1]);
      CoalescedSlice(bs, 0, |bs| - 1);
      assert bs[0..|bs| - 1] == rest;
      FreeCellsSize(rest);
      RangeSize(b.off, b.len);
      forall p: nat | InFree(rest, p) ensures p !in Range(b.off, b.len) {
        var i :| At(rest, i, p);
        assert Before(bs, i, |bs| - 1);
      }
      assert FreeCells(rest) !! Range(b.off, b.len);
    }
  }

  /** `used()` counts exactly the live bytes. */
  lemma UsedCountsCells(h: Heap)
    ensures Used(h) == |Cells(h)|
  {
    FreeCellsSize(h.blocks);
    RangeSize(0, h.offset);
    assert FreeCells(h.blocks) <= Range(0, h.offset);
    assert Cells(h) == Range(0, h.offset) - FreeCells(h.blocks);
  }

  /** A free that is not ignored returns exactly the aligned length. */
  lemma FreeReturnsAlignedLength(h: Heap, off: nat, bytes: nat)
    ensures Used(FreeSpec(h, off, bytes)) == Used(h) - if FreeSpec(h, off, bytes) == h then 0 else Align(bytes)
  {
    var n := Align(bytes);
    UsedCountsCells(h);
    if 0 < n && Range(off, n) <= Cells(h) {
      var t := Release(h, off, n);
      UsedCountsCells(t);
      RangeSize(off, n);
      assert |Cells(h) - Range(off, n)| == |Cells(h)| - n;
    }
  }

  /** An allocation that succeeds takes exactly the aligned length. */
  lemma AllocateTakesAlignedLength(h: Heap, bytes: nat)
    ensures
      var (t, r) := AllocateSpec(h, bytes);
      Used(t) == Used(h) + if r.Ok? then Align(bytes) else 0
  {
    var n := Align(bytes);
    if Place(h, n).Some? {
      PlaceIsVacant(h, n);
      var a := Place(h, n).value;
      UsedCountsCells(h);
      UsedCountsCells(Take(h, a, n));
      RangeSize(a, n);
      assert |Cells(h) + Range(a, n)| == |Cells(h)| + n;
    }
  }
}
