/** The list surgery of `free` and `allocate`, proved to be those set changes. */
module RangeEdits {
  import opened Common
  import opened Ranges
  import opened RangeOps

  // --------------------------------------------- the list edit made by `free`

  /** Where a range starting at `off` belongs in a sorted list. */
  predicate IsPartitionPoint(bs: seq<Block>, off: nat, pos: nat) {
    && pos <= |bs|
    && (forall i :: 0 <= i < pos ==> bs[i].off < off)
    && (forall i :: pos <= i < |bs| ==> off <= bs[i].off)
  }

  /** The heap with the swallowed stretch as one free block, or cut off below it at the top. */
  function Swallowed(h: RawHeap, a: nat, c: nat, lo: nat, hi: nat): RawHeap
    requires a <= c <= |h.blocks| && lo <= hi
  {
    if hi == h.offset then RawHeap(h.capacity, lo, h.blocks[..a] + h.blocks[c..])
    else RawHeap(h.capacity, h.offset, h.blocks[..a] + [Block(lo, hi - lo)] + h.blocks[c..])
  }

  /** Insert at `pos`, coalesce right, coalesce left, retract the mark. */
  function Edited(h: RawHeap, pos: nat, off: nat, n: nat): RawHeap
    requires pos <= |h.blocks| && (0 < pos ==> h.blocks[pos - 1].End() <= off)
  {
    var bs := h.blocks;
    var (a, lo) := if 0 < pos && bs[pos - 1].End() == off then (pos - 1, bs[pos - 1].off) else (pos, off);
    var (c, hi) := if pos < |bs| && off + n == bs[pos].off then (pos + 1, bs[pos].End()) else (pos, off + n);
    Swallowed(h, a, c, lo, hi)
  }

  /** Blocks `a..c` are swallowed by a freed range, which together with them fills `lo..hi`. */
  ghost predicate Swallows(h: RawHeap, a: nat, c: nat, lo: nat, hi: nat, freed: Block) {
    && a <= c <= |h.blocks| && lo < hi <= h.offset
    && (forall i :: 0 <= i < a ==> h.blocks[i].End() < lo)
    && (forall i :: c <= i < |h.blocks| ==> hi < h.blocks[i].off)
    && (forall p: nat :: lo <= p < hi <==> InFree(h.blocks[a..c], p) || freed.Has(p))
  }

  lemma SplitInFree(bs: seq<Block>, a: nat, c: nat, p: nat)
    requires a <= c <= |bs|
    ensures InFree(bs, p) <==> InFree(bs[..a], p) || InFree(bs[a..c], p) || InFree(bs[c..], p)
  {
    InFreeConcat(bs[..a], bs[a..c], p);
    InFreeConcat(bs[..a] + bs[a..c], bs[c..], p);
    assert bs == bs[..a] + bs[a..c] + bs[c..];
  }

  lemma JoinInFree(xs: seq<Block>, b: Block, ys: seq<Block>, p: nat)
    ensures InFree(xs + [b] + ys, p) <==> InFree(xs, p) || b.Has(p) || InFree(ys, p)
  {
    InFreeLast(xs, b, p);
    InFreeConcat(xs + [b], ys, p);
  }

  lemma SwallowedListCoalesced(bs: seq<Block>, a: nat, c: nat, b: Block)
    requires Coalesced(bs) && a <= c <= |bs| && 0 < b.len
    requires forall i :: 0 <= i < a ==> bs[i].End() < b.off
    requires forall i :: c <= i < |bs| ==> b.End() < bs[i].off
    ensures Coalesced(bs[..a] + [b] + bs[c..])
  {
    CoalescedSlice(bs, 0, a);
    CoalescedSlice(bs, c, |bs|);
    assert bs[0..a] == bs[..a] && bs[c..|bs|] == bs[c..];
    var xs, ys := bs[..a] + [b], bs[c..];
    CoalescedConcat(bs[..a], [b]);
    forall i, j | 0 <= i < |xs| && 0 <= j < |ys| ensures xs[i].End() < ys[j].off {
      assert ys[j] == bs[c + j] && b.End() < ys[j].off;
      if i < a { assert xs[i] == bs[i]; }
    }
    CoalescedConcat(xs, ys);
  }

  /** The guards and the partition point leave room for the range and its neighbours. */
  ghost predicate Fits(h: RawHeap, pos: nat, off: nat, n: nat) {
    && IsPartitionPoint(h.blocks, off, pos) && 0 < n && off + n <= h.offset
    && (pos < |h.blocks| ==> off + n <= h.blocks[pos].off)
    && (0 < pos ==> h.blocks[pos - 1].End() <= off)
  }

  lemma NeighboursInFree(bs: seq<Block>, a: nat, pos: nat, c: nat, p: nat)
    requires a <= pos <= c <= |bs| && pos <= a + 1 && c <= pos + 1
    ensures InFree(bs[a..c], p) <==> (a < pos && bs[pos - 1].Has(p)) || (pos < c && bs[pos].Has(p))
  {
    assert bs[a..c] == bs[a..pos] + bs[pos..c];
    InFreeConcat(bs[a..pos], bs[pos..c], p);
    if a < pos { assert bs[a..pos] == [bs[pos - 1]]; InFreeOne(bs[pos - 1], p); }
    if pos < c { assert bs[pos..c] == [bs[pos]]; InFreeOne(bs[pos], p); }
  }

  lemma EditedSwallows(h: Heap, pos: nat, off: nat, n: nat, a: nat, c: nat, lo: nat, hi: nat)
    requires Fits(h, pos, off, n)
    requires (a, lo) == if 0 < pos && h.blocks[pos - 1].End() == off then (pos - 1, h.blocks[pos - 1].off) else (pos, off)
    requires (c, hi) == if pos < |h.blocks| && off + n == h.blocks[pos].off then (pos + 1, h.blocks[pos].End()) else (pos, off + n)
    ensures Swallows(h, a, c, lo, hi, Block(off, n))
  {
    var bs := h.blocks;
    if 0 < pos { SortedAround(bs, pos - 1); }
    if pos < |bs| { SortedAround(bs, pos); }
    forall p: nat ensures lo <= p < hi <==> InFree(bs[a..c], p) || Block(off, n).Has(p) {
      NeighboursInFree(bs, a, pos, c, p);
    }
  }

  /** The edit keeps the representation invariant and frees exactly the given range. */
  lemma EditedFrees(h: Heap, pos: nat, off: nat, n: nat)
    requires Fits(h, pos, off, n)
    ensures Inv(Edited(h, pos, off, n))
    ensures forall p: nat :: p in Cells(Edited(h, pos, off, n)) <==> p in Cells(h) && !Block(off, n).Has(p)
  {
    hide Inv, Cells, Swallows, Swallowed;
    var bs := h.blocks;
    var (a, lo) := if 0 < pos && bs[pos - 1].End() == off then (pos - 1, bs[pos - 1].off) else (pos, off);
    var (c, hi) := if pos < |bs| && off + n == bs[pos].off then (pos + 1, bs[pos].End()) else (pos, off + n);
    EditedSwallows(h, pos, off, n, a, c, lo, hi);
    SwallowedIsInv(h, a, c, lo, hi, Block(off, n));
    forall p: nat ensures p in Cells(Swallowed(h, a, c, lo, hi)) <==> p in Cells(h) && !Block(off, n).Has(p) {
      SwallowedCells(h, a, c, lo, hi, Block(off, n), p);
    }
  }

  lemma SwallowedIsInv(h: Heap, a: nat, c: nat, lo: nat, hi: nat, freed: Block)
    requires Swallows(h, a, c, lo, hi, freed)
    ensures Inv(Swallowed(h, a, c, lo, hi))
  {
    var e := Swallowed(h, a, c, lo, hi);
    if hi == h.offset {
      assert c < |h.blocks| ==> hi < h.blocks[c].off && h.blocks[c].End() < h.offset;
      CoalescedSlice(h.blocks, 0, a);
      assert e.blocks == h.blocks[..a] == h.blocks[0..a];
    } else {
      var b := Block(lo, hi - lo);
      SwallowedListCoalesced(h.blocks, a, c, b);
      forall i | 0 <= i < |e.blocks| ensures e.blocks[i].End() < h.offset {
        if i < a { assert e.blocks[i] == h.blocks[i]; }
        else if a < i { assert e.blocks[i] == h.blocks[i - a - 1 + c]; }
      }
    }
  }

  lemma SwallowedCells(h: Heap, a: nat, c: nat, lo: nat, hi: nat, freed: Block, p: nat)
    requires Swallows(h, a, c, lo, hi, freed)
    ensures p in Cells(Swallowed(h, a, c, lo, hi)) <==> p in Cells(h) && !freed.Has(p)
  {
    var e := Swallowed(h, a, c, lo, hi);
    SplitInFree(h.blocks, a, c, p);
    if hi == h.offset {
      assert c < |h.blocks| ==> hi < h.blocks[c].off && h.blocks[c].End() < h.offset;
      assert e.blocks == h.blocks[..a];
    } else {
      JoinInFree(h.blocks[..a], Block(lo, hi - lo), h.blocks[c..], p);
    }
  }

  /** Checking the two neighbours suffices, and the edit computes `FreeSpec`. */
  lemma EditedIsFreeSpec(h: Heap, pos: nat, off: nat, bytes: nat)
    requires IsPartitionPoint(h.blocks, off, pos)
    ensures
      var n := Align(bytes);
      if n == 0 || h.offset < off + n
        || (pos < |h.blocks| && h.blocks[pos].off < off + n) || (0 < pos && off < h.blocks[pos - 1].End())
      then FreeSpec(h, off, bytes) == h
      else FreeSpec(h, off, bytes) == Edited(h, pos, off, n)
  {
    var n := Align(bytes);
    if n == 0 { return; }
    FreeIgnoresIff(h, off, bytes);
    if pos < |h.blocks| && h.blocks[pos].off < off + n { assert Overlaps(h.blocks, pos, off, n); }
    if 0 < pos && off < h.blocks[pos - 1].End() { assert Overlaps(h.blocks, pos - 1, off, n); }
    if Fits(h, pos, off, n) {
      forall i ensures !Overlaps(h.blocks, i, off, n) {
        if 0 <= i < pos - 1 { assert Before(h.blocks, i, pos - 1); }
        if pos < i < |h.blocks| { assert Before(h.blocks, pos, i); }
      }
      EditedFrees(h, pos, off, n);
      assert Cells(Edited(h, pos, off, n)) == Cells(h) - Range(off, n);
      Canonical(Edited(h, pos, off, n), FreeSpec(h, off, bytes));
    }
  }

  // ------------------------------------------ the list edit made by `allocate`

  /** Remove the chosen block, or keep its tail. */
  function Carved(h: RawHeap, i: nat, n: nat): RawHeap
    requires i < |h.blocks| && n <= h.blocks[i].len
  {
    var b := h.blocks[i];
    if b.len == n then h.(blocks := h.blocks[..i] + h.blocks[i + 1..])
    else h.(blocks := h.blocks[i := Block(b.off + n, b.len - n)])
  }

  /** Carving a block removes its first `n` bytes from the free list. */
  lemma CarvedCells(h: Heap, i: nat, n: nat, p: nat)
    requires i < |h.blocks| && n <= h.blocks[i].len
    ensures p in Cells(Carved(h, i, n)) <==> p in Cells(h) || Block(h.blocks[i].off, n).Has(p)
  {
    var bs, b := h.blocks, h.blocks[i];
    var xs, ys := bs[..i], bs[i + 1..];
    assert bs == xs + [b] + ys;
    JoinInFree(xs, b, ys, p);
    if b.len == n {
      InFreeConcat(xs, ys, p);
    } else {
      JoinInFree(xs, Block(b.off + n, b.len - n), ys, p);
      assert Carved(h, i, n).blocks == xs + [Block(b.off + n, b.len - n)] + ys;
    }
    if j :| At(xs, j, p) { assert Before(bs, j, i); }
    if j :| At(ys, j, p) { assert Before(bs, i, i + 1 + j); }
  }

  lemma CarvedKeepsInv(h: Heap, i: nat, n: nat)
    requires i < |h.blocks| && n <= h.blocks[i].len
    ensures Inv(Carved(h, i, n))
  {
    var bs, b := h.blocks, h.blocks[i];
    SortedAround(bs, i);
    if b.len == n {
      CoalescedSlice(bs, 0, i);
      CoalescedSlice(bs, i + 1, |bs|);
      assert bs[0..i] == bs[..i] && bs[i + 1..|bs|] == bs[i + 1..];
      CoalescedConcat(bs[..i], bs[i + 1..]);
      var cs := bs[..i] + bs[i + 1..];
      forall j | 0 <= j < |cs| ensures cs[j].End() < h.offset {
        assert cs[j] == if j < i then bs[j] else bs[j + 1];
      }
    } else {
      var t := Block(b.off + n, b.len - n);
      SwallowedListCoalesced(bs, i, i + 1, t);
      assert bs[i := t] == bs[..i] + [t] + bs[i + 1..];
    }
  }

  lemma CarvedIsAllocateSpec(h: Heap, bytes: nat)
    requires BestFit(h.blocks, Align(bytes)).Some?
    ensures
      var i := BestFit(h.blocks, Align(bytes)).value;
      AllocateSpec(h, bytes) == (Carved(h, i, Align(bytes)), Ok(h.blocks[i].off))
  {
    var n := Align(bytes);
    var i := BestFit(h.blocks, n).value;
    var c := Carved(h, i, n);
    CarvedKeepsInv(h, i, n);
    PlaceIsVacant(h, n);
    forall p: nat ensures p in Cells(c) <==> p in Cells(h) || p in Range(h.blocks[i].off, n) {
      CarvedCells(h, i, n, p);
    }
    assert Cells(c) == Cells(h) + Range(h.blocks[i].off, n);
    Canonical(c, Take(h, h.blocks[i].off, n));
  }

  lemma BumpIsAllocateSpec(h: Heap, bytes: nat)
    requires BestFit(h.blocks, Align(bytes)).None? && h.offset + Align(bytes) <= h.capacity
    ensures AllocateSpec(h, bytes) == (h.(offset := h.offset + Align(bytes)), Ok(h.offset))
  {
    var n := Align(bytes);
    PlaceIsVacant(h, n);
    var c := h.(offset := h.offset + n);
    assert Cells(c) == Cells(h) + Range(h.offset, n);
    Canonical(c, Take(h, h.offset, n));
  }
}
