/** src/range_alloc.rs: the allocator that edits its fields in place, proved equal to `Ranges`. */
module RangeAlloc {
  import opened Common
  import opened Ranges
  import opened RangeOps
  import opened RangeEdits

  /** Index of the first block that does not start below `off`, by binary search. */
  method PartitionPoint(bs: seq<Block>, off: nat) returns (pos: nat)
    requires Coalesced(bs)
    ensures IsPartitionPoint(bs, off, pos)
  {
    var hi := |bs|;
    pos := 0;
    while pos < hi
      invariant 0 <= pos <= hi <= |bs|
      invariant forall i :: 0 <= i < pos ==> bs[i].off < off
      invariant forall i :: hi <= i < |bs| ==> off <= bs[i].off
    {
      var mid := (pos + hi) / 2;
      SortedAround(bs, mid);
      if bs[mid].off < off { pos := mid + 1; } else { hi := mid; }
    }
  }

  /** The best-fit scan: index of the leftmost tightest block of at least `n` bytes. */
  method ScanBestFit(bs: seq<Block>, n: nat) returns (best: Option<nat>)
    ensures best == BestFit(bs, n)
  {
    best := None;
    for i := 0 to |bs|
      invariant IsBestFit(bs[..i], n, best)
    {
      if n <= bs[i].len && (best.None? || bs[i].len < bs[best.value].len) {
        best := Some(i);
      }
    }
    assert bs[..|bs|] == bs;
    BestFitIsUnique(bs, n, best);
  }

  predicate Touch(bs: seq<Block>, i: int) {
    0 <= i && i + 1 < |bs| && bs[i].End() == bs[i + 1].off
  }

  /** Blocks `i` and `i + 1` made one. */
  function MergedAt(bs: seq<Block>, i: nat): seq<Block>
    requires i + 1 < |bs|
  {
    bs[..i] + [Block(bs[i].off, bs[i].len + bs[i + 1].len)] + bs[i + 2..]
  }

  function RightMerged(bs: seq<Block>, pos: nat): seq<Block> {
    if Touch(bs, pos) then MergedAt(bs, pos) else bs
  }

  function LeftMerged(bs: seq<Block>, pos: nat): (seq<Block>, nat) {
    if Touch(bs, pos - 1) then (MergedAt(bs, pos - 1), pos - 1) else (bs, pos)
  }

  /** Merge the block at `pos` with its right neighbour when they touch. */
  method CoalesceRight(bs: seq<Block>, pos: nat) returns (r: seq<Block>)
    requires pos < |bs|
    ensures r == RightMerged(bs, pos)
  {
    r := bs;
    if pos + 1 < |r| {
      var next := r[pos + 1];
      if r[pos].End() == next.off {
        r := r[pos := Block(r[pos].off, r[pos].len + next.len)];
        r := r[..pos + 1] + r[pos + 2..];
      }
    }
  }

  /** Merge the block at `pos` with its left neighbour when they touch. */
  method CoalesceLeft(bs: seq<Block>, pos: nat) returns (r: seq<Block>, idx: nat)
    requires pos < |bs|
    ensures (r, idx) == LeftMerged(bs, pos)
  {
    r, idx := bs, pos;
    if 0 < pos {
      var prev := r[pos - 1];
      if prev.End() == r[pos].off {
        r := r[pos - 1 := Block(prev.off, prev.len + r[pos].len)];
        r := r[..pos] + r[pos + 1..];
        idx := pos - 1;
        assert r == MergedAt(bs, pos - 1);
      }
    }
  }

  lemma MergedRight(xs: seq<Block>, b: Block, ys: seq<Block>, k: nat, hi: nat)
    requires (k, hi) == if ys != [] && b.End() == ys[0].off then (1, ys[0].End()) else (0, b.End())
    ensures RightMerged(xs + [b] + ys, |xs|) == xs + [Block(b.off, hi - b.off)] + ys[k..]
  {
    var bs := xs + [b] + ys;
    assert bs[..|xs|] == xs && bs[|xs|] == b;
    if ys != [] { assert bs[|xs| + 1] == ys[0] && bs[|xs| + 2..] == ys[1..]; }
  }

  lemma MergedLeft(xs: seq<Block>, b: Block, ys: seq<Block>, a: nat, lo: nat)
    requires (a, lo) == if xs != [] && xs[|xs| - 1].End() == b.off then (|xs| - 1, xs[|xs| - 1].off) else (|xs|, b.off)
    ensures LeftMerged(xs + [b] + ys, |xs|) == (xs[..a] + [Block(lo, b.End() - lo)] + ys, a)
  {
    var bs := xs + [b] + ys;
    assert bs[|xs|] == b && bs[|xs| + 1..] == ys && xs[..|xs|] == xs && Block(b.off, b.End() - b.off) == b;
    if xs != [] { assert bs[|xs| - 1] == xs[|xs| - 1] && bs[..|xs| - 1] == xs[..|xs| - 1]; }
  }

  lemma ParkedList(xs: seq<Block>, b: Block, ys: seq<Block>, a: nat, lo: nat, k: nat, hi: nat)
    requires (k, hi) == if ys != [] && b.End() == ys[0].off then (1, ys[0].End()) else (0, b.End())
    requires (a, lo) == if xs != [] && xs[|xs| - 1].End() == b.off then (|xs| - 1, xs[|xs| - 1].off) else (|xs|, b.off)
    ensures LeftMerged(RightMerged(xs + [b] + ys, |xs|), |xs|) == (xs[..a] + [Block(lo, hi - lo)] + ys[k..], a)
  {
    MergedRight(xs, b, ys, k, hi);
    MergedLeft(xs, Block(b.off, hi - b.off), ys[k..], a, lo);
  }

  lemma SwallowedByRetraction(h: RawHeap, a: nat, c: nat, lo: nat, hi: nat, bs: seq<Block>)
    requires a <= c <= |h.blocks| && lo <= hi
    requires bs == h.blocks[..a] + [Block(lo, hi - lo)] + h.blocks[c..]
    ensures bs[a] == Block(lo, hi - lo)
    ensures Swallowed(h, a, c, lo, hi) ==
      if bs[a].End() == h.offset then RawHeap(h.capacity, bs[a].off, bs[..a] + bs[a + 1..])
      else RawHeap(h.capacity, h.offset, bs)
  {
    assert bs[..a] == h.blocks[..a] && bs[a + 1..] == h.blocks[c..];
  }

  /** Insertion followed by the two merges and the retraction is `Edited`. */
  lemma ParkedIsEdited(h: RawHeap, pos: nat, off: nat, len: nat)
    requires pos <= |h.blocks| && 0 < len
    requires 0 < pos ==> h.blocks[pos - 1].End() <= off
    ensures
      var (bs, idx) := LeftMerged(RightMerged(h.blocks[..pos] + [Block(off, len)] + h.blocks[pos..], pos), pos);
      && idx < |bs|
      && Edited(h, pos, off, len) ==
         if bs[idx].End() == h.offset then RawHeap(h.capacity, bs[idx].off, bs[..idx] + bs[idx + 1..])
         else RawHeap(h.capacity, h.offset, bs)
  {
    hide LeftMerged, RightMerged, Edited, Swallowed;
    var a, lo, k, hi := Swallow(h.blocks, pos, off, len);
    EditedIsSwallowed(h, pos, off, len, a, lo, pos + k, hi);
    ParkedInPlace(h.blocks, pos, off, len, a, lo, k, hi);
    SwallowedByRetraction(h, a, pos + k, lo, hi, h.blocks[..a] + [Block(lo, hi - lo)] + h.blocks[pos + k..]);
  }

  lemma ParkedInPlace(hs: seq<Block>, pos: nat, off: nat, len: nat, a: nat, lo: nat, k: nat, hi: nat)
    requires a <= pos <= pos + k <= |hs| && lo < hi
    requires var xs := hs[..pos]; (a, lo) == if xs != [] && xs[|xs| - 1].End() == off then (|xs| - 1, xs[|xs| - 1].off) else (|xs|, off)
    requires var ys := hs[pos..]; (k, hi) == if ys != [] && off + len == ys[0].off then (1, ys[0].End()) else (0, off + len)
    ensures LeftMerged(RightMerged(hs[..pos] + [Block(off, len)] + hs[pos..], pos), pos) == (hs[..a] + [Block(lo, hi - lo)] + hs[pos + k..], a)
  {
    hide LeftMerged, RightMerged;
    var xs, ys := hs[..pos], hs[pos..];
    ParkedList(xs, Block(off, len), ys, a, lo, k, hi);
    TakeDrop(hs, pos, a, pos + k);
  }

  /** What the new block swallows on either side, read off the whole list or off its two halves. */
  lemma Swallow(hs: seq<Block>, pos: nat, off: nat, len: nat) returns (a: nat, lo: nat, k: nat, hi: nat)
    requires pos <= |hs| && 0 < len && (0 < pos ==> hs[pos - 1].End() <= off)
    ensures (a, lo) == if 0 < pos && hs[pos - 1].End() == off then (pos - 1, hs[pos - 1].off) else (pos, off)
    ensures (pos + k, hi) == if pos < |hs| && off + len == hs[pos].off then (pos + 1, hs[pos].End()) else (pos, off + len)
    ensures var xs := hs[..pos]; (a, lo) == if xs != [] && xs[|xs| - 1].End() == off then (|xs| - 1, xs[|xs| - 1].off) else (|xs|, off)
    ensures var ys := hs[pos..]; (k, hi) == if ys != [] && off + len == ys[0].off then (1, ys[0].End()) else (0, off + len)
    ensures a <= pos <= pos + k <= |hs| && lo < hi
  {
    if 0 < pos && hs[pos - 1].End() == off { a, lo := pos - 1, hs[pos - 1].off; } else { a, lo := pos, off; }
    if pos < |hs| && off + len == hs[pos].off { k, hi := 1, hs[pos].End(); } else { k, hi := 0, off + len; }
  }

  lemma EditedIsSwallowed(h: RawHeap, pos: nat, off: nat, len: nat, a: nat, lo: nat, c: nat, hi: nat)
    requires pos <= |h.blocks| && 0 < len && (0 < pos ==> h.blocks[pos - 1].End() <= off)
    requires (a, lo) == if 0 < pos && h.blocks[pos - 1].End() == off then (pos - 1, h.blocks[pos - 1].off) else (pos, off)
    requires (c, hi) == if pos < |h.blocks| && off + len == h.blocks[pos].off then (pos + 1, h.blocks[pos].End()) else (pos, off + len)
    ensures a <= c <= |h.blocks| && lo < hi && Edited(h, pos, off, len) == Swallowed(h, a, c, lo, hi)
  {
    hide Swallowed;
  }

  lemma TakeDrop(hs: seq<Block>, pos: nat, a: nat, c: nat)
    requires a <= pos <= c <= |hs|
    ensures hs[..pos][..a] == hs[..a] && hs[pos..][c - pos..] == hs[c..]
  {
  }

  class RangeAllocator {
    var capacity: nat
    var offset: nat
    var freeBlocks: seq<Block>

    function State(): RawHeap
      reads this
    {
      RawHeap(capacity, offset, freeBlocks)
    }

    predicate Valid()
      reads this
    {
      Inv(State())
    }

    constructor (capacity: nat)
      ensures Valid() && State() == Empty(capacity)
    {
      this.capacity, offset, freeBlocks := capacity, 0, [];
    }

    /** `used`: bytes handed out, as a count of live cells. */
    function UsedBytes(): (u: int)
      requires Valid()
      reads this
      ensures u == |Cells(State())|
    {
      UsedCountsCells(State());
      Used(State())
    }

    method Allocate(bytes: nat) returns (r: Result<nat>)
      requires Valid()
      modifies this
      ensures Valid()
      ensures (State(), r) == AllocateSpec(old(State()), bytes)
    {
      var aligned := Align(bytes);
      var best := ScanBestFit(freeBlocks, aligned);
      if best.Some? {
        var i := best.value;
        var b := freeBlocks[i];
        ghost var carved := Carved(State(), i, aligned);
        CarvedKeepsInv(State(), i, aligned);
        CarvedIsAllocateSpec(State(), bytes);
        if b.len == aligned {
          freeBlocks := freeBlocks[..i] + freeBlocks[i + 1..];
        } else {
          freeBlocks := freeBlocks[i := Block(b.off + aligned, b.len - aligned)];
        }
        assert State() == carved;
        return Ok(b.off);
      }
      if capacity < offset + aligned {
        return Err(DramOom(aligned, capacity - UsedBytes(), capacity));
      }
      BumpIsAllocateSpec(State(), bytes);
      var off := offset;
      offset := offset + aligned;
      return Ok(off);
    }

    method Free(off: nat, bytes: nat)
      requires Valid()
      modifies this
      ensures Valid()
      ensures State() == FreeSpec(old(State()), off, bytes)
    {
      var len := Align(bytes);
      ghost var h: Heap := State();
      var pos := PartitionPoint(freeBlocks, off);
      EditedIsFreeSpec(h, pos, off, bytes);
      if len == 0 || offset < off + len { return; }
      if pos < |freeBlocks| && freeBlocks[pos].off < off + len { return; }
      if 0 < pos && off < freeBlocks[pos - 1].End() { return; }
      Park(pos, off, len);
    }

    /** The list surgery of `free`, once its guards have passed. */
    method Park(pos: nat, off: nat, len: nat)
      requires pos <= |freeBlocks| && 0 < len
      requires 0 < pos ==> freeBlocks[pos - 1].End() <= off
      modifies this`offset, this`freeBlocks
      ensures RawHeap(capacity, offset, freeBlocks) == Edited(old(RawHeap(capacity, offset, freeBlocks)), pos, off, len)
    {
      ParkedIsEdited(RawHeap(capacity, offset, freeBlocks), pos, off, len);
      freeBlocks := freeBlocks[..pos] + [Block(off, len)] + freeBlocks[pos..];
      freeBlocks := CoalesceRight(freeBlocks, pos);
      var idx: nat;
      freeBlocks, idx := CoalesceLeft(freeBlocks, pos);

      // A block that reaches the mark is cut off with it.
      var top := freeBlocks[idx];
      if top.End() == offset {
        offset := top.off;
        freeBlocks := freeBlocks[..idx] + freeBlocks[idx + 1..];
      }
    }
  }
}
