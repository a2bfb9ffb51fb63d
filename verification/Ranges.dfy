/** The coalescing best-fit range allocator, specified by the set of bytes handed out.
  *
  * The concrete state (`RawHeap`) is a high-water mark and a sorted list of free blocks.
  * Its meaning (`Cells`) is the set of bytes currently handed out.  `Canonical` shows that
  * the meaning determines the state, so the two operations can be specified as set union and
  * set difference, with no reference to how the list is edited.
  */
module Ranges {

  const ALIGN: nat := 64

  /** Round up to a multiple of 64. */
  function Align(n: nat): (r: nat)
    ensures r % ALIGN == 0 && n <= r < n + ALIGN
  {
    (n + ALIGN - 1) / ALIGN * ALIGN
  }

  lemma AlignIsLeast(n: nat, m: nat)
    ensures Align(n) % ALIGN == 0 && n <= Align(n) < n + ALIGN
    ensures n <= m && m % ALIGN == 0 ==> Align(n) <= m
    ensures Align(n) == 0 <==> n == 0
  {
  }

  /** `n` with its `k` lowest bits cleared. */
  function ClearLowBits(n: nat, k: nat): nat {
    if k == 0 then n else 2 * ClearLowBits(n / 2, k - 1)
  }

  /** The source's mask, `(n + 63) & !63`, computes `Align`. */
  lemma AlignIsMask(n: nat)
    ensures ClearLowBits(n + 63, 6) == Align(n)
  {
    var m := n + 63;
    var q := m / 2 / 2 / 2 / 2 / 2 / 2;
    assert q == m / 64;
    assert ClearLowBits(q, 0) == q;
    assert ClearLowBits(m / 2 / 2 / 2 / 2, 2) == 4 * q;
    assert ClearLowBits(m / 2 / 2, 4) == 16 * q;
  }

  datatype Block = Block(off: nat, len: nat) {
    function End(): nat { off + len }
    predicate Has(p: nat) { off <= p < off + len }
  }

  datatype RawHeap = RawHeap(capacity: nat, offset: nat, blocks: seq<Block>)

  /** A gap separates block `i` from the later block `j`. */
  predicate Before(bs: seq<Block>, i: nat, j: nat)
    requires i < j < |bs|
  {
    bs[i].End() < bs[j].off
  }

  /** Non-empty, sorted, and with a gap between any two blocks (nothing left to coalesce). */
  predicate Coalesced(bs: seq<Block>) {
    && (forall i :: 0 <= i < |bs| ==> 0 < bs[i].len)
    && (forall i, j :: 0 <= i < j < |bs| ==> Before(bs, i, j))
  }

  predicate Inv(h: RawHeap) {
    && h.offset <= h.capacity
    && Coalesced(h.blocks)
    && (forall i :: 0 <= i < |h.blocks| ==> h.blocks[i].End() < h.offset)
  }

  type Heap = h: RawHeap | Inv(h) witness RawHeap(0, 0, [])

  function Empty(capacity: nat): Heap { RawHeap(capacity, 0, []) }

  predicate At(bs: seq<Block>, i: int, p: nat) {
    0 <= i < |bs| && bs[i].Has(p)
  }

  ghost predicate InFree(bs: seq<Block>, p: nat) {
    exists i :: At(bs, i, p)
  }

  ghost function Range(a: nat, n: nat): set<nat> {
    set p: nat | p < a + n && Block(a, n).Has(p)
  }

  /** The bytes handed out: below the mark and on no free block. */
  ghost function Cells(h: RawHeap): set<nat> {
    set p: nat | p < h.offset && !InFree(h.blocks, p)
  }

  function SumLen(bs: seq<Block>): nat {
    if bs == [] then 0 else SumLen(bs[..|bs| - 1]) + bs[|bs| - 1].len
  }

  /** `used()`: the mark minus everything on the free list. */
  function Used(h: RawHeap): int { h.offset - SumLen(h.blocks) }

  // ---------------------------------------------------------------- canonicity

  lemma TopIsLive(h: Heap)
    requires 0 < h.offset
    ensures h.offset - 1 in Cells(h)
  {
  }

  lemma SortedAround(bs: seq<Block>, k: nat)
    requires Coalesced(bs) && k < |bs|
    ensures forall i :: 0 <= i < k ==> bs[i].End() < bs[k].off
    ensures forall i :: k < i < |bs| ==> bs[k].End() < bs[i].off
  {
    forall i | 0 <= i < k ensures bs[i].End() < bs[k].off { assert Before(bs, i, k); }
    forall i | k < i < |bs| ensures bs[k].End() < bs[i].off { assert Before(bs, k, i); }
  }

  /** A stretch of a coalesced list is coalesced. */
  lemma CoalescedSlice(bs: seq<Block>, a: nat, c: nat)
    requires Coalesced(bs) && a <= c <= |bs|
    ensures Coalesced(bs[a..c])
  {
    forall i, j | 0 <= i < j < c - a ensures Before(bs[a..c], i, j) {
      assert Before(bs, a + i, a + j);
    }
  }

  lemma CoalescedConcat(xs: seq<Block>, ys: seq<Block>)
    requires Coalesced(xs) && Coalesced(ys)
    requires forall i, j :: 0 <= i < |xs| && 0 <= j < |ys| ==> xs[i].End() < ys[j].off
    ensures Coalesced(xs + ys)
  {
    var bs := xs + ys;
    forall i, j | 0 <= i < j < |bs| ensures Before(bs, i, j) {
      if j < |xs| { assert Before(xs, i, j); }
      else if |xs| <= i { assert Before(ys, i - |xs|, j - |xs|); }
    }
  }

  lemma InFreeConcat(xs: seq<Block>, ys: seq<Block>, p: nat)
    ensures InFree(xs + ys, p) <==> InFree(xs, p) || InFree(ys, p)
  {
    if i :| At(xs, i, p) { assert At(xs + ys, i, p); }
    if i :| At(ys, i, p) { assert At(xs + ys, |xs| + i, p); }
    if i :| At(xs + ys, i, p) { assert if i < |xs| then At(xs, i, p) else At(ys, i - |xs|, p); }
  }

  lemma InFreeOne(b: Block, p: nat)
    ensures InFree([b], p) <==> b.Has(p)
  {
    assert At([b], 0, p) <==> b.Has(p);
  }

  lemma InFreeLast(bs: seq<Block>, b: Block, p: nat)
    ensures InFree(bs + [b], p) <==> InFree(bs, p) || b.Has(p)
  {
    InFreeConcat(bs, [b], p);
    InFreeOne(b, p);
  }

  /** The byte after a free block is live, and so is the byte before it, if any. */
  lemma BlockEdges(h: Heap, i: nat)
    requires i < |h.blocks|
    ensures h.blocks[i].End() in Cells(h)
    ensures 0 < h.blocks[i].off ==> h.blocks[i].off - 1 in Cells(h)
  {
    forall j ensures !At(h.blocks, j, h.blocks[i].End()) {
      if 0 <= j < i { assert Before(h.blocks, j, i); }
      if i < j < |h.blocks| { assert Before(h.blocks, i, j); }
    }
    if 0 < h.blocks[i].off {
      var p := h.blocks[i].off - 1;
      forall j ensures !At(h.blocks, j, p) {
        if 0 <= j < i { assert Before(h.blocks, j, i); }
        if i < j < |h.blocks| { assert Before(h.blocks, i, j); }
      }
    }
  }

  lemma TailFree(bs: seq<Block>, p: nat)
    requires Coalesced(bs) && bs != []
    ensures Coalesced(bs[1..])
    ensures InFree(bs[1..], p) <==> InFree(bs, p) && !bs[0].Has(p)
  {
    CoalescedSlice(bs, 1, |bs|);
    assert bs[1..|bs|] == bs[1..];
    assert bs == [bs[0]] + bs[1..];
    InFreeConcat([bs[0]], bs[1..], p);
    InFreeOne(bs[0], p);
    if i :| At(bs[1..], i, p) { assert Before(bs, 0, i + 1); }
  }

  lemma HeadNotAfter(xs: seq<Block>, ys: seq<Block>)
    requires Coalesced(xs) && Coalesced(ys) && ys != []
    requires forall p: nat :: InFree(xs, p) <==> InFree(ys, p)
    ensures xs != [] && xs[0].off <= ys[0].off
  {
    assert At(ys, 0, ys[0].off);
    assert InFree(xs, ys[0].off);
    var i :| At(xs, i, ys[0].off);
    if 0 < i { assert Before(xs, 0, i); }
  }

  lemma HeadNotLonger(xs: seq<Block>, ys: seq<Block>)
    requires Coalesced(xs) && Coalesced(ys) && xs != [] && ys != [] && xs[0].off == ys[0].off
    requires forall p: nat :: InFree(xs, p) <==> InFree(ys, p)
    ensures xs[0].len <= ys[0].len
  {
    var e := ys[0].End();
    forall j ensures !At(ys, j, e) {
      if 0 < j < |ys| { assert Before(ys, 0, j); }
    }
    assert !InFree(ys, e);
    assert !At(xs, 0, e);
  }

  lemma {:induction false} SameBlocks(xs: seq<Block>, ys: seq<Block>)
    requires Coalesced(xs) && Coalesced(ys)
    requires forall p: nat :: InFree(xs, p) <==> InFree(ys, p)
    ensures xs == ys
  {
    if ys != [] { HeadNotAfter(xs, ys); }
    if xs != [] { HeadNotAfter(ys, xs); }
    if xs != [] {
      HeadNotLonger(xs, ys);
      HeadNotLonger(ys, xs);
      forall p: nat ensures InFree(xs[1..], p) <==> InFree(ys[1..], p) {
        TailFree(xs, p);
        TailFree(ys, p);
      }
      TailFree(xs, 0);
      TailFree(ys, 0);
      SameBlocks(xs[1..], ys[1..]);
      assert xs == [xs[0]] + xs[1..] && ys == [ys[0]] + ys[1..];
    }
  }

  /** The set of live bytes determines the whole allocator state. */
  lemma Canonical(a: Heap, b: Heap)
    requires a.capacity == b.capacity && Cells(a) == Cells(b)
    ensures a == b
  {
    if 0 < a.offset { TopIsLive(a); }
    if 0 < b.offset { TopIsLive(b); }
    forall p: nat ensures InFree(a.blocks, p) <==> InFree(b.blocks, p) {
      assert p in Cells(a) <==> p in Cells(b);
    }
    SameBlocks(a.blocks, b.blocks);
  }

  // ------------------------------------------- the state built from its meaning

  /** The heap whose live bytes are the members of `cells` below `n`, built by one left-to-right scan. */
  ghost function Scan(capacity: nat, cells: set<nat>, n: nat): (h: Heap)
    requires n <= capacity
    ensures h.capacity == capacity && h.offset <= n
    ensures forall p: nat :: p in Cells(h) <==> p in cells && p < n
  {
    if n == 0 then Empty(capacity)
    else
      var h := Scan(capacity, cells, n - 1);
      if n - 1 !in cells then h
      else if h.offset == n - 1 then RawHeap(capacity, n, h.blocks)
      else
        var gap := Block(h.offset, n - 1 - h.offset);
        assert forall p: nat :: InFree(h.blocks + [gap], p) <==> InFree(h.blocks, p) || gap.Has(p) by {
          forall p: nat ensures InFree(h.blocks + [gap], p) <==> InFree(h.blocks, p) || gap.Has(p) {
            InFreeLast(h.blocks, gap, p);
          }
        }
        CoalescedConcat(h.blocks, [gap]);
        RawHeap(capacity, n, h.blocks + [gap])
  }

  ghost function FromCells(capacity: nat, cells: set<nat>): (h: Heap)
    requires forall p :: p in cells ==> p < capacity
    ensures h.capacity == capacity && Cells(h) == cells
  {
    Scan(capacity, cells, capacity)
  }
}
