/** Live ranges over whole runs of a `RangeAllocator`: what clients hold determines its state. */
module LiveRanges {
  import opened Common
  import opened Ranges
  import opened RangeOps

  /** The bytes set aside for a request: its size rounded up. */
  ghost function Span(b: Block): set<nat> { Range(b.off, Align(b.len)) }

  /** Every live request has its own non-empty span of handed-out bytes. */
  ghost predicate Covers<K>(h: Heap, live: map<K, Block>) {
    && (forall k :: k in live ==> 0 < live[k].len && Span(live[k]) <= Cells(h))
    && (forall j, k :: j in live && k in live && j != k ==> Span(live[j]) !! Span(live[k]))
  }

  /** The live requests account for all handed-out bytes, at aligned offsets. */
  ghost predicate Good<K>(h: Heap, live: map<K, Block>) {
    && Covers(h, live)
    && (forall k :: k in live ==> live[k].off % ALIGN == 0)
    && (forall p :: p in Cells(h) ==> exists k :: k in live && p in Span(live[k]))
  }

  lemma AlignedSum(x: nat, y: nat)
    requires x % ALIGN == 0 && y % ALIGN == 0
    ensures (x + y) % ALIGN == 0
  {
  }

  lemma LiveRunEndsAligned<K>(h: Heap, live: map<K, Block>, a: nat)
    requires Good(h, live) && 0 < a && a - 1 in Cells(h) && a !in Cells(h)
    ensures a % ALIGN == 0
  {
    var k :| k in live && a - 1 in Span(live[k]);
    assert a !in Span(live[k]);
    assert a == live[k].off + Align(live[k].len);
    AlignedSum(live[k].off, Align(live[k].len));
  }

  lemma PlaceIsAligned<K>(h: Heap, live: map<K, Block>, n: nat)
    requires Good(h, live) && Place(h, n).Some?
    ensures Place(h, n).value % ALIGN == 0
  {
    var a := Place(h, n).value;
    var r := BestFit(h.blocks, n);
    if r.Some? {
      BlocksAreMaximalGaps(h, h.blocks[r.value]);
      assert h.blocks[r.value].Has(a);
    } else if 0 < a {
      TopIsLive(h);
    }
    if 0 < a { LiveRunEndsAligned(h, live, a); }
  }

  lemma CoversAllocate<K>(h: Heap, live: map<K, Block>, k: K, bytes: nat)
    requires Covers(h, live) && k !in live && 0 < bytes
    requires AllocateSpec(h, bytes).1.Ok?
    ensures Covers(AllocateSpec(h, bytes).0, live[k := Block(AllocateSpec(h, bytes).1.value, bytes)])
    ensures AllocateSpec(h, bytes).1.value + bytes <= h.capacity
  {
    PlaceIsVacant(h, Align(bytes));
  }

  lemma GoodAllocate<K>(h: Heap, live: map<K, Block>, k: K, bytes: nat)
    requires Good(h, live) && k !in live && 0 < bytes
    requires AllocateSpec(h, bytes).1.Ok?
    ensures Good(AllocateSpec(h, bytes).0, live[k := Block(AllocateSpec(h, bytes).1.value, bytes)])
  {
    var (t, r) := AllocateSpec(h, bytes);
    var live' := live[k := Block(r.value, bytes)];
    CoversAllocate(h, live, k, bytes);
    PlaceIsAligned(h, live, Align(bytes));
    forall p | p in Cells(t) ensures exists j :: j in live' && p in Span(live'[j]) {
      if p in Cells(h) {
        var j :| j in live && p in Span(live[j]);
        assert j in live' && p in Span(live'[j]);
      } else {
        assert k in live' && p in Span(live'[k]);
      }
    }
  }

  lemma GoodFree<K>(h: Heap, live: map<K, Block>, k: K)
    requires Good(h, live) && k in live
    ensures Good(FreeSpec(h, live[k].off, live[k].len), live - {k})
    ensures Cells(FreeSpec(h, live[k].off, live[k].len)) == Cells(h) - Span(live[k])
  {
    AlignIsLeast(live[k].len, 0);
    var f := FreeSpec(h, live[k].off, live[k].len);
    var live' := live - {k};
    forall p | p in Cells(f) ensures exists j :: j in live' && p in Span(live'[j]) {
      var j :| j in live && p in Span(live[j]);
      assert j in live';
    }
  }

  lemma NothingLive(capacity: nat)
    ensures Good<nat>(Empty(capacity), map[])
  {
  }

  /** Same live ranges, same state: nothing else about the history survives. */
  lemma GoodIsCanonical<J, K>(a: Heap, la: map<J, Block>, b: Heap, lb: map<K, Block>)
    requires a.capacity == b.capacity && Good(a, la) && Good(b, lb)
    requires la.Values == lb.Values
    ensures a == b
  {
    forall p ensures p in Cells(a) <==> p in Cells(b) {
      if p in Cells(a) {
        var j :| j in la && p in Span(la[j]);
        assert la[j] in lb.Values;
      }
      if p in Cells(b) {
        var k :| k in lb && p in Span(lb[k]);
        assert lb[k] in la.Values;
      }
    }
    Canonical(a, b);
  }

  /** Aligned sizes of the live requests, added up in any order. */
  ghost function TotalSize<K>(live: map<K, Block>): nat {
    if live == map[] then 0
    else
      var k :| k in live;
      Align(live[k].len) + TotalSize(live - {k})
  }

  lemma {:induction false} CountBySize<K>(cells: set<nat>, live: map<K, Block>)
    requires forall j, k :: j in live && k in live && j != k ==> Span(live[j]) !! Span(live[k])
    requires forall k :: k in live ==> Span(live[k]) <= cells
    requires forall p :: p in cells ==> exists k :: k in live && p in Span(live[k])
    ensures |cells| == TotalSize(live)
  {
    if live == map[] {
      assert cells == {};
    } else {
      var k :| k in live && TotalSize(live) == Align(live[k].len) + TotalSize(live - {k});
      var rest := live - {k};
      var cells' := cells - Span(live[k]);
      forall p | p in cells' ensures exists j :: j in rest && p in Span(rest[j]) {
        var j :| j in live && p in Span(live[j]);
        assert j in rest;
      }
      CountBySize(cells', rest);
      RangeSize(live[k].off, Align(live[k].len));
    }
  }

  lemma SpanAvoidsBlock(h: Heap, b: Block, i: nat)
    requires i < |h.blocks| && Span(b) <= Cells(h) && 0 < b.len
    ensures b.off + Align(b.len) <= h.blocks[i].off || h.blocks[i].End() <= b.off
  {
    var c := h.blocks[i];
    var lo := if b.off <= c.off then c.off else b.off;
    assert At(h.blocks, i, lo) ==> lo !in Cells(h);
    assert lo < b.off + Align(b.len) ==> lo in Span(b);
  }

  /** Safety of the live ranges: aligned, in the region, pairwise disjoint, off the free list, and
    * their aligned sizes add up to `used()`. */
  lemma LiveRangesAreSafe<K>(h: Heap, live: map<K, Block>)
    requires Good(h, live)
    ensures forall k :: k in live ==> live[k].off % ALIGN == 0 && live[k].off + Align(live[k].len) <= h.capacity
    ensures forall j, k :: j in live && k in live && j != k ==> Span(live[j]) !! Span(live[k])
    ensures forall k, i :: k in live && 0 <= i < |h.blocks| ==>
      live[k].off + Align(live[k].len) <= h.blocks[i].off || h.blocks[i].End() <= live[k].off
    ensures Used(h) == TotalSize(live)
  {
    forall k | k in live ensures live[k].off + Align(live[k].len) <= h.offset {
      assert live[k].off + Align(live[k].len) - 1 in Span(live[k]);
    }
    forall k, i | k in live && 0 <= i < |h.blocks|
      ensures live[k].off + Align(live[k].len) <= h.blocks[i].off || h.blocks[i].End() <= live[k].off
    {
      SpanAvoidsBlock(h, live[k], i);
    }
    UsedCountsCells(h);
    CountBySize(Cells(h), live);
  }

  // ------------------------------------------------------------------- runs

  datatype RangeOp = Alloc(bytes: nat) | Free(id: nat)

  /** An allocator with its well-behaved clients: each live request has an identity. */
  datatype RangeClients = RangeClients(heap: Heap, live: map<nat, Block>, next: nat)

  ghost function RangeStep(c: RangeClients, op: RangeOp): RangeClients {
    match op
    case Alloc(bytes) =>
      var (h, r) := AllocateSpec(c.heap, bytes);
      if r.Ok? && 0 < bytes then RangeClients(h, c.live[c.next := Block(r.value, bytes)], c.next + 1)
      else RangeClients(h, c.live, c.next)
    case Free(id) =>
      if id in c.live then RangeClients(FreeSpec(c.heap, c.live[id].off, c.live[id].len), c.live - {id}, c.next)
      else c
  }

  ghost function RangeRun(c: RangeClients, ops: seq<RangeOp>): RangeClients
    decreases |ops|
  {
    if ops == [] then c else RangeRun(RangeStep(c, ops[0]), ops[1..])
  }

  ghost predicate Reachable(c: RangeClients) {
    && Good(c.heap, c.live)
    && forall id :: id in c.live ==> id < c.next
  }

  function RangeStart(capacity: nat): RangeClients { RangeClients(Empty(capacity), map[], 0) }

  lemma StepKeepsGood(c: RangeClients, op: RangeOp)
    requires Reachable(c)
    ensures Reachable(RangeStep(c, op)) && RangeStep(c, op).heap.capacity == c.heap.capacity
  {
    match op
    case Alloc(bytes) =>
      if bytes == 0 { AllocateNothing(c.heap); }
      else if AllocateSpec(c.heap, bytes).1.Ok? { GoodAllocate(c.heap, c.live, c.next, bytes); }
    case Free(id) =>
      if id in c.live { GoodFree(c.heap, c.live, id); }
  }

  /** Every run keeps the live ranges in full agreement with the allocator. */
  lemma {:induction false} RunKeepsGood(c: RangeClients, ops: seq<RangeOp>)
    requires Reachable(c)
    ensures Reachable(RangeRun(c, ops)) && RangeRun(c, ops).heap.capacity == c.heap.capacity
    decreases |ops|
  {
    if ops != [] {
      StepKeepsGood(c, ops[0]);
      RunKeepsGood(RangeStep(c, ops[0]), ops[1..]);
    }
  }

  /** Two histories that leave the same ranges live leave the identical allocator. */
  lemma HistoriesAgree(capacity: nat, xs: seq<RangeOp>, ys: seq<RangeOp>)
    requires RangeRun(RangeStart(capacity), xs).live.Values == RangeRun(RangeStart(capacity), ys).live.Values
    ensures RangeRun(RangeStart(capacity), xs).heap == RangeRun(RangeStart(capacity), ys).heap
  {
    RunKeepsGood(RangeStart(capacity), xs);
    RunKeepsGood(RangeStart(capacity), ys);
    var c, d := RangeRun(RangeStart(capacity), xs), RangeRun(RangeStart(capacity), ys);
    GoodIsCanonical(c.heap, c.live, d.heap, d.live);
  }

  lemma {:induction false} FreeingShrinks(c: RangeClients, ids: seq<nat>)
    ensures RangeRun(c, seq(|ids|, i requires 0 <= i < |ids| => Free(ids[i]))).live.Keys == c.live.Keys - (set i | 0 <= i < |ids| :: ids[i])
    decreases |ids|
  {
    var ops := seq(|ids|, i requires 0 <= i < |ids| => Free(ids[i]));
    if ids != [] {
      assert ops[1..] == seq(|ids[1..]|, i requires 0 <= i < |ids[1..]| => Free(ids[1..][i]));
      FreeingShrinks(RangeStep(c, ops[0]), ids[1..]);
      var s := set i | 0 <= i < |ids| :: ids[i];
      var t := set i | 0 <= i < |ids[1..]| :: ids[1..][i];
      forall x | x in s ensures x == ids[0] || x in t {
        var i :| 0 <= i < |ids| && ids[i] == x;
        if 0 < i { assert ids[1..][i - 1] == x; }
      }
      assert forall x :: x in t ==> x in s;
      assert ids[0] in s;
    }
  }

  /** After any run, freeing everything live, in any order, restores the initial state. */
  lemma DrainRestoresStart(capacity: nat, ops: seq<RangeOp>, ids: seq<nat>)
    requires forall id :: id in RangeRun(RangeStart(capacity), ops).live ==> id in ids
    ensures RangeRun(RangeRun(RangeStart(capacity), ops), seq(|ids|, i requires 0 <= i < |ids| => Free(ids[i]))).heap == Empty(capacity)
  {
    var c := RangeRun(RangeStart(capacity), ops);
    var frees := seq(|ids|, i requires 0 <= i < |ids| => Free(ids[i]));
    RunKeepsGood(RangeStart(capacity), ops);
    RunKeepsGood(c, frees);
    FreeingShrinks(c, ids);
    assert c.live.Keys <= set i | 0 <= i < |ids| :: ids[i];
    var d := RangeRun(c, frees);
    assert d.live == map[];
    var none: map<nat, Block> := map[];
    NothingLive(capacity);
    GoodIsCanonical(d.heap, d.live, Empty(capacity), none);
  }

  /** `n` bytes at `a` lie in the region and meet no live range. */
  ghost predicate Vacant<K>(capacity: nat, live: map<K, Block>, a: nat, n: nat) {
    a + n <= capacity && forall id :: id in live ==> Range(a, n) !! Span(live[id])
  }

  lemma VacantIffNoCell<K>(h: Heap, live: map<K, Block>, a: nat, n: nat)
    requires Good(h, live)
    ensures Vacant(h.capacity, live, a, n) <==> a + n <= h.capacity && Range(a, n) !! Cells(h)
  {
    if Vacant(h.capacity, live, a, n) {
      forall p | p in Cells(h) ensures p !in Range(a, n) {
        var k :| k in live && p in Span(live[k]);
      }
    }
  }

  /** Over any run, a request succeeds exactly when an aligned-size run of bytes meets no live
    * range; otherwise nothing changes and the error reports the bytes that are not live. */
  lemma AllocationIsComplete(capacity: nat, ops: seq<RangeOp>, bytes: nat)
    ensures
      var c := RangeRun(RangeStart(capacity), ops);
      var (h, r) := AllocateSpec(c.heap, bytes);
      && (r.Ok? <==> exists a: nat :: Vacant(capacity, c.live, a, Align(bytes)))
      && (r.Err? ==> h == c.heap && r.error == DramOom(Align(bytes), capacity - TotalSize(c.live), capacity))
  {
    RunKeepsGood(RangeStart(capacity), ops);
    var c := RangeRun(RangeStart(capacity), ops);
    var n := Align(bytes);
    AllocateSucceedsIff(c.heap, bytes);
    LiveRangesAreSafe(c.heap, c.live);
    forall a: nat ensures Vacant(capacity, c.live, a, n) <==> a + n <= capacity && Range(a, n) !! Cells(c.heap) {
      VacantIffNoCell(c.heap, c.live, a, n);
    }
  }
}
