/** The staged promotion of a cold page, on any GPU and in any pool state. */
module TieredStaging {
  import opened Common
  import opened Ranges
  import opened RangeOps
  import opened DramPools
  import opened Tiered
  import opened TieredHost
  import opened TieredOne

  /** The last request of the halving loop: the first one at or below the floor. */
  function SmallestRequest(want: nat): (n: nat)
    ensures n <= want && n <= STAGING_FLOOR
    ensures want != 0 ==> n != 0
  {
    if want <= STAGING_FLOOR then want else SmallestRequest(want / 2)
  }

  /** It is the request itself up to one MiB, and between half and one MiB above that. */
  lemma {:induction false} SmallestRequestBounds(want: nat)
    ensures if want <= 1048576 then SmallestRequest(want) == want else 524288 <= SmallestRequest(want) <= 1048576
    decreases want
  {
    if 1048576 < want { SmallestRequestBounds(want / 2); }
  }

  lemma AlignMonotone(m: nat, n: nat)
    requires m <= n
    ensures Align(m) <= Align(n)
  {
    AlignIsLeast(n, 0);
    AlignIsLeast(m, Align(n));
  }

  /** A pool that can serve a request can serve any smaller one. */
  lemma SmallerFits(p: Pool, m: nat, n: nat)
    requires m <= n && PoolAllocate(p, n).1.Ok?
    ensures PoolAllocate(p, m).1.Ok?
  {
    AllocateSucceedsIff(p.heap, n);
    AllocateSucceedsIff(p.heap, m);
    AlignMonotone(m, n);
    var a: nat :| a + Align(n) <= p.heap.capacity && Range(a, Align(n)) !! Cells(p.heap);
    assert Range(a, Align(m)) <= Range(a, Align(n));
  }

  /** The halving loop finds a buffer if and only if the pool could serve its last request. */
  lemma {:induction false} BorrowSucceedsIff(p: Pool, want: nat)
    ensures Borrow(p, want).Ok? <==> PoolAllocate(p, SmallestRequest(want)).1.Ok?
    decreases want
  {
    if PoolAllocate(p, want).1.Ok? {
      SmallerFits(p, SmallestRequest(want), want);
    } else if STAGING_FLOOR < want {
      BorrowSucceedsIff(p, want / 2);
    }
  }

  /** Past the end of the file the copy loop stops with an error. */
  lemma {:induction false} StreamStops(host: seq<byte>, dev: seq<byte>, file: seq<byte>, offset: nat, stage: nat, len: nat, total: nat, done: nat)
    requires 0 < len && done < total && |file| < offset + total
    ensures !Stream(host, dev, file, offset, stage, len, total, done).2
    decreases total - done
  {
    var n := if len <= total - done then len else total - done;
    if offset + done + n <= |file| {
      var host1 := Poke(host, stage, Peek(file, offset + done, n));
      StreamStops(host1, Poke(dev, done, Peek(host1, stage, n)), file, offset, stage, len, total, done + n);
    }
  }

  /** The borrowed buffer lies in the pool, on bytes nobody owns. */
  lemma BufferIsVacant(p: Pool, len: nat, q: nat)
    requires PoolAllocate(p, len).1.Ok? && PoolAllocate(p, len).1.value <= q < PoolAllocate(p, len).1.value + len
    ensures p.base <= q < p.End() && q - p.base !in Cells(p.heap)
  {
    PlaceIsVacant(p.heap, Align(len));
    assert q - p.base in Range(PoolAllocate(p, len).1.value - p.base, Align(len));
  }

  /** Host memory changed at most on bytes of the pool that nobody owns. */
  ghost predicate OnlyVacantDisturbed(p: Pool, before: seq<byte>, after: seq<byte>) {
    && |after| == |before|
    && (forall q: nat :: q < |before| && after[q] != before[q] ==> p.base <= q < p.End() && q - p.base !in Cells(p.heap))
  }

  /** The copy loop through a borrowed buffer. */
  lemma StreamThroughPool(p: Pool, len: nat, stage: nat, host: seq<byte>, dev: seq<byte>, file: seq<byte>, offset: nat, total: nat)
    requires PoolAllocate(p, len).1 == Ok(stage) && (0 < len || total == 0) && p.End() <= |host| && |dev| == total
    ensures
      var (host', dev', ok) := Stream(host, dev, file, offset, stage, len, total, 0);
      && (ok <==> total == 0 || offset + total <= |file|)
      && (ok ==> dev' == Peek(file, offset, total))
      && OnlyVacantDisturbed(p, host, host')
  {
    var host' := Stream(host, dev, file, offset, stage, len, total, 0).0;
    PlaceIsVacant(p.heap, Align(len));
    forall q: nat | q < |host| && host'[q] != host[q] ensures p.base <= q < p.End() && q - p.base !in Cells(p.heap) {
      if !(stage <= q < stage + len) { StreamScribbles(host, dev, file, offset, stage, len, total, 0, q); }
      BufferIsVacant(p, len, q);
    }
    if total == 0 || offset + total <= |file| {
      StreamWhole(host, dev, file, offset, stage, len, total);
    } else {
      StreamStops(host, dev, file, offset, stage, len, total, 0);
    }
  }

  lemma StageUpOutcome(s: State, g: nat, dst: nat, offset: nat, total: nat, t: State, err: Option<Error>, lent: Result<(nat, nat)>)
    requires Wired(s) && g < |s.pools| && s.spill.Some? && dst in s.vram
    requires (t, err) == StageUp(s, g, dst, offset, total) && lent == Borrow(s.pools[g], total)
    ensures lent.Err? ==> t == s && err.Some?
    ensures lent.Ok? ==>
      var (stage, len) := lent.value;
      && PoolAllocate(s.pools[g], len).1 == Ok(stage) && (0 < len || total == 0)
      && var (host, dev, ok) := Stream(s.host, s.vram[dst], s.spill.value.file, offset, stage, len, total, 0);
         t.host == host && t.vram == s.vram[dst := dev] && (err.None? <==> ok)
  {
  }

  /** For every page size and pool state: the pool ends as it was found; the promotion succeeds if and
    * only if a buffer can be had and the file covers the page; then the block is the file range; and
    * the only host bytes disturbed are ones of this pool that nobody owns. */
  lemma StagedPromotion(s: State, g: nat, dst: nat, offset: nat, total: nat, t: State, err: Option<Error>)
    requires Wired(s) && g < |s.pools| && s.pools[g].End() <= |s.host|
    requires s.spill.Some? && dst in s.vram && |s.vram[dst]| == total
    requires (t, err) == StageUp(s, g, dst, offset, total)
    ensures t.pools == s.pools
    ensures err.None? <==>
      PoolAllocate(s.pools[g], SmallestRequest(total)).1.Ok? && (total == 0 || offset + total <= |s.spill.value.file|)
    ensures err.None? ==> t.vram == s.vram[dst := Peek(s.spill.value.file, offset, total)]
    ensures OnlyVacantDisturbed(s.pools[g], s.host, t.host)
  {
    StageUpKeepsPools(s, g, dst, offset, total);
    BorrowSucceedsIff(s.pools[g], total);
    var lent := Borrow(s.pools[g], total);
    StageUpOutcome(s, g, dst, offset, total, t, err, lent);
    if lent.Ok? {
      var (stage, len) := lent.value;
      StreamThroughPool(s.pools[g], len, stage, s.host, s.vram[dst], s.spill.value.file, offset, total);
    }
  }
}
