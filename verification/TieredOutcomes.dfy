/** When the pool's calls succeed, in terms a caller can check beforehand. */
module TieredOutcomes {
  import opened Common
  import opened DramPools
  import opened Vmt
  import opened Tiered
  import opened TieredOne
  import opened TieredStaging
  import opened TieredMany

  // --------------------------------------------------------------------- access

  lemma {:induction false} StreamReadsIff(host: seq<byte>, dev: seq<byte>, file: seq<byte>, offset: nat, stage: nat, len: nat, total: nat, done: nat)
    requires 0 < len || total <= done
    ensures Stream(host, dev, file, offset, stage, len, total, done).2 <==> total <= done || offset + total <= |file|
    decreases total - done
  {
    if done < total {
      var n := if len <= total - done then len else total - done;
      if offset + done + n <= |file| {
        var host1 := Poke(host, stage, Peek(file, offset + done, n));
        StreamReadsIff(host1, Poke(dev, done, Peek(host1, stage, n)), file, offset, stage, len, total, done + n);
      }
    }
  }

  /** The page's own chunk on this GPU can hold the whole page. */
  predicate OwnBuffer(p: Page, g: nat) {
    g < |p.dram| && p.size <= p.dram[g].size
  }

  /** A cold page can be promoted: a block, a buffer and its file range are all there. */
  ghost predicate ColdReady(s: State, p: Page, g: nat, d: Driver)
    requires Wired(s) && g < |s.pools|
  {
    && p.ssd.Some? && s.spill.Some? && Obtainable(s, g, p.size, d)
    && (p.size == 0 || p.ssd.value + p.size <= |s.spill.value.file|)
    && (OwnBuffer(p, g) || PoolAllocate(s.pools[g], SmallestRequest(p.size)).1.Ok?)
  }

  lemma CopyUpIff(s: State, dst: nat, offset: nat, stage: nat, len: nat, total: nat)
    requires 0 < len || total == 0
    ensures CopyUp(s, dst, offset, stage, len, total).1.None? <==>
      s.spill.Some? && (total == 0 || offset + total <= |s.spill.value.file|)
  {
    if s.spill.Some? {
      StreamReadsIff(s.host, if dst in s.vram then s.vram[dst] else [], s.spill.value.file, offset, stage, len, total, 0);
    }
  }

  lemma StageUpIff(s: State, g: nat, dst: nat, offset: nat, total: nat)
    requires Wired(s) && g < |s.pools|
    ensures StageUp(s, g, dst, offset, total).1.None? <==>
      && PoolAllocate(s.pools[g], SmallestRequest(total)).1.Ok?
      && s.spill.Some? && (total == 0 || offset + total <= |s.spill.value.file|)
  {
    hide Stream, PoolFree, SmallestRequest;
    BorrowSucceedsIff(s.pools[g], total);
    if Borrow(s.pools[g], total).Ok? {
      var (stage, len) := Borrow(s.pools[g], total).value;
      CopyUpIff(s.(pools := s.pools[g := PoolAllocate(s.pools[g], len).0]), dst, offset, stage, len, total);
    }
  }

  lemma ColdAccessIff(s: State, name: Name, g: nat, now: nat, d: Driver)
    requires Wired(s) && name in s.pages && g < |s.pools|
    ensures AccessSsd(s, name, g, now, d).1.Ok? <==> ColdReady(s, s.pages[name], g, d)
  {
    hide StageUp, CopyUp, SmallestRequest, PoolAllocate;
    var p := s.pages[name];
    if p.ssd.Some? {
      var (s1, got) := AllocVram(s, g, p.size, d);
      if got.Ok? {
        if OwnBuffer(p, g) {
          CopyUpIff(s1, got.value, p.ssd.value, p.dram[g].hostPtr, p.size, p.size);
        } else {
          StageUpIff(s1, g, got.value, p.ssd.value, p.size);
        }
      }
    }
  }

  /** What the page's tier needs to serve GPU `g`. */
  ghost predicate Ready(s: State, p: Page, g: nat, d: Driver)
    requires Wired(s) && g < |s.pools|
  {
    match p.tier
    case Vram =>
      FindChunk(p.vram, g, true).Some? ||
      (FindChunk(p.vram, g, false).Some? && Obtainable(s, g, FindChunk(p.vram, g, false).value.size, d))
    case Dram => g < |p.dram| && Obtainable(s, g, p.dram[g].size, d) && s.queued[g] < RING
    case Ssd => ColdReady(s, p, g, d)
  }

  lemma TierAccessIff(s: State, name: Name, g: nat, now: nat, d: Driver)
    requires Wired(s) && name in s.pages && g < |s.pools|
    ensures
      var r := match s.pages[name].tier
        case Vram => AccessVram(s, name, g, now, d).1
        case Dram => AccessDram(s, name, g, now, d).1
        case Ssd => AccessSsd(s, name, g, now, d).1;
      r.Ok? <==> Ready(s, s.pages[name], g, d)
  {
    hide AccessSsd, ColdReady;
    if s.pages[name].tier == Ssd { ColdAccessIff(s, name, g, now, d); }
  }

  /** Any number of GPUs, any state: an access succeeds if and only if the page is in the table and
    * either on its way to this GPU or its tier has what it takes.  A prefetch to another GPU does not help. */
  lemma AccessSucceedsIff(s: State, name: Name, g: nat, now: nat, d: Driver)
    requires Wired(s) && g < |s.pools|
    ensures AccessStep(s, name, g, now, d).1.Ok? <==>
      name in s.pages && ((name in s.inflight && s.inflight[name].gpu == g) || Ready(s, s.pages[name], g, d))
  {
    hide AccessVram, AccessDram, AccessSsd, Ready;
    var s1 := s.(membrane := s.membrane.Observed(name));
    var (s2, c) := ClaimStep(s1, name, g, now);
    if c == Ok(None) && name in s2.pages {
      TierAccessIff(s2, name, g, now, d);
      ReadyAfterDiscard(s, s2, s.pages[name], g, d);
    }
  }

  /** Readiness for GPU `g` is a matter of its own cache, pool and ring. */
  lemma ReadyAfterDiscard(s: State, t: State, p: Page, g: nat, d: Driver)
    requires Wired(s) && Wired(t) && g < |s.pools| && t.pools == s.pools && t.queued == s.queued
    requires t.cache[g] == s.cache[g] && t.vram == s.vram && t.spill == s.spill && |t.cache| == |s.cache|
    ensures Ready(t, p, g, d) <==> Ready(s, p, g, d)
  {
  }

  // --------------------------------------------------------------------- demote

  /** A chunk written back to its shard, its block in the cache. */
  function WrittenBack(s: State, c: Chunk, to: nat): (t: State)
    requires Wired(s) && c.gpu < |s.queued|
    ensures Wired(t) && t == s.(queued := t.queued, host := t.host, cache := t.cache)
    ensures t.queued == s.queued[c.gpu := s.queued[c.gpu] + 1] && t.host == Poke(s.host, to, DevRead(s.vram, c.ptr, c.size))
  {
    FreeVram(s.(queued := s.queued[c.gpu := s.queued[c.gpu] + 1], host := Poke(s.host, to, DevRead(s.vram, c.ptr, c.size))),
             c.gpu, c.ptr, c.size)
  }

  /** How many of the chunks `i..j` are on GPU `g`. */
  function CountOn(vram: seq<Chunk>, i: nat, j: nat, g: nat): nat
    requires i <= j <= |vram|
    decreases j - i
  {
    if i == j then 0 else (if vram[i].gpu == g then 1 else 0) + CountOn(vram, i + 1, j, g)
  }

  /** Once chunks `i..j` are written back, chunk `j` has a shard on its GPU that can hold it and a slot
    * in that GPU's ring. */
  predicate ChunkFits(s: State, vram: seq<Chunk>, dram: seq<DramChunk>, i: nat, j: nat)
    requires i <= j < |vram|
  {
    var c := vram[j];
    && c.gpu < |dram| && c.gpu < |s.queued| && c.size <= dram[c.gpu].size
    && s.queued[c.gpu] + CountOn(vram, i, j, c.gpu) < RING
  }

  /** One round of the demotion loop that passes its checks. */
  lemma DemoteOne(s: State, vram: seq<Chunk>, dram: seq<DramChunk>, i: nat, c: Chunk, t: State)
    requires Wired(s) && i < |vram| && c == vram[i] && c.gpu < |dram| && c.gpu < |s.queued|
    requires c.size <= dram[c.gpu].size && s.queued[c.gpu] < RING && t == WrittenBack(s, c, dram[c.gpu].hostPtr)
    ensures DemoteChunks(s, vram, dram, i) == DemoteChunks(t, vram, dram, i + 1)
  {
    hide Poke, DevRead, Peek, FreeVram, CountOn, ChunkFits;
  }

  /** The loop gets through all chunks if and only if each fits. */
  lemma {:induction false} DemoteChunksIff(s: State, vram: seq<Chunk>, dram: seq<DramChunk>, i: nat)
    requires Wired(s) && i <= |vram|
    ensures DemoteChunks(s, vram, dram, i).1.Ok? <==> forall j :: i <= j < |vram| ==> ChunkFits(s, vram, dram, i, j)
    decreases |vram| - i
  {
    hide Poke, DevRead, Peek, FreeVram, WrittenBack;
    if i < |vram| && ChunkFits(s, vram, dram, i, i) {
      var t := WrittenBack(s, vram[i], dram[vram[i].gpu].hostPtr);
      DemoteOne(s, vram, dram, i, vram[i], t);
      DemoteChunksIff(t, vram, dram, i + 1);
      forall j | i < j < |vram| ensures ChunkFits(t, vram, dram, i + 1, j) <==> ChunkFits(s, vram, dram, i, j) {
        OneSlotLess(s, t, vram, dram, i, j);
      }
      if DemoteChunks(t, vram, dram, i + 1).1.Err? {
        var j :| i < j < |vram| && !ChunkFits(t, vram, dram, i + 1, j);
        assert !ChunkFits(s, vram, dram, i, j);
      } else {
        forall j | i <= j < |vram| ensures ChunkFits(s, vram, dram, i, j) {
          assert j == i || ChunkFits(t, vram, dram, i + 1, j);
        }
      }
    }
  }

  lemma OneSlotLess(s: State, t: State, vram: seq<Chunk>, dram: seq<DramChunk>, i: nat, j: nat)
    requires i < j < |vram| && vram[i].gpu < |s.queued| && t.queued == s.queued[vram[i].gpu := s.queued[vram[i].gpu] + 1]
    ensures ChunkFits(t, vram, dram, i + 1, j) <==> ChunkFits(s, vram, dram, i, j)
  {
  }

  /** Any number of GPUs, any state: a demotion succeeds if and only if the page is in the table and
    * has nothing to do, or every block fits the shard of its GPU and gets a slot there. */
  lemma DemoteSucceedsIff(s: State, name: Name)
    requires Wired(s)
    ensures DemoteStep(s, name).1.Ok? <==>
      && name in s.pages
      && var p := s.pages[name];
        p.tier != Vram || p.pinned || forall j :: 0 <= j < |p.vram| ==> ChunkFits(s, p.vram, p.dram, 0, j)
    ensures DemoteStep(s, name).1.Err? ==> DemoteStep(s, name).0.pages == s.pages
  {
    hide DemoteChunks, ChunkFits;
    if name in s.pages { DemoteChunksIff(s, s.pages[name].vram, s.pages[name].dram, 0); }
  }

  /** One GPU: it fails if and only if the page holds a block and has no host chunk (a promoted cold
    * page) or the ring is full, and then nothing changed. */
  lemma DemoteOnOneGpu(s: State, name: Name)
    requires OneOk(s) && name in s.pages
    ensures
      var p := s.pages[name];
      && (DemoteStep(s, name).1.Ok? <==>
            p.tier != Vram || p.pinned || p.vram == [] || (p.dram != [] && s.queued[0] < RING))
      && (DemoteStep(s, name).1.Err? ==> DemoteStep(s, name).0 == s)
  {
    assert PageOk(s.pages[name]);
    if s.pages[name].tier == Vram && !s.pages[name].pinned { DemoteIs(s, name); }
  }

  // ------------------------------------------------- a demotion that stops half-way

  /** The recycle cache of the chunk's GPU holds its block. */
  predicate InCache(s: State, c: Chunk) {
    c.gpu < |s.cache| && exists k :: 0 <= k < |s.cache[c.gpu]| && s.cache[c.gpu][k].ptr == c.ptr
  }

  /** A block of the page is also cached, so the next allocation of its size may take it. */
  predicate SharesBlock(s: State, name: Name) {
    name in s.pages && exists j :: 0 <= j < |s.pages[name].vram| && InCache(s, s.pages[name].vram[j])
  }

  /** What the cache holds stays in it during a demotion. */
  lemma {:induction false} CacheOnlyGrows(s: State, vram: seq<Chunk>, dram: seq<DramChunk>, i: nat, c: Chunk)
    requires Wired(s) && i <= |vram| && InCache(s, c)
    ensures InCache(DemoteChunks(s, vram, dram, i).0, c)
    decreases |vram| - i
  {
    hide Poke, DevRead, Peek;
    if i < |vram| && ChunkFits(s, vram, dram, i, i) {
      var t := WrittenBack(s, vram[i], dram[vram[i].gpu].hostPtr);
      DemoteOne(s, vram, dram, i, vram[i], t);
      var k :| 0 <= k < |s.cache[c.gpu]| && s.cache[c.gpu][k].ptr == c.ptr;
      assert t.cache[c.gpu][k].ptr == c.ptr;
      CacheOnlyGrows(t, vram, dram, i + 1, c);
    }
  }

  /** A block written back is cached, even if the loop fails later. */
  lemma FirstIsCached(s: State, vram: seq<Chunk>, dram: seq<DramChunk>)
    requires Wired(s) && vram != [] && vram[0].ptr != 0 && ChunkFits(s, vram, dram, 0, 0)
    ensures InCache(DemoteChunks(s, vram, dram, 0).0, vram[0])
  {
    hide Poke, DevRead, Peek;
    var c := vram[0];
    var t := WrittenBack(s, c, dram[c.gpu].hostPtr);
    DemoteOne(s, vram, dram, 0, c, t);
    assert t.cache[c.gpu][|s.cache[c.gpu]|].ptr == c.ptr;
    CacheOnlyGrows(t, vram, dram, 1, c);
  }

  /** Any number of GPUs: a demotion leaves a block both listed by the page and cached if and only if
    * the page's first block fits and some later one does not.  If the first does not, nothing changed. */
  lemma FailedDemotionSharesBlocksIff(s: State, name: Name)
    requires Wired(s) && name in s.pages && s.pages[name].vram != [] && s.pages[name].vram[0].ptr != 0
    requires !SharesBlock(s, name)
    ensures
      var (t, p) := (DemoteStep(s, name).0, s.pages[name]);
      && (SharesBlock(t, name) <==>
            && p.tier == Vram && !p.pinned && ChunkFits(s, p.vram, p.dram, 0, 0)
            && exists j :: 0 < j < |p.vram| && !ChunkFits(s, p.vram, p.dram, 0, j))
      && (SharesBlock(t, name) ==> InCache(t, p.vram[0]))
      && (!ChunkFits(s, p.vram, p.dram, 0, 0) ==> t == s)
  {
    hide ChunkFits, InCache, DemoteChunks;
    var p := s.pages[name];
    DemoteSucceedsIff(s, name);
    if p.tier == Vram && !p.pinned {
      if ChunkFits(s, p.vram, p.dram, 0, 0) { FirstIsCached(s, p.vram, p.dram); } else { FirstStops(s, p.vram, p.dram); }
    }
  }

  lemma FirstStops(s: State, vram: seq<Chunk>, dram: seq<DramChunk>)
    requires Wired(s) && vram != [] && !ChunkFits(s, vram, dram, 0, 0)
    ensures DemoteChunks(s, vram, dram, 0).0 == s
  {
  }

  // ------------------------------------------------- pages allocated in the top tier

  /** A page just allocated with `Tier::Vram` has no device block: on any GPU, whatever the driver
    * offers, its first access fails. */
  lemma FirstAccessFails(s: State, name: Name, shape: seq<nat>, elementSize: nat, g: nat, now: nat, d: Driver)
    requires Wired(s) && g < |s.pools| && AllocateStep(s, name, shape, elementSize, Vram).1.Ok?
    requires ChosenName(name, s.nextId) !in s.inflight
    ensures AccessStep(AllocateStep(s, name, shape, elementSize, Vram).0, ChosenName(name, s.nextId), g, now, d).1 == Err(UnknownAllocation)
  {
    AllocateSeeds(s, name, shape, elementSize, Vram);
    FreshVramRecord(s, name, shape, elementSize);
  }

  lemma FreshVramRecord(s: State, name: Name, shape: seq<nat>, elementSize: nat)
    requires Wired(s) && AllocateStep(s, name, shape, elementSize, Vram).1.Ok?
    ensures
      var (t, r) := AllocateStep(s, name, shape, elementSize, Vram);
      r.value in t.pages && t.pages[r.value].vram == [] && t.inflight == s.inflight && !t.pages[r.value].pinned
  {
  }

  /** Demoting it makes it an ordinary warm page, which can be promoted. */
  lemma DemotionMakesItWarm(s: State, name: Name, shape: seq<nat>, elementSize: nat, g: nat, now: nat, d: Driver)
    requires Wired(s) && g < |s.pools| && AllocateStep(s, name, shape, elementSize, Vram).1.Ok?
    requires ChosenName(name, s.nextId) !in s.inflight
    ensures
      var chosen := ChosenName(name, s.nextId);
      var (t, r) := DemoteStep(AllocateStep(s, name, shape, elementSize, Vram).0, chosen);
      && r.Ok? && chosen in t.pages && t.pages[chosen].tier == Dram && t.pages[chosen].state == Warm
      && |t.pools| == |s.pools| && g < |t.pages[chosen].dram|
      && (AccessStep(t, chosen, g, now, d).1.Ok? <==> Obtainable(t, g, t.pages[chosen].dram[g].size, d) && t.queued[g] < RING)
  {
    hide AccessStep, AllocateStep, ColdReady, FindChunk;
    AllocateSeeds(s, name, shape, elementSize, Vram);
    FreshVramRecord(s, name, shape, elementSize);
    var chosen := ChosenName(name, s.nextId);
    var t := DemoteStep(AllocateStep(s, name, shape, elementSize, Vram).0, chosen).0;
    AccessSucceedsIff(t, chosen, g, now, d);
  }

  // ------------------------------------------------------------- which error it is

  /** The first block that does not fit decides: no shard on its GPU, a shard too small, or no ring slot. */
  lemma {:induction false} DemoteChunksFailWith(s: State, vram: seq<Chunk>, dram: seq<DramChunk>, i: nat, j: nat)
    requires Wired(s) && i <= j < |vram| && !ChunkFits(s, vram, dram, i, j) && forall k :: i <= k < j ==> ChunkFits(s, vram, dram, i, k)
    ensures
      var c := vram[j];
      DemoteChunks(s, vram, dram, i).1 == Err(
        if |dram| <= c.gpu || |s.queued| <= c.gpu then UnknownAllocation
        else if dram[c.gpu].size < c.size then DramOom(c.size, dram[c.gpu].size, s.pools[c.gpu].heap.capacity)
        else DmaRingFull)
    decreases j - i
  {
    hide Poke, DevRead, Peek, FreeVram;
    if i < j {
      assert ChunkFits(s, vram, dram, i, i);
      assert CountOn(vram, i, i, vram[i].gpu) == 0;
      var t := WrittenBack(s, vram[i], dram[vram[i].gpu].hostPtr);
      DemoteOne(s, vram, dram, i, vram[i], t);
      var next := i + 1;
      forall k | next <= k <= j ensures ChunkFits(t, vram, dram, next, k) <==> ChunkFits(s, vram, dram, i, k) { OneSlotLess(s, t, vram, dram, i, k); }
      DemoteChunksFailWith(t, vram, dram, next, j);
    }
  }

  lemma DemoteFailsWith(s: State, name: Name, j: nat)
    requires Wired(s) && name in s.pages && s.pages[name].tier == Vram && !s.pages[name].pinned && j < |s.pages[name].vram|
    requires
      var p := s.pages[name];
      !ChunkFits(s, p.vram, p.dram, 0, j) && forall k :: 0 <= k < j ==> ChunkFits(s, p.vram, p.dram, 0, k)
    ensures
      var (p, c) := (s.pages[name], s.pages[name].vram[j]);
      DemoteStep(s, name).1 == Err(
        if |p.dram| <= c.gpu || |s.queued| <= c.gpu then UnknownAllocation
        else if p.dram[c.gpu].size < c.size then DramOom(c.size, p.dram[c.gpu].size, s.pools[c.gpu].heap.capacity)
        else DmaRingFull)
  {
    hide DemoteChunks, ChunkFits;
    DemoteChunksFailWith(s, s.pages[name].vram, s.pages[name].dram, 0, j);
  }

  /** Why an access failed, page by page: nothing known, no block to be had, no slot, or a promotion from
    * the file that lacks its file, its bytes or its buffer. */
  lemma AccessFailsWith(s: State, name: Name, g: nat, now: nat, d: Driver, e: Error)
    requires Wired(s) && g < |s.pools| && AccessStep(s, name, g, now, d).1 == Err(e)
    requires !(name in s.inflight && s.inflight[name].gpu == g)
    ensures
      if name !in s.pages then e == UnknownAllocation
      else
        var p := s.pages[name];
        match p.tier
        case Vram => e == if p.vram == [] then UnknownAllocation else DeviceOom
        case Dram =>
          e == if |p.dram| <= g then UnknownAllocation
               else if !Obtainable(s, g, p.dram[g].size, d) then DeviceOom
               else DmaRingFull
        case Ssd =>
          if p.ssd.None? then e == UnknownAllocation
          else if !Obtainable(s, g, p.size, d) then e == DeviceOom
          else if !OwnBuffer(p, g) && PoolAllocate(s.pools[g], SmallestRequest(p.size)).1.Err? then e.DramOom?
          else e == if s.spill.None? then UnknownAllocation else Io
  {
    hide AccessVram, AccessDram, AccessSsd, SmallestRequest, PoolAllocate;
    var s1 := s.(membrane := s.membrane.Observed(name));
    var (s2, c) := ClaimStep(s1, name, g, now);
    DiscardLeavesObtainable(s1, name, g, now);
    if name in s.pages {
      match s.pages[name].tier
      case Vram => VramFailsWith(s2, name, g, now, d);
      case Dram => DramFailsWith(s2, name, g, now, d);
      case Ssd => SsdFailsWith(s2, name, g, now, d);
    }
  }

  lemma DiscardLeavesObtainable(s: State, name: Name, g: nat, now: nat)
    requires Wired(s) && !(name in s.inflight && s.inflight[name].gpu == g) && g < |s.pools|
    ensures
      var (t, c) := ClaimStep(s, name, g, now);
      && c == Ok(None) && t.pages == s.pages && t.pools == s.pools && t.queued == s.queued && t.spill == s.spill
      && forall n, d :: Obtainable(t, g, n, d) <==> Obtainable(s, g, n, d)
  {
    hide Land, Attach;
  }

  lemma VramFailsWith(s: State, name: Name, g: nat, now: nat, d: Driver)
    requires Wired(s) && g < |s.pools| && name in s.pages && AccessVram(s, name, g, now, d).1.Err?
    ensures AccessVram(s, name, g, now, d).1 == Err(if s.pages[name].vram == [] then UnknownAllocation else DeviceOom)
  {
    var p := s.pages[name];
    if p.vram != [] { assert p.vram[0] in p.vram; }
  }

  lemma DramFailsWith(s: State, name: Name, g: nat, now: nat, d: Driver)
    requires Wired(s) && g < |s.pools| && name in s.pages && AccessDram(s, name, g, now, d).1.Err?
    ensures AccessDram(s, name, g, now, d).1 == Err(
      if |s.pages[name].dram| <= g then UnknownAllocation
      else if !Obtainable(s, g, s.pages[name].dram[g].size, d) then DeviceOom
      else DmaRingFull)
  {
  }

  lemma SsdFailsWith(s: State, name: Name, g: nat, now: nat, d: Driver)
    requires Wired(s) && g < |s.pools| && name in s.pages && AccessSsd(s, name, g, now, d).1.Err?
    ensures
      var (p, e) := (s.pages[name], AccessSsd(s, name, g, now, d).1.error);
      if p.ssd.None? then e == UnknownAllocation
      else if !Obtainable(s, g, p.size, d) then e == DeviceOom
      else if !OwnBuffer(p, g) && PoolAllocate(s.pools[g], SmallestRequest(p.size)).1.Err? then e.DramOom?
      else e == if s.spill.None? then UnknownAllocation else Io
  {
    hide Stream, SmallestRequest, PoolAllocate, PoolFree;
    var p := s.pages[name];
    BorrowError(s.pools[g], p.size);
    BorrowSucceedsIff(s.pools[g], p.size);
  }

  // --------------------------------------------- access to a page in the top tier

  /** A page that lists a block on this GPU costs nothing to access: the first such block is returned, and
    * only the access is recorded. */
  lemma AccessHit(s: State, name: Name, g: nat, now: nat, d: Driver, k: nat)
    requires Wired(s) && g < |s.pools| && name in s.pages && name !in s.inflight && s.pages[name].tier == Vram
    requires k < |s.pages[name].vram| && s.pages[name].vram[k].gpu == g && forall j :: 0 <= j < k ==> s.pages[name].vram[j].gpu != g
    ensures
      var (t, r) := AccessStep(s, name, g, now, d);
      && r == Ok(s.pages[name].vram[k].ptr)
      && t == s.(membrane := t.membrane, pages := t.pages) && t.pages.Keys == s.pages.Keys
      && t.pages == s.pages[name := s.pages[name].(accessCount := s.pages[name].accessCount + 1, lastAccess := now)]
  {
    FindChunkIsFirst(s.pages[name].vram, g, true, k);
  }

  /** One that lists blocks on other GPUs only gets a copy of the first of them. */
  lemma AccessCopiesPeer(s: State, name: Name, g: nat, now: nat, d: Driver)
    requires Wired(s) && g < |s.pools| && name in s.pages && name !in s.inflight && s.pages[name].tier == Vram
    requires s.pages[name].vram != [] && forall c :: c in s.pages[name].vram ==> c.gpu != g
    requires
      var src := s.pages[name].vram[0];
      && src.ptr in s.vram && |s.vram[src.ptr]| == src.size
      && FindSize(s.cache[g], src.size).None? && d.Grant? && d.ptr != 0 && d.ptr !in s.vram
    ensures
      var (t, r) := AccessStep(s, name, g, now, d);
      var src := s.pages[name].vram[0];
      && r == Ok(d.ptr) && t.vram == s.vram[d.ptr := s.vram[src.ptr]] && t.queued == s.queued && t.cache == s.cache
      && name in t.pages && t.pages[name].vram == s.pages[name].vram + [Chunk(g, d.ptr, src.size)]
  {
    var p := s.pages[name];
    var src := p.vram[0];
    FindChunkIsFirst(p.vram, g, false, 0);
    assert FindChunk(p.vram, g, true).None?;
    var junk := Peek(d.junk, 0, src.size);
    assert Peek(s.vram[src.ptr], 0, src.size) == s.vram[src.ptr];
    assert Poke(junk, 0, s.vram[src.ptr]) == s.vram[src.ptr];
    assert s.vram[d.ptr := junk][d.ptr := s.vram[src.ptr]] == s.vram[d.ptr := s.vram[src.ptr]];
  }

  // ----------------------------------------------------------------- deallocate

  /** Deallocation leaves the membrane alone, so it forgets the page only if there was nothing to
    * forget, and the next page of that name starts with the old rate. */
  lemma DeallocateKeepsHistory(s: State, name: Name, shape: seq<nat>, elementSize: nat, tier: Tier)
    requires Wired(s) && name in s.pages && name != ""
    ensures
      var t := DeallocateStep(s, name).0;
      && (t.membrane == s.membrane.Forgotten(name) <==> name !in s.membrane.rates && name !in s.membrane.hits)
      && AllocateStep(t, name, shape, elementSize, tier).0.membrane.Rate(name) == s.membrane.Rate(name)
  {
    assert DeallocateStep(s, name).0.membrane == s.membrane;
    var m := s.membrane.Forgotten(name);
    if name !in s.membrane.rates && name !in s.membrane.hits {
      assert m.rates == s.membrane.rates && m.hits == s.membrane.hits;
    } else {
      assert name !in m.rates && name !in m.hits;
    }
  }
}
