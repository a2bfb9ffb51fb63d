/** Host memory over any number of pools: who owns which range, and what scattering writes. */
module TieredHost {
  import opened Common
  import opened Ranges
  import opened RangeOps
  import opened LiveRanges
  import opened DramPools
  import opened Spills
  import opened Vmt
  import opened Plans
  import opened Tiered

  predicate HasShard(p: Page, i: nat) {
    i < |p.dram| && 0 < p.dram[i].size
  }

  /** A chunk's place in its pool. */
  function ShardBlock(c: DramChunk, base: nat): Block {
    Block(if base <= c.hostPtr then c.hostPtr - base else 0, c.size)
  }

  /** The non-empty chunks the page table records in pool `i`. */
  function Shards(pages: map<Name, Page>, i: nat, base: nat): map<Name, Block> {
    map n | n in pages && HasShard(pages[n], i) :: ShardBlock(pages[n].dram[i], base)
  }

  ghost predicate Separate(p: Pool, q: Pool) { p.End() <= q.base || q.End() <= p.base }

  ghost predicate ShardInPool(p: Page, pools: seq<Pool>) {
    && |p.dram| <= |pools|
    && (forall j :: 0 <= j < |p.dram| && 0 < p.dram[j].size ==> pools[j].base <= p.dram[j].hostPtr)
  }

  ghost predicate PoolAgrees(pools: seq<Pool>, pages: map<Name, Page>, i: nat)
    requires i < |pools|
  {
    Good(pools[i].heap, Shards(pages, i, pools[i].base))
  }

  /** Pools are apart, inside host memory, and chunk `j` of a page lies in pool `j`. */
  ghost predicate HostShape(pools: seq<Pool>, pages: map<Name, Page>, hostLen: nat) {
    && (forall i :: 0 <= i < |pools| ==> pools[i].End() <= hostLen)
    && (forall i, j :: 0 <= i < j < |pools| ==> Separate(pools[i], pools[j]))
    && (forall n :: n in pages ==> ShardInPool(pages[n], pools))
  }

  /** The pools' live ranges are exactly the non-empty chunks in the page table. */
  ghost predicate HostOk(pools: seq<Pool>, pages: map<Name, Page>, hostLen: nat) {
    && HostShape(pools, pages, hostLen)
    && (forall i :: 0 <= i < |pools| ==> PoolAgrees(pools, pages, i))
  }

  /** Same pages, same DRAM chunks, spill offsets and sizes. */
  ghost predicate SameBacking(a: map<Name, Page>, b: map<Name, Page>) {
    a.Keys == b.Keys && forall n :: n in a ==> a[n].dram == b[n].dram && a[n].ssd == b[n].ssd && a[n].size == b[n].size
  }

  /** Tier and state agree. */
  predicate InStep(p: Page) { p.state == StateOf(p.tier) }

  /** A page whose tier and state agree still agrees, and a page above the cold tier stays above it. */
  predicate Steady(p: Page, q: Page) {
    && (InStep(p) ==> InStep(q))
    && (p.tier != Ssd ==> q.tier != Ssd)
  }

  /** Neither the pools nor what backs any page has changed, and every page is steady. */
  ghost predicate KeepsBacking(s: State, t: State) {
    && t.pools == s.pools && SameBacking(s.pages, t.pages) && |t.host| == |s.host|
    && (forall n :: n in s.pages ==> Steady(s.pages[n], t.pages[n]))
  }

  lemma SameBackingHost(pools: seq<Pool>, a: map<Name, Page>, b: map<Name, Page>, hostLen: nat)
    requires HostOk(pools, a, hostLen) && SameBacking(a, b)
    ensures HostOk(pools, b, hostLen)
  {
    forall i | 0 <= i < |pools| ensures PoolAgrees(pools, b, i) {
      assert PoolAgrees(pools, a, i);
      assert Shards(a, i, pools[i].base) == Shards(b, i, pools[i].base);
    }
    forall n | n in b ensures ShardInPool(b[n], pools) { assert ShardInPool(a[n], pools); }
  }

  // ---------------------------------------------- steps that move no host range

  lemma ClaimKeepsBacking(s: State, name: Name, g: nat, now: nat)
    requires Wired(s)
    ensures KeepsBacking(s, ClaimStep(s, name, g, now).0)
  {
    hide Land, FreeVram, Attach;
    if name in s.inflight {
      var f := s.inflight[name];
      var s2 := Land(s.(inflight := s.inflight - {name}), f.ptr);
      if name in s.pages { AttachKeepsBacking(s2, name, Chunk(g, f.ptr, f.size), now); }
    }
  }

  lemma AllocVramKeepsBacking(s: State, g: nat, n: nat, d: Driver)
    requires Wired(s)
    ensures KeepsBacking(s, AllocVram(s, g, n, d).0)
  {
  }

  /** The staging buffer goes back exactly where it came from. */
  lemma StageUpKeepsPools(s: State, g: nat, dst: nat, offset: nat, total: nat)
    requires Wired(s) && g < |s.pools|
    ensures StageUp(s, g, dst, offset, total).0.pools == s.pools
    ensures |StageUp(s, g, dst, offset, total).0.host| == |s.host|
  {
    hide Stream, PoolAllocate, PoolFree;
    match Borrow(s.pools[g], total)
    case Err(_) =>
    case Ok((stage, len)) =>
      PoolAllocateThenFree(s.pools[g], len);
      var lent := s.pools[g := PoolAllocate(s.pools[g], len).0];
      assert lent[g := PoolFree(lent[g], stage, len)] == s.pools;
  }

  lemma SettleKeepsBacking(s: State, err: Option<Error>, name: Name, g: nat, dst: nat, size: nat, now: nat)
    requires Wired(s) && name in s.pages
    ensures KeepsBacking(s, SettleSsd(s, err, name, g, dst, size, now).0)
  {
  }

  lemma AccessSsdKeepsBacking(s: State, name: Name, g: nat, now: nat, d: Driver)
    requires Wired(s) && name in s.pages && g < |s.pools|
    ensures KeepsBacking(s, AccessSsd(s, name, g, now, d).0)
  {
    var p := s.pages[name];
    if p.ssd.Some? {
      AllocVramKeepsBacking(s, g, p.size, d);
      var (s1, got) := AllocVram(s, g, p.size, d);
      if got.Ok? {
        StageUpKeepsPools(s1, g, got.value, p.ssd.value, p.size);
        var (s2, err) :=
          if g < |p.dram| && p.size <= p.dram[g].size then CopyUp(s1, got.value, p.ssd.value, p.dram[g].hostPtr, p.size, p.size)
          else StageUp(s1, g, got.value, p.ssd.value, p.size);
        SettleKeepsBacking(s2, err, name, g, got.value, p.size, now);
      }
    }
  }

  lemma KeepsTrans(s: State, t: State, u: State)
    requires KeepsBacking(s, t) && KeepsBacking(t, u)
    ensures KeepsBacking(s, u)
  {
    forall n | n in s.pages ensures Steady(s.pages[n], u.pages[n]) { assert Steady(s.pages[n], t.pages[n]); }
  }

  lemma SameRecords(s: State, t: State)
    requires t.pools == s.pools && t.pages == s.pages && |t.host| == |s.host|
    ensures KeepsBacking(s, t)
  {
  }

  lemma AttachKeepsBacking(s: State, name: Name, c: Chunk, now: nat)
    requires name in s.pages
    ensures KeepsBacking(s, Attach(s, name, c, now))
  {
  }

  lemma AccessVramKeepsBacking(s: State, name: Name, g: nat, now: nat, d: Driver)
    requires Wired(s) && name in s.pages
    ensures KeepsBacking(s, AccessVram(s, name, g, now, d).0)
  {
    var src := FindChunk(s.pages[name].vram, g, false);
    if FindChunk(s.pages[name].vram, g, true).None? && src.Some? {
      AllocVramKeepsBacking(s, g, src.value.size, d);
      var (s1, got) := AllocVram(s, g, src.value.size, d);
      if got.Ok? {
        var s2 := s1.(vram := DevWrite(s1.vram, got.value, 0, DevRead(s1.vram, src.value.ptr, src.value.size)));
        AttachKeepsBacking(s2, name, Chunk(g, got.value, src.value.size), now);
        KeepsTrans(s, s2, Attach(s2, name, Chunk(g, got.value, src.value.size), now));
      }
    }
  }

  lemma AccessDramKeepsBacking(s: State, name: Name, g: nat, now: nat, d: Driver)
    requires Wired(s) && name in s.pages
    ensures KeepsBacking(s, AccessDram(s, name, g, now, d).0)
  {
    hide AllocVram, Attach, KeepsBacking;
    SameRecords(s, s);
    var p := s.pages[name];
    if g < |p.dram| && g < |s.queued| {
      var c := p.dram[g];
      AllocVramKeepsBacking(s, g, c.size, d);
      var (s1, got) := AllocVram(s, g, c.size, d);
      if got.Ok? && s1.queued[g] < RING {
        var s2 := s1.(queued := s1.queued[g := s1.queued[g] + 1], vram := DevWrite(s1.vram, got.value, 0, Peek(s1.host, c.hostPtr, c.size)));
        SameRecords(s1, s2);
        AttachKeepsBacking(s2, name, Chunk(g, got.value, c.size), now);
        KeepsTrans(s, s1, s2);
        KeepsTrans(s, s2, Attach(s2, name, Chunk(g, got.value, c.size), now));
      }
    }
  }

  lemma AccessKeepsBacking(s: State, name: Name, g: nat, now: nat, d: Driver)
    requires Wired(s)
    ensures KeepsBacking(s, AccessStep(s, name, g, now, d).0)
  {
    hide ClaimStep, AccessVram, AccessDram, AccessSsd, KeepsBacking;
    var s1 := s.(membrane := s.membrane.Observed(name));
    ClaimKeepsBacking(s1, name, g, now);
    var (s2, r) := ClaimStep(s1, name, g, now);
    SameRecords(s, s1);
    KeepsTrans(s, s1, s2);
    if r == Ok(None) && name in s2.pages && g < |s2.pools| {
      match s2.pages[name].tier {
        case Vram => AccessVramKeepsBacking(s2, name, g, now, d);
        case Dram => AccessDramKeepsBacking(s2, name, g, now, d);
        case Ssd => AccessSsdKeepsBacking(s2, name, g, now, d);
      }
      KeepsTrans(s, s2, AccessStep(s, name, g, now, d).0);
    }
  }

  lemma DemoteChunksKeepHost(s: State, vram: seq<Chunk>, dram: seq<DramChunk>, i: nat)
    requires Wired(s)
    ensures |DemoteChunks(s, vram, dram, i).0.host| == |s.host|
    decreases |vram| - i
  {
  }

  lemma DemoteKeepsBacking(s: State, name: Name)
    requires Wired(s)
    ensures KeepsBacking(s, DemoteStep(s, name).0)
  {
    hide DemoteChunks;
    if name in s.pages { DemoteChunksKeepHost(s, s.pages[name].vram, s.pages[name].dram, 0); }
  }

  lemma {:induction false} EvictAllKeepsBacking(s: State, names: seq<Name>)
    requires Wired(s)
    ensures KeepsBacking(s, EvictAll(s, names).0)
    decreases |names|
  {
    hide KeepsBacking, DemoteStep;
    SameRecords(s, s);
    if names != [] {
      var s1 := DemoteStep(s, names[0]).0;
      DemoteKeepsBacking(s, names[0]);
      EvictAllKeepsBacking(s1, names[1..]);
      EvictAllKeepsBacking(s, names[1..]);
      KeepsTrans(s, s1, EvictAll(s1, names[1..]).0);
    }
  }

  lemma {:induction false} DemoteAllKeepsBacking(s: State, names: seq<Name>)
    requires Wired(s)
    ensures KeepsBacking(s, DemoteAll(s, names).0)
    decreases |names|
  {
    hide KeepsBacking, DemoteStep;
    SameRecords(s, s);
    if names != [] {
      var s1 := DemoteStep(s, names[0]).0;
      DemoteKeepsBacking(s, names[0]);
      DemoteAllKeepsBacking(s1, names[1..]);
      KeepsTrans(s, s1, DemoteAll(s1, names[1..]).0);
    }
  }

  lemma {:induction false} PromoteAllKeepsBacking(s: State, names: seq<Name>, now: nat, ds: seq<Driver>, i: nat)
    requires Wired(s)
    ensures KeepsBacking(s, PromoteAll(s, names, now, ds, i))
    decreases |names| - i
  {
    hide KeepsBacking, AccessStep;
    SameRecords(s, s);
    if i < |names| {
      var s1 := AccessStep(s, names[i], 0, now, DriverAt(ds, i)).0;
      AccessKeepsBacking(s, names[i], 0, now, DriverAt(ds, i));
      PromoteAllKeepsBacking(s1, names, now, ds, i + 1);
      PromoteAllKeepsBacking(s, names, now, ds, i + 1);
      KeepsTrans(s, s1, PromoteAll(s1, names, now, ds, i + 1));
    }
  }

  lemma {:induction false} AccessAllKeepsBacking(s: State, names: seq<Name>, now: nat, ds: seq<Driver>, i: nat)
    requires Wired(s)
    ensures KeepsBacking(s, AccessAll(s, names, now, ds, i).0)
    decreases |names| - i
  {
    hide KeepsBacking, AccessStep;
    SameRecords(s, s);
    if i < |names| {
      var s1 := AccessStep(s, names[i], 0, now, DriverAt(ds, i)).0;
      AccessKeepsBacking(s, names[i], 0, now, DriverAt(ds, i));
      AccessAllKeepsBacking(s1, names, now, ds, i + 1);
      KeepsTrans(s, s1, AccessAll(s1, names, now, ds, i + 1).0);
    }
  }

  lemma MembraneSweepKeepsBacking(s: State, order: seq<Name>, now: nat, ds: seq<Driver>)
    requires Wired(s) && s.settings.budget.Some?
    ensures KeepsBacking(s, MembraneSweepStep(s, order, now, ds).0)
  {
    var s1 := s.(membrane := s.membrane.Decayed());
    var (keep, evict) := Plan(s.settings.policy, Candidates(s1, order), s.settings.budget.value);
    var (s2, r) := EvictAll(s1, evict);
    EvictAllKeepsBacking(s1, evict);
    PromoteAllKeepsBacking(s2, keep, now, ds, 0);
    MembraneSweepIs(s, order, now, ds, s1, keep, evict, s2, r);
    KeepsTrans(s, s2, PromoteAll(s2, keep, now, ds, 0));
  }

  lemma IdleSweepKeepsBacking(s: State, order: seq<Name>, now: nat, ds: seq<Driver>)
    requires Wired(s) && s.settings.budget.None?
    ensures KeepsBacking(s, BackgroundSweepStep(s, order, now, ds).0)
  {
    var toDemote := Select(s, order, IdleResident(now, s.settings.idleAfter));
    var toPromote := Select(s, order, HotWarm(s.settings.hotAt));
    var (s1, r) := DemoteAll(s, toDemote);
    DemoteAllKeepsBacking(s, toDemote);
    AccessAllKeepsBacking(s1, toPromote, now, ds, 0);
    IdleSweepIs(s, order, now, ds, toDemote, toPromote, s1, r);
    KeepsTrans(s, s1, AccessAll(s1, toPromote, now, ds, 0).0);
  }

  lemma SweepKeepsBacking(s: State, order: seq<Name>, now: nat, ds: seq<Driver>)
    requires Wired(s)
    ensures KeepsBacking(s, BackgroundSweepStep(s, order, now, ds).0)
  {
    if s.settings.budget.Some? { MembraneSweepKeepsBacking(s, order, now, ds); } else { IdleSweepKeepsBacking(s, order, now, ds); }
  }

  lemma PrefetchKeepsBacking(s: State, name: Name, g: nat, d: Driver)
    requires Wired(s)
    ensures KeepsBacking(s, PrefetchStep(s, name, g, d).0)
  {
    hide AllocVram;
    if name in s.pages { AllocVramKeepsBacking(s, g, s.pages[name].size, d); }
  }

  lemma WriteKeepsBacking(s: State, name: Name, data: seq<byte>, disk: Disk)
    requires Wired(s)
    ensures KeepsBacking(s, WriteStep(s, name, data, disk).0)
  {
    hide Scatter;
  }

  lemma LandKeepsBacking(s: State, ptr: nat)
    ensures KeepsBacking(s, Land(s, ptr))
  {
  }

  lemma WorldKeepsBacking(s: State, op: Op)
    requires Wired(s)
    requires op.AttachSpill? || op.EnableMembrane? || op.SetPinned? || op.DeviceWrite? || op.CopyLands? || op.EngineAcks?
    ensures KeepsBacking(s, Step(s, op).0)
  {
    hide AllocateStep, AccessStep, DemoteStep, PrefetchStep, WriteStep, DeallocateStep, BackgroundSweepStep, Land, DevWrite, KeepsBacking;
    if op.SetPinned? {
      PinKeepsBacking(s, op.name, op.pin);
    } else if op.CopyLands? {
      LandKeepsBacking(s, op.ptr);
    } else {
      SameRecords(s, Step(s, op).0);
    }
  }

  lemma PinKeepsBacking(s: State, name: Name, pin: bool)
    ensures name in s.pages ==> KeepsBacking(s, s.(pages := s.pages[name := s.pages[name].(pinned := pin)]))
    ensures KeepsBacking(s, s)
  {
  }

  /** Only `allocate` and `deallocate` move host ranges or change what backs a page. */
  lemma OtherStepsKeepBacking(s: State, op: Op)
    requires Wired(s) && !op.Allocate? && !op.Deallocate?
    ensures KeepsBacking(s, Step(s, op).0)
  {
    hide AccessStep, DemoteStep, BackgroundSweepStep, PrefetchStep, WriteStep, KeepsBacking;
    match op
    case Access(name, g, now, d) => AccessKeepsBacking(s, name, g, now, d);
    case Demote(name) => DemoteKeepsBacking(s, name);
    case Sweep(order, now, ds) => SweepKeepsBacking(s, order, now, ds);
    case Prefetch(name, g, d) => PrefetchKeepsBacking(s, name, g, d);
    case WritePage(name, data, disk) => WriteKeepsBacking(s, name, data, disk);
    case _ => WorldKeepsBacking(s, op);
  }

  // ------------------------------------------------------------------ allocate

  lemma FreshPageHost(pools: seq<Pool>, pages: map<Name, Page>, hostLen: nat, name: Name, p: Page)
    requires HostOk(pools, pages, hostLen) && name !in pages && p.dram == []
    ensures HostOk(pools, pages[name := p], hostLen)
  {
    var pages' := pages[name := p];
    forall i | 0 <= i < |pools| ensures PoolAgrees(pools, pages', i) {
      assert PoolAgrees(pools, pages, i);
      assert Shards(pages', i, pools[i].base) == Shards(pages, i, pools[i].base);
    }
    forall n | n in pages' ensures ShardInPool(pages'[n], pools) {
      if n != name { assert ShardInPool(pages[n], pools); }
    }
  }

  function WithDram(pages: map<Name, Page>, name: Name, dram: seq<DramChunk>): map<Name, Page>
    requires name in pages
  {
    pages[name := pages[name].(dram := dram)]
  }

  lemma WithDramTwice(pages: map<Name, Page>, name: Name, d: seq<DramChunk>, e: seq<DramChunk>)
    requires name in pages
    ensures WithDram(WithDram(pages, name, d), name, e) == WithDram(pages, name, e)
    ensures WithDram(pages, name, pages[name].dram) == pages
  {
  }

  /** Replacing one pool's heap and one page's chunks keeps the shape when the new chunks lie in their pools. */
  lemma ShapeAfter(pools: seq<Pool>, pages: map<Name, Page>, hostLen: nat, name: Name, dram: seq<DramChunk>, i: nat, h: Heap)
    requires HostShape(pools, pages, hostLen) && name in pages && i < |pools| && h.capacity == pools[i].heap.capacity
    requires ShardInPool(pages[name].(dram := dram), pools)
    ensures HostShape(pools[i := pools[i].(heap := h)], WithDram(pages, name, dram), hostLen)
  {
    var pools', pages' := pools[i := pools[i].(heap := h)], WithDram(pages, name, dram);
    forall m | m in pages' ensures ShardInPool(pages'[m], pools') {
      if m != name { assert ShardInPool(pages[m], pools); }
    }
    forall a, b | 0 <= a < b < |pools'| ensures Separate(pools'[a], pools'[b]) { assert Separate(pools[a], pools[b]); }
  }

  lemma ShardsWithMore(pages: map<Name, Page>, name: Name, c: DramChunk, j: nat, base: nat)
    requires name in pages
    ensures
      var live := Shards(pages, j, base);
      Shards(WithDram(pages, name, pages[name].dram + [c]), j, base) ==
        if j == |pages[name].dram| && 0 < c.size then live[name := ShardBlock(c, base)] else live
    ensures j == |pages[name].dram| ==> name !in Shards(pages, j, base)
  {
  }

  lemma PoolServes(p: Pool, live: map<Name, Block>, name: Name, n: nat)
    requires Good(p.heap, live) && name !in live && PoolAllocate(p, n).1.Ok?
    ensures
      var (q, r) := PoolAllocate(p, n);
      q.base == p.base && Good(q.heap, if 0 < n then live[name := ShardBlock(DramChunk(q.node, r.value, n), p.base)] else live)
  {
    if n == 0 { AllocateNothing(p.heap); } else { GoodAllocate(p.heap, live, name, n); }
  }

  lemma AddShardPool(pools: seq<Pool>, pages: map<Name, Page>, name: Name, i: nat, n: nat, j: nat, p: Pool, ptr: nat)
    requires name in pages && i < |pools| && |pages[name].dram| == i && j < |pools| && PoolAgrees(pools, pages, j)
    requires (p, Ok(ptr)) == PoolAllocate(pools[i], n)
    ensures PoolAgrees(pools[i := p], WithDram(pages, name, pages[name].dram + [DramChunk(p.node, ptr, n)]), j)
  {
    ShardsWithMore(pages, name, DramChunk(p.node, ptr, n), j, pools[j].base);
    if j == i { PoolServes(pools[i], Shards(pages, j, pools[j].base), name, n); }
  }

  /** Handing pool `i`'s range to the page as its `i`-th chunk. */
  lemma AddShard(pools: seq<Pool>, pages: map<Name, Page>, hostLen: nat, name: Name, i: nat, n: nat)
    requires HostOk(pools, pages, hostLen) && name in pages && i < |pools| && |pages[name].dram| == i
    requires PoolAllocate(pools[i], n).1.Ok?
    ensures
      var (p, r) := PoolAllocate(pools[i], n);
      HostOk(pools[i := p], WithDram(pages, name, pages[name].dram + [DramChunk(p.node, r.value, n)]), hostLen)
  {
    var (p, r) := PoolAllocate(pools[i], n);
    var dram := pages[name].dram + [DramChunk(p.node, r.value, n)];
    assert ShardInPool(pages[name], pools);
    ShapeAfter(pools, pages, hostLen, name, dram, i, p.heap);
    var pools', pages' := pools[i := p], WithDram(pages, name, dram);
    forall j | 0 <= j < |pools'| ensures PoolAgrees(pools', pages', j) {
      AddShardPool(pools, pages, name, i, n, j, p, r.value);
    }
  }

  /** The sharded allocation keeps agreement, also when a pool part-way refuses. */
  lemma {:induction false} AllocShardsHost(pools: seq<Pool>, pages: map<Name, Page>, hostLen: nat, name: Name, total: nat, i: nat)
    requires 0 < |pools| && HostOk(pools, pages, hostLen) && name in pages && |pages[name].dram| == i <= |pools|
    ensures
      var (pools', chunks, _) := AllocShards(pools, total, i, pages[name].dram);
      HostOk(pools', WithDram(pages, name, chunks), hostLen)
    decreases |pools| - i
  {
    var dram := pages[name].dram;
    WithDramTwice(pages, name, dram, dram);
    if i < |pools| {
      var n := ShardSize(total, |pools|, i);
      var (p, r) := PoolAllocate(pools[i], n);
      if r.Ok? {
        AddShard(pools, pages, hostLen, name, i, n);
        var dram' := dram + [DramChunk(p.node, r.value, n)];
        var pages' := WithDram(pages, name, dram');
        AllocShardsHost(pools[i := p], pages', hostLen, name, total, i + 1);
        var (_, chunks, _) := AllocShards(pools[i := p], total, i + 1, dram');
        WithDramTwice(pages, name, dram', chunks);
      }
    }
  }

  lemma AllocateWarmBacking(s: State, name: Name, tier: Tier)
    requires Wired(s) && name in s.pages
    ensures
      var (pools, chunks, _) := AllocShards(s.pools, s.pages[name].size, 0, []);
      var t := AllocateWarm(s, name, tier).0;
      t.pools == pools && SameBacking(WithDram(s.pages, name, chunks), t.pages)
  {
  }

  lemma AllocateWarmKeepsHost(s: State, name: Name, tier: Tier)
    requires Wired(s) && HostOk(s.pools, s.pages, |s.host|) && name in s.pages && s.pages[name].dram == []
    ensures
      var t := AllocateWarm(s, name, tier).0;
      HostOk(t.pools, t.pages, |t.host|)
  {
    var (pools, chunks, _) := AllocShards(s.pools, s.pages[name].size, 0, []);
    AllocShardsHost(s.pools, s.pages, |s.host|, name, s.pages[name].size, 0);
    AllocateWarmBacking(s, name, tier);
    SameBackingHost(pools, WithDram(s.pages, name, chunks), AllocateWarm(s, name, tier).0.pages, |s.host|);
  }

  lemma AllocateKeepsHost(s: State, name: Name, shape: seq<nat>, elementSize: nat, tier: Tier)
    requires Wired(s) && HostOk(s.pools, s.pages, |s.host|)
    requires ChosenName(name, s.nextId) !in s.pages
    ensures
      var t := AllocateStep(s, name, shape, elementSize, tier).0;
      HostOk(t.pools, t.pages, |t.host|)
  {
    var chosen := ChosenName(name, s.nextId);
    var s1 := Registered(s, name, shape, elementSize);
    FreshPageHost(s.pools, s.pages, |s.host|, chosen, s1.pages[chosen]);
    if tier == Ssd {
      var page := AllocateCold(s1, chosen).0.pages[chosen];
      FreshPageHost(s.pools, s.pages, |s.host|, chosen, page);
      assert AllocateCold(s1, chosen).0.pages == s.pages[chosen := page];
    } else {
      AllocateWarmKeepsHost(s1, chosen, tier);
    }
  }

  // ---------------------------------------------------------------- deallocate

  /** The chunk list with the first `k` chunks given back. */
  function Spent(dram: seq<DramChunk>, k: nat): seq<DramChunk> {
    seq(|dram|, i requires 0 <= i < |dram| => if i < k then dram[i].(size := 0) else dram[i])
  }

  lemma SpanInPool(pools: seq<Pool>, pages: map<Name, Page>, hostLen: nat, name: Name, k: nat)
    requires HostOk(pools, pages, hostLen) && name in pages && HasShard(pages[name], k)
    ensures k < |pools| && pools[k].base <= pages[name].dram[k].hostPtr
    ensures pages[name].dram[k].hostPtr + Align(pages[name].dram[k].size) <= pools[k].End()
  {
    assert ShardInPool(pages[name], pools);
    assert PoolAgrees(pools, pages, k);
    LiveRangesAreSafe(pools[k].heap, Shards(pages, k, pools[k].base));
    assert name in Shards(pages, k, pools[k].base);
  }

  /** Offered to every pool, a chunk is taken back only by the pool it came from. */
  lemma OnlyOwnerTakes(pools: seq<Pool>, pages: map<Name, Page>, hostLen: nat, name: Name, k: nat)
    requires HostOk(pools, pages, hostLen) && name in pages && k < |pages[name].dram|
    ensures
      var c := pages[name].dram[k];
      && k < |pools|
      && OfferAll(pools, c) == if c.size == 0 then pools else pools[k := PoolFree(pools[k], c.hostPtr, c.size)]
  {
    var c := pages[name].dram[k];
    assert ShardInPool(pages[name], pools);
    if c.size == 0 {
      forall i | 0 <= i < |pools| ensures PoolFree(pools[i], c.hostPtr, 0) == pools[i] {
        assert FreeSpec(pools[i].heap, if pools[i].base <= c.hostPtr then c.hostPtr - pools[i].base else 0, 0) == pools[i].heap;
      }
    } else {
      SpanInPool(pools, pages, hostLen, name, k);
      forall i | 0 <= i < |pools| && i != k ensures PoolFree(pools[i], c.hostPtr, c.size) == pools[i] {
        if i < k { assert Separate(pools[i], pools[k]); } else { assert Separate(pools[k], pools[i]); }
      }
    }
  }

  lemma ShardsWithLess(pages: map<Name, Page>, name: Name, k: nat, j: nat, base: nat)
    requires name in pages && k < |pages[name].dram|
    ensures
      var live := Shards(pages, j, base);
      Shards(WithDram(pages, name, pages[name].dram[k := pages[name].dram[k].(size := 0)]), j, base) ==
        if j == k then live - {name} else live
  {
  }

  lemma DropShardPool(pools: seq<Pool>, pages: map<Name, Page>, name: Name, k: nat, j: nat, pools': seq<Pool>)
    requires name in pages && k < |pages[name].dram| && j < |pools| && PoolAgrees(pools, pages, j)
    requires
      var c := pages[name].dram[k];
      k < |pools| && pools' == if c.size == 0 then pools else pools[k := PoolFree(pools[k], c.hostPtr, c.size)]
    requires
      var c := pages[name].dram[k];
      0 < c.size ==> pools[k].base <= c.hostPtr && c.hostPtr + Align(c.size) <= pools[k].End()
    ensures PoolAgrees(pools', WithDram(pages, name, pages[name].dram[k := pages[name].dram[k].(size := 0)]), j)
  {
    var c := pages[name].dram[k];
    ShardsWithLess(pages, name, k, j, pools[j].base);
    if j == k && 0 < c.size {
      AlignIsLeast(c.size, 0);
      GoodFree(pools[k].heap, Shards(pages, j, pools[j].base), name);
    } else if j == k {
      assert Shards(pages, j, pools[j].base) - {name} == Shards(pages, j, pools[j].base);
    }
  }

  /** Giving one chunk back removes exactly its live range. */
  lemma DropShard(pools: seq<Pool>, pages: map<Name, Page>, hostLen: nat, name: Name, k: nat)
    requires HostOk(pools, pages, hostLen) && name in pages && k < |pages[name].dram|
    ensures
      var c := pages[name].dram[k];
      HostOk(OfferAll(pools, c), WithDram(pages, name, pages[name].dram[k := c.(size := 0)]), hostLen)
  {
    var c := pages[name].dram[k];
    var dram := pages[name].dram[k := c.(size := 0)];
    OnlyOwnerTakes(pools, pages, hostLen, name, k);
    assert ShardInPool(pages[name], pools);
    ShapeAfter(pools, pages, hostLen, name, dram, k, OfferAll(pools, c)[k].heap);
    var pools', pages' := OfferAll(pools, c), WithDram(pages, name, dram);
    assert pools' == pools[k := pools[k].(heap := pools'[k].heap)];
    if 0 < c.size { SpanInPool(pools, pages, hostLen, name, k); }
    forall j | 0 <= j < |pools'| ensures PoolAgrees(pools', pages', j) {
      assert PoolAgrees(pools, pages, j);
      DropShardPool(pools, pages, name, k, j, pools');
    }
  }

  lemma {:induction false} FreeShardsHost(pools: seq<Pool>, pages: map<Name, Page>, hostLen: nat, name: Name, dram: seq<DramChunk>, k: nat)
    requires k <= |dram| && name in pages && pages[name].dram == Spent(dram, k)
    requires HostOk(pools, pages, hostLen)
    ensures HostOk(FreeShards(pools, dram[k..]), WithDram(pages, name, Spent(dram, |dram|)), hostLen)
    decreases |dram| - k
  {
    if k == |dram| {
      WithDramTwice(pages, name, [], []);
    } else {
      assert pages[name].dram[k] == dram[k];
      DropShard(pools, pages, hostLen, name, k);
      var next := Spent(dram, k)[k := dram[k].(size := 0)];
      assert next == Spent(dram, k + 1);
      var pages' := WithDram(pages, name, next);
      assert dram[k..][0] == dram[k] && dram[k..][1..] == dram[k + 1..];
      FreeShardsHost(OfferAll(pools, dram[k]), pages', hostLen, name, dram, k + 1);
      WithDramTwice(pages, name, next, Spent(dram, |dram|));
    }
  }

  lemma ForgetSpentPage(pools: seq<Pool>, pages: map<Name, Page>, hostLen: nat, name: Name, dram: seq<DramChunk>)
    requires HostOk(pools, pages, hostLen) && name in pages && pages[name].dram == Spent(dram, |dram|)
    ensures HostOk(pools, pages - {name}, hostLen)
  {
    var pages' := pages - {name};
    forall i | 0 <= i < |pools| ensures PoolAgrees(pools, pages', i) {
      assert PoolAgrees(pools, pages, i);
      assert Shards(pages', i, pools[i].base) == Shards(pages, i, pools[i].base);
    }
  }

  lemma DeallocateKeepsHost(s: State, name: Name)
    requires Wired(s) && HostOk(s.pools, s.pages, |s.host|)
    ensures
      var t := DeallocateStep(s, name).0;
      HostOk(t.pools, t.pages, |t.host|)
  {
    if name in s.pages {
      var dram := s.pages[name].dram;
      assert Spent(dram, 0) == dram && dram[0..] == dram;
      FreeShardsHost(s.pools, s.pages, |s.host|, name, dram, 0);
      var spent := WithDram(s.pages, name, Spent(dram, |dram|));
      ForgetSpentPage(FreeShards(s.pools, dram), spent, |s.host|, name, dram);
      assert spent - {name} == s.pages - {name};
    }
  }

  // ------------------------------------------------------------------- theorems

  /** Names given to `allocate` are new: the table would overwrite a page of the same name. */
  predicate FreshName(s: State, op: Op) {
    op.Allocate? ==> ChosenName(op.name, s.nextId) !in s.pages
  }

  lemma StepKeepsHost(s: State, op: Op)
    requires Wired(s) && HostOk(s.pools, s.pages, |s.host|) && FreshName(s, op)
    ensures
      var t := Step(s, op).0;
      HostOk(t.pools, t.pages, |t.host|)
  {
    match op
    case Allocate(name, shape, elementSize, tier) => AllocateKeepsHost(s, name, shape, elementSize, tier);
    case Deallocate(name) => DeallocateKeepsHost(s, name);
    case _ =>
      OtherStepsKeepBacking(s, op);
      SameBackingHost(s.pools, s.pages, Step(s, op).0.pages, |s.host|);
  }

  ghost function Run(s: State, ops: seq<Op>): (t: State)
    requires Wired(s)
    ensures Wired(t)
    decreases |ops|
  {
    if ops == [] then s else Run(Step(s, ops[0]).0, ops[1..])
  }

  ghost predicate FreshNames(s: State, ops: seq<Op>)
    requires Wired(s)
    decreases |ops|
  {
    ops == [] || (FreshName(s, ops[0]) && FreshNames(Step(s, ops[0]).0, ops[1..]))
  }

  /** Over any number of pools and any run, failed steps included, the pools' live ranges are
    * exactly the non-empty chunks recorded in the page table. */
  lemma {:induction false} DramIsConserved(s: State, ops: seq<Op>)
    requires Wired(s) && HostOk(s.pools, s.pages, |s.host|) && FreshNames(s, ops)
    ensures Wired(Run(s, ops)) && HostOk(Run(s, ops).pools, Run(s, ops).pages, |Run(s, ops).host|)
    decreases |ops|
  {
    if ops != [] {
      StepKeepsHost(s, ops[0]);
      DramIsConserved(Step(s, ops[0]).0, ops[1..]);
    }
  }

  /** With no page left in the table every pool is back in its initial state. */
  lemma EmptyTableEmptyPools(pools: seq<Pool>, hostLen: nat, i: nat)
    requires HostOk(pools, map[], hostLen) && i < |pools|
    ensures pools[i].heap == Empty(pools[i].heap.capacity) && Used(pools[i].heap) == 0
  {
    assert PoolAgrees(pools, map[], i);
    var none: map<Name, Block> := map[];
    assert Shards(map[], i, pools[i].base) == none;
    NothingLive(pools[i].heap.capacity);
    var nil: map<nat, Block> := map[];
    GoodIsCanonical(pools[i].heap, none, Empty(pools[i].heap.capacity), nil);
  }
}
