/** src/tiered.rs: the pool as an object that updates its parts in place, proved equal to `Tiered`. */
module TieredPools {
  import opened Common
  import opened Ranges
  import opened DramPools
  import opened Spills
  import opened Vmt
  import opened Plans
  import opened Membranes
  import opened Tiered

  /** The pools' states, in GPU order. */
  function PoolStates(ps: seq<DramPool>): (r: seq<Pool>)
    requires forall i :: 0 <= i < |ps| ==> ps[i].Valid()
    reads ps
    ensures |r| == |ps| && forall i :: 0 <= i < |ps| ==> r[i] == ps[i].State()
  {
    seq(|ps|, i requires 0 <= i < |ps| && ps[i].Valid() reads ps => ps[i].State())
  }

  function BlankPools(nodes: seq<nat>, bases: seq<nat>, capacity: nat): seq<Pool>
    requires |nodes| == |bases|
  {
    seq(|bases|, i requires 0 <= i < |bases| => Pool(bases[i], nodes[i], Empty(capacity)))
  }

  ghost predicate ValidPools(ps: seq<DramPool>)
    reads ps
  {
    && (forall i :: 0 <= i < |ps| ==> ps[i].Valid())
    && (forall i, j :: 0 <= i < j < |ps| ==> ps[i] != ps[j])
  }

  method NewPools(nodes: seq<nat>, bases: seq<nat>, capacity: nat) returns (ps: seq<DramPool>)
    requires |nodes| == |bases|
    ensures ValidPools(ps)
    ensures forall p :: p in ps ==> fresh(p)
    ensures PoolStates(ps) == BlankPools(nodes, bases, capacity)
  {
    ps := [];
    while |ps| < |bases|
      invariant |ps| <= |bases|
      invariant ValidPools(ps)
      invariant forall p :: p in ps ==> fresh(p)
      invariant forall i :: 0 <= i < |ps| ==> ps[i].State() == Pool(bases[i], nodes[i], Empty(capacity))
      decreases |bases| - |ps|
    {
      var p := new DramPool(nodes[|ps|], bases[|ps|], capacity);
      ps := ps + [p];
    }
  }

  lemma RefusalKeepsPool(p: Pool, bytes: nat)
    requires PoolAllocate(p, bytes).1.Err?
    ensures PoolAllocate(p, bytes).0 == p
  {
  }

  /** One chunk per pool, in pool order, stopping at the first pool that cannot serve it. */
  method AllocateShards(ps: seq<DramPool>, total: nat) returns (chunks: seq<DramChunk>, err: Option<Error>)
    requires ValidPools(ps) && 0 < |ps|
    modifies ps
    ensures ValidPools(ps) && (PoolStates(ps), chunks, err) == AllocShards(old(PoolStates(ps)), total, 0, [])
  {
    hide PoolAllocate;
    ghost var goal := AllocShards(PoolStates(ps), total, 0, []);
    chunks := [];
    var i := 0;
    while i < |ps|
      invariant 0 <= i <= |ps| && ValidPools(ps)
      invariant goal == AllocShards(PoolStates(ps), total, i, chunks)
    {
      ghost var before := PoolStates(ps);
      var bytes := ShardSize(total, |ps|, i);
      var ptr := ps[i].Allocate(bytes);
      assert PoolStates(ps) == before[i := PoolAllocate(before[i], bytes).0];
      if ptr.Err? {
        RefusalKeepsPool(before[i], bytes);
        assert PoolStates(ps) == before;
        return chunks, Some(ptr.error);
      }
      chunks := chunks + [DramChunk(ps[i].numaNode, ptr.value, bytes)];
      i := i + 1;
    }
    return chunks, None;
  }

  /** Halve the request until the pool can lend a buffer. */
  method BorrowBuffer(p: DramPool, total: nat) returns (r: Result<(nat, nat)>)
    requires p.Valid()
    modifies p
    ensures p.Valid() && r == Borrow(old(p.State()), total)
    ensures p.State() == if r.Ok? then PoolAllocate(old(p.State()), r.value.1).0 else old(p.State())
  {
    var want: nat := total;
    var lent := p.Allocate(want);
    while lent.Err?
      invariant p.Valid() && (p.State(), lent) == PoolAllocate(old(p.State()), want)
      invariant Borrow(old(p.State()), total) == Borrow(old(p.State()), want)
      decreases want
    {
      if want <= STAGING_FLOOR { return Err(lent.error); }
      want := want / 2;
      lent := p.Allocate(want);
    }
    return Ok((lent.value, want));
  }

  /** The copy loop: read a piece of the file into the staging buffer, push it to the device block. */
  method StreamPieces(spill: SpillFile, host: seq<byte>, dev: seq<byte>, offset: nat, stage: nat, len: nat, total: nat)
    returns (host': seq<byte>, dev': seq<byte>, ok: bool)
    requires spill.Valid() && (0 < len || total == 0)
    ensures (host', dev', ok) == Stream(host, dev, spill.file, offset, stage, len, total, 0)
  {
    host', dev' := host, dev;
    var done := 0;
    while done < total
      invariant Stream(host, dev, spill.file, offset, stage, len, total, 0) == Stream(host', dev', spill.file, offset, stage, len, total, done)
      decreases total - done
    {
      var n := if len <= total - done then len else total - done;
      var buffer, read := spill.ReadInto(offset + done, n);
      host' := Poke(host', stage, buffer);
      if read.Err? { return host', dev', false; }
      dev' := Poke(dev', done, Peek(host', stage, n));
      done := done + n;
    }
    return host', dev', true;
  }

  /** The write loop: each chunk takes its own share of the data; an empty share ends the walk. */
  method ScatterPieces(host: seq<byte>, chunks: seq<DramChunk>, data: seq<byte>) returns (host': seq<byte>, written: nat)
    ensures (host', written) == Scatter(host, chunks, data, 0)
  {
    host', written := host, 0;
    var i := 0;
    assert chunks[0..] == chunks;
    while i < |chunks|
      invariant 0 <= i <= |chunks| && written <= |data|
      invariant Scatter(host, chunks, data, 0) == Scatter(host', chunks[i..], data, written)
    {
      var c := chunks[i];
      var end := if written + c.size <= |data| then written + c.size else |data|;
      if end <= written { return; }
      assert chunks[i..][1..] == chunks[i + 1..];
      host' := Poke(host', c.hostPtr, data[written..end]);
      written := end;
      i := i + 1;
    }
  }

  /** Offer a chunk to every pool. */
  method OfferChunk(ps: seq<DramPool>, c: DramChunk)
    requires ValidPools(ps)
    modifies ps
    ensures ValidPools(ps) && PoolStates(ps) == OfferAll(old(PoolStates(ps)), c)
  {
    ghost var before := PoolStates(ps);
    var i := 0;
    while i < |ps|
      invariant 0 <= i <= |ps| && ValidPools(ps)
      invariant forall k :: 0 <= k < |ps| ==>
        ps[k].State() == if k < i then PoolFree(before[k], c.hostPtr, c.size) else before[k]
    {
      ps[i].Free(c.hostPtr, c.size);
      i := i + 1;
    }
  }

  method FreeChunksOf(ps: seq<DramPool>, chunks: seq<DramChunk>)
    requires ValidPools(ps)
    modifies ps
    ensures ValidPools(ps) && PoolStates(ps) == FreeShards(old(PoolStates(ps)), chunks)
  {
    var i := 0;
    assert chunks[0..] == chunks;
    while i < |chunks|
      invariant 0 <= i <= |chunks| && ValidPools(ps)
      invariant FreeShards(old(PoolStates(ps)), chunks) == FreeShards(PoolStates(ps), chunks[i..])
    {
      assert chunks[i..][1..] == chunks[i + 1..];
      OfferChunk(ps, chunks[i]);
      i := i + 1;
    }
  }

  class TieredPool {
    const vmt: VirtualMemoryTable
    const pools: seq<DramPool>
    const membrane: Membrane
    var spill: SpillFile?
    var vramFree: seq<seq<Cached>>
    var queued: seq<nat>
    var inflight: map<Name, Flight>
    var settings: Settings
    // Memory the pool reads and writes, and the prefetch stream's queue.
    var host: seq<byte>
    var vram: map<nat, seq<byte>>
    var copies: map<nat, Copy>

    /** The objects behind the cold tier. */
    ghost function SpillParts(): set<object>
      reads this
    {
      if spill == null then {} else {spill, spill.alloc}
    }

    ghost predicate Valid()
      reads this, vmt, membrane, pools, SpillParts()
    {
      && ValidPools(pools)
      && (spill != null ==> spill.Valid())
      && 0 < |pools| == |vramFree| == |queued|
    }

    ghost function State(): (s: State)
      requires Valid()
      reads this, vmt, membrane, pools, SpillParts()
      ensures Wired(s)
    {
      Tiered.State(vmt.pages, vmt.nextId, PoolStates(pools), vramFree, queued, inflight,
                   if spill == null then None else Some(spill.State()),
                   membrane.State(), settings, host, vram, copies)
    }

    /** One empty host pool per GPU, placed where the system mapped it; no spill file yet. */
    constructor (nodes: seq<nat>, bases: seq<nat>, capacity: nat, settings: Settings, host: seq<byte>)
      requires 0 < |nodes| == |bases|
      ensures Valid() && fresh(vmt) && fresh(membrane) && spill == null
      ensures forall p :: p in pools ==> fresh(p)
      ensures State() == Started(BlankPools(nodes, bases, capacity), settings, host)
    {
      vmt := new VirtualMemoryTable();
      membrane := new Membrane();
      var ps := NewPools(nodes, bases, capacity);
      pools := ps;
      spill := null;
      vramFree, queued, inflight := seq(|bases|, _ => []), seq(|bases|, _ => 0), map[];
      this.settings, this.host, vram, copies := settings, host, map[], map[];
      new;
      assert PoolStates(pools) == BlankPools(nodes, bases, capacity);
    }

    // ---------------------------------------------------------- device blocks

    method TakeBlock(g: nat, bytes: nat, d: Driver) returns (r: Result<nat>)
      requires Valid()
      modifies this`vramFree, this`vram
      ensures Valid() && (State(), r) == AllocVram(old(State()), g, bytes, d)
    {
      if |vramFree| <= g { return Err(InvalidGpu); }
      var i := FindSize(vramFree[g], bytes);
      if i.Some? {
        r := Ok(vramFree[g][i.value].ptr);
        vramFree := vramFree[g := SwapRemove(vramFree[g], i.value)];
        return;
      }
      if d.Grant? && d.ptr != 0 && d.ptr !in vram {
        vram := vram[d.ptr := Peek(d.junk, 0, bytes)];
        return Ok(d.ptr);
      }
      return Err(DeviceOom);
    }

    method ReleaseBlock(g: nat, ptr: nat, bytes: nat)
      requires Valid()
      modifies this`vramFree
      ensures Valid() && State() == FreeVram(old(State()), g, ptr, bytes)
    {
      if ptr != 0 && g < |vramFree| {
        vramFree := vramFree[g := vramFree[g] + [Cached(bytes, ptr)]];
      }
    }

    method PushChunk(name: Name, c: Chunk, now: nat)
      requires Valid() && name in vmt.pages
      modifies vmt
      ensures Valid() && State() == Attach(old(State()), name, c, now)
    {
      var page := vmt.pages[name].Touch(now);
      page := page.(vram := page.vram + [c], tier := Tier.Vram, state := Resident);
      vmt.pages := vmt.pages[name := page];
    }

    /** Wait for an outstanding prefetch copy. */
    method Synchronize(ptr: nat)
      requires Valid()
      modifies this`vram, this`copies
      ensures Valid() && State() == Land(old(State()), ptr)
    {
      if ptr in copies {
        vram := DevWrite(vram, ptr, 0, Peek(host, copies[ptr].src, copies[ptr].size));
        copies := copies - {ptr};
      }
    }

    // --------------------------------------------------------------- allocate

    method Allocate(name: Name, shape: seq<nat>, elementSize: nat, initialTier: Tier) returns (r: Result<Name>)
      requires Valid()
      modifies vmt, pools, SpillParts()
      ensures Valid() && (State(), r) == AllocateStep(old(State()), name, shape, elementSize, initialTier)
    {
      var allocName := vmt.Allocate(name, shape, elementSize);
      assert State() == Registered(old(State()), name, shape, elementSize);
      if initialTier == Ssd {
        r := BackWithFile(allocName);
      } else {
        r := BackWithPools(allocName, initialTier);
      }
    }

    method BackWithFile(name: Name) returns (r: Result<Name>)
      requires Valid() && name in vmt.pages
      modifies vmt, SpillParts()
      ensures Valid() && (State(), r) == AllocateCold(old(State()), name)
    {
      if spill == null { return Err(UnknownAllocation); }
      var offset := spill.Reserve(vmt.pages[name].size);
      if offset.Err? { return Err(offset.error); }
      vmt.pages := vmt.pages[name := vmt.pages[name].(tier := Ssd, state := Cold, ssd := Some(offset.value))];
      return Ok(name);
    }

    /** The host half of a warm allocation: only the pools change. */
    method TakeShards(total: nat) returns (chunks: seq<DramChunk>, err: Option<Error>)
      requires Valid()
      modifies pools
      ensures Valid() && State() == old(State()).(pools := AllocShards(old(State()).pools, total, 0, []).0)
      ensures (chunks, err) == (AllocShards(old(State()).pools, total, 0, []).1, AllocShards(old(State()).pools, total, 0, []).2)
    {
      chunks, err := AllocateShards(pools, total);
    }

    method BackWithPools(name: Name, tier: Tier) returns (r: Result<Name>)
      requires Valid() && name in vmt.pages
      modifies vmt, pools
      ensures Valid() && (State(), r) == AllocateWarm(old(State()), name, tier)
    {
      hide AllocShards;
      var page := vmt.pages[name].(tier := tier);
      var chunks, err := TakeShards(page.size);
      page := page.(dram := chunks);
      if err.None? { page := page.(state := StateOf(tier)); }
      vmt.pages := vmt.pages[name := page];
      r := if err.None? then Ok(name) else Err(err.value);
    }

    // ----------------------------------------------------------------- access

    method ClaimPrefetch(name: Name, g: nat, now: nat) returns (r: Result<Option<nat>>)
      requires Valid()
      modifies this`inflight, this`vramFree, this`vram, this`copies, vmt
      ensures Valid() && (State(), r) == ClaimStep(old(State()), name, g, now)
    {
      if name !in inflight { return Ok(None); }
      var f := inflight[name];
      inflight := inflight - {name};
      if f.gpu != g {
        ReleaseBlock(f.gpu, f.ptr, f.size);
        return Ok(None);
      }
      Synchronize(f.ptr);
      if name !in vmt.pages || |pools| <= g { return Err(Panic); }
      PushChunk(name, Chunk(g, f.ptr, f.size), now);
      return Ok(Some(f.ptr));
    }

    method AccessResident(name: Name, g: nat, now: nat, d: Driver) returns (r: Result<nat>)
      requires Valid() && name in vmt.pages
      modifies this`vramFree, this`vram, vmt
      ensures Valid() && (State(), r) == AccessVram(old(State()), name, g, now, d)
    {
      hide AllocVram, Attach, DevWrite, DevRead, FindChunk;
      var page := vmt.pages[name];
      var own := FindChunk(page.vram, g, true);
      if own.Some? {
        vmt.pages := vmt.pages[name := page.Touch(now)];
        return Ok(own.value.ptr);
      }
      var peer := FindChunk(page.vram, g, false);
      if peer.None? { return Err(UnknownAllocation); }
      r := TakeBlock(g, peer.value.size, d);
      if r.Err? { return; }
      vram := DevWrite(vram, r.value, 0, DevRead(vram, peer.value.ptr, peer.value.size));
      PushChunk(name, Chunk(g, r.value, peer.value.size), now);
    }

    method AccessWarm(name: Name, g: nat, now: nat, d: Driver) returns (r: Result<nat>)
      requires Valid() && name in vmt.pages
      modifies this`vramFree, this`vram, this`queued, vmt
      ensures Valid() && (State(), r) == AccessDram(old(State()), name, g, now, d)
    {
      hide AllocVram, Attach, DevWrite, Peek;
      var page := vmt.pages[name];
      if |page.dram| <= g || |queued| <= g { return Err(UnknownAllocation); }
      var c := page.dram[g];
      r := TakeBlock(g, c.size, d);
      if r.Err? { return; }
      if RING <= queued[g] { return Err(DmaRingFull); }
      queued := queued[g := queued[g] + 1];
      vram := DevWrite(vram, r.value, 0, Peek(host, c.hostPtr, c.size));
      PushChunk(name, Chunk(g, r.value, c.size), now);
    }

    method CopyThrough(dst: nat, offset: nat, stage: nat, len: nat, total: nat) returns (err: Option<Error>)
      requires Valid() && (0 < len || total == 0)
      modifies this`host, this`vram
      ensures Valid() && (State(), err) == CopyUp(old(State()), dst, offset, stage, len, total)
    {
      if spill == null { return Some(UnknownAllocation); }
      var to := if dst in vram then vram[dst] else [];
      var from, dev, ok := StreamPieces(spill, host, to, offset, stage, len, total);
      host := from;
      if dst in vram { vram := vram[dst := dev]; }
      return if ok then None else Some(Io);
    }

    method Lend(g: nat, total: nat) returns (r: Result<(nat, nat)>)
      requires Valid() && g < |pools|
      modifies pools[g]
      ensures Valid() && r == Borrow(old(State()).pools[g], total)
      ensures State() == old(State()).(pools :=
        if r.Ok? then old(State()).pools[g := PoolAllocate(old(State()).pools[g], r.value.1).0] else old(State()).pools)
    {
      ghost var before := PoolStates(pools);
      r := BorrowBuffer(pools[g], total);
      assert PoolStates(pools) == before[g := pools[g].State()];
      assert before[g := before[g]] == before;
    }

    method GiveBack(g: nat, ptr: nat, len: nat)
      requires Valid() && g < |pools|
      modifies pools[g]
      ensures Valid()
      ensures State() == old(State()).(pools := old(State()).pools[g := PoolFree(old(State()).pools[g], ptr, len)])
    {
      ghost var before := PoolStates(pools);
      pools[g].Free(ptr, len);
      assert PoolStates(pools) == before[g := pools[g].State()];
    }

    /** Copy through a buffer borrowed from the pool, then give the buffer back. */
    method CopyStaged(g: nat, dst: nat, offset: nat, total: nat) returns (err: Option<Error>)
      requires Valid() && g < |pools|
      modifies this`host, this`vram, pools[g]
      ensures Valid() && (State(), err) == StageUp(old(State()), g, dst, offset, total)
    {
      var lent := Lend(g, total);
      if lent.Err? { return Some(lent.error); }
      err := CopyThrough(dst, offset, lent.value.0, lent.value.1, total);
      GiveBack(g, lent.value.0, lent.value.1);
    }

    method AccessCold(name: Name, g: nat, now: nat, d: Driver) returns (r: Result<nat>)
      requires Valid() && name in vmt.pages && g < |pools|
      modifies this`vramFree, this`vram, this`host, vmt, pools[g]
      ensures Valid() && (State(), r) == AccessSsd(old(State()), name, g, now, d)
    {
      hide AllocVram, FreeVram, Attach, CopyUp, StageUp;
      var page := vmt.pages[name];
      if page.ssd.None? { return Err(UnknownAllocation); }
      r := TakeBlock(g, page.size, d);
      if r.Err? { return; }
      var dst := r.value;
      var err;
      if g < |page.dram| && page.size <= page.dram[g].size {
        err := CopyThrough(dst, page.ssd.value, page.dram[g].hostPtr, page.size, page.size);
      } else {
        err := CopyStaged(g, dst, page.ssd.value, page.size);
      }
      if err.Some? {
        ReleaseBlock(g, dst, page.size);
        return Err(err.value);
      }
      PushChunk(name, Chunk(g, dst, page.size), now);
    }

    method Access(name: Name, g: nat, now: nat, d: Driver) returns (r: Result<nat>)
      requires Valid()
      modifies this`inflight, this`vramFree, this`vram, this`copies, this`queued, this`host, vmt, membrane
      modifies if g < |pools| then {pools[g]} else {}
      ensures Valid() && (State(), r) == AccessStep(old(State()), name, g, now, d)
    {
      hide ClaimStep, AccessVram, AccessDram, AccessSsd;
      membrane.Observe(name);
      var claimed := ClaimPrefetch(name, g, now);
      if claimed.Err? { return Err(claimed.error); }
      if claimed.value.Some? { return Ok(claimed.value.value); }
      if name !in vmt.pages { return Err(UnknownAllocation); }
      if |pools| <= g { return Err(Panic); }
      match vmt.pages[name].tier
      case Vram => r := AccessResident(name, g, now, d);
      case Dram => r := AccessWarm(name, g, now, d);
      case Ssd => r := AccessCold(name, g, now, d);
    }

    // ----------------------------------------------------------------- demote

    /** Write chunk `i` back to its shard and release its block. */
    method WriteBack(page: Page, i: nat) returns (err: Option<Error>)
      requires Valid() && i < |page.vram|
      modifies this`queued, this`host, this`vramFree
      ensures Valid()
      ensures DemoteChunks(old(State()), page.vram, page.dram, i)
           == if err.Some? then (State(), Err(err.value)) else DemoteChunks(State(), page.vram, page.dram, i + 1)
    {
      hide Poke, DevRead;
      var c := page.vram[i];
      if |page.dram| <= c.gpu || |queued| <= c.gpu { return Some(UnknownAllocation); }
      var backing := page.dram[c.gpu];
      // A shard never takes more than it was allocated.
      if backing.size < c.size { return Some(DramOom(c.size, backing.size, pools[c.gpu].capacity)); }
      if RING <= queued[c.gpu] { return Some(DmaRingFull); }
      queued := queued[c.gpu := queued[c.gpu] + 1];
      host := Poke(host, backing.hostPtr, DevRead(vram, c.ptr, c.size));
      ReleaseBlock(c.gpu, c.ptr, c.size);
      return None;
    }

    method Demote(name: Name) returns (r: Result<()>)
      requires Valid()
      modifies this`queued, this`host, this`vramFree, vmt
      ensures Valid() && (State(), r) == DemoteStep(old(State()), name)
    {
      if name !in vmt.pages { return Err(UnknownAllocation); }
      var page := vmt.pages[name];
      if page.tier != Tier.Vram || page.pinned { return Ok(()); }
      var i := 0;
      while i < |page.vram|
        invariant 0 <= i <= |page.vram| && Valid() && vmt.pages == old(vmt.pages)
        invariant DemoteChunks(old(State()), page.vram, page.dram, 0) == DemoteChunks(State(), page.vram, page.dram, i)
      {
        var err := WriteBack(page, i);
        if err.Some? { return Err(err.value); }
        i := i + 1;
      }
      vmt.pages := vmt.pages[name := page.(vram := [], tier := Tier.Dram, state := Warm)];
      return Ok(());
    }

    // ------------------------------------------------------- prefetch and write

    method Prefetch(name: Name, g: nat, d: Driver) returns (r: Result<()>)
      requires Valid()
      modifies this`inflight, this`vramFree, this`vram, this`copies
      ensures Valid() && (State(), r) == PrefetchStep(old(State()), name, g, d)
    {
      hide AllocVram;
      if name in inflight || name !in vmt.pages { return Ok(()); }
      var page := vmt.pages[name];
      if page.tier != Tier.Dram || page.dram == [] { return Ok(()); }
      var dst := TakeBlock(g, page.size, d);
      if dst.Err? { return Err(dst.error); }
      copies := copies[dst.value := Copy(page.dram[0].hostPtr, page.size)];
      inflight := inflight[name := Flight(g, dst.value, page.size)];
      return Ok(());
    }

    method WritePage(name: Name, data: seq<byte>, disk: Disk) returns (r: Result<()>)
      requires Valid()
      modifies this`host, SpillParts()
      ensures Valid() && (State(), r) == WriteStep(old(State()), name, data, disk)
    {
      if name !in vmt.pages { return Err(UnknownAllocation); }
      var page := vmt.pages[name];
      if |data| != page.size { return Err(Io); }
      if page.tier == Ssd {
        if page.ssd.None? || spill == null { return Err(UnknownAllocation); }
        r := spill.WriteAt(data, page.ssd.value, disk);
        return;
      }
      var written;
      host, written := ScatterPieces(host, page.dram, data);
      return if written == |data| then Ok(()) else Err(Io);
    }

    // -------------------------------------------------------------- deallocate

    method ReleaseChunks(chunks: seq<Chunk>)
      requires Valid()
      modifies this`vramFree
      ensures Valid() && State() == FreeChunks(old(State()), chunks)
    {
      var i := 0;
      assert chunks[0..] == chunks;
      while i < |chunks|
        invariant 0 <= i <= |chunks| && Valid()
        invariant FreeChunks(old(State()), chunks) == FreeChunks(State(), chunks[i..])
      {
        assert chunks[i..][1..] == chunks[i + 1..];
        ReleaseBlock(chunks[i].gpu, chunks[i].ptr, chunks[i].size);
        i := i + 1;
      }
    }

    method Deallocate(name: Name) returns (r: Result<()>)
      requires Valid()
      modifies this`vramFree, pools, vmt
      ensures Valid() && (State(), r) == DeallocateStep(old(State()), name)
    {
      if name !in vmt.pages { return Err(UnknownAllocation); }
      var page := vmt.pages[name];
      ReleaseChunks(page.vram);
      FreeChunksOf(pools, page.dram);
      var _ := vmt.Remove(name);
      return Ok(());
    }

    // ------------------------------------------------------------------ sweeps

    method AttachSpill(capacity: nat)
      requires Valid()
      modifies this`spill
      ensures fresh(SpillParts())
      ensures Valid() && (State(), Ok(0)) == Step(old(State()), Op.AttachSpill(capacity))
    {
      spill := new SpillFile.Create(capacity);
    }

    method EnableMembrane(budget: nat)
      requires Valid()
      modifies this`settings
      ensures Valid() && (State(), Ok(0)) == Step(old(State()), Op.EnableMembrane(budget))
    {
      settings := settings.(budget := Some(budget));
    }

    method Observations(order: seq<Name>) returns (cands: seq<Candidate>)
      requires Valid()
      ensures cands == Candidates(State(), order)
    {
      ghost var s := State();
      cands := [];
      var i := 0;
      assert order[0..] == order;
      while i < |order|
        invariant 0 <= i <= |order|
        invariant Candidates(s, order) == cands + Candidates(s, order[i..])
      {
        CandidatesUnfold(s, order, i);
        if order[i] in vmt.pages {
          var page := vmt.pages[order[i]];
          cands := cands + [Candidate(order[i], PageObs(membrane.State().Rate(order[i]), page.size, page.tier == Tier.Vram, page.pinned))];
        }
        i := i + 1;
      }
    }

    method EvictEach(names: seq<Name>) returns (r: Result<()>)
      requires Valid()
      modifies this`queued, this`host, this`vramFree, vmt
      ensures Valid() && (State(), r) == EvictAll(old(State()), names)
    {
      hide DemoteStep;
      var i := 0;
      assert names[0..] == names;
      while i < |names|
        invariant 0 <= i <= |names| && Valid()
        invariant EvictAll(old(State()), names) == EvictAll(State(), names[i..])
      {
        EvictUnfolds(State(), names, i);
        if names[i] in vmt.pages && vmt.pages[names[i]].tier == Tier.Vram {
          r := Demote(names[i]);
          if r.Err? { return; }
        }
        i := i + 1;
      }
      return Ok(());
    }

    method PromoteEach(names: seq<Name>, now: nat, ds: seq<Driver>)
      requires Valid()
      modifies this`inflight, this`vramFree, this`vram, this`copies, this`queued, this`host, vmt, membrane, pools[0]
      ensures Valid() && State() == PromoteAll(old(State()), names, now, ds, 0)
    {
      hide AccessStep;
      var i := 0;
      while i < |names|
        invariant 0 <= i <= |names| && Valid()
        invariant PromoteAll(old(State()), names, now, ds, 0) == PromoteAll(State(), names, now, ds, i)
      {
        if names[i] in vmt.pages && vmt.pages[names[i]].tier != Tier.Vram {
          // A page that cannot be promoted stays where it is.
          var _ := Access(names[i], 0, now, DriverAt(ds, i));
        }
        i := i + 1;
      }
    }

    /** Close the window, then rank what it saw. */
    method DecideResidence(order: seq<Name>, budget: nat) returns (keep: seq<Name>, evict: seq<Name>)
      requires Valid()
      modifies membrane
      ensures Valid() && State() == old(State()).(membrane := old(State()).membrane.Decayed())
      ensures (keep, evict) == Plans.Plan(settings.policy, Candidates(State(), order), budget)
    {
      hide Plans.Plan, Candidates, PoolStates;
      membrane.Decay();
      var cands := Observations(order);
      keep, evict := membrane.Plan(settings.policy, cands, budget);
    }

    method MembraneSweep(order: seq<Name>, now: nat, ds: seq<Driver>) returns (r: Result<()>)
      requires Valid()
      modifies this`inflight, this`vramFree, this`vram, this`copies, this`queued, this`host, vmt, membrane, pools[0]
      ensures Valid() && (State(), r) == MembraneSweepStep(old(State()), order, now, ds)
    {
      hide EvictAll, PromoteAll, Plans.Plan, Candidates;
      ghost var s := State();
      if settings.budget.None? { return Ok(()); }
      var keep, evict := DecideResidence(order, settings.budget.value);
      ghost var s1 := State();
      r := EvictEach(evict);
      ghost var s2 := State();
      if r.Ok? { PromoteEach(keep, now, ds); }
      MembraneSweepIs(s, order, now, ds, s1, keep, evict, s2, r);
    }

    method SelectEach(order: seq<Name>, pick: Page -> bool) returns (names: seq<Name>)
      requires Valid()
      ensures names == Select(State(), order, pick)
    {
      ghost var s := State();
      names := [];
      var i := 0;
      assert order[0..] == order;
      while i < |order|
        invariant 0 <= i <= |order|
        invariant Select(s, order, pick) == names + Select(s, order[i..], pick)
      {
        SelectUnfolds(s, order, pick, i);
        if order[i] in vmt.pages && pick(vmt.pages[order[i]]) { names := names + [order[i]]; }
        i := i + 1;
      }
    }

    method DemoteEach(names: seq<Name>) returns (r: Result<()>)
      requires Valid()
      modifies this`queued, this`host, this`vramFree, vmt
      ensures Valid() && (State(), r) == DemoteAll(old(State()), names)
    {
      hide DemoteStep;
      var i := 0;
      assert names[0..] == names;
      while i < |names|
        invariant 0 <= i <= |names| && Valid()
        invariant DemoteAll(old(State()), names) == DemoteAll(State(), names[i..])
      {
        DemoteUnfolds(State(), names, i);
        r := Demote(names[i]);
        if r.Err? { return; }
        i := i + 1;
      }
      return Ok(());
    }

    method AccessEach(names: seq<Name>, now: nat, ds: seq<Driver>) returns (r: Result<()>)
      requires Valid()
      modifies this`inflight, this`vramFree, this`vram, this`copies, this`queued, this`host, vmt, membrane, pools[0]
      ensures Valid() && (State(), r) == AccessAll(old(State()), names, now, ds, 0)
    {
      hide AccessStep;
      var i := 0;
      while i < |names|
        invariant 0 <= i <= |names| && Valid()
        invariant AccessAll(old(State()), names, now, ds, 0) == AccessAll(State(), names, now, ds, i)
      {
        var ptr := Access(names[i], 0, now, DriverAt(ds, i));
        if ptr.Err? { return Err(ptr.error); }
        i := i + 1;
      }
      return Ok(());
    }

    method IdleSweep(order: seq<Name>, now: nat, ds: seq<Driver>) returns (r: Result<()>)
      requires Valid() && settings.budget.None?
      modifies this`inflight, this`vramFree, this`vram, this`copies, this`queued, this`host, vmt, membrane, pools[0]
      ensures Valid() && (State(), r) == BackgroundSweepStep(old(State()), order, now, ds)
    {
      hide DemoteAll, AccessAll, Select;
      var idleAfter, hotAt := settings.idleAfter, settings.hotAt;
      var toDemote := SelectEach(order, IdleResident(now, idleAfter));
      var toPromote := SelectEach(order, HotWarm(hotAt));
      ghost var s := State();
      r := DemoteEach(toDemote);
      ghost var s1, r1 := State(), r;
      if r.Ok? { r := AccessEach(toPromote, now, ds); }
      IdleSweepIs(s, order, now, ds, toDemote, toPromote, s1, r1);
    }

    /** `order` is the page table's iteration order; `ds` answers the sweep's allocations in turn. */
    method BackgroundSweep(order: seq<Name>, now: nat, ds: seq<Driver>) returns (r: Result<()>)
      requires Valid()
      modifies this`inflight, this`vramFree, this`vram, this`copies, this`queued, this`host, vmt, membrane, pools[0]
      ensures Valid() && (State(), r) == BackgroundSweepStep(old(State()), order, now, ds)
    {
      if settings.budget.Some? {
        r := MembraneSweep(order, now, ds);
      } else {
        r := IdleSweep(order, now, ds);
      }
    }
  }
}
