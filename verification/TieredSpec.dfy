/** src/tiered.rs: the three-tier pool as a step machine over any number of GPUs.
  *
  * Device copies are assignments to byte memories; the driver, the file system's answers, the clock
  * and the iteration order of the page table are arguments of the steps.
  */
module Tiered {
  import opened Common
  import opened Ranges
  import opened DramPools
  import opened Spills
  import opened Vmt
  import opened Plans
  import opened Membranes

  /** Slots of one DMA ring. */
  const RING: nat := 1024

  /** Smallest staging buffer the halving loop asks for before giving up. */
  const STAGING_FLOOR: nat := 0x10_0000

  /** A released device block waiting to be reused. */
  datatype Cached = Cached(size: nat, ptr: nat)

  /** A prefetch issued and not yet claimed. */
  datatype Flight = Flight(gpu: nat, ptr: nat, size: nat)

  /** A host-to-device copy queued on the prefetch stream and not yet performed. */
  datatype Copy = Copy(src: nat, size: nat)

  /** What the driver answers to an allocation: an error, or a block with unknown contents. */
  datatype Driver = Refuse | Grant(ptr: nat, junk: seq<byte>)

  /** Placement policy: the membrane's when a budget is set, idle timeout and hot count otherwise. */
  datatype Settings = Settings(policy: TierPolicy, budget: Option<nat>, idleAfter: nat, hotAt: nat)

  datatype State = State(
    pages: map<Name, Page>,
    nextId: nat,
    pools: seq<Pool>,              // one per GPU
    cache: seq<seq<Cached>>,       // vram_free, one per GPU
    queued: seq<nat>,              // unconsumed descriptors, one ring per GPU
    inflight: map<Name, Flight>,
    spill: Option<Spill>,
    membrane: Rates,
    settings: Settings,
    host: seq<byte>,               // host memory, by address
    vram: map<nat, seq<byte>>,     // every block the driver has handed out
    copies: map<nat, Copy>)        // outstanding prefetch copies, by destination block

  /** Per-GPU tables agree on the number of GPUs. */
  predicate Wired(s: State) {
    0 < |s.pools| == |s.cache| == |s.queued|
  }

  /** A new pool: empty tables over the given host pools. */
  function Started(pools: seq<Pool>, settings: Settings, host: seq<byte>): State {
    State(map[], 0, pools, seq(|pools|, _ => []), seq(|pools|, _ => 0), map[], None, Rates(map[], map[], 0), settings, host, map[], map[])
  }

  function DevRead(vram: map<nat, seq<byte>>, ptr: nat, n: nat): seq<byte> {
    Peek(if ptr in vram then vram[ptr] else [], 0, n)
  }

  function DevWrite(vram: map<nat, seq<byte>>, ptr: nat, at: nat, data: seq<byte>): map<nat, seq<byte>> {
    if ptr in vram then vram[ptr := Poke(vram[ptr], at, data)] else vram
  }

  // ------------------------------------------------------------ device blocks

  /** First cached block of exactly `n` bytes. */
  function FindSize(c: seq<Cached>, n: nat): (r: Option<nat>)
    ensures r.Some? ==> r.value < |c| && c[r.value].size == n
    ensures r.None? ==> forall i :: 0 <= i < |c| ==> c[i].size != n
  {
    if c == [] then None
    else if c[0].size == n then Some(0)
    else match FindSize(c[1..], n) case None => None case Some(i) => Some(i + 1)
  }

  lemma {:induction false} FindSizeIsFirst(c: seq<Cached>, n: nat)
    requires FindSize(c, n).Some?
    ensures forall i :: 0 <= i < FindSize(c, n).value ==> c[i].size != n
    decreases |c|
  {
    if c[0].size != n { FindSizeIsFirst(c[1..], n); }
  }

  /** Remove entry `i`, moving the last entry into its place. */
  function SwapRemove(c: seq<Cached>, i: nat): seq<Cached>
    requires i < |c|
  {
    c[i := c[|c| - 1]][..|c| - 1]
  }

  function AllocVram(s: State, g: nat, n: nat, d: Driver): (r: (State, Result<nat>))
    requires Wired(s)
    ensures r.0 == s.(cache := r.0.cache, vram := r.0.vram) && Wired(r.0)
  {
    if |s.cache| <= g then (s, Err(InvalidGpu))
    else match FindSize(s.cache[g], n)
      case Some(i) => (s.(cache := s.cache[g := SwapRemove(s.cache[g], i)]), Ok(s.cache[g][i].ptr))
      case None =>
        if d.Grant? && d.ptr != 0 && d.ptr !in s.vram then (s.(vram := s.vram[d.ptr := Peek(d.junk, 0, n)]), Ok(d.ptr))
        else (s, Err(DeviceOom))
  }

  /** The recycle cache or the driver can provide a block of `n` bytes. */
  predicate Obtainable(s: State, g: nat, n: nat, d: Driver) {
    g < |s.cache| && (FindSize(s.cache[g], n).Some? || (d.Grant? && d.ptr != 0 && d.ptr !in s.vram))
  }

  function FreeVram(s: State, g: nat, ptr: nat, n: nat): (r: State)
    requires Wired(s)
    ensures r == s.(cache := r.cache) && Wired(r)
  {
    if ptr == 0 || |s.cache| <= g then s else s.(cache := s.cache[g := s.cache[g] + [Cached(n, ptr)]])
  }

  /** A page gains a chunk and becomes resident. */
  function Attach(s: State, name: Name, c: Chunk, now: nat): (r: State)
    requires name in s.pages
    ensures r == s.(pages := r.pages)
  {
    var p := s.pages[name];
    s.(pages := s.pages[name := p.Touch(now).(vram := p.vram + [c], tier := Vram, state := Resident)])
  }

  /** An outstanding prefetch copy takes place. */
  function Land(s: State, ptr: nat): (r: State)
    ensures r == s.(vram := r.vram, copies := r.copies)
  {
    if ptr in s.copies then
      s.(vram := DevWrite(s.vram, ptr, 0, Peek(s.host, s.copies[ptr].src, s.copies[ptr].size)), copies := s.copies - {ptr})
    else s
  }

  // ------------------------------------------------------------------- allocate

  /** Bytes of shard `i` when `total` bytes are split over `n` pools: the last takes the remainder. */
  function ShardSize(total: nat, n: nat, i: nat): nat
    requires 0 < n
  {
    total / n + if i + 1 == n then total % n else 0
  }

  /** One chunk per pool, in pool order, stopping at the first pool that cannot serve it. */
  ghost function AllocShards(pools: seq<Pool>, total: nat, i: nat, chunks: seq<DramChunk>): (r: (seq<Pool>, seq<DramChunk>, Option<Error>))
    requires 0 < |pools|
    ensures |r.0| == |pools|
    decreases |pools| - i
  {
    if |pools| <= i then (pools, chunks, None)
    else
      var n := ShardSize(total, |pools|, i);
      match PoolAllocate(pools[i], n)
      case (_, Err(e)) => (pools, chunks, Some(e))
      case (p, Ok(ptr)) => AllocShards(pools[i := p], total, i + 1, chunks + [DramChunk(p.node, ptr, n)])
  }

  /** A cold page is backed by a range of the spill file alone. */
  ghost function AllocateCold(s: State, name: Name): (r: (State, Result<Name>))
    requires name in s.pages
    ensures r.0 == s.(pages := r.0.pages, spill := r.0.spill)
  {
    match s.spill
    case None => (s, Err(UnknownAllocation))
    case Some(sp) =>
      match ReserveSpec(sp, s.pages[name].size)
      case (sp', Err(e)) => (s.(spill := Some(sp')), Err(e))
      case (sp', Ok(off)) =>
        (s.(spill := Some(sp'), pages := s.pages[name := s.pages[name].(tier := Ssd, state := Cold, ssd := Some(off))]), Ok(name))
  }

  /** Any other page is backed by one chunk per pool; a failure leaves the chunks obtained so far. */
  ghost function AllocateWarm(s: State, name: Name, tier: Tier): (r: (State, Result<Name>))
    requires Wired(s) && name in s.pages
    ensures r.0 == s.(pages := r.0.pages, pools := r.0.pools) && Wired(r.0)
  {
    var p := s.pages[name].(tier := tier);
    var (pools, chunks, err) := AllocShards(s.pools, p.size, 0, []);
    (s.(pools := pools, pages := s.pages[name := p.(dram := chunks, state := if err.None? then StateOf(tier) else p.state)]),
     if err.None? then Ok(name) else Err(err.value))
  }

  /** The table entry every allocation starts from. */
  function Registered(s: State, name: Name, shape: seq<nat>, elementSize: nat): State {
    var chosen := ChosenName(name, s.nextId);
    s.(nextId := s.nextId + if name == "" then 1 else 0,
       pages := s.pages[chosen := NewPage(chosen, shape, elementSize).(state := Allocated)])
  }

  ghost function AllocateStep(s: State, name: Name, shape: seq<nat>, elementSize: nat, tier: Tier): (r: (State, Result<Name>))
    requires Wired(s)
    ensures Wired(r.0)
  {
    var s1 := Registered(s, name, shape, elementSize);
    var chosen := ChosenName(name, s.nextId);
    if tier == Ssd then AllocateCold(s1, chosen) else AllocateWarm(s1, chosen, tier)
  }

  // --------------------------------------------------------------------- access

  function FindChunk(cs: seq<Chunk>, g: nat, own: bool): (r: Option<Chunk>)
    ensures r.Some? ==> r.value in cs && (r.value.gpu == g) == own
    ensures r.None? ==> forall c :: c in cs ==> (c.gpu == g) != own
  {
    if cs == [] then None
    else if (cs[0].gpu == g) == own then Some(cs[0])
    else
      assert cs == [cs[0]] + cs[1..];
      FindChunk(cs[1..], g, own)
  }

  /** It is the first such chunk. */
  lemma {:induction false} FindChunkIsFirst(cs: seq<Chunk>, g: nat, own: bool, k: nat)
    requires k < |cs| && (cs[k].gpu == g) == own && forall j :: 0 <= j < k ==> (cs[j].gpu == g) != own
    ensures FindChunk(cs, g, own) == Some(cs[k])
    decreases |cs|
  {
    if 0 < k { FindChunkIsFirst(cs[1..], g, own, k - 1); }
  }

  function ClaimStep(s: State, name: Name, g: nat, now: nat): (r: (State, Result<Option<nat>>))
    requires Wired(s)
    ensures Wired(r.0) && r.0.nextId == s.nextId && r.0.queued == s.queued
  {
    if name !in s.inflight then (s, Ok(None))
    else
      var f := s.inflight[name];
      var s1 := s.(inflight := s.inflight - {name});
      if f.gpu != g then (FreeVram(s1, f.gpu, f.ptr, f.size), Ok(None))
      else
        // Synchronising the event means the copy has taken place.
        var s2 := Land(s1, f.ptr);
        if name !in s2.pages || |s2.pools| <= g then (s2, Err(Panic))
        else (Attach(s2, name, Chunk(g, f.ptr, f.size), now), Ok(Some(f.ptr)))
  }

  /** Resident somewhere: use this GPU's chunk, or copy another GPU's. */
  function AccessVram(s: State, name: Name, g: nat, now: nat, d: Driver): (r: (State, Result<nat>))
    requires Wired(s) && name in s.pages
    ensures Wired(r.0) && r.0.nextId == s.nextId
  {
    var p := s.pages[name];
    match FindChunk(p.vram, g, true)
    case Some(c) => (s.(pages := s.pages[name := p.Touch(now)]), Ok(c.ptr))
    case None =>
      match FindChunk(p.vram, g, false)
      case None => (s, Err(UnknownAllocation))
      case Some(src) =>
        match AllocVram(s, g, src.size, d)
        case (s1, Err(e)) => (s1, Err(e))
        case (s1, Ok(dst)) =>
          var s2 := s1.(vram := DevWrite(s1.vram, dst, 0, DevRead(s1.vram, src.ptr, src.size)));
          (Attach(s2, name, Chunk(g, dst, src.size), now), Ok(dst))
  }

  /** Warm: copy this GPU's shard up.  A full ring is noticed only after the block was taken. */
  function AccessDram(s: State, name: Name, g: nat, now: nat, d: Driver): (r: (State, Result<nat>))
    requires Wired(s) && name in s.pages
    ensures Wired(r.0) && r.0.nextId == s.nextId
  {
    var p := s.pages[name];
    if |p.dram| <= g || |s.queued| <= g then (s, Err(UnknownAllocation))
    else
      var c := p.dram[g];
      match AllocVram(s, g, c.size, d)
      case (s1, Err(e)) => (s1, Err(e))
      case (s1, Ok(dst)) =>
        if RING <= s1.queued[g] then (s1, Err(DmaRingFull))
        else
          var s2 := s1.(queued := s1.queued[g := s1.queued[g] + 1], vram := DevWrite(s1.vram, dst, 0, Peek(s1.host, c.hostPtr, c.size)));
          (Attach(s2, name, Chunk(g, dst, c.size), now), Ok(dst))
  }

  /** Halve the request until the pool can serve it. */
  ghost function Borrow(p: Pool, want: nat): (r: Result<(nat, nat)>)
    ensures r.Ok? ==> PoolAllocate(p, r.value.1).1 == Ok(r.value.0) && r.value.1 <= want && (0 < want ==> 0 < r.value.1)
    decreases want
  {
    match PoolAllocate(p, want).1
    case Ok(ptr) => Ok((ptr, want))
    case Err(e) => if want <= STAGING_FLOOR then Err(e) else Borrow(p, want / 2)
  }

  /** Stream `total` file bytes through a staging buffer of `len` bytes into a device block. */
  function Stream(host: seq<byte>, dev: seq<byte>, file: seq<byte>, offset: nat, stage: nat, len: nat, total: nat, done: nat): (r: (seq<byte>, seq<byte>, bool))
    requires 0 < len || total <= done
    ensures |r.0| == |host| && |r.1| == |dev|
    decreases total - done
  {
    if total <= done then (host, dev, true)
    else
      var n := if len <= total - done then len else total - done;
      // A read that meets the end of the file leaves what it got in the buffer.
      var got := Available(file, offset + done, n);
      var host1 := Poke(host, stage, got);
      if |got| < n then (host1, dev, false)
      else
        Stream(host1, Poke(dev, done, Peek(host1, stage, n)), file, offset, stage, len, total, done + n)
  }

  /** Run the copy loop from staging buffer `stage` of `len` bytes; without a spill file nothing is copied. */
  function CopyUp(s: State, dst: nat, offset: nat, stage: nat, len: nat, total: nat): (r: (State, Option<Error>))
    requires 0 < len || total == 0
    ensures r.0 == s.(host := r.0.host, vram := r.0.vram)
  {
    match s.spill
    case None => (s, Some(UnknownAllocation))
    case Some(sp) =>
      var dev := if dst in s.vram then s.vram[dst] else [];
      var (host, dev', ok) := Stream(s.host, dev, sp.file, offset, stage, len, total, 0);
      (s.(host := host, vram := if dst in s.vram then s.vram[dst := dev'] else s.vram), if ok then None else Some(Io))
  }

  /** Copy through a buffer borrowed from the pool, which is given back whatever happens. */
  ghost function StageUp(s: State, g: nat, dst: nat, offset: nat, total: nat): (r: (State, Option<Error>))
    requires Wired(s) && g < |s.pools|
    ensures r.0 == s.(pools := r.0.pools, host := r.0.host, vram := r.0.vram) && Wired(r.0)
  {
    match Borrow(s.pools[g], total)
    case Err(e) => (s, Some(e))
    case Ok((stage, len)) =>
      var s1 := s.(pools := s.pools[g := PoolAllocate(s.pools[g], len).0]);
      var (s2, err) := CopyUp(s1, dst, offset, stage, len, total);
      (s2.(pools := s2.pools[g := PoolFree(s2.pools[g], stage, len)]), err)
  }

  /** Keep the promoted block, or give it back after an error. */
  function SettleSsd(s: State, err: Option<Error>, name: Name, g: nat, dst: nat, size: nat, now: nat): (r: (State, Result<nat>))
    requires Wired(s) && name in s.pages
    ensures r.0 == s.(pages := r.0.pages, cache := r.0.cache) && Wired(r.0)
  {
    match err
    case Some(e) => (FreeVram(s, g, dst, size), Err(e))
    case None => (Attach(s, name, Chunk(g, dst, size), now), Ok(dst))
  }

  /** Cold: stage the file range through host memory, in the page's own chunk if it has one. */
  ghost function AccessSsd(s: State, name: Name, g: nat, now: nat, d: Driver): (r: (State, Result<nat>))
    requires Wired(s) && name in s.pages && g < |s.pools|
    ensures Wired(r.0) && r.0.nextId == s.nextId
  {
    var p := s.pages[name];
    if p.ssd.None? then (s, Err(UnknownAllocation))
    else
      match AllocVram(s, g, p.size, d)
      case (s1, Err(e)) => (s1, Err(e))
      case (s1, Ok(dst)) =>
        var (s2, err) :=
          if g < |p.dram| && p.size <= p.dram[g].size then CopyUp(s1, dst, p.ssd.value, p.dram[g].hostPtr, p.size, p.size)
          else StageUp(s1, g, dst, p.ssd.value, p.size);
        SettleSsd(s2, err, name, g, dst, p.size, now)
  }

  /** A GPU index beyond the pool's passes the lookup and then goes out of bounds. */
  ghost function AccessStep(s: State, name: Name, g: nat, now: nat, d: Driver): (r: (State, Result<nat>))
    requires Wired(s)
    ensures Wired(r.0) && r.0.nextId == s.nextId
  {
    var s1 := s.(membrane := s.membrane.Observed(name));
    match ClaimStep(s1, name, g, now)
    case (s2, Err(e)) => (s2, Err(e))
    case (s2, Ok(Some(ptr))) => (s2, Ok(ptr))
    case (s2, Ok(None)) =>
      if name !in s2.pages then (s2, Err(UnknownAllocation))
      else if |s2.pools| <= g then (s2, Err(Panic))
      else match s2.pages[name].tier
        case Vram => AccessVram(s2, name, g, now, d)
        case Dram => AccessDram(s2, name, g, now, d)
        case Ssd => AccessSsd(s2, name, g, now, d)
  }

  // --------------------------------------------------------------------- demote

  /** Write chunks `i..` back to their shards and release their blocks; stops at the first failure. */
  function DemoteChunks(s: State, vram: seq<Chunk>, dram: seq<DramChunk>, i: nat): (r: (State, Result<()>))
    requires Wired(s)
    ensures r.0 == s.(queued := r.0.queued, host := r.0.host, cache := r.0.cache) && Wired(r.0)
    decreases |vram| - i
  {
    if |vram| <= i then (s, Ok(()))
    else
      var c := vram[i];
      if |dram| <= c.gpu || |s.queued| <= c.gpu then (s, Err(UnknownAllocation))
      else if dram[c.gpu].size < c.size then (s, Err(DramOom(c.size, dram[c.gpu].size, s.pools[c.gpu].heap.capacity)))
      else if RING <= s.queued[c.gpu] then (s, Err(DmaRingFull))
      else
        var s1 := s.(queued := s.queued[c.gpu := s.queued[c.gpu] + 1],
                     host := Poke(s.host, dram[c.gpu].hostPtr, DevRead(s.vram, c.ptr, c.size)));
        DemoteChunks(FreeVram(s1, c.gpu, c.ptr, c.size), vram, dram, i + 1)
  }

  function DemoteStep(s: State, name: Name): (r: (State, Result<()>))
    requires Wired(s)
    ensures Wired(r.0) && r.0.nextId == s.nextId
  {
    if name !in s.pages then (s, Err(UnknownAllocation))
    else
      var p := s.pages[name];
      if p.tier != Vram || p.pinned then (s, Ok(()))
      else match DemoteChunks(s, p.vram, p.dram, 0)
        case (s1, Err(e)) => (s1, Err(e))
        case (s1, Ok(_)) => (s1.(pages := s1.pages[name := p.(vram := [], tier := Dram, state := Warm)]), Ok(()))
  }

  // ------------------------------------------------------------------- prefetch

  function PrefetchStep(s: State, name: Name, g: nat, d: Driver): (r: (State, Result<()>))
    requires Wired(s)
    ensures Wired(r.0) && r.0.nextId == s.nextId
  {
    if name in s.inflight || name !in s.pages then (s, Ok(()))
    else
      var p := s.pages[name];
      if p.tier != Dram || p.dram == [] then (s, Ok(()))
      else match AllocVram(s, g, p.size, d)
        case (s1, Err(e)) => (s1, Err(e))
        case (s1, Ok(dst)) =>
          (s1.(inflight := s1.inflight[name := Flight(g, dst, p.size)],
               copies := s1.copies[dst := Copy(p.dram[0].hostPtr, p.size)]), Ok(()))
  }

  // ----------------------------------------------------------------- write_page

  /** Walk the chunks, each taking its own share of the data; an empty share ends the walk. */
  function Scatter(host: seq<byte>, chunks: seq<DramChunk>, data: seq<byte>, written: nat): (r: (seq<byte>, nat))
    requires written <= |data|
    ensures |r.0| == |host|
    decreases |chunks|
  {
    if chunks == [] then (host, written)
    else
      var c := chunks[0];
      var end := if written + c.size <= |data| then written + c.size else |data|;
      if end <= written then (host, written)
      else Scatter(Poke(host, c.hostPtr, data[written..end]), chunks[1..], data, end)
  }

  /** A failing disk may take a prefix of a cold page's data. */
  function WriteStep(s: State, name: Name, data: seq<byte>, disk: Disk): (r: (State, Result<()>))
    ensures r.0 == s.(host := r.0.host, spill := r.0.spill)
  {
    if name !in s.pages then (s, Err(UnknownAllocation))
    else
      var p := s.pages[name];
      if |data| != p.size then (s, Err(Io))
      else if p.tier == Ssd then
        if p.ssd.None? || s.spill.None? then (s, Err(UnknownAllocation))
        else
          var sp := s.spill.value;
          (s.(spill := Some(sp.(file := WriteFile(sp.file, p.ssd.value, Landed(data, disk))))),
           if Fails(data, disk) then Err(Io) else Ok(()))
      else
        var (host, written) := Scatter(s.host, p.dram, data, 0);
        (s.(host := host), if written == |data| then Ok(()) else Err(Io))
  }

  // ----------------------------------------------------------------- deallocate

  function FreeChunks(s: State, vram: seq<Chunk>): (r: State)
    requires Wired(s)
    ensures r == s.(cache := r.cache) && Wired(r)
    decreases |vram|
  {
    if vram == [] then s else FreeChunks(FreeVram(s, vram[0].gpu, vram[0].ptr, vram[0].size), vram[1..])
  }

  /** A chunk is offered to every pool; the pools' own range checks pick the owner. */
  ghost function OfferAll(pools: seq<Pool>, c: DramChunk): (r: seq<Pool>)
    ensures |r| == |pools|
  {
    seq(|pools|, i requires 0 <= i < |pools| => PoolFree(pools[i], c.hostPtr, c.size))
  }

  ghost function FreeShards(pools: seq<Pool>, chunks: seq<DramChunk>): (r: seq<Pool>)
    ensures |r| == |pools|
    decreases |chunks|
  {
    if chunks == [] then pools else FreeShards(OfferAll(pools, chunks[0]), chunks[1..])
  }

  ghost function DeallocateStep(s: State, name: Name): (r: (State, Result<()>))
    requires Wired(s)
    ensures Wired(r.0) && r.0.nextId == s.nextId
  {
    if name !in s.pages then (s, Err(UnknownAllocation))
    else
      var p := s.pages[name];
      var s1 := FreeChunks(s, p.vram);
      (s1.(pools := FreeShards(s1.pools, p.dram), pages := s1.pages - {name}), Ok(()))
  }

  // --------------------------------------------------------------------- sweeps

  function DriverAt(ds: seq<Driver>, i: nat): Driver { if i < |ds| then ds[i] else Refuse }

  /** Demote each named page that is in VRAM; the first error ends the sweep. */
  function EvictAll(s: State, names: seq<Name>): (r: (State, Result<()>))
    requires Wired(s)
    ensures Wired(r.0) && r.0.nextId == s.nextId
    decreases |names|
  {
    if names == [] then (s, Ok(()))
    else if names[0] in s.pages && s.pages[names[0]].tier == Vram then
      match DemoteStep(s, names[0])
      case (s1, Err(e)) => (s1, Err(e))
      case (s1, Ok(_)) => EvictAll(s1, names[1..])
    else EvictAll(s, names[1..])
  }

  /** Access each named page that is not in VRAM, on GPU 0; failures are ignored. */
  ghost function PromoteAll(s: State, names: seq<Name>, now: nat, ds: seq<Driver>, i: nat): (r: State)
    requires Wired(s)
    ensures Wired(r) && r.nextId == s.nextId
    decreases |names| - i
  {
    if |names| <= i then s
    else if names[i] in s.pages && s.pages[names[i]].tier != Vram then
      PromoteAll(AccessStep(s, names[i], 0, now, DriverAt(ds, i)).0, names, now, ds, i + 1)
    else PromoteAll(s, names, now, ds, i + 1)
  }

  function Candidates(s: State, order: seq<Name>): seq<Candidate>
    decreases |order|
  {
    if order == [] then []
    else if order[0] !in s.pages then Candidates(s, order[1..])
    else
      var p := s.pages[order[0]];
      [Candidate(order[0], PageObs(s.membrane.Rate(order[0]), p.size, p.tier == Vram, p.pinned))] + Candidates(s, order[1..])
  }

  ghost function MembraneSweepStep(s: State, order: seq<Name>, now: nat, ds: seq<Driver>): (r: (State, Result<()>))
    requires Wired(s)
    ensures Wired(r.0) && r.0.nextId == s.nextId
  {
    match s.settings.budget
    case None => (s, Ok(()))
    case Some(budget) =>
      var s1 := s.(membrane := s.membrane.Decayed());
      var (keep, evict) := Plan(s1.settings.policy, Candidates(s1, order), budget);
      match EvictAll(s1, evict)
      case (s2, Err(e)) => (s2, Err(e))
      case (s2, Ok(_)) => (PromoteAll(s2, keep, now, ds, 0), Ok(()))
  }

  function IdleResident(now: nat, after: nat): Page -> bool {
    (p: Page) => p.state == Resident && p.IsIdle(now, after)
  }

  function HotWarm(at: nat): Page -> bool {
    (p: Page) => p.tier == Dram && p.IsHot(at)
  }

  function Select(s: State, order: seq<Name>, pick: Page -> bool): seq<Name>
    decreases |order|
  {
    if order == [] then []
    else (if order[0] in s.pages && pick(s.pages[order[0]]) then [order[0]] else []) + Select(s, order[1..], pick)
  }

  function DemoteAll(s: State, names: seq<Name>): (r: (State, Result<()>))
    requires Wired(s)
    ensures Wired(r.0) && r.0.nextId == s.nextId
    decreases |names|
  {
    if names == [] then (s, Ok(()))
    else match DemoteStep(s, names[0])
      case (s1, Err(e)) => (s1, Err(e))
      case (s1, Ok(_)) => DemoteAll(s1, names[1..])
  }

  ghost function AccessAll(s: State, names: seq<Name>, now: nat, ds: seq<Driver>, i: nat): (r: (State, Result<()>))
    requires Wired(s)
    ensures Wired(r.0) && r.0.nextId == s.nextId
    decreases |names| - i
  {
    if |names| <= i then (s, Ok(()))
    else match AccessStep(s, names[i], 0, now, DriverAt(ds, i))
      case (s1, Err(e)) => (s1, Err(e))
      case (s1, Ok(_)) => AccessAll(s1, names, now, ds, i + 1)
  }

  /** With a membrane budget, the membrane decides; otherwise idle pages go down and hot ones up. */
  ghost function BackgroundSweepStep(s: State, order: seq<Name>, now: nat, ds: seq<Driver>): (r: (State, Result<()>))
    requires Wired(s)
    ensures Wired(r.0) && r.0.nextId == s.nextId
  {
    if s.settings.budget.Some? then MembraneSweepStep(s, order, now, ds)
    else
      var toDemote := Select(s, order, IdleResident(now, s.settings.idleAfter));
      var toPromote := Select(s, order, HotWarm(s.settings.hotAt));
      match DemoteAll(s, toDemote)
      case (s1, Err(e)) => (s1, Err(e))
      case (s1, Ok(_)) => AccessAll(s1, toPromote, now, ds, 0)
  }

  // One round of each list walk, for the loops that perform it.

  lemma EvictUnfolds(s: State, names: seq<Name>, i: nat)
    requires Wired(s) && i < |names|
    ensures EvictAll(s, names[i..]) ==
      if names[i] in s.pages && s.pages[names[i]].tier == Vram then
        var (t, r) := DemoteStep(s, names[i]);
        if r.Err? then (t, Err(r.error)) else EvictAll(t, names[i + 1..])
      else EvictAll(s, names[i + 1..])
  {
    hide DemoteStep;
    assert names[i..] == [names[i]] + names[i + 1..];
  }

  lemma DemoteUnfolds(s: State, names: seq<Name>, i: nat)
    requires Wired(s) && i < |names|
    ensures DemoteAll(s, names[i..]) ==
      var (t, r) := DemoteStep(s, names[i]);
      if r.Err? then (t, Err(r.error)) else DemoteAll(t, names[i + 1..])
  {
    hide DemoteStep;
    assert names[i..] == [names[i]] + names[i + 1..];
  }

  lemma CandidatesUnfold(s: State, order: seq<Name>, i: nat)
    requires i < |order|
    ensures Candidates(s, order[i..]) ==
      if order[i] !in s.pages then Candidates(s, order[i + 1..])
      else
        var p := s.pages[order[i]];
        [Candidate(order[i], PageObs(s.membrane.Rate(order[i]), p.size, p.tier == Vram, p.pinned))] + Candidates(s, order[i + 1..])
  {
    assert order[i..] == [order[i]] + order[i + 1..];
  }

  lemma SelectUnfolds(s: State, order: seq<Name>, pick: Page -> bool, i: nat)
    requires i < |order|
    ensures Select(s, order[i..], pick) ==
      (if order[i] in s.pages && pick(s.pages[order[i]]) then [order[i]] else []) + Select(s, order[i + 1..], pick)
  {
    assert order[i..] == [order[i]] + order[i + 1..];
  }

  /** The stages of a membrane sweep, in order. */
  lemma MembraneSweepIs(s: State, order: seq<Name>, now: nat, ds: seq<Driver>,
    s1: State, keep: seq<Name>, evict: seq<Name>, s2: State, r: Result<()>)
    requires Wired(s) && s.settings.budget.Some? && s1 == s.(membrane := s.membrane.Decayed())
    requires (keep, evict) == Plan(s.settings.policy, Candidates(s1, order), s.settings.budget.value)
    requires (s2, r) == EvictAll(s1, evict)
    ensures MembraneSweepStep(s, order, now, ds) == (if r.Ok? then PromoteAll(s2, keep, now, ds, 0) else s2, r)
  {
    assert r.Ok? ==> r.value == ();
  }

  /** The stages of an idle sweep, in order. */
  lemma IdleSweepIs(s: State, order: seq<Name>, now: nat, ds: seq<Driver>,
    toDemote: seq<Name>, toPromote: seq<Name>, s1: State, r: Result<()>)
    requires Wired(s) && s.settings.budget.None?
    requires toDemote == Select(s, order, IdleResident(now, s.settings.idleAfter))
    requires toPromote == Select(s, order, HotWarm(s.settings.hotAt))
    requires (s1, r) == DemoteAll(s, toDemote)
    ensures BackgroundSweepStep(s, order, now, ds) == if r.Ok? then AccessAll(s1, toPromote, now, ds, 0) else (s1, r)
  {
  }

  // -------------------------------------------------------- everything together

  datatype Op =
    | Allocate(name: Name, shape: seq<nat>, elementSize: nat, tier: Tier)
    | Access(name: Name, gpu: nat, now: nat, driver: Driver)
    | Demote(name: Name)
    | Prefetch(name: Name, gpu: nat, driver: Driver)
    | WritePage(name: Name, data: seq<byte>, disk: Disk)
    | Deallocate(name: Name)
    | Sweep(order: seq<Name>, now: nat, drivers: seq<Driver>)
    | AttachSpill(capacity: nat)
    | EnableMembrane(vramBudget: nat)
    // the world outside the pool
    | SetPinned(name: Name, pin: bool)
    | DeviceWrite(name: Name, at: nat, data: seq<byte>)
    | CopyLands(ptr: nat)
    | EngineAcks(gpu: nat)

  /** A device kernel writes through the pointer of the page's first chunk. */
  function DeviceWriteStep(s: State, name: Name, at: nat, data: seq<byte>): State {
    if name in s.pages && s.pages[name].vram != []
    then s.(vram := DevWrite(s.vram, s.pages[name].vram[0].ptr, at, data))
    else s
  }

  function Void<T>(r: (State, Result<T>)): (State, Result<nat>) {
    (r.0, if r.1.Ok? then Ok(0) else Err(r.1.error))
  }

  /** One step of the whole system and its outcome (a device pointer for `Access`). */
  ghost function Step(s: State, op: Op): (r: (State, Result<nat>))
    requires Wired(s)
    ensures Wired(r.0)
  {
    match op
    case Allocate(name, shape, elementSize, tier) => Void(AllocateStep(s, name, shape, elementSize, tier))
    case Access(name, g, now, d) => AccessStep(s, name, g, now, d)
    case Demote(name) => Void(DemoteStep(s, name))
    case Prefetch(name, g, d) => Void(PrefetchStep(s, name, g, d))
    case WritePage(name, data, disk) => Void(WriteStep(s, name, data, disk))
    case Deallocate(name) => Void(DeallocateStep(s, name))
    case Sweep(order, now, ds) => Void(BackgroundSweepStep(s, order, now, ds))
    case AttachSpill(capacity) => (s.(spill := Some(Spill(Empty(capacity), Zeros(capacity)))), Ok(0))
    case EnableMembrane(budget) => (s.(settings := s.settings.(budget := Some(budget))), Ok(0))
    case SetPinned(name, pin) => (if name in s.pages then s.(pages := s.pages[name := s.pages[name].(pinned := pin)]) else s, Ok(0))
    case DeviceWrite(name, at, data) => (DeviceWriteStep(s, name, at, data), Ok(0))
    case CopyLands(ptr) => (Land(s, ptr), Ok(0))
    case EngineAcks(g) =>
      (if g < |s.queued| && 0 < s.queued[g] then s.(queued := s.queued[g := s.queued[g] - 1]) else s, Ok(0))
  }
}
