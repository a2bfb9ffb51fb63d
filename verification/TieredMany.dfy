/** Any number of GPUs, whole runs from a new pool: host memory is conserved, tiers and states agree,
  * and a warm page's shards are where `allocate` put them. */
module TieredMany {
  import opened Common
  import opened Ranges
  import opened DramPools
  import opened Spills
  import opened Vmt
  import opened Tiered
  import opened TieredHost
  import opened TieredScatter

  // ------------------------------------------------------------ tiers and states

  /** What a successful allocation in `tier` promises of its page, now and later. */
  ghost predicate LivePage(p: Page, tier: Tier, n: nat)
    requires 0 < n
  {
    && InStep(p)
    && (if tier == Ssd then p.ssd.Some? else p.tier != Ssd && Sharded(p, n))
  }

  /** `allocate` touches one entry, and a successful call leaves it as promised. */
  lemma AllocateSeeds(s: State, name: Name, shape: seq<nat>, elementSize: nat, tier: Tier)
    requires Wired(s)
    ensures
      var (t, r) := AllocateStep(s, name, shape, elementSize, tier);
      var chosen := ChosenName(name, s.nextId);
      && chosen in t.pages && t.pages == s.pages[chosen := t.pages[chosen]] && |t.pools| == |s.pools|
      && (r.Ok? ==> r.value == chosen && t.pages[chosen].tier == tier && LivePage(t.pages[chosen], tier, |s.pools|))
  {
    hide AllocShards, Product, ReserveSpec, AutoName, Sharded;
    if tier != Ssd && AllocateStep(s, name, shape, elementSize, tier).1.Ok? {
      AllocateShards(s, name, shape, elementSize, tier);
    }
  }

  lemma MatrixProduct(r: nat, c: nat)
    ensures Product([r, c]) == r * c
  {
    hide Product;
    assert [r, c] == [r] + [c];
    ProductLaws([r], [c], r);
    ProductLaws([], [], c);
  }

  /** However it ends, the entry of an allocation has the size of its tensor, no block, no pin and no history. */
  lemma EntrySize(s: State, name: Name, shape: seq<nat>, elementSize: nat, tier: Tier)
    requires Wired(s)
    ensures
      var t := AllocateStep(s, name, shape, elementSize, tier).0;
      var chosen := ChosenName(name, s.nextId);
      && chosen in t.pages && t.pages[chosen].shape == shape && t.pages[chosen].elementSize == elementSize
      && t.pages[chosen].size == Product(shape) * elementSize
      && t.pages[chosen].name == chosen && t.pages[chosen].vram == [] && !t.pages[chosen].pinned
      && t.pages[chosen].accessCount == 0 && t.pages[chosen].lastAccess == 0
  {
    hide AllocShards, Product, ReserveSpec, StateOf, AutoName;
  }

  /** Without a name, the first page is called vugva_alloc_1 and each later one gets the next number. */
  lemma GeneratedName(s: State, shape: seq<nat>, elementSize: nat, tier: Tier)
    requires Wired(s)
    ensures
      var (t, r) := AllocateStep(s, "", shape, elementSize, tier);
      && t.nextId == s.nextId + 1 && "vugva_alloc_" + Decimal(t.nextId) in t.pages
      && (r.Ok? ==> r.value == "vugva_alloc_" + Decimal(t.nextId)) && Decimal(1) == "1"
  {
    hide AllocShards, Product;
  }

  /** A matrix of `r` by `c` elements of `e` bytes takes r * c * e bytes. */
  lemma MatrixSize(s: State, name: Name, r: nat, c: nat, e: nat, tier: Tier)
    requires Wired(s)
    ensures
      var t := AllocateStep(s, name, [r, c], e, tier).0;
      ChosenName(name, s.nextId) in t.pages && t.pages[ChosenName(name, s.nextId)].size == r * c * e
  {
    hide Product, AllocateStep;
    EntrySize(s, name, [r, c], e, tier);
    MatrixProduct(r, c);
  }

  /** A tensor of tensors takes the outer elements times an inner one; a zero dimension makes it empty. */
  lemma TensorSize(s: State, name: Name, outer: seq<nat>, inner: seq<nat>, e: nat, tier: Tier)
    requires Wired(s)
    ensures
      var t := AllocateStep(s, name, outer + inner, e, tier).0;
      var u := AllocateStep(s, name, inner, e, tier).0;
      var chosen := ChosenName(name, s.nextId);
      && chosen in t.pages && chosen in u.pages && t.pages[chosen].size == Product(outer) * u.pages[chosen].size
      && (t.pages[chosen].size == 0 <==> 0 in outer || 0 in inner || e == 0)
  {
    hide Product, AllocateStep;
    EntrySize(s, name, outer + inner, e, tier);
    EntrySize(s, name, inner, e, tier);
    ProductLaws(outer, inner, 0);
    ProductLaws(inner, [], 0);
    MulAssociates(Product(outer), Product(inner), e);
    MulZero(Product(inner), e);
    MulZero(Product(outer), Product(inner) * e);
  }

  /** The state `allocate` assigns, and when `transition` would have accepted it. */
  lemma AllocationSkipsAnEdge(s: State, name: Name, shape: seq<nat>, elementSize: nat, tier: Tier)
    requires Wired(s) && AllocateStep(s, name, shape, elementSize, tier).1.Ok?
    ensures
      var (t, r) := AllocateStep(s, name, shape, elementSize, tier);
      var before := Registered(s, name, shape, elementSize).pages;
      && r.value in before && r.value in t.pages && t.pages[r.value].state == StateOf(tier)
      && (before[r.value].Transition(t.pages[r.value].state).1.Ok? <==> tier == Vram)
  {
    AllocateSeeds(s, name, shape, elementSize, tier);
  }

  /** Whatever the step, a page whose state is its tier's keeps it so, and its state moved along an
    * edge `transition` accepts or not at all. */
  lemma StatesFollowTiers(s: State, op: Op, name: Name)
    requires Wired(s) && name in s.pages && InStep(s.pages[name]) && name in Step(s, op).0.pages
    requires op.Allocate? ==> ChosenName(op.name, s.nextId) != name
    ensures
      var p, q := s.pages[name], Step(s, op).0.pages[name];
      InStep(q) && (q.state == p.state || p.Transition(q.state).1.Ok?)
  {
    hide AccessStep, DemoteStep, BackgroundSweepStep, AllocateStep, PrefetchStep, WriteStep, FreeChunks, FreeShards;
    match op
    case Allocate(n, shape, elementSize, tier) => AllocateSeeds(s, n, shape, elementSize, tier);
    case Deallocate(_) =>
    case _ =>
      OtherStepsKeepBacking(s, op);
      assert Steady(s.pages[name], Step(s, op).0.pages[name]);
  }

  // ------------------------------------------------------------------- live pages

  /** Names whose last `allocate` succeeded and that were not deallocated since, with the tier asked for. */
  function Track(live: map<Name, Tier>, nextId: nat, op: Op, r: Result<nat>): map<Name, Tier> {
    match op
    case Allocate(name, _, _, tier) =>
      var chosen := ChosenName(name, nextId);
      if r.Ok? then live[chosen := tier] else live - {chosen}
    case Deallocate(name) => if r.Ok? then live - {name} else live
    case _ => live
  }

  ghost predicate LiveOk(s: State, live: map<Name, Tier>)
    requires Wired(s)
  {
    forall n :: n in live ==> n in s.pages && LivePage(s.pages[n], live[n], |s.pools|)
  }

  lemma EntryKeepsLive(s: State, live: map<Name, Tier>, op: Op, t: State, r: Result<nat>)
    requires Wired(s) && LiveOk(s, live) && (t, r) == Step(s, op) && (op.Allocate? || op.Deallocate?)
    ensures Wired(t) && LiveOk(t, Track(live, s.nextId, op, r)) && |t.pools| == |s.pools|
  {
    hide AllocateStep, Sharded, FreeChunks, FreeShards;
    if op.Allocate? { AllocateSeeds(s, op.name, op.shape, op.elementSize, op.tier); }
  }

  lemma MovesKeepLive(s: State, live: map<Name, Tier>, t: State)
    requires Wired(s) && Wired(t) && LiveOk(s, live) && KeepsBacking(s, t)
    ensures LiveOk(t, live) && |t.pools| == |s.pools|
  {
    hide LivePage;
    forall n | n in live ensures LivePage(t.pages[n], live[n], |t.pools|) {
      StillSharded(s.pages[n], t.pages[n], live[n], |s.pools|);
    }
  }

  lemma StepKeepsLive(s: State, live: map<Name, Tier>, op: Op, t: State, r: Result<nat>)
    requires Wired(s) && LiveOk(s, live) && (t, r) == Step(s, op)
    ensures Wired(t) && LiveOk(t, Track(live, s.nextId, op, r)) && |t.pools| == |s.pools|
  {
    hide LiveOk, Step, KeepsBacking;
    if op.Allocate? || op.Deallocate? {
      EntryKeepsLive(s, live, op, t, r);
    } else {
      OtherStepsKeepBacking(s, op);
      MovesKeepLive(s, live, t);
    }
  }

  lemma StillSharded(p: Page, q: Page, tier: Tier, n: nat)
    requires 0 < n && LivePage(p, tier, n) && Steady(p, q) && q.dram == p.dram && q.ssd == p.ssd && q.size == p.size
    ensures LivePage(q, tier, n)
  {
  }

  ghost function RunLive(s: State, live: map<Name, Tier>, ops: seq<Op>): (r: (State, map<Name, Tier>))
    requires Wired(s)
    ensures Wired(r.0)
    decreases |ops|
  {
    if ops == [] then (s, live)
    else
      var (t, r) := Step(s, ops[0]);
      RunLive(t, Track(live, s.nextId, ops[0], r), ops[1..])
  }

  /** In every run every live page is as its allocation promised. */
  lemma {:induction false} RunKeepsLive(s: State, live: map<Name, Tier>, ops: seq<Op>)
    requires Wired(s) && LiveOk(s, live)
    ensures
      var (t, after) := RunLive(s, live, ops);
      t == Run(s, ops) && Wired(t) && |t.pools| == |s.pools| && LiveOk(t, after)
    decreases |ops|
  {
    hide Step, LiveOk;
    if ops != [] {
      var (t, r) := Step(s, ops[0]);
      StepKeepsLive(s, live, ops[0], t, r);
      RunKeepsLive(t, Track(live, s.nextId, ops[0], r), ops[1..]);
    }
  }

  // ------------------------------------------------------------- from a new pool

  /** Empty pools at separate places of host memory. */
  ghost predicate NewPools(pools: seq<Pool>, hostLen: nat) {
    && 0 < |pools|
    && (forall i :: 0 <= i < |pools| ==> pools[i].heap == Empty(pools[i].heap.capacity) && pools[i].End() <= hostLen)
    && (forall i, j :: 0 <= i < j < |pools| ==> Separate(pools[i], pools[j]))
  }

  lemma NewPoolsAgree(pools: seq<Pool>, hostLen: nat)
    requires NewPools(pools, hostLen)
    ensures HostOk(pools, map[], hostLen)
  {
    var none: map<Name, Block> := map[];
    forall i | 0 <= i < |pools| ensures PoolAgrees(pools, map[], i) {
      assert Shards(map[], i, pools[i].base) == none;
    }
  }

  /** After any run from a new pool: the pools' live ranges are exactly the recorded chunks, and every
    * live page is as promised. */
  lemma RunsFromNewPools(pools: seq<Pool>, settings: Settings, host: seq<byte>, ops: seq<Op>)
    requires NewPools(pools, |host|) && FreshNames(Started(pools, settings, host), ops)
    ensures
      var (s, live) := RunLive(Started(pools, settings, host), map[], ops);
      && Wired(s) && s == Run(Started(pools, settings, host), ops) && |s.pools| == |pools|
      && HostOk(s.pools, s.pages, |s.host|) && LiveOk(s, live)
  {
    hide HostOk, FreshNames;
    var s := Started(pools, settings, host);
    NewPoolsAgree(pools, |host|);
    DramIsConserved(s, ops);
    RunKeepsLive(s, map[], ops);
  }

  /** On any page `allocate` made warm, after any run: a write of the right length succeeds exactly
    * when it is empty or has a byte for every pool, and then the shards in pool order are the data
    * and no other host byte changes. */
  lemma WriteAfterAnyRun(pools: seq<Pool>, settings: Settings, host: seq<byte>, ops: seq<Op>, name: Name, data: seq<byte>, disk: Disk)
    requires NewPools(pools, |host|) && FreshNames(Started(pools, settings, host), ops)
    requires
      var (s, live) := RunLive(Started(pools, settings, host), map[], ops);
      name in live && live[name] != Ssd && name in s.pages && s.pages[name].size == |data|
    ensures
      var s := RunLive(Started(pools, settings, host), map[], ops).0;
      var (t, r) := WriteStep(s, name, data, disk);
      && (r.Ok? <==> data == [] || |pools| <= |data|)
      && (|pools| <= |data| ==>
            && Gather(t.host, s.pages[name].dram) == data
            && forall p :: 0 <= p < |s.host| && OutsideAll(s.pages[name].dram, p) ==> t.host[p] == s.host[p])
  {
    hide HostOk, FreshNames, Sharded, WriteStep, Gather, OutsideAll;
    RunsFromNewPools(pools, settings, host, ops);
    var (s, live) := RunLive(Started(pools, settings, host), map[], ops);
    assert LivePage(s.pages[name], live[name], |s.pools|);
    WriteSucceedsIff(s, name, data, disk);
    if |pools| <= |data| { WriteRoundTrip(s, name, data, disk); }
  }

  // ------------------------------------------------------------------ draining

  /** Same place, node and capacity. */
  predicate SamePlace(p: Pool, q: Pool) {
    p.base == q.base && p.node == q.node && p.heap.capacity == q.heap.capacity
  }

  ghost predicate SamePlaces(pools: seq<Pool>, pools': seq<Pool>) {
    |pools'| == |pools| && forall i :: 0 <= i < |pools| ==> SamePlace(pools[i], pools'[i])
  }

  lemma ServedStays(pools: seq<Pool>, i: nat, n: nat)
    requires i < |pools|
    ensures SamePlaces(pools, pools[i := PoolAllocate(pools[i], n).0])
  {
  }

  lemma {:induction false} AllocShardsStay(pools: seq<Pool>, total: nat, i: nat, chunks: seq<DramChunk>)
    requires 0 < |pools|
    ensures SamePlaces(pools, AllocShards(pools, total, i, chunks).0)
    decreases |pools| - i
  {
    hide PoolAllocate;
    if i < |pools| {
      var n := ShardSize(total, |pools|, i);
      var (p, r) := PoolAllocate(pools[i], n);
      if r.Ok? {
        ServedStays(pools, i, n);
        AllocShardsStay(pools[i := p], total, i + 1, chunks + [DramChunk(p.node, r.value, n)]);
        PlacesTrans(pools, pools[i := p], AllocShards(pools[i := p], total, i + 1, chunks + [DramChunk(p.node, r.value, n)]).0);
      }
    }
  }

  lemma {:induction false} FreeShardsStay(pools: seq<Pool>, chunks: seq<DramChunk>)
    ensures SamePlaces(pools, FreeShards(pools, chunks))
    decreases |chunks|
  {
    if chunks != [] {
      forall i | 0 <= i < |pools| ensures SamePlace(pools[i], OfferAll(pools, chunks[0])[i]) {}
      FreeShardsStay(OfferAll(pools, chunks[0]), chunks[1..]);
    }
  }

  lemma StepStays(s: State, op: Op)
    requires Wired(s)
    ensures SamePlaces(s.pools, Step(s, op).0.pools)
  {
    hide AccessStep, DemoteStep, BackgroundSweepStep, AllocShards, FreeShards;
    match op
    case Allocate(name, shape, elementSize, tier) => AllocShardsStay(s.pools, Product(shape) * elementSize, 0, []);
    case Deallocate(name) => if name in s.pages { FreeShardsStay(s.pools, s.pages[name].dram); }
    case _ => OtherStepsKeepBacking(s, op);
  }

  lemma {:induction false} RunStays(s: State, ops: seq<Op>)
    requires Wired(s)
    ensures Wired(Run(s, ops)) && SamePlaces(s.pools, Run(s, ops).pools)
    decreases |ops|
  {
    hide Step;
    if ops != [] {
      StepStays(s, ops[0]);
      RunStays(Step(s, ops[0]).0, ops[1..]);
      PlacesTrans(s.pools, Step(s, ops[0]).0.pools, Run(s, ops).pools);
    }
  }

  lemma PlacesTrans(a: seq<Pool>, b: seq<Pool>, c: seq<Pool>)
    requires SamePlaces(a, b) && SamePlaces(b, c)
    ensures SamePlaces(a, c)
  {
    forall i | 0 <= i < |a| ensures SamePlace(a[i], c[i]) { assert SamePlace(a[i], b[i]) && SamePlace(b[i], c[i]); }
  }

  function Deallocations(names: seq<Name>): (ops: seq<Op>)
    ensures |ops| == |names| && forall i :: 0 <= i < |ops| ==> ops[i] == Deallocate(names[i])
  {
    seq(|names|, i requires 0 <= i < |names| => Deallocate(names[i]))
  }

  lemma {:induction false} Drains(s: State, names: seq<Name>)
    requires Wired(s)
    ensures
      var t := Run(s, Deallocations(names));
      Wired(t) && t.pages.Keys == s.pages.Keys - (set i | 0 <= i < |names| :: names[i]) && FreshNames(s, Deallocations(names))
    decreases |names|
  {
    if names != [] {
      var ops := Deallocations(names);
      var t := Step(s, ops[0]).0;
      assert ops[1..] == Deallocations(names[1..]);
      Drains(t, names[1..]);
      assert t.pages.Keys == s.pages.Keys - {names[0]};
      assert (set i | 0 <= i < |names| :: names[i]) == {names[0]} + (set i | 0 <= i < |names[1..]| :: names[1..][i]) by {
        forall i | 0 < i < |names| ensures names[i] == names[1..][i - 1] {}
      }
    }
  }

  /** Deallocating every page, in any order and after any run, leaves every pool as it was when new. */
  lemma DrainedPoolsAreNew(pools: seq<Pool>, settings: Settings, host: seq<byte>, ops: seq<Op>, names: seq<Name>)
    requires NewPools(pools, |host|) && FreshNames(Started(pools, settings, host), ops)
    requires forall n :: n in Run(Started(pools, settings, host), ops).pages ==> n in names
    ensures
      var t := Run(Run(Started(pools, settings, host), ops), Deallocations(names));
      t.pages == map[] && t.pools == pools && forall i :: 0 <= i < |pools| ==> Used(t.pools[i].heap) == 0
  {
    var start := Started(pools, settings, host);
    var s := Run(start, ops);
    RunsFromNewPools(pools, settings, host, ops);
    Drains(s, names);
    DramIsConserved(s, Deallocations(names));
    var t := Run(s, Deallocations(names));
    forall n | n in s.pages ensures n in (set i | 0 <= i < |names| :: names[i]) {
      var i :| 0 <= i < |names| && names[i] == n;
    }
    assert t.pages.Keys == {};
    assert t.pages == map[];
    RunStays(start, ops);
    RunStays(s, Deallocations(names));
    PlacesTrans(pools, s.pools, t.pools);
    forall i | 0 <= i < |pools| ensures t.pools[i] == pools[i] && Used(t.pools[i].heap) == 0 {
      EmptyTableEmptyPools(t.pools, |t.host|, i);
      assert SamePlace(pools[i], t.pools[i]);
    }
  }
}
