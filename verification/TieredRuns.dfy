/** One GPU, whole runs: the pool refines a flat store, no block has two owners, and every page's
  * tier and state agree. */
module TieredRuns {
  import opened Common
  import opened Ranges
  import opened DramPools
  import opened Spills
  import opened Vmt
  import opened Tiered
  import opened TieredHost
  import opened TieredBlocks
  import opened TieredOne
  import opened TieredSteps

  /** What the pool asks of its callers: new names; no write or removal while a prefetch is in flight,
    * no host-side write under a device copy; one spill file; a GPU the pool has; device writes through
    * a live pointer and inside the block. */
  predicate Allowed(s: State, op: Op) {
    match op
    case Allocate(name, _, _, _) => ChosenName(name, s.nextId) !in s.pages
    case WritePage(name, _, _) => Writable(s, name)
    case Deallocate(name) => name !in s.inflight
    case AttachSpill(_) => s.spill.None?
    case Access(_, g, _, _) => g < |s.pools|
    case DeviceWrite(name, at, data) => name in s.pages && s.pages[name].vram != [] && at + |data| <= s.pages[name].size
    case _ => true
  }

  /** The page the operation is about. */
  function Subject(s: State, op: Op): Name {
    match op
    case Allocate(name, _, _, _) => ChosenName(name, s.nextId)
    case WritePage(name, _, _) => name
    case Deallocate(name) => name
    case DeviceWrite(name, _, _) => name
    case _ => ""
  }

  /** What an operation with outcome `r` means for the flat store. */
  ghost predicate FlatNext(s: State, op: Op, r: Result<nat>, t: State)
    requires Allowed(s, op)
  {
    match op
    case Allocate(_, shape, elementSize, tier) =>
      && Added(s, t, Subject(s, op)) && (Backed(t.pages[Subject(s, op)]) <==> r.Ok?)
      && (r.Ok? && tier == Ssd ==> Bytes(t, Subject(s, op)) == Zeros(Product(shape) * elementSize))
    case WritePage(name, data, disk) =>
      if Torn(s, name, data, disk) then r.Err? && Stored(s, t, name, Poke(Bytes(s, name), 0, Landed(data, disk)))
      else if r.Ok? && name in s.pages && Backed(s.pages[name]) then Stored(s, t, name, data) else SameFlat(s, t)
    case Deallocate(name) =>
      if r.Ok? then Removed(s, t, name) else SameFlat(s, t)
    case DeviceWrite(name, at, data) =>
      Stored(s, t, name, Poke(Bytes(s, name), at, data))
    case Access(name, _, _, _) =>
      SameFlat(s, t) && (r.Ok? ==> Serves(t, name, r.value))
    case _ => SameFlat(s, t)
  }

  lemma AttachSpillOk(s: State, capacity: nat)
    requires OneOk(s) && s.spill.None?
    ensures
      var t := Step(s, AttachSpill(capacity)).0;
      OneOk(t) && SameFlat(s, t) && LostBlocks(t) == LostBlocks(s)
  {
    var none: map<Name, Block> := map[];
    assert ColdBlocks(s.pages) == none;
  }

  lemma WorldStepOk(s: State, op: Op)
    requires OneOk(s) && Allowed(s, op)
    requires op.AttachSpill? || op.EnableMembrane? || op.SetPinned? || op.EngineAcks?
    ensures OneOk(Step(s, op).0) && SameFlat(s, Step(s, op).0) && LostBlocks(Step(s, op).0) == LostBlocks(s)
  {
    hide PagesOk, HostOk, BlocksOk, ColdOk, Lost, Peek, DevRead;
    hide AllocateStep, AccessStep, DemoteStep, PrefetchStep, WriteStep, DeallocateStep, BackgroundSweepStep;
    match op
    case SetPinned(name, pin) => if name in s.pages { RecordOk(s, name, s.pages[name].(pinned := pin)); }
    case EngineAcks(g) => if g == 0 && 0 < s.queued[0] { QueuedOk(s, s.queued[0 := s.queued[0] - 1]); }
    case AttachSpill(capacity) => AttachSpillOk(s, capacity);
    case EnableMembrane(_) =>
  }

  /** The step is sure to keep every block: no access meets its guard, and sweeps have ring room. */
  predicate Lossless(s: State, op: Op)
    requires Wired(s)
  {
    match op
    case Access(name, _, _, d) => !LosesBlock(s, name, d)
    case Sweep(order, now, _) => RoomToSweep(s, order, now)
    case _ => true
  }

  predicate Stores(op: Op) {
    op.Allocate? || op.WritePage? || op.Deallocate? || op.DeviceWrite?
  }

  lemma StoringStepOk(s: State, op: Op, t: State, r: Result<nat>)
    requires OneOk(s) && Allowed(s, op) && (t, r) == Step(s, op) && Stores(op)
    ensures OneOk(t) && FlatNext(s, op, r, t) && LostBlocks(t) == LostBlocks(s)
  {
    hide PagesOk, HostOk, BlocksOk, FlightsOk, ColdOk, Lost, Stored, Removed, Added, AllocateStep, WriteStep, DeallocateStep, DeviceWriteStep;
    match op
    case Allocate(name, shape, elementSize, tier) =>
      AllocateOk(s, name, shape, elementSize, tier, t, AllocateStep(s, name, shape, elementSize, tier).1);
    case WritePage(name, data, disk) => WriteOk(s, name, data, disk, t, WriteStep(s, name, data, disk).1);
    case Deallocate(name) => DeallocateOk(s, name, t, DeallocateStep(s, name).1);
    case DeviceWrite(name, at, data) => DeviceWriteOk(s, name, at, data);
  }

  lemma MovingStepOk(s: State, op: Op, t: State, r: Result<nat>)
    requires OneOk(s) && Allowed(s, op) && (t, r) == Step(s, op) && !Stores(op)
    ensures OneOk(t) && SameFlat(s, t)
    ensures op.Access? && r.Ok? ==> Serves(t, op.name, r.value)
    ensures LostBlocks(s) <= LostBlocks(t)
    ensures !op.Sweep? ==> (LostBlocks(t) != LostBlocks(s) <==> !Lossless(s, op))
    ensures Lossless(s, op) ==> LostBlocks(t) == LostBlocks(s)
  {
    hide PagesOk, HostOk, BlocksOk, FlightsOk, ColdOk, SameFlat, Lost, AccessStep, DemoteStep, PrefetchStep, BackgroundSweepStep, LosesBlock, RoomToSweep;
    match op
    case Access(name, g, now, d) => AccessLosesIff(s, name, now, d, t, r);
    case Demote(name) => DemoteOk(s, name);
    case Prefetch(name, g, d) => PrefetchOk(s, name, g, d);
    case Sweep(order, now, ds) => SweepOk(s, order, now, ds);
    case CopyLands(ptr) => LandOk(s, ptr);
    case _ => WorldStepOk(s, op);
  }

  /** Every step keeps the invariant and does to the flat store what it should; access, demotion,
    * prefetch, sweeps and failed steps change no page's bytes. */
  lemma StepRefines(s: State, op: Op, t: State, r: Result<nat>)
    requires OneOk(s) && Allowed(s, op) && (t, r) == Step(s, op)
    ensures OneOk(t) && FlatNext(s, op, r, t)
  {
    if Stores(op) { StoringStepOk(s, op, t, r); } else { MovingStepOk(s, op, t, r); }
  }

  // -------------------------------------------------- the latest bytes, over runs

  /** A client's own record: the bytes it last stored under each name. */
  datatype Record = Record(known: map<Name, seq<byte>>, nextId: nat)

  /** What the calls and their outcomes tell.  After a write that a failing disk refused, the page is
    * unknown.  A new cold page is all zeros; a new page in another tier holds whatever its memory held. */
  function Remember(k: Record, op: Op, r: Result<nat>): Record {
    match op
    case Allocate(name, shape, elementSize, tier) =>
      var chosen := ChosenName(name, k.nextId);
      Record(if r.Ok? && tier == Ssd then k.known[chosen := Zeros(Product(shape) * elementSize)] else k.known - {chosen},
             k.nextId + if name == "" then 1 else 0)
    case WritePage(name, data, disk) =>
      if r.Ok? then k.(known := k.known[name := data])
      else if Fails(data, disk) then k.(known := k.known - {name})
      else k
    case DeviceWrite(name, at, data) =>
      if name in k.known then k.(known := k.known[name := Poke(k.known[name], at, data)]) else k
    case Deallocate(name) => if r.Ok? then k.(known := k.known - {name}) else k
    case _ => k
  }

  /** The pool holds what the client remembers. */
  ghost predicate Agrees(s: State, k: Record) {
    && k.nextId == s.nextId
    && (forall n :: n in k.known ==> n in s.pages && Bytes(s, n) == k.known[n])
  }

  /** Only `allocate` draws on the name counter. */
  lemma NextIdStep(s: State, op: Op)
    requires Wired(s)
    ensures Step(s, op).0.nextId == s.nextId + if op.Allocate? && op.name == "" then 1 else 0
  {
    hide AccessStep, DemoteStep, PrefetchStep, WriteStep, DeallocateStep, BackgroundSweepStep, AllocateCold, AllocateWarm;
    hide Land, DevWrite, Product, AutoName;
  }

  /** A write accepted for an entry without backing is the empty write. */
  lemma WriteUnbacked(s: State, name: Name, data: seq<byte>, disk: Disk)
    requires OneOk(s) && name in s.pages && !Backed(s.pages[name]) && WriteStep(s, name, data, disk).1.Ok?
    ensures data == [] && Bytes(s, name) == []
  {
    assert PageOk(s.pages[name]);
  }

  lemma AgreesNext(s: State, k: Record, op: Op, t: State, r: Result<nat>)
    requires Allowed(s, op) && Agrees(s, k) && FlatNext(s, op, r, t)
    requires t.nextId == s.nextId + if op.Allocate? && op.name == "" then 1 else 0
    requires op.WritePage? && r.Ok? ==>
      op.name in s.pages && (!Backed(s.pages[op.name]) ==> op.data == [] == Bytes(s, op.name))
    ensures Agrees(t, Remember(k, op, r))
  {
    hide Contents, Poke, Backed, Serves;
  }

  lemma StepAgrees(s: State, k: Record, op: Op, t: State, r: Result<nat>)
    requires OneOk(s) && Allowed(s, op) && Agrees(s, k) && (t, r) == Step(s, op)
    ensures OneOk(t) && Agrees(t, Remember(k, op, r))
  {
    StepRefines(s, op, t, r);
    NextIdStep(s, op);
    if op.WritePage? && r.Ok? && !Backed(s.pages[op.name]) { WriteUnbacked(s, op.name, op.data, op.disk); }
    AgreesNext(s, k, op, t, r);
  }

  ghost function RunBoth(s: State, k: Record, ops: seq<Op>): (State, Record)
    requires Wired(s)
    decreases |ops|
  {
    if ops == [] then (s, k)
    else
      var (t, r) := Step(s, ops[0]);
      RunBoth(t, Remember(k, ops[0], r), ops[1..])
  }

  ghost predicate AllowedRun(s: State, ops: seq<Op>)
    requires Wired(s)
    decreases |ops|
  {
    ops == [] || (Allowed(s, ops[0]) && AllowedRun(Step(s, ops[0]).0, ops[1..]))
  }

  /** Every allowed run: the tiers together hold what the clients last stored. */
  lemma {:induction false} RunAgrees(s: State, k: Record, ops: seq<Op>)
    requires OneOk(s) && Agrees(s, k) && AllowedRun(s, ops)
    ensures OneOk(RunBoth(s, k, ops).0) && Agrees(RunBoth(s, k, ops).0, RunBoth(s, k, ops).1)
    decreases |ops|
  {
    if ops != [] {
      var (t, r) := Step(s, ops[0]);
      StepAgrees(s, k, ops[0], t, r);
      RunAgrees(t, Remember(k, ops[0], r), ops[1..]);
    }
  }

  /** A new pool with one GPU. */
  function Fresh(pool: Pool, host: seq<byte>, settings: Settings): State {
    Started([pool], settings, host)
  }

  lemma FreshIsOk(pool: Pool, host: seq<byte>, settings: Settings)
    requires pool.heap == Empty(pool.heap.capacity) && pool.End() <= |host|
    ensures OneOk(Fresh(pool, host, settings)) && LostBlocks(Fresh(pool, host, settings)) == {}
    ensures Agrees(Fresh(pool, host, settings), Record(map[], 0))
  {
    var s := Fresh(pool, host, settings);
    var none: map<Name, Block> := map[];
    assert Shards(s.pages, 0, pool.base) == none;
    assert PoolAgrees(s.pools, s.pages, 0);
  }

  /** After any run from a new pool, an access that succeeds returns the page's block, and the block
    * holds exactly the bytes last stored. */
  lemma AccessReturnsLatestBytes(pool: Pool, host: seq<byte>, settings: Settings, ops: seq<Op>, name: Name, now: nat, d: Driver)
    requires pool.heap == Empty(pool.heap.capacity) && pool.End() <= |host|
    requires AllowedRun(Fresh(pool, host, settings), ops)
    ensures
      var (s, k) := RunBoth(Fresh(pool, host, settings), Record(map[], 0), ops);
      Wired(s) && |s.pools| == 1 &&
      var (t, r) := AccessStep(s, name, 0, now, d);
      && Flat(t) == Flat(s)
      && (r.Ok? ==> name in t.pages && name in Flat(s) && DevRead(t.vram, r.value, t.pages[name].size) == Flat(s)[name])
      && (r.Ok? && name in k.known ==> DevRead(t.vram, r.value, t.pages[name].size) == k.known[name])
  {
    FreshIsOk(pool, host, settings);
    RunAgrees(Fresh(pool, host, settings), Record(map[], 0), ops);
    var (s, k) := RunBoth(Fresh(pool, host, settings), Record(map[], 0), ops);
    var (t, r) := AccessStep(s, name, 0, now, d);
    AccessOk(s, name, now, d, t, r);
    SameFlatIsFlat(s, t);
  }

  /** The calls that change what is stored under a name. */
  predicate Touches(s: State, op: Op, name: Name) {
    match op
    case Allocate(n, _, _, _) => ChosenName(n, s.nextId) == name
    case WritePage(n, _, _) => n == name
    case DeviceWrite(n, _, _) => n == name
    case Deallocate(n) => n == name
    case _ => false
  }

  ghost predicate Untouched(s: State, ops: seq<Op>, name: Name)
    requires Wired(s)
    decreases |ops|
  {
    ops == [] || (!Touches(s, ops[0], name) && Untouched(Step(s, ops[0]).0, ops[1..], name))
  }

  /** While nobody touches it, the page keeps the bytes it holds. */
  lemma {:induction false} UntouchedKeeps(s: State, k: Record, ops: seq<Op>, name: Name)
    requires OneOk(s) && Agrees(s, k) && AllowedRun(s, ops) && Untouched(s, ops, name) && name in k.known
    ensures OneOk(Run(s, ops)) && name in Run(s, ops).pages && Bytes(Run(s, ops), name) == k.known[name]
    decreases |ops|
  {
    hide Step, PagesOk, HostOk, BlocksOk, FlightsOk, ColdOk, Bytes;
    if ops != [] {
      var (t, r) := Step(s, ops[0]);
      StepAgrees(s, k, ops[0], t, r);
      UntouchedKeeps(t, Remember(k, ops[0], r), ops[1..], name);
    }
  }

  lemma {:induction false} AllowedSplits(s: State, a: seq<Op>, b: seq<Op>)
    requires Wired(s) && AllowedRun(s, a + b)
    ensures AllowedRun(s, a) && AllowedRun(Run(s, a), b) && Run(s, a + b) == Run(Run(s, a), b)
    decreases |a|
  {
    hide Step, Allowed;
    if a == [] {
      assert a + b == b;
    } else {
      assert (a + b)[1..] == a[1..] + b;
      AllowedSplits(Step(s, a[0]).0, a[1..], b);
    }
  }

  /** The bytes of the last write come back: after any allowed run from a new pool in which a page was
    * written and then not touched, whatever moved it meanwhile, a successful access returns a block with
    * exactly those bytes. */
  lemma AccessReturnsLastWrite(pool: Pool, host: seq<byte>, settings: Settings, before: seq<Op>, name: Name, data: seq<byte>,
                               disk: Disk, after: seq<Op>, now: nat, d: Driver)
    requires pool.heap == Empty(pool.heap.capacity) && pool.End() <= |host|
    requires AllowedRun(Fresh(pool, host, settings), before + ([WritePage(name, data, disk)] + after))
    requires Step(Run(Fresh(pool, host, settings), before), WritePage(name, data, disk)).1.Ok?
    requires Untouched(Step(Run(Fresh(pool, host, settings), before), WritePage(name, data, disk)).0, after, name)
    ensures
      var s := Run(Fresh(pool, host, settings), before + ([WritePage(name, data, disk)] + after));
      Wired(s) &&
      var (t, r) := AccessStep(s, name, 0, now, d);
      r.Ok? ==> name in t.pages && DevRead(t.vram, r.value, t.pages[name].size) == data
  {
    hide Step, OneOk, AccessStep, Run, Remember, Allowed, Contents, DevRead;
    var start, w := Fresh(pool, host, settings), WritePage(name, data, disk);
    FreshIsOk(pool, host, settings);
    AllowedSplits(start, before, [w] + after);
    RunKeepsOwners(start, before);
    var s1 := Run(start, before);
    assert ([w] + after)[0] == w && ([w] + after)[1..] == after;
    var (s2, r2) := Step(s1, w);
    var k := Record(map[], s1.nextId);
    StepAgrees(s1, k, w, s2, r2);
    WriteIsRemembered(k, name, data, disk, r2);
    UntouchedKeeps(s2, Remember(k, w, r2), after, name);
    HeadRun(s1, w, after);
    var s := Run(s2, after);
    ServedBytes(s, name, now, d);
  }

  lemma WriteIsRemembered(k: Record, name: Name, data: seq<byte>, disk: Disk, r: Result<nat>)
    requires r.Ok?
    ensures name in Remember(k, WritePage(name, data, disk), r).known && Remember(k, WritePage(name, data, disk), r).known[name] == data
  {
  }

  lemma HeadRun(s: State, op: Op, ops: seq<Op>)
    requires Wired(s)
    ensures Run(s, [op] + ops) == Run(Step(s, op).0, ops)
    ensures AllowedRun(s, [op] + ops) ==> Allowed(s, op) && AllowedRun(Step(s, op).0, ops)
  {
    hide Step, Allowed;
    assert ([op] + ops)[1..] == ops;
  }

  lemma ServedBytes(s: State, name: Name, now: nat, d: Driver)
    requires OneOk(s) && name in s.pages
    ensures
      var (t, r) := AccessStep(s, name, 0, now, d);
      r.Ok? ==> name in t.pages && DevRead(t.vram, r.value, t.pages[name].size) == Bytes(s, name)
  {
    hide AccessStep, PagesOk, HostOk, BlocksOk, FlightsOk, ColdOk, Lost;
    var (t, r) := AccessStep(s, name, 0, now, d);
    AccessOk(s, name, now, d, t, r);
  }

  // ------------------------------------------------------------ block ownership

  /** Blocks are never recovered once lost.  Outside sweeps a step loses one if and only if it is an
    * access whose guard holds; a sweep with ring room for its traffic loses none. */
  lemma StepLoss(s: State, op: Op, t: State, r: Result<nat>)
    requires OneOk(s) && Allowed(s, op) && (t, r) == Step(s, op)
    ensures LostBlocks(s) <= LostBlocks(t)
    ensures !op.Sweep? ==> (LostBlocks(t) != LostBlocks(s) <==> !Lossless(s, op))
    ensures Lossless(s, op) ==> LostBlocks(t) == LostBlocks(s)
  {
    if Stores(op) { StoringStepOk(s, op, t, r); } else { MovingStepOk(s, op, t, r); }
  }

  ghost predicate LosslessRun(s: State, ops: seq<Op>)
    requires Wired(s)
    decreases |ops|
  {
    ops == [] || (Lossless(s, ops[0]) && LosslessRun(Step(s, ops[0]).0, ops[1..]))
  }

  /** Every allowed run: no block has two owners, failed steps included. */
  lemma {:induction false} RunKeepsOwners(s: State, ops: seq<Op>)
    requires OneOk(s) && AllowedRun(s, ops)
    ensures OneOk(Run(s, ops)) && LostBlocks(s) <= LostBlocks(Run(s, ops))
    ensures LosslessRun(s, ops) ==> LostBlocks(Run(s, ops)) == LostBlocks(s)
    decreases |ops|
  {
    if ops != [] {
      var (t, r) := Step(s, ops[0]);
      StepRefines(s, ops[0], t, r);
      StepLoss(s, ops[0], t, r);
      RunKeepsOwners(t, ops[1..]);
    }
  }

  /** In a run from a new pool each driver block has at most one owner, whatever failed; if no step
    * lost one, exactly one. */
  lemma EveryBlockHasOneOwner(pool: Pool, host: seq<byte>, settings: Settings, ops: seq<Op>, ptr: nat)
    requires pool.heap == Empty(pool.heap.capacity) && pool.End() <= |host|
    requires AllowedRun(Fresh(pool, host, settings), ops)
    ensures
      var s := Run(Fresh(pool, host, settings), ops);
      && Wired(s)
      && (forall o, q :: Holds(HoldersOf(s), o, ptr) && Holds(HoldersOf(s), q, ptr) ==> o == q && ptr in s.vram)
      && (LosslessRun(Fresh(pool, host, settings), ops) && ptr in s.vram ==> exists o :: Holds(HoldersOf(s), o, ptr))
  {
    FreshIsOk(pool, host, settings);
    RunKeepsOwners(Fresh(pool, host, settings), ops);
    var s := Run(Fresh(pool, host, settings), ops);
    if LosslessRun(Fresh(pool, host, settings), ops) && ptr in s.vram {
      assert ptr !in LostBlocks(s);
    }
    forall o, q | Holds(HoldersOf(s), o, ptr) && Holds(HoldersOf(s), q, ptr) ensures o == q && ptr in s.vram {
      assert Holding(HoldersOf(s), o).Some?;
    }
  }

  // ------------------------------------------------------------ a run that loses one

  /** Promote and demote one page over and over: nothing drains the ring. */
  function Rounds(n: nat): seq<Op> {
    if n == 0 then [] else [Access("t", 0, 0, Grant(1, [])), Demote("t")] + Rounds(n - 1)
  }

  /** A one-byte warm page, `k` ring slots taken, a block to be had, nothing lost. */
  ghost predicate Bouncing(s: State, k: nat) {
    && OneOk(s) && LostBlocks(s) == {} && s.queued[0] == k && "t" in s.pages && "t" !in s.inflight
    && Obtainable(s, 0, 1, Grant(1, []))
    && var p := s.pages["t"]; p.tier == Dram && p.dram != [] && p.vram == [] && !p.pinned && p.size == 1
  }

  lemma Bounce(s: State, k: nat, s1: State, s2: State)
    requires Bouncing(s, k) && k + 2 <= RING
    requires s1 == AccessStep(s, "t", 0, 0, Grant(1, [])).0 && s2 == DemoteStep(s1, "t").0
    ensures Bouncing(s2, k + 2) && |s2.pools| == 1
  {
    hide HostOk, BlocksOk, FlightsOk, ColdOk, SameFlat, Lost, AccessStep, DemoteStep;
    var d := Grant(1, []);
    assert PageOk(s.pages["t"]);
    AccessLosesIff(s, "t", 0, d, s1, AccessStep(s, "t", 0, 0, d).1);
    AfterPromotion(s, d, s1);
    PageHolds(s1, "t");
    DemoteOk(s1, "t");
    AfterDemotion(s1, d, s2);
  }

  lemma AfterDemotion(s: State, d: Driver, t: State)
    requires Wired(s) && |s.pools| == 1 && "t" in s.pages && "t" !in s.inflight && s.queued[0] < RING
    requires
      var p := s.pages["t"];
      PageOk(p) && p.tier == Vram && |p.vram| == 1 && p.vram[0].ptr != 0 && p.dram != [] && !p.pinned && p.size == 1
    requires t == DemoteStep(s, "t").0
    ensures "t" in t.pages && t.inflight == s.inflight && t.queued[0] == s.queued[0] + 1 && Obtainable(t, 0, 1, d)
    ensures
      var p, q := s.pages["t"], t.pages["t"];
      q.tier == Dram && q.vram == [] && q.dram == p.dram && !q.pinned && q.size == 1
  {
    DemoteIs(s, "t");
    var c := s.pages["t"].vram[0];
    assert t.cache[0][|s.cache[0]|] == Cached(1, c.ptr);
  }

  lemma AfterPromotion(s: State, d: Driver, t: State)
    requires Wired(s) && "t" in s.pages && "t" !in s.inflight && Obtainable(s, 0, 1, d) && s.queued[0] < RING
    requires
      var p := s.pages["t"];
      PageOk(p) && p.tier == Dram && p.dram != [] && p.vram == [] && !p.pinned && p.size == 1
    requires t == AccessStep(s, "t", 0, 0, d).0
    ensures "t" in t.pages && t.pools == s.pools && t.inflight == s.inflight && t.queued == s.queued[0 := s.queued[0] + 1]
    ensures
      var p, q := s.pages["t"], t.pages["t"];
      PageOk(q) && q.tier == Vram && |q.vram| == 1 && q.dram == p.dram && !q.pinned && q.size == 1
  {
  }

  lemma {:induction false} BounceAll(s: State, k: nat, n: nat)
    requires Wired(s) && |s.pools| == 1 && Bouncing(s, k) && k + 2 * n <= RING
    ensures AllowedRun(s, Rounds(n)) && Bouncing(Run(s, Rounds(n)), k + 2 * n)
    decreases n
  {
    hide Bouncing, AccessStep, DemoteStep;
    if 0 < n {
      var a, b := Access("t", 0, 0, Grant(1, [])), Demote("t");
      var s1 := Step(s, a).0;
      var s2 := Step(s1, b).0;
      Bounce(s, k, s1, s2);
      BounceAll(s2, k + 2, n - 1);
      Prefixed(s, a, b, Rounds(n - 1));
      assert Rounds(n) == [a, b] + Rounds(n - 1);
    }
  }

  /** Two calls, then the rest. */
  lemma Prefixed(s: State, a: Op, b: Op, rest: seq<Op>)
    requires Wired(s)
    ensures
      var s1 := Step(s, a).0;
      var s2 := Step(s1, b).0;
      && Run(s, [a, b] + rest) == Run(s2, rest)
      && (AllowedRun(s, [a, b] + rest) <==> Allowed(s, a) && Allowed(s1, b) && AllowedRun(s2, rest))
  {
    hide Step, Allowed;
    var ops := [a, b] + rest;
    assert ops[1..] == [b] + rest && ops[1..][1..] == rest;
    var s1 := Step(s, a).0;
    assert Run(s1, ops[1..]) == Run(Step(s1, b).0, rest);
    assert AllowedRun(s1, ops[1..]) <==> Allowed(s1, b) && AllowedRun(Step(s1, b).0, rest);
  }

  lemma Warmed(pool: Pool, host: seq<byte>, settings: Settings)
    requires pool.heap == Empty(pool.heap.capacity) && pool.End() <= |host| && 64 <= pool.heap.capacity
    ensures
      var start := Fresh(pool, host, settings);
      Allowed(start, Allocate("t", [1], 1, Dram)) && Bouncing(Step(start, Allocate("t", [1], 1, Dram)).0, 0)
  {
    var start := Fresh(pool, host, settings);
    hide HostOk, BlocksOk, FlightsOk, ColdOk;
    FreshIsOk(pool, host, settings);
    var (t, r) := AllocateStep(start, "t", [1], 1, Dram);
    assert ChosenName("t", start.nextId) == "t";
    AllocateOk(start, "t", [1], 1, Dram, t, r);
    assert Product([1]) == 1 * Product([]);
    assert PoolAllocate(pool, 1).1.Ok? && ShardSize(1, 1, 0) == 1;
    var (p, got) := PoolAllocate(pool, 1);
    var chunk := DramChunk(p.node, got.value, 1);
    assert AllocShards([pool], 1, 0, []) == AllocShards([pool][0 := p], 1, 1, [] + [chunk]);
    assert PageOk(t.pages["t"]);
  }

  /** A losing run: a new pool, one page, 512 rounds.  The ring is full, the block is cached, and the
    * next access takes the block and drops it. */
  lemma FullRingLosesABlock(pool: Pool, host: seq<byte>, settings: Settings)
    requires pool.heap == Empty(pool.heap.capacity) && pool.End() <= |host| && 64 <= pool.heap.capacity
    ensures
      var start := Fresh(pool, host, settings);
      var ops := [Allocate("t", [1], 1, Dram)] + Rounds(512);
      var s := Run(start, ops);
      && AllowedRun(start, ops) && LostBlocks(s) == {} && LosesBlock(s, "t", Grant(1, []))
      && LostBlocks(AccessStep(s, "t", 0, 0, Grant(1, [])).0) != {}
  {
    hide Step, Rounds;
    var start := Fresh(pool, host, settings);
    var first := Allocate("t", [1], 1, Dram);
    Warmed(pool, host, settings);
    var s1 := Step(start, first).0;
    BounceAll(s1, 0, 512);
    var ops := [first] + Rounds(512);
    assert ops[1..] == Rounds(512);
    var s := Run(start, ops);
    assert s == Run(s1, Rounds(512));
    var d := Grant(1, []);
    AccessLosesIff(s, "t", 0, d, AccessStep(s, "t", 0, 0, d).0, AccessStep(s, "t", 0, 0, d).1);
  }
}
