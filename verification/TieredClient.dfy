/** The theorems about steps, carried to the pool object: what a caller of its methods may rely on. */
module TieredClients {
  import opened Common
  import opened Tiered
  import opened TieredPools
  import opened TieredOne
  import opened TieredSteps
  import opened TieredRuns

  /** The calls that create, fill and remove pages or set the pool up. */
  method Store(pool: TieredPool, op: Op) returns (r: Result<nat>)
    requires pool.Valid()
    requires op.Allocate? || op.WritePage? || op.Deallocate? || op.AttachSpill? || op.EnableMembrane?
    modifies pool, pool.vmt, pool.pools, pool.SpillParts()
    ensures pool.Valid() && fresh(pool.SpillParts() - old(pool.SpillParts()))
    ensures (pool.State(), r) == Step(old(pool.State()), op)
  {
    hide AllocateStep, AccessStep, DemoteStep, PrefetchStep, WriteStep, DeallocateStep, BackgroundSweepStep;
    r := Ok(0);
    match op
    case Allocate(name, shape, elementSize, tier) =>
      var got := pool.Allocate(name, shape, elementSize, tier);
      if got.Err? { r := Err(got.error); }
    case WritePage(name, data, disk) =>
      var got := pool.WritePage(name, data, disk);
      if got.Err? { r := Err(got.error); }
    case Deallocate(name) =>
      var got := pool.Deallocate(name);
      if got.Err? { r := Err(got.error); }
    case AttachSpill(capacity) => pool.AttachSpill(capacity);
    case EnableMembrane(budget) => pool.EnableMembrane(budget);
  }

  /** The calls that move pages between tiers. */
  method Move(pool: TieredPool, op: Op) returns (r: Result<nat>)
    requires pool.Valid() && (op.Access? || op.Demote? || op.Prefetch? || op.Sweep?)
    modifies pool, pool.vmt, pool.membrane, pool.pools
    ensures pool.Valid() && pool.SpillParts() == old(pool.SpillParts())
    ensures (pool.State(), r) == Step(old(pool.State()), op)
  {
    hide AllocateStep, AccessStep, DemoteStep, PrefetchStep, WriteStep, DeallocateStep, BackgroundSweepStep;
    r := Ok(0);
    match op
    case Access(name, g, now, d) => r := pool.Access(name, g, now, d);
    case Demote(name) =>
      var got := pool.Demote(name);
      if got.Err? { r := Err(got.error); }
    case Prefetch(name, g, d) =>
      var got := pool.Prefetch(name, g, d);
      if got.Err? { r := Err(got.error); }
    case Sweep(order, now, ds) =>
      var got := pool.BackgroundSweep(order, now, ds);
      if got.Err? { r := Err(got.error); }
  }

  /** The framework pins a page, a kernel writes to one. */
  method Use(pool: TieredPool, op: Op)
    requires pool.Valid() && (op.SetPinned? || op.DeviceWrite?)
    modifies pool`vram, pool.vmt
    ensures pool.Valid() && (pool.State(), Ok(0)) == Step(old(pool.State()), op)
  {
    hide PoolStates, DevWrite;
    hide AllocateStep, AccessStep, DemoteStep, PrefetchStep, WriteStep, DeallocateStep, BackgroundSweepStep;
    match op
    case SetPinned(name, pin) =>
      if name in pool.vmt.pages {
        pool.vmt.pages := pool.vmt.pages[name := pool.vmt.pages[name].(pinned := pin)];
      }
    case DeviceWrite(name, at, data) =>
      if name in pool.vmt.pages && pool.vmt.pages[name].vram != [] {
        pool.vram := DevWrite(pool.vram, pool.vmt.pages[name].vram[0].ptr, at, data);
      }
  }

  /** A copy lands, a descriptor is consumed. */
  method Happen(pool: TieredPool, op: Op)
    requires pool.Valid() && (op.CopyLands? || op.EngineAcks?)
    modifies pool`vram, pool`copies, pool`queued
    ensures pool.Valid() && (pool.State(), Ok(0)) == Step(old(pool.State()), op)
  {
    hide PoolStates, Land;
    hide AllocateStep, AccessStep, DemoteStep, PrefetchStep, WriteStep, DeallocateStep, BackgroundSweepStep;
    match op
    case CopyLands(ptr) => pool.Synchronize(ptr);
    case EngineAcks(g) =>
      if g < |pool.queued| && 0 < pool.queued[g] {
        pool.queued := pool.queued[g := pool.queued[g] - 1];
      }
  }

  /** One call on the pool, or one event of the world around it. */
  method Perform(pool: TieredPool, op: Op) returns (r: Result<nat>)
    requires pool.Valid()
    modifies pool, pool.vmt, pool.membrane, pool.pools, pool.SpillParts()
    ensures pool.Valid() && fresh(pool.SpillParts() - old(pool.SpillParts()))
    ensures (pool.State(), r) == Step(old(pool.State()), op)
  {
    hide Step;
    match op
    case Allocate(_, _, _, _) => r := Store(pool, op);
    case WritePage(_, _, _) => r := Store(pool, op);
    case Deallocate(_) => r := Store(pool, op);
    case AttachSpill(_) => r := Store(pool, op);
    case EnableMembrane(_) => r := Store(pool, op);
    case Access(_, _, _, _) => r := Move(pool, op);
    case Demote(_) => r := Move(pool, op);
    case Prefetch(_, _, _) => r := Move(pool, op);
    case Sweep(_, _, _) => r := Move(pool, op);
    case SetPinned(_, _) => Use(pool, op); r := Ok(0);
    case DeviceWrite(_, _, _) => Use(pool, op); r := Ok(0);
    case CopyLands(_) => Happen(pool, op); r := Ok(0);
    case EngineAcks(_) => Happen(pool, op); r := Ok(0);
  }

  /** A client that makes the calls and keeps its own record: on one GPU, at the end of every allowed
    * run, the object holds exactly what the record says. */
  method PerformAll(pool: TieredPool, ops: seq<Op>, known: Record) returns (record: Record)
    requires pool.Valid() && OneOk(pool.State()) && Agrees(pool.State(), known) && AllowedRun(pool.State(), ops)
    modifies pool, pool.vmt, pool.membrane, pool.pools, pool.SpillParts()
    ensures pool.Valid() && fresh(pool.SpillParts() - old(pool.SpillParts()))
    ensures (pool.State(), record) == RunBoth(old(pool.State()), known, ops)
    ensures OneOk(pool.State()) && Agrees(pool.State(), record)
  {
    hide OneOk, Agrees, Step, Allowed;
    ghost var start := pool.State();
    record := known;
    var i := 0;
    assert ops[0..] == ops;
    while i < |ops|
      invariant 0 <= i <= |ops| && pool.Valid() && fresh(pool.SpillParts() - old(pool.SpillParts()))
      invariant RunBoth(start, known, ops) == RunBoth(pool.State(), record, ops[i..])
      invariant AllowedRun(pool.State(), ops[i..])
    {
      ghost var s := pool.State();
      assert ops[i..][0] == ops[i] && ops[i..][1..] == ops[i + 1..];
      var r := Perform(pool, ops[i]);
      RunBothUnfolds(s, record, ops[i..], pool.State(), r);
      record := Remember(record, ops[i], r);
      i := i + 1;
    }
    RunAgrees(start, known, ops);
  }

  lemma RunBothUnfolds(s: State, k: Record, ops: seq<Op>, t: State, r: Result<nat>)
    requires Wired(s) && ops != [] && (t, r) == Step(s, ops[0]) && AllowedRun(s, ops)
    ensures Wired(t) && RunBoth(s, k, ops) == RunBoth(t, Remember(k, ops[0], r), ops[1..]) && AllowedRun(t, ops[1..])
  {
    hide Step, Allowed, Remember;
  }

  /** On one GPU an access of the object leaves every page's bytes alone, and the pointer it returns
    * is to exactly the page's bytes. */
  method AccessPage(pool: TieredPool, name: Name, now: nat, d: Driver) returns (r: Result<nat>)
    requires pool.Valid() && OneOk(pool.State())
    modifies pool, pool.vmt, pool.membrane, pool.pools
    ensures pool.Valid() && OneOk(pool.State()) && Flat(pool.State()) == old(Flat(pool.State()))
    ensures r.Ok? ==> name in old(Flat(pool.State())) && name in pool.vmt.pages
    ensures r.Ok? ==> DevRead(pool.vram, r.value, pool.vmt.pages[name].size) == old(Flat(pool.State()))[name]
  {
    ghost var s := pool.State();
    r := pool.Access(name, 0, now, d);
    AccessOk(s, name, now, d, pool.State(), r);
    SameFlatIsFlat(s, pool.State());
  }
}
