/** Any number of GPUs: how calls move one page's record up and down, and which pages can never come down. */
module TieredMoves {
  import opened Common
  import opened DramPools
  import opened Vmt
  import opened Plans
  import opened Tiered
  import opened TieredHost
  import opened TieredMany
  import opened TieredOutcomes

  // ------------------------------------------------------- one record at a time

  /** The same pages, all but `name` with the same records. */
  predicate SameElsewhere(s: State, t: State, name: Name) {
    t.pages.Keys == s.pages.Keys && forall n :: n in s.pages && n != name ==> t.pages[n] == s.pages[n]
  }

  /** A page may gain blocks and enter the top tier; what backs it and its pin stay. */
  predicate Raised(p: Page, q: Page) {
    && q.dram == p.dram && q.size == p.size && q.pinned == p.pinned
    && p.vram <= q.vram && (q.tier == p.tier || q.tier == Vram)
  }

  ghost predicate Raises(s: State, t: State, name: Name) {
    SameElsewhere(s, t, name) && (name in s.pages ==> Raised(s.pages[name], t.pages[name]))
  }

  /** The page lists a block at `ptr` on GPU `g`. */
  predicate ListsBlock(p: Page, g: nat, ptr: nat) {
    exists k :: 0 <= k < |p.vram| && p.vram[k].gpu == g && p.vram[k].ptr == ptr
  }

  /** A failing access leaves the page table alone.  One that succeeds raises its page to the top tier,
    * counts and dates the access, and returns a block the page lists for that GPU. */
  ghost predicate Served(s: State, t: State, r: Result<nat>, name: Name, g: nat, now: nat) {
    if r.Err? then t.pages == s.pages
    else
      && name in s.pages && SameElsewhere(s, t, name)
      && var (p, q) := (s.pages[name], t.pages[name]);
        && Raised(p, q) && q.tier == Vram && q.accessCount == p.accessCount + 1 && q.lastAccess == now
        && ListsBlock(q, g, r.value)
  }

  lemma AttachServes(s: State, name: Name, c: Chunk, now: nat)
    requires name in s.pages
    ensures Served(s, Attach(s, name, c, now), Ok(c.ptr), name, c.gpu, now)
  {
    var q := Attach(s, name, c, now).pages[name];
    assert q.vram[|s.pages[name].vram|] == c;
  }

  /** Only the page tables matter. */
  lemma SamePagesServe(s: State, s': State, t: State, r: Result<nat>, name: Name, g: nat, now: nat)
    requires s'.pages == s.pages && Served(s', t, r, name, g, now)
    ensures Served(s, t, r, name, g, now)
  {
  }

  lemma ClaimServes(s: State, name: Name, g: nat, now: nat, t: State, r: Result<Option<nat>>)
    requires Wired(s) && (t, r) == ClaimStep(s, name, g, now)
    ensures r == Ok(None) || r.Err? ==> t.pages == s.pages
    ensures r.Ok? && r.value.Some? ==> Served(s, t, Ok(r.value.value), name, g, now)
  {
    hide Land, FreeVram, Attach, Served;
    if name in s.inflight && name in s.pages {
      var f := s.inflight[name];
      var s2 := Land(s.(inflight := s.inflight - {name}), f.ptr);
      AttachServes(s2, name, Chunk(g, f.ptr, f.size), now);
      SamePagesServe(s, s2, Attach(s2, name, Chunk(g, f.ptr, f.size), now), Ok(f.ptr), name, g, now);
    }
  }

  lemma HitServes(s: State, name: Name, g: nat, now: nat, c: Chunk)
    requires name in s.pages && s.pages[name].tier == Vram && FindChunk(s.pages[name].vram, g, true) == Some(c)
    ensures Served(s, s.(pages := s.pages[name := s.pages[name].Touch(now)]), Ok(c.ptr), name, g, now)
  {
    hide FindChunk;
    assert c in s.pages[name].vram;
  }

  lemma AccessVramServes(s: State, name: Name, g: nat, now: nat, d: Driver, t: State, r: Result<nat>)
    requires Wired(s) && name in s.pages && s.pages[name].tier == Vram && (t, r) == AccessVram(s, name, g, now, d)
    ensures Served(s, t, r, name, g, now)
  {
    hide AllocVram, FindChunk, DevRead, DevWrite, Attach;
    var p := s.pages[name];
    var own, src := FindChunk(p.vram, g, true), FindChunk(p.vram, g, false);
    if own.Some? {
      HitServes(s, name, g, now, own.value);
    } else if src.Some? {
      var (s1, got) := AllocVram(s, g, src.value.size, d);
      if got.Ok? {
        var s2 := s1.(vram := DevWrite(s1.vram, got.value, 0, DevRead(s1.vram, src.value.ptr, src.value.size)));
        AttachServes(s2, name, Chunk(g, got.value, src.value.size), now);
        SamePagesServe(s, s2, t, r, name, g, now);
      }
    }
  }

  lemma AccessDramServes(s: State, name: Name, g: nat, now: nat, d: Driver, t: State, r: Result<nat>)
    requires Wired(s) && name in s.pages && (t, r) == AccessDram(s, name, g, now, d)
    ensures Served(s, t, r, name, g, now)
  {
    hide AllocVram, Peek, DevWrite, Attach;
    var p := s.pages[name];
    if g < |p.dram| && g < |s.queued| {
      var c := p.dram[g];
      var (s1, got) := AllocVram(s, g, c.size, d);
      if got.Ok? && s1.queued[g] < RING {
        var s2 := s1.(queued := s1.queued[g := s1.queued[g] + 1], vram := DevWrite(s1.vram, got.value, 0, Peek(s1.host, c.hostPtr, c.size)));
        AttachServes(s2, name, Chunk(g, got.value, c.size), now);
        SamePagesServe(s, s2, t, r, name, g, now);
      }
    }
  }

  lemma SettleServes(s: State, err: Option<Error>, name: Name, g: nat, dst: nat, size: nat, now: nat)
    requires Wired(s) && name in s.pages
    ensures
      var (t, r) := SettleSsd(s, err, name, g, dst, size, now);
      Served(s, t, r, name, g, now)
  {
    hide FreeVram, Attach;
    AttachServes(s, name, Chunk(g, dst, size), now);
  }

  lemma AccessSsdServes(s: State, name: Name, g: nat, now: nat, d: Driver, t: State, r: Result<nat>)
    requires Wired(s) && name in s.pages && g < |s.pools| && (t, r) == AccessSsd(s, name, g, now, d)
    ensures Served(s, t, r, name, g, now)
  {
    hide AllocVram, StageUp, CopyUp, SettleSsd;
    var p := s.pages[name];
    if p.ssd.Some? {
      var (s1, got) := AllocVram(s, g, p.size, d);
      if got.Ok? {
        var (s2, err) :=
          if g < |p.dram| && p.size <= p.dram[g].size then CopyUp(s1, got.value, p.ssd.value, p.dram[g].hostPtr, p.size, p.size)
          else StageUp(s1, g, got.value, p.ssd.value, p.size);
        SettleServes(s2, err, name, g, got.value, p.size, now);
        SamePagesServe(s, s2, t, r, name, g, now);
      }
    }
  }

  /** Any number of GPUs: what an access does to the page table. */
  lemma AccessServes(s: State, name: Name, g: nat, now: nat, d: Driver, t: State, r: Result<nat>)
    requires Wired(s) && (t, r) == AccessStep(s, name, g, now, d)
    ensures Served(s, t, r, name, g, now)
  {
    hide ClaimStep, AccessVram, AccessDram, AccessSsd, SameElsewhere, Raised, ListsBlock;
    var s1 := s.(membrane := s.membrane.Observed(name));
    var (s2, c) := ClaimStep(s1, name, g, now);
    ClaimServes(s1, name, g, now, s2, c);
    if c == Ok(None) && name in s2.pages && g < |s2.pools| {
      match s2.pages[name].tier {
        case Vram => AccessVramServes(s2, name, g, now, d, t, r);
        case Dram => AccessDramServes(s2, name, g, now, d, t, r);
        case Ssd => AccessSsdServes(s2, name, g, now, d, t, r);
      }
      SamePagesServe(s, s2, t, r, name, g, now);
    } else if c.Ok? && c.value.Some? {
      SamePagesServe(s, s1, t, r, name, g, now);
    }
  }

  lemma SamePagesRaise(s: State, t: State, name: Name)
    requires t.pages == s.pages
    ensures Raises(s, t, name)
  {
  }

  /** An access touches the record of its page only, and only upwards. */
  lemma AccessRaises(s: State, name: Name, g: nat, now: nat, d: Driver)
    requires Wired(s)
    ensures Raises(s, AccessStep(s, name, g, now, d).0, name)
  {
    hide AccessStep;
    var (t, r) := AccessStep(s, name, g, now, d);
    AccessServes(s, name, g, now, d, t, r);
    if r.Err? { SamePagesRaise(s, t, name); }
  }

  // ----------------------------------------------- what an access uses up

  /** The block the driver offers. */
  function OfferedPtrs(d: Driver): set<nat> { if d.Grant? then {d.ptr} else {} }

  /** At most one slot of GPU `g`'s ring and the driver's block; rates, prefetches and settings stay. */
  ghost predicate Spends(s: State, t: State, g: nat, d: Driver) {
    && t.membrane == s.membrane && t.settings == s.settings && t.inflight == s.inflight && |t.queued| == |s.queued|
    && (forall k :: 0 <= k < |s.queued| ==> t.queued[k] <= s.queued[k] + if k == g then 1 else 0)
    && s.vram.Keys <= t.vram.Keys <= s.vram.Keys + OfferedPtrs(d)
  }

  lemma AllocVramSpends(s: State, g: nat, n: nat, d: Driver)
    requires Wired(s)
    ensures Spends(s, AllocVram(s, g, n, d).0, g, d)
  {
    hide FindSize, Peek;
  }

  lemma AccessVramSpends(s: State, name: Name, g: nat, now: nat, d: Driver)
    requires Wired(s) && name in s.pages
    ensures Spends(s, AccessVram(s, name, g, now, d).0, g, d)
  {
    hide AllocVram, FindChunk, DevRead;
    var src := FindChunk(s.pages[name].vram, g, false);
    if src.Some? { AllocVramSpends(s, g, src.value.size, d); }
  }

  lemma AccessDramSpends(s: State, name: Name, g: nat, now: nat, d: Driver)
    requires Wired(s) && name in s.pages
    ensures Spends(s, AccessDram(s, name, g, now, d).0, g, d)
  {
    hide AllocVram, Peek;
    var p := s.pages[name];
    if g < |p.dram| { AllocVramSpends(s, g, p.dram[g].size, d); }
  }

  lemma CopySpends(s: State, g: nat, dst: nat, p: Page, d: Driver, t: State)
    requires Wired(s) && g < |s.pools| && p.ssd.Some?
    requires t == if OwnBuffer(p, g) then CopyUp(s, dst, p.ssd.value, p.dram[g].hostPtr, p.size, p.size).0
                  else StageUp(s, g, dst, p.ssd.value, p.size).0
    ensures Spends(s, t, g, d)
  {
    hide Stream, Borrow, PoolAllocate, PoolFree;
  }

  lemma SpendsTrans(s: State, t: State, u: State, g: nat, d: Driver)
    requires Spends(s, t, g, d) && Spends(t, u, g, d) && t.queued == s.queued
    ensures Spends(s, u, g, d)
  {
  }

  lemma AccessSsdSpends(s: State, name: Name, g: nat, now: nat, d: Driver)
    requires Wired(s) && name in s.pages && g < |s.pools|
    ensures Spends(s, AccessSsd(s, name, g, now, d).0, g, d)
  {
    hide AllocVram, StageUp, CopyUp, Attach, FreeVram, Spends, OfferedPtrs;
    var p := s.pages[name];
    SameSpends(s, s, g, d);
    if p.ssd.Some? {
      AllocVramSpends(s, g, p.size, d);
      var (s1, got) := AllocVram(s, g, p.size, d);
      if got.Ok? {
        var (s2, err) :=
          if g < |p.dram| && p.size <= p.dram[g].size then CopyUp(s1, got.value, p.ssd.value, p.dram[g].hostPtr, p.size, p.size)
          else StageUp(s1, g, got.value, p.ssd.value, p.size);
        CopySpends(s1, g, got.value, p, d, s2);
        SpendsTrans(s, s1, s2, g, d);
        var t := SettleSsd(s2, err, name, g, got.value, p.size, now).0;
        SameSpends(s2, t, g, d);
        assert s2.queued == s.queued;
        SpendsTrans(s, s2, t, g, d);
      }
    }
  }

  lemma SameSpends(s: State, t: State, g: nat, d: Driver)
    requires t == s.(pages := t.pages, cache := t.cache)
    ensures Spends(s, t, g, d)
  {
  }

  /** Any number of GPUs: an access counts one hit for its name, also if it fails or names no page; it
    * clears a prefetch of the page, and uses at most one ring slot and the block offered. */
  lemma AccessSpends(s: State, name: Name, g: nat, now: nat, d: Driver, t: State)
    requires Wired(s) && t == AccessStep(s, name, g, now, d).0
    ensures forall n :: t.membrane.Hits(n) == s.membrane.Hits(n) + if n == name then 1 else 0
    ensures t.membrane.rates == s.membrane.rates && t.membrane.sweeps == s.membrane.sweeps && t.settings == s.settings
    ensures t.inflight == s.inflight - {name} && |t.queued| == |s.queued|
    ensures forall k :: 0 <= k < |s.queued| ==> t.queued[k] <= s.queued[k] + if k == g then 1 else 0
    ensures s.vram.Keys <= t.vram.Keys <= s.vram.Keys + OfferedPtrs(d)
  {
    hide AccessVram, AccessDram, AccessSsd, OfferedPtrs, DevWrite, Peek;
    var s1 := s.(membrane := s.membrane.Observed(name));
    var (s2, c) := ClaimStep(s1, name, g, now);
    ClaimSpends(s1, name, g, now);
    if c == Ok(None) && name in s2.pages && g < |s2.pools| {
      match s2.pages[name].tier {
        case Vram => AccessVramSpends(s2, name, g, now, d);
        case Dram => AccessDramSpends(s2, name, g, now, d);
        case Ssd => AccessSsdSpends(s2, name, g, now, d);
      }
    }
  }

  lemma ClaimSpends(s: State, name: Name, g: nat, now: nat)
    requires Wired(s)
    ensures
      var t := ClaimStep(s, name, g, now).0;
      && t.membrane == s.membrane && t.settings == s.settings && t.queued == s.queued
      && t.inflight == s.inflight - {name} && t.vram.Keys == s.vram.Keys
  {
    hide Peek;
    if name !in s.inflight { assert s.inflight - {name} == s.inflight; }
  }

  /** A demotion touches the record of its page only: it stays or becomes warm without blocks.  After
    * a success the page is not in the top tier, unless it is pinned. */
  lemma DemoteLowers(s: State, name: Name, t: State, r: Result<()>)
    requires Wired(s) && (t, r) == DemoteStep(s, name)
    ensures SameElsewhere(s, t, name)
    ensures name in s.pages ==>
      t.pages[name] == s.pages[name] || t.pages[name] == s.pages[name].(vram := [], tier := Dram, state := Warm)
    ensures r.Ok? ==> name in s.pages && (s.pages[name].pinned || t.pages[name].tier != Vram)
    ensures name in s.pages && s.pages[name].pinned ==> t.pages[name] == s.pages[name]
  {
    hide DemoteChunks;
  }

  // ------------------------------------------------- pages that cannot come down

  /** No shard on the block's GPU can take it back. */
  predicate Oversized(p: Page, c: Chunk) {
    |p.dram| <= c.gpu || p.dram[c.gpu].size < c.size
  }

  /** In the top tier with a block that no shard can take back: a promoted cold page, or one whose
    * prefetch was claimed on a pool with several GPUs. */
  predicate Stuck(p: Page) {
    p.tier == Vram && exists j :: 0 <= j < |p.vram| && Oversized(p, p.vram[j])
  }

  lemma RaisedStaysStuck(p: Page, q: Page)
    requires Stuck(p) && Raised(p, q)
    ensures Stuck(q)
  {
    var j :| 0 <= j < |p.vram| && Oversized(p, p.vram[j]);
    assert q.vram[j] == p.vram[j];
  }

  ghost predicate StuckIn(s: State, name: Name) {
    name in s.pages && Stuck(s.pages[name])
  }

  /** With free rings, a page in the top tier can be demoted if and only if it is not stuck. */
  lemma StuckIff(s: State, name: Name)
    requires Wired(s) && name in s.pages && s.pages[name].tier == Vram && !s.pages[name].pinned
    requires |s.pages[name].dram| <= |s.queued|
    requires forall g :: 0 <= g < |s.queued| ==> s.queued[g] + |s.pages[name].vram| <= RING
    ensures DemoteStep(s, name).1.Ok? <==> !Stuck(s.pages[name])
  {
    hide DemoteStep;
    var p := s.pages[name];
    DemoteSucceedsIff(s, name);
    forall j | 0 <= j < |p.vram| ensures ChunkFits(s, p.vram, p.dram, 0, j) <==> !Oversized(p, p.vram[j]) {
      CountAtMost(p.vram, 0, j, p.vram[j].gpu);
    }
  }

  lemma {:induction false} CountAtMost(vram: seq<Chunk>, i: nat, j: nat, g: nat)
    requires i <= j <= |vram|
    ensures CountOn(vram, i, j, g) <= j - i
    decreases j - i
  {
    if i < j { CountAtMost(vram, i + 1, j, g); }
  }

  /** A page allocated cold has no host chunk, so its first promotion is its last move. */
  lemma PromotedColdIsStuck(s: State, name: Name, g: nat, now: nat, d: Driver)
    requires Wired(s) && name in s.pages && name !in s.inflight && s.pages[name].tier == Ssd && s.pages[name].dram == []
    requires AccessStep(s, name, g, now, d).1.Ok?
    ensures StuckIn(AccessStep(s, name, g, now, d).0, name)
  {
    hide AllocVram, StageUp, CopyUp, FreeVram, AccessVram, AccessDram;
    var t := AccessStep(s, name, g, now, d).0;
    assert |s.pages[name].vram| < |t.pages[name].vram|;
    assert Oversized(t.pages[name], t.pages[name].vram[|s.pages[name].vram|]);
  }

  lemma DemoteKeepsStuck(s: State, n: Name, name: Name)
    requires Wired(s) && StuckIn(s, name)
    ensures StuckIn(DemoteStep(s, n).0, name)
  {
    hide DemoteStep, CountOn;
    var (t, r) := DemoteStep(s, n);
    DemoteLowers(s, n, t, r);
    if n == name {
      DemoteSucceedsIff(s, name);
      var p := s.pages[name];
      var j :| 0 <= j < |p.vram| && Oversized(p, p.vram[j]);
      assert !ChunkFits(s, p.vram, p.dram, 0, j);
    }
  }

  lemma AccessKeepsStuck(s: State, n: Name, g: nat, now: nat, d: Driver, name: Name)
    requires Wired(s) && StuckIn(s, name)
    ensures StuckIn(AccessStep(s, n, g, now, d).0, name)
  {
    hide AccessStep, Stuck, Raised;
    AccessRaises(s, n, g, now, d);
    if n == name { RaisedStaysStuck(s.pages[name], AccessStep(s, n, g, now, d).0.pages[name]); }
  }

  lemma {:induction false} EvictAllKeepsStuck(s: State, names: seq<Name>, name: Name)
    requires Wired(s) && StuckIn(s, name)
    ensures StuckIn(EvictAll(s, names).0, name)
    decreases |names|
  {
    hide DemoteStep, StuckIn;
    if names != [] {
      DemoteKeepsStuck(s, names[0], name);
      EvictAllKeepsStuck(DemoteStep(s, names[0]).0, names[1..], name);
      EvictAllKeepsStuck(s, names[1..], name);
    }
  }

  lemma {:induction false} DemoteAllKeepsStuck(s: State, names: seq<Name>, name: Name)
    requires Wired(s) && StuckIn(s, name)
    ensures StuckIn(DemoteAll(s, names).0, name)
    decreases |names|
  {
    hide DemoteStep, StuckIn;
    if names != [] {
      DemoteKeepsStuck(s, names[0], name);
      DemoteAllKeepsStuck(DemoteStep(s, names[0]).0, names[1..], name);
    }
  }

  lemma {:induction false} PromoteAllKeepsStuck(s: State, names: seq<Name>, now: nat, ds: seq<Driver>, i: nat, name: Name)
    requires Wired(s) && StuckIn(s, name)
    ensures StuckIn(PromoteAll(s, names, now, ds, i), name)
    decreases |names| - i
  {
    hide AccessStep, StuckIn;
    if i < |names| {
      AccessKeepsStuck(s, names[i], 0, now, DriverAt(ds, i), name);
      PromoteAllKeepsStuck(AccessStep(s, names[i], 0, now, DriverAt(ds, i)).0, names, now, ds, i + 1, name);
      PromoteAllKeepsStuck(s, names, now, ds, i + 1, name);
    }
  }

  lemma {:induction false} AccessAllKeepsStuck(s: State, names: seq<Name>, now: nat, ds: seq<Driver>, i: nat, name: Name)
    requires Wired(s) && StuckIn(s, name)
    ensures StuckIn(AccessAll(s, names, now, ds, i).0, name)
    decreases |names| - i
  {
    hide AccessStep, StuckIn;
    if i < |names| {
      AccessKeepsStuck(s, names[i], 0, now, DriverAt(ds, i), name);
      AccessAllKeepsStuck(AccessStep(s, names[i], 0, now, DriverAt(ds, i)).0, names, now, ds, i + 1, name);
    }
  }

  lemma SweepKeepsStuck(s: State, order: seq<Name>, now: nat, ds: seq<Driver>, name: Name)
    requires Wired(s) && StuckIn(s, name)
    ensures StuckIn(BackgroundSweepStep(s, order, now, ds).0, name)
  {
    hide StuckIn, EvictAll, PromoteAll, DemoteAll, AccessAll;
    if s.settings.budget.Some? {
      var s1 := s.(membrane := s.membrane.Decayed());
      SamePagesStuck(s, s1, name);
      var (keep, evict) := Plan(s.settings.policy, Candidates(s1, order), s.settings.budget.value);
      var (s2, r) := EvictAll(s1, evict);
      EvictAllKeepsStuck(s1, evict, name);
      PromoteAllKeepsStuck(s2, keep, now, ds, 0, name);
      MembraneSweepIs(s, order, now, ds, s1, keep, evict, s2, r);
    } else {
      var toDemote := Select(s, order, IdleResident(now, s.settings.idleAfter));
      var toPromote := Select(s, order, HotWarm(s.settings.hotAt));
      var (s1, r) := DemoteAll(s, toDemote);
      DemoteAllKeepsStuck(s, toDemote, name);
      AccessAllKeepsStuck(s1, toPromote, now, ds, 0, name);
      IdleSweepIs(s, order, now, ds, toDemote, toPromote, s1, r);
    }
  }

  lemma SamePagesStuck(s: State, t: State, name: Name)
    requires StuckIn(s, name) && t.pages == s.pages
    ensures StuckIn(t, name)
  {
  }

  /** Nothing but removing or replacing the page takes it out of the top tier. */
  lemma StepKeepsStuck(s: State, op: Op, name: Name)
    requires Wired(s) && StuckIn(s, name)
    requires op.Allocate? ==> ChosenName(op.name, s.nextId) != name
    requires op != Deallocate(name)
    ensures StuckIn(Step(s, op).0, name)
  {
    hide AllocateStep, AccessStep, DemoteStep, PrefetchStep, BackgroundSweepStep, FreeShards, FreeChunks, Scatter, Stuck, Land, DevWrite;
    match op
    case Allocate(n, shape, elementSize, tier) => AllocateSeeds(s, n, shape, elementSize, tier);
    case Access(n, g, now, d) => AccessKeepsStuck(s, n, g, now, d, name);
    case Demote(n) => DemoteKeepsStuck(s, n, name);
    case Prefetch(n, g, d) => PrefetchSamePages(s, n, g, d);
    case Sweep(order, now, ds) => SweepKeepsStuck(s, order, now, ds, name);
    case SetPinned(n, pin) => if n == name { PinStaysStuck(s.pages[name], pin); }
    case _ =>
  }

  lemma PrefetchSamePages(s: State, name: Name, g: nat, d: Driver)
    requires Wired(s)
    ensures PrefetchStep(s, name, g, d).0.pages == s.pages
  {
    hide AllocVram;
  }

  lemma PinStaysStuck(p: Page, pin: bool)
    requires Stuck(p)
    ensures Stuck(p.(pinned := pin))
  {
    var j :| 0 <= j < |p.vram| && Oversized(p, p.vram[j]);
    assert Oversized(p.(pinned := pin), p.vram[j]);
  }

  /** The page is not removed, and no page of its name is allocated. */
  ghost predicate Leaves(s: State, ops: seq<Op>, name: Name)
    requires Wired(s)
    decreases |ops|
  {
    ops == [] ||
      (&& ops[0] != Deallocate(name) && (ops[0].Allocate? ==> ChosenName(ops[0].name, s.nextId) != name)
       && Leaves(Step(s, ops[0]).0, ops[1..], name))
  }

  /** In every run that leaves it in the table, a stuck page stays in the top tier, and every demotion of
    * it fails or finds it pinned. */
  lemma {:induction false} StuckForever(s: State, ops: seq<Op>, name: Name)
    requires Wired(s) && StuckIn(s, name) && Leaves(s, ops, name)
    ensures
      var t := Run(s, ops);
      && Wired(t) && StuckIn(t, name) && t.pages[name].tier == Vram
      && (DemoteStep(t, name).1.Ok? <==> t.pages[name].pinned)
    decreases |ops|
  {
    hide Step, Stuck;
    if ops == [] {
      NeverDemotes(s, name);
    } else {
      StepKeepsStuck(s, ops[0], name);
      StuckForever(Step(s, ops[0]).0, ops[1..], name);
    }
  }

  lemma NeverDemotes(s: State, name: Name)
    requires Wired(s) && StuckIn(s, name)
    ensures s.pages[name].tier == Vram && (DemoteStep(s, name).1.Ok? <==> s.pages[name].pinned)
  {
    hide DemoteStep, CountOn;
    DemoteSucceedsIff(s, name);
    var p := s.pages[name];
    var j :| 0 <= j < |p.vram| && Oversized(p, p.vram[j]);
    assert !ChunkFits(s, p.vram, p.dram, 0, j);
  }
}
