/** Any number of GPUs: what a membrane sweep achieves. */
module TieredSweeps {
  import opened Common
  import opened Vmt
  import opened Plans
  import opened Tiered
  import opened TieredOutcomes
  import opened TieredMoves

  ghost predicate Unrepeated(names: seq<Name>) {
    forall i, j :: 0 <= i < j < |names| ==> names[i] != names[j]
  }

  /** `order` lists the page table, each page once. */
  ghost predicate ListsTable(s: State, order: seq<Name>) {
    && Unrepeated(order)
    && (forall n :: n in order <==> n in s.pages)
  }

  function SizesOf(s: State): map<Name, nat> {
    map n | n in s.pages :: s.pages[n].size
  }

  /** Pages in the top tier. */
  function TopTier(s: State): set<Name> {
    set n | n in s.pages && s.pages[n].tier == Vram
  }

  /** The plan a membrane sweep of `s` follows. */
  function SweepPlan(s: State, order: seq<Name>): (seq<Name>, seq<Name>)
    requires s.settings.budget.Some?
  {
    Plan(s.settings.policy, Candidates(s.(membrane := s.membrane.Decayed()), order), s.settings.budget.value)
  }

  // ----------------------------------------------------------------- candidates

  lemma {:induction false} CandidateNames(s: State, order: seq<Name>)
    requires forall n :: n in order ==> n in s.pages
    ensures |Candidates(s, order)| == |order|
    ensures forall i :: 0 <= i < |order| ==>
      var (c, p) := (Candidates(s, order)[i], s.pages[order[i]]);
      c.name == order[i] && c.obs == PageObs(s.membrane.Rate(order[i]), p.size, p.tier == Vram, p.pinned)
    decreases |order|
  {
    if order != [] {
      assert forall n :: n in order[1..] ==> n in order;
      CandidateNames(s, order[1..]);
    }
  }

  /** What the plan sees of a page. */
  function CandidateOf(s: State, n: Name): Candidate
    requires n in s.pages
  {
    var p := s.pages[n];
    Candidate(n, PageObs(s.membrane.Rate(n), p.size, p.tier == Vram, p.pinned))
  }

  lemma TableCandidates(s: State, order: seq<Name>)
    requires ListsTable(s, order)
    ensures
      var cs := Candidates(s, order);
      && Named(cs) && Sizes(cs, SizesOf(s))
      && (forall n :: n in PinnedNames(cs) ==> n in s.pages && s.pages[n].pinned)
      && (forall c :: c in cs ==> c.name in s.pages && c == CandidateOf(s, c.name))
      && (seq(|cs|, i requires 0 <= i < |cs| => cs[i].name)) == order
  {
    CandidateNames(s, order);
  }

  // -------------------------------------------------------------------- the walks

  /** Evictions touch the listed records only, and none goes up; if all succeed, none of them is in the
    * top tier. */
  lemma {:induction false} EvictAllClears(s: State, names: seq<Name>)
    requires Wired(s) && forall n :: n in names && n in s.pages ==> !s.pages[n].pinned
    ensures
      var (t, r) := EvictAll(s, names);
      && t.pages.Keys == s.pages.Keys
      && (forall n :: n in s.pages && n !in names ==> t.pages[n] == s.pages[n])
      && (forall n :: n in s.pages && s.pages[n].tier != Vram ==> t.pages[n].tier != Vram)
      && (forall n :: n in s.pages ==> t.pages[n].size == s.pages[n].size)
      && (r.Ok? ==> forall n :: n in names && n in s.pages ==> t.pages[n].tier != Vram)
    decreases |names|
  {
    hide DemoteStep;
    if names != [] {
      var n := names[0];
      assert names == [n] + names[1..];
      if n in s.pages && s.pages[n].tier == Vram {
        var (s1, r) := DemoteStep(s, n);
        DemoteLowers(s, n, s1, r);
        EvictAllClears(s1, names[1..]);
      } else {
        EvictAllClears(s, names[1..]);
      }
    }
  }

  lemma {:induction false} PromoteAllElsewhere(s: State, names: seq<Name>, now: nat, ds: seq<Driver>, i: nat)
    requires Wired(s)
    ensures
      var t := PromoteAll(s, names, now, ds, i);
      && t.pages.Keys == s.pages.Keys
      && (forall n :: n in s.pages && n !in names ==> t.pages[n] == s.pages[n])
      && (forall n :: n in s.pages ==> t.pages[n].size == s.pages[n].size)
    decreases |names| - i
  {
    hide AccessStep;
    if i < |names| {
      if names[i] in s.pages && s.pages[names[i]].tier != Vram {
        AccessRaises(s, names[i], 0, now, DriverAt(ds, i));
        PromoteAllElsewhere(AccessStep(s, names[i], 0, now, DriverAt(ds, i)).0, names, now, ds, i + 1);
      } else {
        PromoteAllElsewhere(s, names, now, ds, i + 1);
      }
    }
  }

  // -------------------------------------------------------------------- the sweep

  lemma OnceEach(order: seq<Name>, keep: seq<Name>, evict: seq<Name>)
    requires Unrepeated(order) && multiset(keep) + multiset(evict) == multiset(order)
    ensures (forall n :: n in keep ==> n !in evict) && Unrepeated(evict)
  {
    forall n ensures multiset(order)[n] <= 1 { AtMostOnce(order, n); }
    forall n | n in keep ensures n !in evict {
      assert (multiset(keep) + multiset(evict))[n] <= 1;
      assert n in multiset(keep);
      assert n !in multiset(evict);
    }
    forall i, j | 0 <= i < j < |evict| ensures evict[i] != evict[j] {
      assert evict == evict[..i] + [evict[i]] + evict[i + 1..j] + [evict[j]] + evict[j + 1..];
      assert (multiset(keep) + multiset(evict))[evict[i]] <= 1;
    }
  }

  lemma {:induction false} AtMostOnce(names: seq<Name>, n: Name)
    requires Unrepeated(names)
    ensures multiset(names)[n] <= 1
  {
    if names != [] {
      assert names == [names[0]] + names[1..];
      AtMostOnce(names[1..], n);
      if n == names[0] { assert n !in names[1..]; }
    }
  }

  /** Evicted pages are the ones not kept, and none is pinned. */
  lemma PlanOfTable(s: State, order: seq<Name>)
    requires s.settings.budget.Some? && ListsTable(s, order)
    ensures
      var (keep, evict) := SweepPlan(s, order);
      && (forall n :: n in s.pages ==> n in keep || n in evict)
      && (forall n :: n in keep || n in evict ==> n in s.pages)
      && (forall n :: n in keep ==> n !in evict) && Unrepeated(evict)
      && (forall n :: n in evict && n in s.pages ==> !s.pages[n].pinned)
      && NameSet(keep) <= SizesOf(s).Keys
      && (100 * Weight(SizesOf(s), NameSet(keep)) <= 85 * s.settings.budget.value || forall n :: n in keep && n in s.pages ==> s.pages[n].pinned)
  {
    hide Plan, Candidates, Weight;
    var s1 := s.(membrane := s.membrane.Decayed());
    var (policy, cs, budget) := (s.settings.policy, Candidates(s1, order), s.settings.budget.value);
    SameTable(s, s1, order);
    TableCandidates(s1, order);
    var (keep, evict) := Plan(policy, cs, budget);
    PlanPartitions(policy, cs, budget);
    KeptBytesBounded(policy, cs, SizesOf(s), budget);
    assert SizesOf(s1) == SizesOf(s);
    forall n ensures n in order <==> n in keep || n in evict {
      assert (multiset(keep) + multiset(evict))[n] == multiset(order)[n];
      assert n in order <==> n in multiset(order);
    }
    OnceEach(order, keep, evict);
    forall n | n in evict && n in s.pages ensures !s.pages[n].pinned {
      var c :| c in cs && c.name == n;
      EvictedDoNotFit(policy, cs, SizesOf(s), budget, c, c);
    }
  }

  lemma SameTable(s: State, t: State, order: seq<Name>)
    requires ListsTable(s, order) && t.pages == s.pages
    ensures ListsTable(t, order) && SizesOf(t) == SizesOf(s)
  {
  }

  /** Any number of GPUs, any state: if a membrane sweep over the whole table returns without an error,
    * only pages the plan keeps are in the top tier.  So their bytes are within the cap, or all of them
    * are pinned. */
  lemma SweepMeetsBudget(s: State, order: seq<Name>, now: nat, ds: seq<Driver>)
    requires Wired(s) && s.settings.budget.Some? && ListsTable(s, order) && BackgroundSweepStep(s, order, now, ds).1.Ok?
    ensures
      var t := BackgroundSweepStep(s, order, now, ds).0;
      && t.pages.Keys == s.pages.Keys && SizesOf(t) == SizesOf(s)
      && TopTier(t) <= NameSet(SweepPlan(s, order).0) <= SizesOf(t).Keys
      && (100 * Weight(SizesOf(t), TopTier(t)) <= 85 * s.settings.budget.value || forall n :: n in TopTier(t) ==> s.pages[n].pinned)
  {
    hide Plan, Candidates, Weight, EvictAll, PromoteAll, ListsTable;
    var s1 := s.(membrane := s.membrane.Decayed());
    var (keep, evict) := SweepPlan(s, order);
    PlanOfTable(s, order);
    var (s2, r) := EvictAll(s1, evict);
    EvictAllClears(s1, evict);
    MembraneSweepIs(s, order, now, ds, s1, keep, evict, s2, r);
    PromoteAllElsewhere(s2, keep, now, ds, 0);
    var t := PromoteAll(s2, keep, now, ds, 0);
    assert TopTier(t) <= NameSet(keep);
    WeightMonotone(SizesOf(s), TopTier(t), NameSet(keep));
  }

  /** A page that cannot come down and is not kept makes the sweep fail, whatever else is in the table. */
  lemma StuckPageStopsSweep(s: State, order: seq<Name>, now: nat, ds: seq<Driver>, name: Name)
    requires Wired(s) && s.settings.budget.Some? && ListsTable(s, order)
    requires StuckIn(s, name) && name in SweepPlan(s, order).1
    ensures BackgroundSweepStep(s, order, now, ds).1.Err?
  {
    hide Plan, Candidates, EvictAll, PromoteAll, ListsTable, Stuck, Weight;
    var s1 := s.(membrane := s.membrane.Decayed());
    var (keep, evict) := SweepPlan(s, order);
    PlanOfTable(s, order);
    var (s2, r) := EvictAll(s1, evict);
    EvictAllClears(s1, evict);
    SamePagesStuck(s, s1, name);
    EvictAllKeepsStuck(s1, evict, name);
    MembraneSweepIs(s, order, now, ds, s1, keep, evict, s2, r);
    StuckIsTop(s2.pages[name]);
  }

  lemma StuckIsTop(p: Page)
    requires Stuck(p)
    ensures p.tier == Vram
  {
  }

  // --------------------------------------------------- exactly when a sweep succeeds

  /** A demotion of the page has something to do. */
  predicate Leaving(s: State, n: Name) {
    n in s.pages && s.pages[n].tier == Vram && !s.pages[n].pinned
  }

  /** Blocks that demoting the pages writes back on GPU `g`. */
  function BlocksOn(s: State, names: seq<Name>, g: nat): nat
    decreases |names|
  {
    if names == [] then 0
    else (if Leaving(s, names[0]) then CountOn(s.pages[names[0]].vram, 0, |s.pages[names[0]].vram|, g) else 0) + BlocksOn(s, names[1..], g)
  }

  /** After the demotions before it, block `j` of the page fits the shard of its GPU and finds a slot there. */
  predicate BlockFits(s: State, before: seq<Name>, p: Page, j: nat)
    requires j < |p.vram|
  {
    var c := p.vram[j];
    && c.gpu < |p.dram| && c.gpu < |s.queued| && c.size <= p.dram[c.gpu].size
    && s.queued[c.gpu] + BlocksOn(s, before, c.gpu) + CountOn(p.vram, 0, j, c.gpu) < RING
  }

  ghost predicate CanLeave(s: State, names: seq<Name>, i: nat)
    requires i < |names|
  {
    Leaving(s, names[i]) ==> forall j :: 0 <= j < |s.pages[names[i]].vram| ==> BlockFits(s, names[..i], s.pages[names[i]], j)
  }

  /** A demotion that succeeds takes one slot for each of the page's blocks. */
  lemma DemoteTakesSlots(s: State, n: Name, t: State, r: Result<()>)
    requires Wired(s) && n in s.pages && (t, r) == DemoteStep(s, n) && r.Ok?
    ensures |t.queued| == |s.queued|
    ensures forall g :: 0 <= g < |s.queued| ==> t.queued[g] == s.queued[g] + BlocksOn(s, [n], g)
  {
    hide DemoteChunks, CountOn;
    assert [n][1..] == [];
    var p := s.pages[n];
    if Leaving(s, n) { DemoteChunksTakeSlots(s, p.vram, p.dram, 0); }
  }

  lemma {:induction false} DemoteChunksTakeSlots(s: State, vram: seq<Chunk>, dram: seq<DramChunk>, i: nat)
    requires Wired(s) && i <= |vram| && DemoteChunks(s, vram, dram, i).1.Ok?
    ensures
      var t := DemoteChunks(s, vram, dram, i).0;
      |t.queued| == |s.queued| && forall g :: 0 <= g < |s.queued| ==> t.queued[g] == s.queued[g] + CountOn(vram, i, |vram|, g)
    decreases |vram| - i
  {
    hide Poke, DevRead, Peek, FreeVram, WrittenBack;
    if i < |vram| {
      var c := vram[i];
      var t := WrittenBack(s, c, dram[c.gpu].hostPtr);
      DemoteOne(s, vram, dram, i, c, t);
      DemoteChunksTakeSlots(t, vram, dram, i + 1);
    }
  }

  /** Demoting the first page leaves the slots taken up to any later page as they were counted before. */
  lemma LaterBlocks(s: State, names: seq<Name>, t: State, i: nat)
    requires Wired(s) && 0 < i <= |names| && Unrepeated(names) && names[0] in s.pages
    requires (t, Ok(())) == DemoteStep(s, names[0])
    ensures |t.queued| == |s.queued|
    ensures forall g :: 0 <= g < |s.queued| ==>
      t.queued[g] + BlocksOn(t, names[1..i], g) == s.queued[g] + BlocksOn(s, names[..i], g)
  {
    hide DemoteStep, BlocksOn;
    DemoteTakesSlots(s, names[0], t, Ok(()));
    DemoteLowers(s, names[0], t, Ok(()));
    assert names[..i] == [names[0]] + names[1..i];
    forall g | 0 <= g < |s.queued|
      ensures t.queued[g] + BlocksOn(t, names[1..i], g) == s.queued[g] + BlocksOn(s, names[..i], g)
    {
      HeadBlocks(s, names[0], names[1..i], g);
      SameBlocks(s, t, names[1..i], g);
    }
  }

  lemma HeadBlocks(s: State, n: Name, names: seq<Name>, g: nat)
    ensures BlocksOn(s, [n] + names, g) == BlocksOn(s, [n], g) + BlocksOn(s, names, g)
  {
    hide CountOn;
    assert ([n] + names)[1..] == names && [n][1..] == [];
    assert BlocksOn(s, [], g) == 0;
  }

  lemma {:induction false} SameBlocks(s: State, t: State, names: seq<Name>, g: nat)
    requires t.pages.Keys == s.pages.Keys && forall n :: n in names && n in s.pages ==> t.pages[n] == s.pages[n]
    ensures BlocksOn(t, names, g) == BlocksOn(s, names, g)
    decreases |names|
  {
    hide CountOn;
    if names != [] {
      assert names == [names[0]] + names[1..];
      SameBlocks(s, t, names[1..], g);
    }
  }

  /** The evictions all succeed if and only if each block fits and finds a slot after those before it. */
  lemma {:induction false} EvictAllIff(s: State, names: seq<Name>)
    requires Wired(s) && Unrepeated(names) && forall n :: n in names ==> n in s.pages && !s.pages[n].pinned
    ensures EvictAll(s, names).1.Ok? <==> forall i :: 0 <= i < |names| ==> CanLeave(s, names, i)
    ensures EvictAll(s, names).1.Ok? ==> SlotsTaken(s, EvictAll(s, names).0, names)
    decreases |names|
  {
    hide DemoteStep, BlocksOn, CanLeave;
    if names == [] {
      NothingTaken(s);
    } else {
      TailUnrepeated(names);
      EvictFirst(s, names);
      SplitAtFirst(s, names);
      if s.pages[names[0]].tier == Vram {
        var (t, r) := DemoteStep(s, names[0]);
        if r.Ok? {
          assert r.value == ();
          LaterLeave(s, names, t);
          EvictAllIff(t, names[1..]);
          LaterBlocks(s, names, t, |names|);
          assert names[1..|names|] == names[1..] && names[..|names|] == names;
        }
      } else {
        SkipFirst(s, names);
        EvictAllIff(s, names[1..]);
      }
    }
  }

  ghost predicate SlotsTaken(s: State, t: State, names: seq<Name>) {
    |t.queued| == |s.queued| && forall g :: 0 <= g < |s.queued| ==> t.queued[g] == s.queued[g] + BlocksOn(s, names, g)
  }

  lemma NothingTaken(s: State)
    ensures SlotsTaken(s, s, [])
  {
  }

  lemma TailUnrepeated(names: seq<Name>)
    requires names != [] && Unrepeated(names)
    ensures Unrepeated(names[1..]) && names[0] !in names[1..] && forall n :: n in names[1..] ==> n in names
  {
    assert names == [names[0]] + names[1..];
  }

  lemma SplitAtFirst(s: State, names: seq<Name>)
    requires names != []
    ensures (forall i :: 0 <= i < |names| ==> CanLeave(s, names, i)) <==>
      CanLeave(s, names, 0) && forall i :: 0 < i < |names| ==> CanLeave(s, names, i)
  {
  }

  lemma EvictFirst(s: State, names: seq<Name>)
    requires Wired(s) && names != [] && names[0] in s.pages && !s.pages[names[0]].pinned
    ensures CanLeave(s, names, 0) <==> s.pages[names[0]].tier != Vram || DemoteStep(s, names[0]).1.Ok?
  {
    hide DemoteStep, CountOn;
    var p := s.pages[names[0]];
    DemoteSucceedsIff(s, names[0]);
    assert names[..0] == [];
    forall j | 0 <= j < |p.vram| ensures BlockFits(s, names[..0], p, j) <==> ChunkFits(s, p.vram, p.dram, 0, j) {
      assert BlocksOn(s, [], p.vram[j].gpu) == 0;
    }
  }

  lemma LaterLeave(s: State, names: seq<Name>, t: State)
    requires Wired(s) && names != [] && Unrepeated(names) && names[0] in s.pages && (t, Ok(())) == DemoteStep(s, names[0])
    ensures t.pages.Keys == s.pages.Keys && forall n :: n in names[1..] && n in s.pages ==> t.pages[n] == s.pages[n]
    ensures (forall i :: 0 < i < |names| ==> CanLeave(s, names, i)) <==> (forall i :: 0 <= i < |names| - 1 ==> CanLeave(t, names[1..], i))
  {
    hide DemoteStep, CanLeave;
    TailUnrepeated(names);
    DemoteLowers(s, names[0], t, Ok(()));
    forall i | 0 < i < |names| ensures CanLeave(s, names, i) <==> CanLeave(t, names[1..], i - 1) { LaterLeaveAt(s, names, t, i); }
    ShiftLeave(s, names, t);
  }

  lemma ShiftLeave(s: State, names: seq<Name>, t: State)
    requires names != [] && forall i :: 0 < i < |names| ==> (CanLeave(s, names, i) <==> CanLeave(t, names[1..], i - 1))
    ensures (forall i :: 0 < i < |names| ==> CanLeave(s, names, i)) <==> (forall i :: 0 <= i < |names| - 1 ==> CanLeave(t, names[1..], i))
  {
    hide CanLeave;
    forall i | 0 <= i < |names| - 1 ensures CanLeave(t, names[1..], i) <==> CanLeave(s, names, i + 1) {
      assert CanLeave(s, names, i + 1) <==> CanLeave(t, names[1..], i + 1 - 1);
    }
  }

  lemma LaterLeaveAt(s: State, names: seq<Name>, t: State, i: nat)
    requires Wired(s) && 0 < i < |names| && Unrepeated(names) && names[0] in s.pages && (t, Ok(())) == DemoteStep(s, names[0])
    requires t.pages.Keys == s.pages.Keys && (names[i] in s.pages ==> t.pages[names[i]] == s.pages[names[i]])
    ensures CanLeave(s, names, i) <==> CanLeave(t, names[1..], i - 1)
  {
    hide DemoteStep, CountOn, BlocksOn;
    LaterBlocks(s, names, t, i);
    assert names[1..][i - 1] == names[i] && names[1..][..i - 1] == names[1..i];
    if Leaving(s, names[i]) {
      var p := s.pages[names[i]];
      forall j | 0 <= j < |p.vram| ensures BlockFits(t, names[1..i], p, j) <==> BlockFits(s, names[..i], p, j) {}
    }
  }

  lemma SkipFirst(s: State, names: seq<Name>)
    requires names != [] && !Leaving(s, names[0])
    ensures forall t :: SlotsTaken(s, t, names[1..]) ==> SlotsTaken(s, t, names)
    ensures (forall i :: 0 < i < |names| ==> CanLeave(s, names, i)) <==> (forall i :: 0 <= i < |names| - 1 ==> CanLeave(s, names[1..], i))
  {
    hide CanLeave, CountOn;
    forall i | 0 < i < |names| ensures CanLeave(s, names, i) <==> CanLeave(s, names[1..], i - 1) { SkipFirstAt(s, names, i); }
    ShiftLeave(s, names, s);
  }

  lemma SkipFirstAt(s: State, names: seq<Name>, i: nat)
    requires 0 < i < |names| && !Leaving(s, names[0])
    ensures CanLeave(s, names, i) <==> CanLeave(s, names[1..], i - 1)
  {
    hide CountOn;
    assert names[1..][i - 1] == names[i] && names[1..][..i - 1] == names[1..i];
    assert names[..i][1..] == names[1..i];
    if Leaving(s, names[i]) {
      var p := s.pages[names[i]];
      forall j | 0 <= j < |p.vram| ensures BlockFits(s, names[1..i], p, j) <==> BlockFits(s, names[..i], p, j) {
        assert BlocksOn(s, names[..i], p.vram[j].gpu) == 0 + BlocksOn(s, names[1..i], p.vram[j].gpu);
      }
    }
  }

  /** Any number of GPUs, any state: a sweep over the whole table succeeds if and only if every block of
    * every page to be evicted fits its shard and finds a ring slot. */
  lemma SweepSucceedsIff(s: State, order: seq<Name>, now: nat, ds: seq<Driver>)
    requires Wired(s) && s.settings.budget.Some? && ListsTable(s, order)
    ensures
      var evict := SweepPlan(s, order).1;
      BackgroundSweepStep(s, order, now, ds).1.Ok? <==> forall i :: 0 <= i < |evict| ==> CanLeave(s, evict, i)
  {
    hide Plan, Candidates, EvictAll, PromoteAll, CanLeave, Weight;
    var s1 := s.(membrane := s.membrane.Decayed());
    var (keep, evict) := SweepPlan(s, order);
    PlanOfTable(s, order);
    EvictAllIff(s1, evict);
    var (s2, r) := EvictAll(s1, evict);
    MembraneSweepIs(s, order, now, ds, s1, keep, evict, s2, r);
    forall i | 0 <= i < |evict| ensures CanLeave(s1, evict, i) <==> CanLeave(s, evict, i) { SameLeave(s, s1, evict, i); }
  }

  lemma SameLeave(s: State, t: State, names: seq<Name>, i: nat)
    requires i < |names| && t.pages == s.pages && t.queued == s.queued
    ensures CanLeave(t, names, i) <==> CanLeave(s, names, i)
  {
    hide CountOn, BlocksOn;
    if Leaving(s, names[i]) {
      var p := s.pages[names[i]];
      forall j | 0 <= j < |p.vram| ensures BlockFits(t, names[..i], p, j) <==> BlockFits(s, names[..i], p, j) {
        SameBlocks(s, t, names[..i], p.vram[j].gpu);
      }
    }
  }
}
