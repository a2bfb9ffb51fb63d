/** Any number of GPUs: which pages are in the top tier after a membrane sweep, and why those. */
module TieredPlacement {
  import opened Common
  import opened Vmt
  import opened Plans
  import opened PlanLaws
  import opened Tiered
  import opened TieredOutcomes
  import opened TieredMoves
  import opened TieredSweeps

  // ----------------------------------------------------------------- promotions

  /** In the top tier already, or warm with a shard on GPU 0. */
  predicate CanRise(p: Page) {
    p.tier == Vram || (p.tier == Dram && p.dram != [])
  }

  /** From `i` on, the driver grants a different new block each time. */
  predicate FreshGrants(vram: set<nat>, ds: seq<Driver>, i: nat, n: nat) {
    && n <= |ds|
    && (forall j :: i <= j < n ==> ds[j].Grant? && ds[j].ptr != 0 && ds[j].ptr !in vram)
    && (forall j, k :: i <= j < k < n ==> ds[j].ptr != ds[k].ptr)
  }

  /** What the rest of the promotions need. */
  ghost predicate RoomToRise(s: State, names: seq<Name>, ds: seq<Driver>, i: nat)
    requires Wired(s)
  {
    && i <= |names| && s.inflight == map[] && s.queued[0] + |names| - i <= RING
    && (forall j :: i <= j < |names| ==> names[j] in s.pages && CanRise(s.pages[names[j]]))
    && FreshGrants(s.vram.Keys, ds, i, |names|)
  }

  /** A promotion that has what it needs succeeds and leaves the rest what they need. */
  lemma RisesOne(s: State, names: seq<Name>, now: nat, ds: seq<Driver>, i: nat, t: State, r: Result<nat>)
    requires Wired(s) && RoomToRise(s, names, ds, i) && i < |names| && s.pages[names[i]].tier != Vram
    requires (t, r) == AccessStep(s, names[i], 0, now, ds[i])
    ensures Wired(t) && r.Ok? && RoomToRise(t, names, ds, i + 1) && SameElsewhere(s, t, names[i]) && t.pages[names[i]].tier == Vram
  {
    hide AccessStep, ListsBlock;
    AccessSucceedsIff(s, names[i], 0, now, ds[i]);
    AccessServes(s, names[i], 0, now, ds[i], t, r);
    AccessSpends(s, names[i], 0, now, ds[i], t);
    assert t.inflight == map[];
    assert t.queued[0] <= s.queued[0] + 1;
  }

  /** Given the room, every page still to come is in the top tier at the end, and so is every page that was. */
  lemma {:induction false} PromoteAllRaises(s: State, names: seq<Name>, now: nat, ds: seq<Driver>, i: nat)
    requires Wired(s) && RoomToRise(s, names, ds, i)
    ensures
      var t := PromoteAll(s, names, now, ds, i);
      && (forall n :: n in s.pages && s.pages[n].tier == Vram ==> n in t.pages && t.pages[n].tier == Vram)
      && (forall j :: i <= j < |names| ==> names[j] in t.pages && t.pages[names[j]].tier == Vram)
    decreases |names| - i
  {
    hide AccessStep;
    if i < |names| {
      if s.pages[names[i]].tier != Vram {
        var (t, r) := AccessStep(s, names[i], 0, now, ds[i]);
        RisesOne(s, names, now, ds, i, t, r);
        PromoteAllRaises(t, names, now, ds, i + 1);
      } else {
        PromoteAllRaises(s, names, now, ds, i + 1);
      }
    }
  }

  /** Demotions touch neither prefetches nor what the driver has handed out. */
  lemma {:induction false} EvictAllLeaves(s: State, names: seq<Name>)
    requires Wired(s)
    ensures EvictAll(s, names).0.inflight == s.inflight && EvictAll(s, names).0.vram == s.vram
    decreases |names|
  {
    hide DemoteChunks;
    if names != [] {
      EvictAllLeaves(DemoteStep(s, names[0]).0, names[1..]);
      EvictAllLeaves(s, names[1..]);
    }
  }

  /** The evictions succeed, and then every kept page has a block, a shard and a slot to rise with: the
    * conditions of the call, all on the state before it. */
  ghost predicate RoomToPlace(s: State, order: seq<Name>, ds: seq<Driver>)
    requires Wired(s) && s.settings.budget.Some?
  {
    var (keep, evict) := SweepPlan(s, order);
    && (forall i :: 0 <= i < |evict| ==> CanLeave(s, evict, i))
    && s.inflight == map[] && s.queued[0] + BlocksOn(s, evict, 0) + |keep| <= RING
    && (forall n :: n in keep ==> n in s.pages && CanRise(s.pages[n]))
    && FreshGrants(s.vram.Keys, ds, 0, |keep|)
  }

  lemma RoomAfterEvictions(s: State, order: seq<Name>, ds: seq<Driver>, s2: State, r: Result<()>)
    requires Wired(s) && s.settings.budget.Some? && ListsTable(s, order) && RoomToPlace(s, order, ds)
    requires (s2, r) == EvictAll(s.(membrane := s.membrane.Decayed()), SweepPlan(s, order).1)
    ensures r.Ok? && Wired(s2) && RoomToRise(s2, SweepPlan(s, order).0, ds, 0)
    ensures forall n :: n in SweepPlan(s, order).0 ==> n in s.pages && n in s2.pages && s2.pages[n] == s.pages[n]
  {
    hide SweepPlan, EvictAll, CanLeave, BlocksOn, Weight, Unrepeated, FreshGrants;
    var s1 := s.(membrane := s.membrane.Decayed());
    var (keep, evict) := SweepPlan(s, order);
    PlanOfTable(s, order);
    EvictAllIff(s1, evict);
    EvictAllClears(s1, evict);
    EvictAllLeaves(s1, evict);
    SameBlocks(s, s1, evict, 0);
    forall i | 0 <= i < |evict| ensures CanLeave(s1, evict, i) { SameLeave(s, s1, evict, i); }
    forall j | 0 <= j < |keep| ensures keep[j] in s2.pages && CanRise(s2.pages[keep[j]]) { assert keep[j] in keep; }
  }

  /** Any number of GPUs: with that room, a sweep over the whole table succeeds and afterwards the top
    * tier holds exactly the pages the plan keeps. */
  lemma SweepPlacesThePlan(s: State, order: seq<Name>, now: nat, ds: seq<Driver>)
    requires Wired(s) && s.settings.budget.Some? && ListsTable(s, order) && RoomToPlace(s, order, ds)
    ensures
      var (t, r) := BackgroundSweepStep(s, order, now, ds);
      r.Ok? && t.pages.Keys == s.pages.Keys && TopTier(t) == NameSet(SweepPlan(s, order).0)
  {
    hide EvictAll, PromoteAll, RoomToPlace, RoomToRise, CanLeave, Plan, Candidates, Weight, Unrepeated;
    var s1 := s.(membrane := s.membrane.Decayed());
    var (keep, evict) := SweepPlan(s, order);
    var (s2, r) := EvictAll(s1, evict);
    RoomAfterEvictions(s, order, ds, s2, r);
    MembraneSweepIs(s, order, now, ds, s1, keep, evict, s2, r);
    PromoteAllRaises(s2, keep, now, ds, 0);
    SweepMeetsBudget(s, order, now, ds);
    var t := PromoteAll(s2, keep, now, ds, 0);
    forall n | n in keep ensures n in TopTier(t) {
      var j :| 0 <= j < |keep| && keep[j] == n;
    }
  }

  // ------------------------------------------------------------- what is preferred

  /** How the coming sweep sees a page: three parts of its rate to one of the accesses since the last
    * sweep, and half as much again if it is in the top tier. */
  function SweepHeat(s: State, n: Name): real
    requires n in s.pages
  {
    var rate := (3.0 * s.membrane.Rate(n) + s.membrane.Hits(n) as real) / 4.0;
    if s.pages[n].tier == Vram then 3.0 * rate / 2.0 else rate
  }

  lemma SweepHeatIsHeat(s: State, n: Name)
    requires n in s.pages
    ensures Heat(CandidateOf(s.(membrane := s.membrane.Decayed()), n).obs) == SweepHeat(s, n)
  {
  }

  /** Two unpinned pages of one size: a sweep that evicts the hotter evicts the colder. */
  lemma SweepKeepsTheHotter(s: State, order: seq<Name>, a: Name, b: Name)
    requires Wired(s) && s.settings.budget.Some? && ListsTable(s, order) && 0.0 < s.settings.policy.alpha
    requires a in s.pages && b in s.pages && !s.pages[a].pinned && !s.pages[b].pinned
    requires s.pages[a].size == s.pages[b].size && SweepHeat(s, b) < SweepHeat(s, a)
    ensures a in SweepPlan(s, order).1 ==> b in SweepPlan(s, order).1
  {
    hide Plan, Candidates, ListsTable, SweepHeat, Heat;
    var s1 := s.(membrane := s.membrane.Decayed());
    SameTable(s, s1, order);
    TableCandidates(s1, order);
    SweepHeatIsHeat(s, a);
    SweepHeatIsHeat(s, b);
    Listed(s1, order, a);
    Listed(s1, order, b);
    HotterStaysLonger(s.settings.policy, Candidates(s1, order), SizesOf(s1), s.settings.budget.value, CandidateOf(s1, a), CandidateOf(s1, b));
  }

  /** Two unpinned pages equally hot: a sweep that evicts the smaller evicts the larger. */
  lemma SweepKeepsTheSmaller(s: State, order: seq<Name>, a: Name, b: Name)
    requires Wired(s) && s.settings.budget.Some? && ListsTable(s, order) && 0.0 < s.settings.policy.beta
    requires a in s.pages && b in s.pages && !s.pages[a].pinned && !s.pages[b].pinned
    requires s.pages[a].size < s.pages[b].size && SweepHeat(s, b) == SweepHeat(s, a)
    ensures a in SweepPlan(s, order).1 ==> b in SweepPlan(s, order).1
  {
    hide Plan, Candidates, ListsTable, SweepHeat, Heat;
    var s1 := s.(membrane := s.membrane.Decayed());
    SameTable(s, s1, order);
    TableCandidates(s1, order);
    SweepHeatIsHeat(s, a);
    SweepHeatIsHeat(s, b);
    Listed(s1, order, a);
    Listed(s1, order, b);
    SmallerStaysLonger(s.settings.policy, Candidates(s1, order), SizesOf(s1), s.settings.budget.value, CandidateOf(s1, a), CandidateOf(s1, b));
  }

  lemma Listed(s: State, order: seq<Name>, n: Name)
    requires ListsTable(s, order) && n in s.pages
    ensures CandidateOf(s, n) in Candidates(s, order)
  {
    CandidateNames(s, order);
    var i :| 0 <= i < |order| && order[i] == n;
    assert Candidates(s, order)[i] == CandidateOf(s, n);
  }
}
