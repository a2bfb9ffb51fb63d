/** Any number of GPUs: which pages a background sweep moves when no membrane budget is set. */
module TieredIdle {
  import opened Common
  import opened Vmt
  import opened Tiered
  import opened TieredMoves
  import opened TieredSweeps

  lemma {:induction false} SelectIs(s: State, order: seq<Name>, pick: Page -> bool, n: Name)
    ensures n in Select(s, order, pick) <==> n in order && n in s.pages && pick(s.pages[n])
    decreases |order|
  {
    if order != [] {
      assert order == [order[0]] + order[1..];
      SelectIs(s, order[1..], pick, n);
    }
  }

  /** Demotions touch the listed records only; after a success none of those is in the top tier, but for
    * pinned ones.  A page that is not in the top tier stays as it is. */
  lemma {:induction false} DemoteAllLowers(s: State, names: seq<Name>)
    requires Wired(s) && forall n :: n in names ==> n in s.pages
    ensures
      var (t, r) := DemoteAll(s, names);
      && t.pages.Keys == s.pages.Keys
      && (forall n :: n in s.pages && (n !in names || s.pages[n].tier != Vram) ==> t.pages[n] == s.pages[n])
      && (forall n :: n in s.pages ==> t.pages[n].pinned == s.pages[n].pinned)
      && (r.Ok? ==> forall n :: n in names ==> s.pages[n].pinned || t.pages[n].tier != Vram)
    decreases |names|
  {
    hide DemoteStep;
    if names != [] {
      assert names == [names[0]] + names[1..];
      var (s1, r) := DemoteStep(s, names[0]);
      DemoteLowers(s, names[0], s1, r);
      OnlyTopFalls(s, names[0], s1);
      DemoteAllLowers(s1, names[1..]);
    }
  }

  lemma OnlyTopFalls(s: State, n: Name, t: State)
    requires Wired(s) && t == DemoteStep(s, n).0 && n in s.pages
    ensures s.pages[n].tier != Vram ==> t == s
    ensures n in t.pages && t.pages[n].pinned == s.pages[n].pinned
  {
    hide DemoteChunks;
  }

  /** Accesses touch the listed records only and only raise; after a success all of those are in the top tier. */
  lemma {:induction false} AccessAllRaises(s: State, names: seq<Name>, now: nat, ds: seq<Driver>, i: nat)
    requires Wired(s)
    ensures
      var (t, r) := AccessAll(s, names, now, ds, i);
      && t.pages.Keys == s.pages.Keys
      && (forall n :: n in s.pages && n !in names ==> t.pages[n] == s.pages[n])
      && (forall n :: n in s.pages && s.pages[n].tier == Vram ==> t.pages[n].tier == Vram)
      && (r.Ok? ==> forall j :: i <= j < |names| ==> names[j] in t.pages && t.pages[names[j]].tier == Vram)
    decreases |names| - i
  {
    hide AccessStep, ListsBlock;
    if i < |names| {
      var (s1, r) := AccessStep(s, names[i], 0, now, DriverAt(ds, i));
      AccessServes(s, names[i], 0, now, DriverAt(ds, i), s1, r);
      if r.Ok? { AccessAllRaises(s1, names, now, ds, i + 1); }
    }
  }

  /** What becomes of a record: left alone for longer than the timeout, it goes down; warm with enough
    * accesses, it comes up; otherwise it stays as it is. */
  predicate Moved(p: Page, q: Page, now: nat, settings: Settings, done: bool) {
    if p.tier == Vram && p.state == Resident && !p.pinned && p.lastAccess + settings.idleAfter < now then done ==> q.tier != Vram
    else if p.tier == Dram && settings.hotAt <= p.accessCount then done ==> q.tier == Vram
    else q == p
  }

  lemma PickedIs(p: Page, now: nat, settings: Settings)
    ensures IdleResident(now, settings.idleAfter)(p) <==> p.state == Resident && !p.pinned && p.lastAccess + settings.idleAfter < now
    ensures HotWarm(settings.hotAt)(p) <==> p.tier == Dram && settings.hotAt <= p.accessCount
  {
  }

  /** Any number of GPUs, any state, the sweep over the whole table without a membrane budget.  If it
    * succeeds, every unpinned page left alone for longer than the timeout is out of the top tier and
    * every warm page with enough accesses is in it.  However it ends, all other pages are as they were. */
  lemma IdleSweepMoves(s: State, order: seq<Name>, now: nat, ds: seq<Driver>)
    requires Wired(s) && s.settings.budget.None? && ListsTable(s, order)
    ensures
      var (t, r) := BackgroundSweepStep(s, order, now, ds);
      && t.pages.Keys == s.pages.Keys
      && forall n :: n in s.pages ==> Moved(s.pages[n], t.pages[n], now, s.settings, r.Ok?)
  {
    hide DemoteAll, AccessAll, Select, BackgroundSweepStep, Unrepeated, IdleResident, HotWarm;
    var toDemote := Select(s, order, IdleResident(now, s.settings.idleAfter));
    var toPromote := Select(s, order, HotWarm(s.settings.hotAt));
    forall n ensures n in toDemote <==> n in s.pages && IdleResident(now, s.settings.idleAfter)(s.pages[n]) {
      SelectIs(s, order, IdleResident(now, s.settings.idleAfter), n);
    }
    forall n ensures n in toPromote <==> n in s.pages && HotWarm(s.settings.hotAt)(s.pages[n]) {
      SelectIs(s, order, HotWarm(s.settings.hotAt), n);
    }
    var (s1, r1) := DemoteAll(s, toDemote);
    DemoteAllLowers(s, toDemote);
    IdleSweepIs(s, order, now, ds, toDemote, toPromote, s1, r1);
    AccessAllRaises(s1, toPromote, now, ds, 0);
    var (t, r) := BackgroundSweepStep(s, order, now, ds);
    forall n | n in s.pages ensures Moved(s.pages[n], t.pages[n], now, s.settings, r.Ok?) {
      PickedIs(s.pages[n], now, s.settings);
    }
  }
}
