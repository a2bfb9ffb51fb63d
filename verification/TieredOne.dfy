/** One GPU: the three tiers together are a flat store of named byte strings. */
module TieredOne {
  import opened Common
  import opened Ranges
  import opened RangeOps
  import opened LiveRanges
  import opened DramPools
  import opened Spills
  import opened Vmt
  import opened Tiered
  import opened TieredHost
  import opened TieredScatter
  import opened TieredBlocks

  /** Some tier holds the page's bytes; an allocation that failed leaves an entry without backing. */
  predicate Backed(p: Page) { p.dram != [] || p.ssd.Some? }

  /** Device block if any, else host chunk, else file range. */
  function Contents(p: Page, vram: map<nat, seq<byte>>, host: seq<byte>, spill: Option<Spill>): seq<byte> {
    if p.vram != [] then DevRead(vram, p.vram[0].ptr, p.size)
    else if p.dram != [] then Peek(host, p.dram[0].hostPtr, p.size)
    else if p.ssd.Some? && spill.Some? then Peek(spill.value.file, p.ssd.value, p.size)
    else []
  }

  function Bytes(s: State, name: Name): seq<byte>
    requires name in s.pages
  {
    Contents(s.pages[name], s.vram, s.host, s.spill)
  }

  /** The flat store the pool stands for. */
  function Flat(s: State): map<Name, seq<byte>> {
    map n | n in s.pages && Backed(s.pages[n]) :: Bytes(s, n)
  }

  predicate PageOk(p: Page) {
    && |p.vram| <= 1 && |p.dram| <= 1
    && (p.vram != [] ==> Backed(p) && p.tier == Vram && p.vram[0].gpu == 0 && p.vram[0].size == p.size)
    && (p.dram != [] ==> p.ssd.None? && p.tier != Ssd && p.dram[0].size == p.size)
    && (p.ssd.Some? ==> p.tier != Dram && (p.tier == Ssd <==> p.vram == []))
    && (p.tier == Ssd ==> p.ssd.Some?)
    && (Backed(p) ==> p.state == StateOf(p.tier))
  }

  function ColdBlocks(pages: map<Name, Page>): map<Name, Block> {
    map n | n in pages && pages[n].ssd.Some? && 0 < pages[n].size :: Block(pages[n].ssd.value, pages[n].size)
  }

  /** Cold pages own disjoint ranges of the spill file, ranges of removed pages stay reserved, and
    * what was never reserved is still zero. */
  ghost predicate ColdOk(spill: Option<Spill>, pages: map<Name, Page>) {
    match spill
    case None => forall n :: n in pages ==> pages[n].ssd.None?
    case Some(sp) =>
      && |sp.file| == sp.heap.capacity && Covers(sp.heap, ColdBlocks(pages))
      && ZeroOutside(sp.file, Cells(sp.heap))
  }

  /** A prefetched page is warm; its block holds its bytes, or the copy that will put them there is queued. */
  predicate FlightOk(f: Flight, p: Page, copies: map<nat, Copy>, vram: map<nat, seq<byte>>, host: seq<byte>) {
    && p.tier == Dram && p.vram == [] && |p.dram| == 1 && f.gpu == 0 && f.size == p.size
    && if f.ptr in copies then copies[f.ptr] == Copy(p.dram[0].hostPtr, p.size)
       else DevRead(vram, f.ptr, p.size) == Peek(host, p.dram[0].hostPtr, p.size)
  }

  predicate Flies(inflight: map<Name, Flight>, n: Name, ptr: nat) {
    n in inflight && inflight[n].ptr == ptr
  }

  ghost predicate FlightsOk(s: State) {
    && (forall n :: n in s.inflight ==> n in s.pages && FlightOk(s.inflight[n], s.pages[n], s.copies, s.vram, s.host))
    && (forall ptr :: ptr in s.copies ==> exists n :: Flies(s.inflight, n, ptr))
  }

  function HoldersOf(s: State): Holders
    requires Wired(s)
  {
    Holders(s.pages, s.inflight, s.cache[0])
  }

  ghost predicate PagesOk(pages: map<Name, Page>) {
    forall n :: n in pages ==> PageOk(pages[n])
  }

  /** The invariant of a pool with one GPU. */
  ghost predicate OneOk(s: State) {
    && Wired(s) && |s.pools| == 1
    && PagesOk(s.pages)
    && HostOk(s.pools, s.pages, |s.host|)
    && BlocksOk(HoldersOf(s), s.vram)
    && FlightsOk(s)
    && ColdOk(s.spill, s.pages)
  }

  /** Same pages with the same bytes. */
  ghost predicate SameFlat(s: State, t: State) {
    && s.pages.Keys == t.pages.Keys
    && (forall n :: n in s.pages ==> Backed(s.pages[n]) == Backed(t.pages[n]) && Bytes(s, n) == Bytes(t, n))
  }

  lemma SameFlatIsFlat(s: State, t: State)
    requires SameFlat(s, t)
    ensures Flat(s) == Flat(t)
  {
  }

  ghost function LostBlocks(s: State): set<nat>
    requires Wired(s)
  {
    Lost(HoldersOf(s), s.vram)
  }

  /** A driver block of `n` bytes that nobody holds. */
  ghost predicate Spare(s: State, ptr: nat, n: nat)
    requires Wired(s)
  {
    Real(Cached(n, ptr), s.vram) && Unheld(HoldersOf(s), ptr)
  }

  // ------------------------------------------------------------ block movements

  lemma PageHolds(s: State, n: Name)
    requires OneOk(s) && n in s.pages && s.pages[n].vram != []
    ensures Holds(HoldersOf(s), OfPage(n), s.pages[n].vram[0].ptr)
    ensures Real(Cached(s.pages[n].size, s.pages[n].vram[0].ptr), s.vram)
  {
    assert PageOk(s.pages[n]);
    assert Holding(HoldersOf(s), OfPage(n)).Some?;
  }

  lemma FlightHolds(s: State, n: Name)
    requires OneOk(s) && n in s.inflight
    ensures Holds(HoldersOf(s), OfFlight(n), s.inflight[n].ptr)
    ensures Real(Cached(s.inflight[n].size, s.inflight[n].ptr), s.vram)
  {
    assert Holding(HoldersOf(s), OfFlight(n)).Some?;
  }

  /** Changing a block nobody holds changes no page. */
  lemma VramElsewhere(s: State, ptr: nat, block: seq<byte>)
    requires OneOk(s) && Unheld(HoldersOf(s), ptr)
    ensures
      var t := s.(vram := s.vram[ptr := block]);
      SameFlat(s, t) && FlightsOk(t)
  {
    var t := s.(vram := s.vram[ptr := block]);
    forall n | n in s.pages ensures Bytes(s, n) == Bytes(t, n) {
      if s.pages[n].vram != [] { PageHolds(s, n); }
    }
    forall n | n in s.inflight ensures FlightOk(t.inflight[n], t.pages[n], t.copies, t.vram, t.host) {
      FlightHolds(s, n);
    }
  }

  lemma AllocVramOk(s: State, n: nat, d: Driver)
    requires OneOk(s)
    ensures
      var (t, r) := AllocVram(s, 0, n, d);
      && OneOk(t) && SameFlat(s, t)
      && (r.Ok? ==> Spare(t, r.value, n) && r.value !in LostBlocks(s))
      && LostBlocks(t) == LostBlocks(s) + (if r.Ok? then {r.value} else {})
  {
    var h := HoldersOf(s);
    var (t, r) := AllocVram(s, 0, n, d);
    var found := FindSize(s.cache[0], n);
    if found.Some? {
      var i := found.value;
      assert Holding(h, OfCache(i)) == Some(s.cache[0][i]);
      Recycled(h, s.vram, i);
    } else if r.Ok? {
      Granted(h, s.vram, d.ptr, Peek(d.junk, 0, n));
      VramElsewhere(s, d.ptr, Peek(d.junk, 0, n));
    }
  }

  lemma FillSpare(s: State, ptr: nat, n: nat, block: seq<byte>)
    requires OneOk(s) && Spare(s, ptr, n) && |block| == n
    ensures
      var t := s.(vram := s.vram[ptr := block]);
      && OneOk(t) && SameFlat(s, t) && Spare(t, ptr, n)
      && DevRead(t.vram, ptr, n) == block && LostBlocks(t) == LostBlocks(s)
  {
    VramElsewhere(s, ptr, block);
    Overwritten(HoldersOf(s), s.vram, ptr, block);
  }

  lemma FreeSpare(s: State, ptr: nat, n: nat)
    requires OneOk(s) && Spare(s, ptr, n)
    ensures
      var t := FreeVram(s, 0, ptr, n);
      OneOk(t) && SameFlat(s, t) && LostBlocks(t) == LostBlocks(s) - {ptr}
  {
    Parked(HoldersOf(s), s.vram, Cached(n, ptr));
  }

  /** Page records that differ only in bookkeeping. */
  lemma SameCold(spill: Option<Spill>, a: map<Name, Page>, b: map<Name, Page>)
    requires ColdOk(spill, a) && SameBacking(a, b)
    ensures ColdOk(spill, b)
  {
    assert ColdBlocks(a) == ColdBlocks(b);
  }

  /** `ptr` is the page's block and holds its bytes. */
  predicate Serves(s: State, name: Name, ptr: nat) {
    && name in s.pages && Backed(s.pages[name])
    && s.pages[name].vram == [Chunk(0, ptr, s.pages[name].size)]
    && DevRead(s.vram, ptr, s.pages[name].size) == Bytes(s, name)
  }

  lemma AttachFlights(s: State, name: Name, c: Chunk, now: nat)
    requires FlightsOk(s) && name in s.pages && name !in s.inflight
    ensures FlightsOk(Attach(s, name, c, now))
  {
    hide Peek, DevRead;
    var t := Attach(s, name, c, now);
    forall m | m in s.inflight ensures FlightOk(t.inflight[m], t.pages[m], t.copies, t.vram, t.host) {
      assert FlightOk(s.inflight[m], s.pages[m], s.copies, s.vram, s.host);
    }
  }

  lemma AttachFlat(s: State, name: Name, ptr: nat, now: nat)
    requires PagesOk(s.pages) && FlightsOk(s) && name in s.pages && name !in s.inflight
    requires s.pages[name].vram == [] && Backed(s.pages[name])
    requires DevRead(s.vram, ptr, s.pages[name].size) == Bytes(s, name)
    ensures
      var t := Attach(s, name, Chunk(0, ptr, s.pages[name].size), now);
      PagesOk(t.pages) && FlightsOk(t) && SameFlat(s, t) && SameBacking(s.pages, t.pages)
  {
    hide Peek, DevRead, FlightsOk;
    assert PageOk(s.pages[name]);
    AttachFlights(s, name, Chunk(0, ptr, s.pages[name].size), now);
  }

  lemma AttachBlocks(s: State, name: Name, ptr: nat, now: nat)
    requires Wired(s) && BlocksOk(HoldersOf(s), s.vram) && name in s.pages && s.pages[name].vram == []
    requires Spare(s, ptr, s.pages[name].size)
    ensures
      var t := Attach(s, name, Chunk(0, ptr, s.pages[name].size), now);
      BlocksOk(HoldersOf(t), t.vram) && LostBlocks(t) == LostBlocks(s) - {ptr}
  {
    var t := Attach(s, name, Chunk(0, ptr, s.pages[name].size), now);
    Taken(HoldersOf(s), HoldersOf(t), s.vram, OfPage(name));
  }

  /** A spare block that holds the page's bytes becomes the page's chunk. */
  lemma AttachOk(s: State, name: Name, ptr: nat, now: nat)
    requires OneOk(s) && name in s.pages && name !in s.inflight && s.pages[name].vram == [] && Backed(s.pages[name])
    requires Spare(s, ptr, s.pages[name].size) && DevRead(s.vram, ptr, s.pages[name].size) == Bytes(s, name)
    ensures
      var t := Attach(s, name, Chunk(0, ptr, s.pages[name].size), now);
      OneOk(t) && SameFlat(s, t) && LostBlocks(t) == LostBlocks(s) - {ptr} && Serves(t, name, ptr)
  {
    var t := Attach(s, name, Chunk(0, ptr, s.pages[name].size), now);
    AttachFlat(s, name, ptr, now);
    AttachBlocks(s, name, ptr, now);
    SameBackingHost(s.pools, s.pages, t.pages, |s.host|);
    SameCold(s.spill, s.pages, t.pages);
  }

  // ---------------------------------------------------------------- prefetches

  /** What a queued copy will do. */
  lemma QueuedCopy(s: State, ptr: nat) returns (n: Name)
    requires OneOk(s) && ptr in s.copies
    ensures Flies(s.inflight, n, ptr) && n in s.pages && FlightOk(s.inflight[n], s.pages[n], s.copies, s.vram, s.host)
    ensures ptr in s.vram && |s.vram[ptr]| == s.copies[ptr].size
    ensures forall m :: m in s.inflight && m != n ==> s.inflight[m].ptr != ptr
    ensures forall m :: m in s.pages && s.pages[m].vram != [] ==> s.pages[m].vram[0].ptr != ptr
  {
    n :| Flies(s.inflight, n, ptr);
    FlightHolds(s, n);
    forall m | m in s.inflight && m != n ensures s.inflight[m].ptr != ptr { FlightHolds(s, m); }
    forall m | m in s.pages && s.pages[m].vram != [] ensures s.pages[m].vram[0].ptr != ptr { PageHolds(s, m); }
  }

  /** The landing copy fills its own block and no other. */
  lemma LandFlat(s: State, ptr: nat, block: seq<byte>)
    requires forall m :: m in s.pages && s.pages[m].vram != [] ==> s.pages[m].vram[0].ptr != ptr
    ensures SameFlat(s, s.(vram := s.vram[ptr := block], copies := s.copies - {ptr}))
  {
  }

  lemma LandFlights(s: State, n: Name, ptr: nat, block: seq<byte>)
    requires FlightsOk(s) && Flies(s.inflight, n, ptr) && ptr in s.copies
    requires block == Peek(s.host, s.copies[ptr].src, s.copies[ptr].size)
    requires forall m :: m in s.inflight && m != n ==> s.inflight[m].ptr != ptr
    ensures FlightsOk(s.(vram := s.vram[ptr := block], copies := s.copies - {ptr}))
  {
    var t := s.(vram := s.vram[ptr := block], copies := s.copies - {ptr});
    forall m | m in s.inflight ensures FlightOk(t.inflight[m], t.pages[m], t.copies, t.vram, t.host) {
      assert FlightOk(s.inflight[m], s.pages[m], s.copies, s.vram, s.host);
    }
    forall p | p in t.copies ensures exists m :: Flies(t.inflight, m, p) {
      var m :| Flies(s.inflight, m, p);
      assert Flies(t.inflight, m, p);
    }
  }

  lemma LandOk(s: State, ptr: nat)
    requires OneOk(s)
    ensures
      var t := Land(s, ptr);
      OneOk(t) && SameFlat(s, t) && LostBlocks(t) == LostBlocks(s) && ptr !in t.copies
  {
    if ptr in s.copies {
      var n := QueuedCopy(s, ptr);
      var block := Peek(s.host, s.copies[ptr].src, s.copies[ptr].size);
      assert Poke(s.vram[ptr], 0, block) == block;
      LandFlat(s, ptr, block);
      LandFlights(s, n, ptr, block);
      Overwritten(HoldersOf(s), s.vram, ptr, block);
    }
  }

  /** Taking a landed prefetch out of the table leaves its block spare, holding the page's bytes. */
  lemma UnflyOk(s: State, name: Name)
    requires OneOk(s) && name in s.inflight && s.inflight[name].ptr !in s.copies
    ensures
      var f := s.inflight[name];
      var t := s.(inflight := s.inflight - {name});
      && OneOk(t) && SameFlat(s, t) && LostBlocks(t) == LostBlocks(s) + {f.ptr} && f.ptr !in LostBlocks(s)
      && f.gpu == 0 && f.size == s.pages[name].size && s.pages[name].vram == [] && Backed(s.pages[name])
      && Spare(t, f.ptr, f.size) && DevRead(t.vram, f.ptr, f.size) == Bytes(t, name)
  {
    hide HostOk, ColdOk, Peek;
    var f := s.inflight[name];
    var t := s.(inflight := s.inflight - {name});
    FlightHolds(s, name);
    assert FlightOk(f, s.pages[name], s.copies, s.vram, s.host);
    forall p | p in t.copies ensures exists m :: Flies(t.inflight, m, p) {
      var m :| Flies(s.inflight, m, p);
      assert Flies(t.inflight, m, p);
    }
    Released(HoldersOf(s), HoldersOf(t), s.vram, OfFlight(name));
  }

  /** On one GPU a claim waits for the copy, clears the table entry and attaches the block. */
  lemma ClaimIs(s: State, name: Name, now: nat)
    requires Wired(s) && name in s.inflight && name in s.pages && s.inflight[name].gpu == 0
    ensures
      var f := s.inflight[name];
      var landed := Land(s, f.ptr);
      ClaimStep(s, name, 0, now) ==
        (Attach(landed.(inflight := landed.inflight - {name}), name, Chunk(0, f.ptr, f.size), now), Ok(Some(f.ptr)))
  {
  }

  lemma LandedOk(s: State, name: Name, f: Flight)
    requires OneOk(s) && name in s.inflight && f == s.inflight[name]
    ensures
      var s2 := Land(s, f.ptr).(inflight := s.inflight - {name});
      && OneOk(s2) && SameFlat(s, s2) && LostBlocks(s2) == LostBlocks(s) + {f.ptr} && f.ptr !in LostBlocks(s)
      && name in s2.pages && f.gpu == 0 && f.size == s2.pages[name].size && s2.pages[name].vram == [] && Backed(s2.pages[name])
      && Spare(s2, f.ptr, f.size) && DevRead(s2.vram, f.ptr, f.size) == Bytes(s2, name)
  {
    LandOk(s, f.ptr);
    UnflyOk(Land(s, f.ptr), name);
    SameFlatTrans(s, Land(s, f.ptr), Land(s, f.ptr).(inflight := s.inflight - {name}));
  }

  lemma ClaimOk(s: State, name: Name, now: nat)
    requires OneOk(s)
    ensures
      var (t, r) := ClaimStep(s, name, 0, now);
      && OneOk(t) && SameFlat(s, t) && LostBlocks(t) == LostBlocks(s) && name !in t.inflight
      && (if name in s.inflight then r == Ok(Some(s.inflight[name].ptr)) && Serves(t, name, s.inflight[name].ptr)
          else r == Ok(None) && t == s)
  {
    hide PagesOk, HostOk, BlocksOk, FlightsOk, ColdOk, Lost, Land, Attach, Contents;
    if name in s.inflight {
      var f := s.inflight[name];
      var s2 := Land(s, f.ptr).(inflight := s.inflight - {name});
      LandedOk(s, name, f);
      AttachOk(s2, name, f.ptr, now);
      ClaimIs(s, name, now);
      SameFlatTrans(s, s2, Attach(s2, name, Chunk(0, f.ptr, f.size), now));
    }
  }

  lemma PrefetchOk(s: State, name: Name, g: nat, d: Driver)
    requires OneOk(s)
    ensures
      var t := PrefetchStep(s, name, g, d).0;
      OneOk(t) && SameFlat(s, t) && LostBlocks(t) == LostBlocks(s)
  {
    hide PagesOk, HostOk, BlocksOk, FlightsOk, ColdOk, Lost, Contents;
    if name !in s.inflight && name in s.pages && s.pages[name].tier == Dram && s.pages[name].dram != [] && g == 0 {
      var p := s.pages[name];
      AllocVramOk(s, p.size, d);
      var (s1, r) := AllocVram(s, 0, p.size, d);
      if r.Ok? { FlyOk(s1, name, r.value); }
    }
  }

  lemma SpareNotFlying(s: State, ptr: nat)
    requires OneOk(s) && Unheld(HoldersOf(s), ptr)
    ensures forall m :: m in s.inflight ==> s.inflight[m].ptr != ptr
  {
    forall m | m in s.inflight ensures s.inflight[m].ptr != ptr { FlightHolds(s, m); }
  }

  lemma FlyFlights(s: State, name: Name, dst: nat)
    requires FlightsOk(s) && name in s.pages && name !in s.inflight && PageOk(s.pages[name])
    requires s.pages[name].tier == Dram && s.pages[name].dram != []
    requires forall m :: m in s.inflight ==> s.inflight[m].ptr != dst
    ensures
      var p := s.pages[name];
      FlightsOk(s.(inflight := s.inflight[name := Flight(0, dst, p.size)], copies := s.copies[dst := Copy(p.dram[0].hostPtr, p.size)]))
  {
    var p := s.pages[name];
    var t := s.(inflight := s.inflight[name := Flight(0, dst, p.size)], copies := s.copies[dst := Copy(p.dram[0].hostPtr, p.size)]);
    forall ptr | ptr in t.copies ensures exists m :: Flies(t.inflight, m, ptr) {
      if ptr == dst {
        assert Flies(t.inflight, name, ptr);
      } else {
        var m :| Flies(s.inflight, m, ptr);
        assert Flies(t.inflight, m, ptr);
      }
    }
  }

  lemma FlyBlocks(s: State, name: Name, dst: nat)
    requires Wired(s) && BlocksOk(HoldersOf(s), s.vram) && name in s.pages && name !in s.inflight
    requires Spare(s, dst, s.pages[name].size)
    ensures
      var h := HoldersOf(s).(inflight := s.inflight[name := Flight(0, dst, s.pages[name].size)]);
      BlocksOk(h, s.vram) && Lost(h, s.vram) == LostBlocks(s) - {dst}
  {
    Taken(HoldersOf(s), HoldersOf(s).(inflight := s.inflight[name := Flight(0, dst, s.pages[name].size)]), s.vram, OfFlight(name));
  }

  lemma FlyOk(s: State, name: Name, dst: nat)
    requires OneOk(s) && name in s.pages && name !in s.inflight && s.pages[name].tier == Dram && s.pages[name].dram != []
    requires Spare(s, dst, s.pages[name].size)
    ensures
      var p := s.pages[name];
      var t := s.(inflight := s.inflight[name := Flight(0, dst, p.size)], copies := s.copies[dst := Copy(p.dram[0].hostPtr, p.size)]);
      OneOk(t) && SameFlat(s, t) && LostBlocks(t) == LostBlocks(s) - {dst}
  {
    SpareNotFlying(s, dst);
    FlyFlights(s, name, dst);
    FlyBlocks(s, name, dst);
  }

  // ---------------------------------------------------------------- host memory

  /** A page's host range lies in the pool and in host memory. */
  lemma HostRange(s: State, n: Name)
    requires OneOk(s) && n in s.pages && s.pages[n].dram != [] && 0 < s.pages[n].size
    ensures
      var c := s.pages[n].dram[0];
      s.pools[0].base <= c.hostPtr && c.hostPtr + c.size <= s.pools[0].End() <= |s.host|
  {
    assert PageOk(s.pages[n]);
    SpanInPool(s.pools, s.pages, |s.host|, n, 0);
  }

  lemma HostApart(s: State, n: Name, m: Name)
    requires OneOk(s) && n in s.pages && m in s.pages && n != m
    requires s.pages[n].dram != [] && s.pages[m].dram != [] && 0 < s.pages[n].size && 0 < s.pages[m].size
    ensures ApartChunks(s.pages[n].dram[0], s.pages[m].dram[0])
  {
    assert PageOk(s.pages[n]) && PageOk(s.pages[m]);
    HostRange(s, n);
    HostRange(s, m);
    assert PoolAgrees(s.pools, s.pages, 0);
    var live := Shards(s.pages, 0, s.pools[0].base);
    assert n in live && m in live;
    SpansApart(live[n], live[m]);
  }

  /** A change to host memory that no page reading from host memory can see. */
  lemma HostChange(s: State, host: seq<byte>)
    requires PagesOk(s.pages) && FlightsOk(s)
    requires forall n :: n in s.pages && s.pages[n].dram != [] && s.pages[n].vram == [] ==>
      Peek(host, s.pages[n].dram[0].hostPtr, s.pages[n].size) == Peek(s.host, s.pages[n].dram[0].hostPtr, s.pages[n].size)
    ensures
      var t := s.(host := host);
      SameFlat(s, t) && FlightsOk(t)
  {
    var t := s.(host := host);
    forall n | n in s.inflight ensures FlightOk(t.inflight[n], t.pages[n], t.copies, t.vram, t.host) {
      assert FlightOk(s.inflight[n], s.pages[n], s.copies, s.vram, s.host);
    }
  }

  /** Writing a page's own host range is invisible to every other page. */
  lemma OwnHostWrite(s: State, name: Name, data: seq<byte>, m: Name)
    requires OneOk(s) && name in s.pages && s.pages[name].dram != [] && |data| == s.pages[name].size
    requires m in s.pages && m != name && s.pages[m].dram != []
    ensures
      var c := s.pages[m].dram[0];
      Peek(Poke(s.host, s.pages[name].dram[0].hostPtr, data), c.hostPtr, s.pages[m].size) == Peek(s.host, c.hostPtr, s.pages[m].size)
  {
    assert PageOk(s.pages[name]) && PageOk(s.pages[m]);
    if 0 < s.pages[m].size {
      if data == [] {
        assert Poke(s.host, s.pages[name].dram[0].hostPtr, data) == s.host;
      } else {
        HostApart(s, name, m);
        PeekAround(s.host, s.pages[name].dram[0].hostPtr, data, s.pages[m].dram[0].hostPtr, s.pages[m].size);
      }
    }
  }

  // --------------------------------------------------------------------- demote

  /** The page's record after a write-back. */
  function Demoted(p: Page): Page { p.(vram := [], tier := Dram, state := Warm) }

  lemma DetachFlat(s: State, name: Name)
    requires PagesOk(s.pages) && FlightsOk(s) && name in s.pages && s.pages[name].tier == Vram && s.pages[name].ssd.None?
    requires Backed(s.pages[name]) ==> Peek(s.host, s.pages[name].dram[0].hostPtr, s.pages[name].size) == Bytes(s, name)
    ensures
      var t := s.(pages := s.pages[name := Demoted(s.pages[name])]);
      PagesOk(t.pages) && FlightsOk(t) && SameFlat(s, t) && SameBacking(s.pages, t.pages)
  {
    var t := s.(pages := s.pages[name := Demoted(s.pages[name])]);
    assert PageOk(s.pages[name]);
    forall n | n in s.inflight ensures FlightOk(t.inflight[n], t.pages[n], t.copies, t.vram, t.host) {
      assert FlightOk(s.inflight[n], s.pages[n], s.copies, s.vram, s.host);
    }
  }

  lemma DetachBlocks(s: State, name: Name)
    requires Wired(s) && BlocksOk(HoldersOf(s), s.vram) && name in s.pages
    ensures
      var t := s.(pages := s.pages[name := Demoted(s.pages[name])]);
      && BlocksOk(HoldersOf(t), t.vram)
      && (if s.pages[name].vram == [] then LostBlocks(t) == LostBlocks(s)
          else var c := s.pages[name].vram[0];
               Spare(t, c.ptr, c.size) && LostBlocks(t) == LostBlocks(s) + {c.ptr} && c.ptr !in LostBlocks(s))
  {
    var t := s.(pages := s.pages[name := Demoted(s.pages[name])]);
    if s.pages[name].vram == [] {
      SameHolding(HoldersOf(s), HoldersOf(t), s.vram);
    } else {
      assert Holding(HoldersOf(s), OfPage(name)).Some?;
      Released(HoldersOf(s), HoldersOf(t), s.vram, OfPage(name));
    }
  }

  /** A page whose host range already holds its bytes gives up its block. */
  lemma DetachOk(s: State, name: Name)
    requires OneOk(s) && name in s.pages && s.pages[name].tier == Vram && s.pages[name].ssd.None?
    requires Backed(s.pages[name]) ==> Peek(s.host, s.pages[name].dram[0].hostPtr, s.pages[name].size) == Bytes(s, name)
    ensures
      var t := s.(pages := s.pages[name := Demoted(s.pages[name])]);
      && OneOk(t) && SameFlat(s, t)
      && (if s.pages[name].vram == [] then LostBlocks(t) == LostBlocks(s)
          else var c := s.pages[name].vram[0];
               Spare(t, c.ptr, c.size) && LostBlocks(t) == LostBlocks(s) + {c.ptr} && c.ptr !in LostBlocks(s))
  {
    var t := s.(pages := s.pages[name := Demoted(s.pages[name])]);
    DetachFlat(s, name);
    DetachBlocks(s, name);
    SameBackingHost(s.pools, s.pages, t.pages, |s.host|);
    SameCold(s.spill, s.pages, t.pages);
  }

  /** Writing a resident page's bytes back to its host range changes nothing anybody can see. */
  lemma WriteBackOk(s: State, name: Name)
    requires OneOk(s) && name in s.pages && s.pages[name].vram != [] && s.pages[name].dram != []
    ensures
      var t := s.(host := Poke(s.host, s.pages[name].dram[0].hostPtr, Bytes(s, name)));
      && OneOk(t) && SameFlat(s, t) && LostBlocks(t) == LostBlocks(s)
      && Peek(t.host, s.pages[name].dram[0].hostPtr, s.pages[name].size) == Bytes(s, name)
  {
    var data, c := Bytes(s, name), s.pages[name].dram[0];
    assert PageOk(s.pages[name]);
    forall m | m in s.pages && s.pages[m].dram != [] && s.pages[m].vram == []
      ensures Peek(Poke(s.host, c.hostPtr, data), s.pages[m].dram[0].hostPtr, s.pages[m].size) == Peek(s.host, s.pages[m].dram[0].hostPtr, s.pages[m].size)
    {
      OwnHostWrite(s, name, data, m);
    }
    HostChange(s, Poke(s.host, c.hostPtr, data));
    if 0 < s.pages[name].size {
      HostRange(s, name);
      PeekPoke(s.host, c.hostPtr, data);
    }
  }

  /** What `demote` does to an unpinned page of the VRAM tier with one GPU. */
  lemma DemoteIs(s: State, name: Name)
    requires Wired(s) && name in s.pages && PageOk(s.pages[name])
    requires s.pages[name].tier == Vram && !s.pages[name].pinned
    ensures
      var p := s.pages[name];
      var (t, r) := DemoteStep(s, name);
      if p.vram == [] then (t, r) == (s.(pages := s.pages[name := Demoted(p)]), Ok(()))
      else if p.dram == [] || RING <= s.queued[0] then t == s && r.Err?
      else
        var written := s.(queued := s.queued[0 := s.queued[0] + 1], host := Poke(s.host, p.dram[0].hostPtr, Bytes(s, name)));
        var detached := written.(pages := written.pages[name := Demoted(p)]);
        (t, r) == (FreeVram(detached, 0, p.vram[0].ptr, p.size), Ok(()))
  {
    var p := s.pages[name];
    if p.vram != [] && p.dram != [] && s.queued[0] < RING {
      var written := s.(queued := s.queued[0 := s.queued[0] + 1], host := Poke(s.host, p.dram[0].hostPtr, Bytes(s, name)));
      var freed := FreeVram(written, 0, p.vram[0].ptr, p.size);
      assert DemoteChunks(freed, p.vram, p.dram, 1) == (freed, Ok(()));
      assert DemoteChunks(s, p.vram, p.dram, 0) == (freed, Ok(()));
    }
  }

  lemma QueuedOk(s: State, queued: seq<nat>)
    requires OneOk(s) && |queued| == 1
    ensures
      var t := s.(queued := queued);
      OneOk(t) && SameFlat(s, t) && LostBlocks(t) == LostBlocks(s)
  {
  }

  lemma SameFlatTrans(s: State, t: State, u: State)
    requires SameFlat(s, t) && SameFlat(t, u)
    ensures SameFlat(s, u)
  {
  }

  lemma WrittenBackOk(s: State, name: Name)
    requires OneOk(s) && name in s.pages && s.pages[name].vram != [] && s.pages[name].dram != []
    ensures
      var p := s.pages[name];
      var t := s.(queued := s.queued[0 := s.queued[0] + 1], host := Poke(s.host, p.dram[0].hostPtr, Bytes(s, name)));
      && OneOk(t) && SameFlat(s, t) && LostBlocks(t) == LostBlocks(s)
      && Peek(t.host, p.dram[0].hostPtr, p.size) == Bytes(t, name)
  {
    QueuedOk(s, s.queued[0 := s.queued[0] + 1]);
    var s1 := s.(queued := s.queued[0 := s.queued[0] + 1]);
    WriteBackOk(s1, name);
    SameFlatTrans(s, s1, s1.(host := Poke(s1.host, s.pages[name].dram[0].hostPtr, Bytes(s1, name))));
  }

  lemma DetachAndFreeOk(s: State, name: Name)
    requires OneOk(s) && name in s.pages && s.pages[name].vram != [] && s.pages[name].ssd.None?
    requires Peek(s.host, s.pages[name].dram[0].hostPtr, s.pages[name].size) == Bytes(s, name)
    ensures
      var p := s.pages[name];
      var t := FreeVram(s.(pages := s.pages[name := Demoted(p)]), 0, p.vram[0].ptr, p.size);
      OneOk(t) && SameFlat(s, t) && LostBlocks(t) == LostBlocks(s)
  {
    var p := s.pages[name];
    assert PageOk(p);
    DetachOk(s, name);
    var s1 := s.(pages := s.pages[name := Demoted(p)]);
    FreeSpare(s1, p.vram[0].ptr, p.size);
    SameFlatTrans(s, s1, FreeVram(s1, 0, p.vram[0].ptr, p.size));
  }

  /** Demotion, failed or not, changes no page's bytes. */
  lemma DemoteOk(s: State, name: Name)
    requires OneOk(s)
    ensures
      var t := DemoteStep(s, name).0;
      OneOk(t) && SameFlat(s, t) && LostBlocks(t) == LostBlocks(s)
  {
    if name in s.pages && s.pages[name].tier == Vram && !s.pages[name].pinned {
      var p := s.pages[name];
      assert PageOk(p);
      DemoteIs(s, name);
      if p.vram == [] {
        DetachOk(s, name);
      } else if p.dram != [] && s.queued[0] < RING {
        WrittenBackOk(s, name);
        var s1 := s.(queued := s.queued[0 := s.queued[0] + 1], host := Poke(s.host, p.dram[0].hostPtr, Bytes(s, name)));
        DetachAndFreeOk(s1, name);
        SameFlatTrans(s, s1, DemoteStep(s, name).0);
      }
    }
  }

  // --------------------------------------------------------------------- access

  /** A record change that leaves tiers, chunks and sizes alone. */
  lemma RecordOk(s: State, name: Name, p: Page)
    requires OneOk(s) && name in s.pages
    requires p == s.pages[name].(accessCount := p.accessCount, lastAccess := p.lastAccess, pinned := p.pinned)
    ensures
      var t := s.(pages := s.pages[name := p]);
      OneOk(t) && SameFlat(s, t) && LostBlocks(t) == LostBlocks(s)
  {
    var t := s.(pages := s.pages[name := p]);
    RecordFlat(s, name, p);
    RecordBlocks(s, name, p);
    SameBackingHost(s.pools, s.pages, t.pages, |s.host|);
    SameCold(s.spill, s.pages, t.pages);
  }

  lemma RecordBlocks(s: State, name: Name, p: Page)
    requires Wired(s) && BlocksOk(HoldersOf(s), s.vram) && name in s.pages && p.vram == s.pages[name].vram
    ensures
      var t := s.(pages := s.pages[name := p]);
      BlocksOk(HoldersOf(t), t.vram) && LostBlocks(t) == LostBlocks(s)
  {
    var t := s.(pages := s.pages[name := p]);
    forall q ensures Holding(HoldersOf(t), q) == Holding(HoldersOf(s), q) {}
    SameHolding(HoldersOf(s), HoldersOf(t), s.vram);
  }

  lemma RecordFlat(s: State, name: Name, p: Page)
    requires PagesOk(s.pages) && FlightsOk(s) && name in s.pages
    requires p == s.pages[name].(accessCount := p.accessCount, lastAccess := p.lastAccess, pinned := p.pinned)
    ensures
      var t := s.(pages := s.pages[name := p]);
      PagesOk(t.pages) && FlightsOk(t) && SameFlat(s, t)
  {
    var t := s.(pages := s.pages[name := p]);
    forall n | n in s.inflight ensures FlightOk(t.inflight[n], t.pages[n], t.copies, t.vram, t.host) {
      assert FlightOk(s.inflight[n], s.pages[n], s.copies, s.vram, s.host);
    }
  }

  /** What every step of the access path ensures: nothing visible changed, no second owner appeared,
    * a returned pointer is the page's block and holds its bytes, and a block is lost only to a full ring. */
  ghost predicate Accessed(s: State, t: State, r: Result<nat>, name: Name)
    requires Wired(s) && Wired(t)
  {
    && OneOk(t) && SameFlat(s, t)
    && (r.Ok? ==> Serves(t, name, r.value))
    && (r == Err(DmaRingFull) <==> LostBlocks(t) != LostBlocks(s))
    && LostBlocks(s) <= LostBlocks(t)
  }

  lemma AccessVramOk(s: State, name: Name, now: nat, d: Driver)
    requires OneOk(s) && name in s.pages && s.pages[name].tier == Vram
    ensures
      var (t, r) := AccessVram(s, name, 0, now, d);
      Accessed(s, t, r, name)
  {
    var p := s.pages[name];
    assert PageOk(p);
    if p.vram != [] {
      assert p.vram == [p.vram[0]];
      RecordOk(s, name, p.Touch(now));
    }
  }

  /** Fill a spare block with the page's bytes and attach it. */
  lemma PromoteOk(s: State, name: Name, dst: nat, now: nat)
    requires OneOk(s) && name in s.pages && name !in s.inflight && s.pages[name].vram == [] && Backed(s.pages[name])
    requires Spare(s, dst, s.pages[name].size)
    ensures
      var t := Attach(s.(vram := s.vram[dst := Bytes(s, name)]), name, Chunk(0, dst, s.pages[name].size), now);
      OneOk(t) && SameFlat(s, t) && LostBlocks(t) == LostBlocks(s) - {dst} && Serves(t, name, dst)
  {
    assert PageOk(s.pages[name]);
    BytesLength(s, name);
    FillSpare(s, dst, s.pages[name].size, Bytes(s, name));
    var s1 := s.(vram := s.vram[dst := Bytes(s, name)]);
    AttachOk(s1, name, dst, now);
    SameFlatTrans(s, s1, Attach(s1, name, Chunk(0, dst, s.pages[name].size), now));
  }

  lemma BytesLength(s: State, name: Name)
    requires OneOk(s) && name in s.pages && Backed(s.pages[name])
    ensures |Bytes(s, name)| == s.pages[name].size
  {
  }

  /** A warm access that gets its block and a ring slot. */
  lemma AccessDramIs(s: State, name: Name, now: nat, d: Driver)
    requires Wired(s) && name in s.pages && PageOk(s.pages[name]) && s.pages[name].tier == Dram && s.pages[name].dram != []
    ensures
      var p := s.pages[name];
      var (s1, got) := AllocVram(s, 0, p.size, d);
      var (t, r) := AccessDram(s, name, 0, now, d);
      if got.Err? then (t, r) == (s1, Err(got.error))
      else if RING <= s1.queued[0] then (t, r) == (s1, Err(DmaRingFull))
      else
        r == Ok(got.value) &&
        (got.value in s1.vram && |s1.vram[got.value]| == p.size ==>
          t == Attach(s1.(queued := s1.queued[0 := s1.queued[0] + 1], vram := s1.vram[got.value := Bytes(s, name)]),
                      name, Chunk(0, got.value, p.size), now))
  {
    var p := s.pages[name];
    var (s1, got) := AllocVram(s, 0, p.size, d);
    if got.Ok? && got.value in s1.vram && |s1.vram[got.value]| == p.size {
      assert Poke(s1.vram[got.value], 0, Bytes(s, name)) == Bytes(s, name);
    }
  }

  lemma PromoteQueuedOk(s: State, name: Name, dst: nat, now: nat)
    requires OneOk(s) && name in s.pages && name !in s.inflight && s.pages[name].vram == [] && Backed(s.pages[name])
    requires Spare(s, dst, s.pages[name].size)
    ensures
      var t := Attach(s.(queued := s.queued[0 := s.queued[0] + 1], vram := s.vram[dst := Bytes(s, name)]),
                      name, Chunk(0, dst, s.pages[name].size), now);
      OneOk(t) && SameFlat(s, t) && LostBlocks(t) == LostBlocks(s) - {dst} && Serves(t, name, dst)
  {
    QueuedOk(s, s.queued[0 := s.queued[0] + 1]);
    var s1 := s.(queued := s.queued[0 := s.queued[0] + 1]);
    PromoteOk(s1, name, dst, now);
    SameFlatTrans(s, s1, Attach(s1.(vram := s1.vram[dst := Bytes(s1, name)]), name, Chunk(0, dst, s.pages[name].size), now));
  }

  /** From a device allocation to the outcome of a promotion, whatever the promotion was. */
  lemma PromotionSettles(s: State, s1: State, got: Result<nat>, t: State, r: Result<nat>, name: Name)
    requires OneOk(s) && OneOk(s1) && SameFlat(s, s1) && LostBlocks(s1) == LostBlocks(s) + (if got.Ok? then {got.value} else {})
    requires got.Ok? ==> got.value !in LostBlocks(s)
    requires Wired(t) && (r.Ok? ==> got == r) && (got.Err? ==> r != Err(DmaRingFull))
    requires if got.Err? || r == Err(DmaRingFull) then t == s1 && r.Err?
             else OneOk(t) && SameFlat(s1, t) && LostBlocks(t) == LostBlocks(s1) - {got.value} && (r.Ok? ==> Serves(t, name, r.value))
    ensures Accessed(s, t, r, name)
  {
    SameFlatTrans(s, s1, t);
  }

  lemma AccessDramOk(s: State, name: Name, now: nat, d: Driver, t: State, r: Result<nat>)
    requires OneOk(s) && name in s.pages && s.pages[name].tier == Dram && name !in s.inflight
    requires (t, r) == AccessDram(s, name, 0, now, d)
    ensures Accessed(s, t, r, name)
  {
    assert PageOk(s.pages[name]);
    if s.pages[name].dram != [] {
      AllocVramOk(s, s.pages[name].size, d);
      var (s1, got) := AllocVram(s, 0, s.pages[name].size, d);
      WarmIs(s, name, now, d, s1, got, t, r);
      WarmSettles(s, s1, got, t, r, name, now);
    }
  }

  lemma WarmIs(s: State, name: Name, now: nat, d: Driver, s1: State, got: Result<nat>, t: State, r: Result<nat>)
    requires Wired(s) && name in s.pages && PageOk(s.pages[name]) && s.pages[name].tier == Dram && s.pages[name].dram != []
    requires (s1, got) == AllocVram(s, 0, s.pages[name].size, d) && (t, r) == AccessDram(s, name, 0, now, d)
    requires got.Ok? ==> Real(Cached(s.pages[name].size, got.value), s1.vram)
    ensures s1.pages == s.pages && s1.inflight == s.inflight
    ensures
      if got.Err? then (t, r) == (s1, Err(got.error)) && r != Err(DmaRingFull)
      else if RING <= s1.queued[0] then (t, r) == (s1, Err(DmaRingFull))
      else r == got && t == Attach(s1.(queued := s1.queued[0 := s1.queued[0] + 1], vram := s1.vram[got.value := Bytes(s1, name)]),
                                   name, Chunk(0, got.value, s.pages[name].size), now)
  {
    AccessDramIs(s, name, now, d);
  }

  lemma WarmSettles(s: State, s1: State, got: Result<nat>, t: State, r: Result<nat>, name: Name, now: nat)
    requires OneOk(s) && name in s.pages && s.pages[name].tier == Dram && s.pages[name].dram != [] && name !in s.inflight
    requires OneOk(s1) && SameFlat(s, s1) && s1.pages == s.pages && s1.inflight == s.inflight
    requires LostBlocks(s1) == LostBlocks(s) + (if got.Ok? then {got.value} else {})
    requires got.Ok? ==> Spare(s1, got.value, s.pages[name].size) && got.value !in LostBlocks(s)
    requires
      if got.Err? then (t, r) == (s1, Err(got.error)) && r != Err(DmaRingFull)
      else if RING <= s1.queued[0] then (t, r) == (s1, Err(DmaRingFull))
      else r == got && t == Attach(s1.(queued := s1.queued[0 := s1.queued[0] + 1], vram := s1.vram[got.value := Bytes(s1, name)]),
                                   name, Chunk(0, got.value, s.pages[name].size), now)
    ensures Wired(t) && Accessed(s, t, r, name)
  {
    assert PageOk(s.pages[name]);
    if got.Ok? && s1.queued[0] < RING { PromoteQueuedOk(s1, name, got.value, now); }
    PromotionSettles(s, s1, got, t, r, name);
  }

  // ------------------------------------------------------- cold pages and staging

  lemma ColdRange(s: State, name: Name)
    requires OneOk(s) && name in s.pages && s.pages[name].ssd.Some?
    ensures s.spill.Some?
    ensures 0 < s.pages[name].size ==> s.pages[name].ssd.value + s.pages[name].size <= |s.spill.value.file|
  {
    if 0 < s.pages[name].size {
      var b := ColdBlocks(s.pages)[name];
      assert b.off + Align(b.len) - 1 in Span(b);
    }
  }

  /** The streaming loop scribbles only on the staging buffer. */
  lemma {:induction false} StreamScribbles(host: seq<byte>, dev: seq<byte>, file: seq<byte>, offset: nat, stage: nat, len: nat, total: nat, done: nat, p: nat)
    requires (0 < len || total <= done) && p < |host| && !(stage <= p < stage + len)
    ensures Stream(host, dev, file, offset, stage, len, total, done).0[p] == host[p]
    decreases total - done
  {
    hide Available, Peek, Poke;
    if done < total {
      var n := if len <= total - done then len else total - done;
      var got := Available(file, offset + done, n);
      var host1 := Poke(host, stage, got);
      assert host1[p] == host[p];
      if |got| == n {
        StreamScribbles(host1, Poke(dev, done, Peek(host1, stage, n)), file, offset, stage, len, total, done + n, p);
      }
    }
  }

  /** The first `done` bytes of the block are those of the file. */
  ghost predicate Filled(dev: seq<byte>, file: seq<byte>, offset: nat, done: nat) {
    && done <= |dev| && offset + done <= |file|
    && (forall i :: 0 <= i < done ==> dev[i] == file[offset + i])
  }

  lemma PokeExtends(dev: seq<byte>, file: seq<byte>, offset: nat, done: nat, n: nat)
    requires Filled(dev, file, offset, done) && done + n <= |dev| && offset + done + n <= |file|
    ensures Filled(Poke(dev, done, Peek(file, offset + done, n)), file, offset, done + n)
  {
    var piece := Peek(file, offset + done, n);
    var dev1 := Poke(dev, done, piece);
    forall i | 0 <= i < done + n ensures dev1[i] == file[offset + i] {
      if done <= i { assert dev1[done..done + n][i - done] == piece[i - done]; }
    }
  }

  /** One round of the copy loop. */
  lemma StreamStep(host: seq<byte>, dev: seq<byte>, file: seq<byte>, offset: nat, stage: nat, len: nat, total: nat, done: nat)
    returns (n: nat, host': seq<byte>, dev': seq<byte>)
    requires 0 < len && done < total == |dev| && offset + total <= |file|
    requires stage + len <= |host| && Filled(dev, file, offset, done)
    ensures 0 < n && done + n <= total && |host'| == |host| && |dev'| == |dev| && Filled(dev', file, offset, done + n)
    ensures Stream(host, dev, file, offset, stage, len, total, done) == Stream(host', dev', file, offset, stage, len, total, done + n)
  {
    n := if len <= total - done then len else total - done;
    var piece := Peek(file, offset + done, n);
    PeekPoke(host, stage, piece);
    PokeExtends(dev, file, offset, done, n);
    host', dev' := Poke(host, stage, piece), Poke(dev, done, piece);
  }

  lemma {:induction false} StreamFills(host: seq<byte>, dev: seq<byte>, file: seq<byte>, offset: nat, stage: nat, len: nat, total: nat, done: nat)
    requires (0 < len || total <= done) && done <= total == |dev| && offset + total <= |file|
    requires stage + len <= |host| && Filled(dev, file, offset, done)
    ensures Stream(host, dev, file, offset, stage, len, total, done).2
    ensures Filled(Stream(host, dev, file, offset, stage, len, total, done).1, file, offset, total)
    decreases total - done
  {
    if done < total {
      var n, host1, dev1 := StreamStep(host, dev, file, offset, stage, len, total, done);
      StreamFills(host1, dev1, file, offset, stage, len, total, done + n);
    }
  }

  /** A borrowed staging buffer meets no page's host range. */
  lemma StagingApart(s: State, len: nat, m: Name)
    requires OneOk(s) && 0 < len && PoolAllocate(s.pools[0], len).1.Ok?
    requires m in s.pages && s.pages[m].dram != [] && 0 < s.pages[m].size
    ensures
      var stage, c := PoolAllocate(s.pools[0], len).1.value, s.pages[m].dram[0];
      stage + len <= c.hostPtr || c.hostPtr + s.pages[m].size <= stage
  {
    assert PageOk(s.pages[m]);
    HostRange(s, m);
    PlaceIsVacant(s.pools[0].heap, Align(len));
    assert PoolAgrees(s.pools, s.pages, 0);
    var live := Shards(s.pages, 0, s.pools[0].base);
    assert m in live;
    SpansApart(live[m], Block(PoolAllocate(s.pools[0], len).1.value - s.pools[0].base, len));
  }

  lemma StagingInHost(s: State, len: nat)
    requires OneOk(s) && PoolAllocate(s.pools[0], len).1.Ok?
    ensures PoolAllocate(s.pools[0], len).1.value + len <= |s.host|
  {
    PlaceIsVacant(s.pools[0].heap, Align(len));
  }

  /** Scribbling on the staging buffer is invisible. */
  lemma StagingChange(s: State, len: nat, host: seq<byte>)
    requires OneOk(s) && PoolAllocate(s.pools[0], len).1.Ok? && |host| == |s.host|
    requires
      var stage := PoolAllocate(s.pools[0], len).1.value;
      forall p :: 0 <= p < |host| && !(stage <= p < stage + len) ==> host[p] == s.host[p]
    ensures
      var t := s.(host := host);
      OneOk(t) && SameFlat(s, t)
  {
    var stage := PoolAllocate(s.pools[0], len).1.value;
    forall n | n in s.pages && s.pages[n].dram != [] && s.pages[n].vram == []
      ensures Peek(host, s.pages[n].dram[0].hostPtr, s.pages[n].size) == Peek(s.host, s.pages[n].dram[0].hostPtr, s.pages[n].size)
    {
      if 0 < s.pages[n].size {
        assert PageOk(s.pages[n]);
        HostRange(s, n);
        if 0 < len { StagingApart(s, len, n); }
      }
    }
    HostChange(s, host);
  }

  lemma StreamWhole(host: seq<byte>, dev: seq<byte>, file: seq<byte>, offset: nat, stage: nat, len: nat, total: nat)
    requires (0 < len || total == 0) && total == |dev| && (0 < total ==> offset + total <= |file|) && stage + len <= |host|
    ensures
      var (host', dev', ok) := Stream(host, dev, file, offset, stage, len, total, 0);
      && ok && dev' == Peek(file, offset, total)
      && (forall p :: 0 <= p < |host| && !(stage <= p < stage + len) ==> host'[p] == host[p])
  {
    if 0 < total {
      StreamFills(host, dev, file, offset, stage, len, total, 0);
      assert Stream(host, dev, file, offset, stage, len, total, 0).1 == Peek(file, offset, total);
      forall p | 0 <= p < |host| && !(stage <= p < stage + len) ensures Stream(host, dev, file, offset, stage, len, total, 0).0[p] == host[p] {
        StreamScribbles(host, dev, file, offset, stage, len, total, 0, p);
      }
    }
  }

  /** What staging leaves: the pools as they were, the block filled or the reason why not. */
  lemma StageUpIs(s: State, dst: nat, offset: nat, total: nat) returns (len: nat, host: seq<byte>)
    requires OneOk(s) && s.spill.Some? && dst in s.vram && |s.vram[dst]| == total
    requires 0 < total ==> offset + total <= |s.spill.value.file|
    ensures
      var (t, err) := StageUp(s, 0, dst, offset, total);
      && (err.Some? ==> t == s && err != Some(DmaRingFull))
      && (err.None? ==>
            && PoolAllocate(s.pools[0], len).1.Ok? && Scribbled(s, len, host)
            && t == s.(host := host, vram := s.vram[dst := Peek(s.spill.value.file, offset, total)]))
  {
    len, host := 0, s.host;
    BorrowError(s.pools[0], total);
    var b := Borrow(s.pools[0], total);
    if b.Ok? {
      len := b.value.1;
      StageUpKeepsPools(s, 0, dst, offset, total);
      StagingInHost(s, len);
      StreamWhole(s.host, s.vram[dst], s.spill.value.file, offset, b.value.0, len, total);
      host := Stream(s.host, s.vram[dst], s.spill.value.file, offset, b.value.0, len, total, 0).0;
    }
  }

  ghost predicate Scribbled(s: State, len: nat, host: seq<byte>)
    requires 0 < |s.pools| && PoolAllocate(s.pools[0], len).1.Ok?
  {
    var stage := PoolAllocate(s.pools[0], len).1.value;
    |host| == |s.host| && forall p :: 0 <= p < |host| && !(stage <= p < stage + len) ==> host[p] == s.host[p]
  }

  lemma BorrowError(p: Pool, want: nat)
    ensures Borrow(p, want).Err? ==> Borrow(p, want).error.DramOom?
    decreases want
  {
  }
}
