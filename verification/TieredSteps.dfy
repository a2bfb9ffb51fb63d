/** One GPU: every step of the pool against the flat store. */
module TieredSteps {
  import opened Common
  import opened Ranges
  import opened RangeOps
  import opened LiveRanges
  import opened DramPools
  import opened Spills
  import opened Vmt
  import opened Plans
  import opened Membranes
  import opened Tiered
  import opened TieredHost
  import opened TieredBlocks
  import opened TieredOne

  // --------------------------------------------------------------------- access

  /** A staged promotion from the moment the block is filled. */
  lemma ColdPromoted(s: State, name: Name, dst: nat, now: nat, len: nat, host: seq<byte>)
    requires OneOk(s) && name in s.pages && s.pages[name].tier == Ssd && name !in s.inflight
    requires Spare(s, dst, s.pages[name].size)
    requires PoolAllocate(s.pools[0], len).1.Ok? && Scribbled(s, len, host)
    ensures
      var p := s.pages[name];
      p.ssd.Some? && s.spill.Some? &&
      var filled := s.(host := host, vram := s.vram[dst := Peek(s.spill.value.file, p.ssd.value, p.size)]);
      var t := Attach(filled, name, Chunk(0, dst, p.size), now);
      OneOk(t) && SameFlat(s, t) && LostBlocks(t) == LostBlocks(s) - {dst} && Serves(t, name, dst)
  {
    assert PageOk(s.pages[name]);
    ColdRange(s, name);
    StagingChange(s, len, host);
    var s1 := s.(host := host);
    PromoteOk(s1, name, dst, now);
    SameFlatTrans(s, s1, Attach(s1.(vram := s1.vram[dst := Bytes(s1, name)]), name, Chunk(0, dst, s.pages[name].size), now));
  }

  lemma ColdSettles(s: State, s1: State, got: Result<nat>, t: State, r: Result<nat>, name: Name, now: nat)
    requires OneOk(s) && name in s.pages && s.pages[name].tier == Ssd && name !in s.inflight
    requires OneOk(s1) && SameFlat(s, s1) && s1.pages == s.pages && s1.inflight == s.inflight
    requires LostBlocks(s1) == LostBlocks(s) + (if got.Ok? then {got.value} else {})
    requires got.Ok? ==> Spare(s1, got.value, s.pages[name].size) && got.value !in LostBlocks(s)
    requires s.pages[name].ssd.Some?
    requires
      if got.Err? then (t, r) == (s1, Err(got.error)) && r != Err(DmaRingFull)
      else
        var (s2, err) := StageUp(s1, 0, got.value, s.pages[name].ssd.value, s.pages[name].size);
        (t, r) == SettleSsd(s2, err, name, 0, got.value, s.pages[name].size, now)
    ensures Wired(t) && Accessed(s, t, r, name)
  {
    if got.Ok? {
      ColdRange(s1, name);
      var len, host := StageUpIs(s1, got.value, s.pages[name].ssd.value, s.pages[name].size);
      var (s2, err) := StageUp(s1, 0, got.value, s.pages[name].ssd.value, s.pages[name].size);
      if err.Some? {
        FreeSpare(s1, got.value, s.pages[name].size);
      } else {
        ColdPromoted(s1, name, got.value, now, len, host);
      }
    }
    PromotionSettles(s, s1, got, t, r, name);
  }

  lemma AccessSsdOk(s: State, name: Name, now: nat, d: Driver, t: State, r: Result<nat>)
    requires OneOk(s) && name in s.pages && s.pages[name].tier == Ssd && name !in s.inflight
    requires (t, r) == AccessSsd(s, name, 0, now, d)
    ensures Accessed(s, t, r, name)
  {
    assert PageOk(s.pages[name]);
    AllocVramOk(s, s.pages[name].size, d);
    var (s1, got) := AllocVram(s, 0, s.pages[name].size, d);
    ColdSettles(s, s1, got, t, r, name, now);
  }

  lemma MembraneOk(s: State, m: Rates)
    requires OneOk(s)
    ensures
      var t := s.(membrane := m);
      OneOk(t) && SameFlat(s, t) && LostBlocks(t) == LostBlocks(s)
  {
  }

  /** The part of an access after the claim found nothing in flight. */
  lemma AccessTierOk(s: State, name: Name, now: nat, d: Driver, t: State, r: Result<nat>)
    requires OneOk(s) && name !in s.inflight
    requires (t, r) ==
      if name !in s.pages then (s, Err(UnknownAllocation))
      else match s.pages[name].tier
        case Vram => AccessVram(s, name, 0, now, d)
        case Dram => AccessDram(s, name, 0, now, d)
        case Ssd => AccessSsd(s, name, 0, now, d)
    ensures Wired(t) && Accessed(s, t, r, name)
  {
    if name in s.pages {
      match s.pages[name].tier
      case Vram => AccessVramOk(s, name, now, d);
      case Dram => AccessDramOk(s, name, now, d, t, r);
      case Ssd => AccessSsdOk(s, name, now, d, t, r);
    }
  }

  lemma AccessUnfolds(s: State, name: Name, now: nat, d: Driver)
    requires Wired(s)
    ensures
      var (s2, c) := ClaimStep(s.(membrane := s.membrane.Observed(name)), name, 0, now);
      AccessStep(s, name, 0, now, d) ==
        if c.Err? then (s2, Err(c.error))
        else if c.value.Some? then (s2, Ok(c.value.value))
        else if name !in s2.pages then (s2, Err(UnknownAllocation))
        else match s2.pages[name].tier
          case Vram => AccessVram(s2, name, 0, now, d)
          case Dram => AccessDram(s2, name, 0, now, d)
          case Ssd => AccessSsd(s2, name, 0, now, d)
  {
  }

  /** Access never changes a page's bytes, and a pointer it returns is to exactly those bytes. */
  lemma AccessOk(s: State, name: Name, now: nat, d: Driver, t: State, r: Result<nat>)
    requires OneOk(s) && (t, r) == AccessStep(s, name, 0, now, d)
    ensures Accessed(s, t, r, name)
  {
    var s1 := s.(membrane := s.membrane.Observed(name));
    MembraneOk(s, s1.membrane);
    ClaimOk(s1, name, now);
    AccessUnfolds(s, name, now, d);
    var (s2, c) := ClaimStep(s1, name, 0, now);
    SameFlatTrans(s, s1, s2);
    if c == Ok(None) {
      AccessTierOk(s2, name, now, d, t, r);
      AccessedAfter(s, s2, t, r, name);
    }
  }

  lemma AccessedAfter(s: State, s2: State, t: State, r: Result<nat>, name: Name)
    requires Wired(s) && Wired(s2) && Wired(t) && SameFlat(s, s2) && LostBlocks(s2) == LostBlocks(s)
    requires Accessed(s2, t, r, name)
    ensures Accessed(s, t, r, name)
  {
    SameFlatTrans(s, s2, t);
  }

  // ----------------------------------------------------------------- write_page

  /** `t` is `s` with `name` now holding `data`. */
  ghost predicate Stored(s: State, t: State, name: Name, data: seq<byte>) {
    && s.pages.Keys == t.pages.Keys && name in s.pages && Backed(t.pages[name]) && Backed(s.pages[name])
    && Bytes(t, name) == data
    && (forall n :: n in s.pages && n != name ==> Backed(s.pages[n]) == Backed(t.pages[n]) && Bytes(s, n) == Bytes(t, n))
  }

  /** Writes go to the host or file copy, so they need a page with no device copy and none on its way. */
  predicate Writable(s: State, name: Name) {
    name !in s.inflight && (name in s.pages ==> s.pages[name].vram == [])
  }

  lemma WriteWarmOk(s: State, name: Name, data: seq<byte>)
    requires OneOk(s) && name in s.pages && s.pages[name].dram != [] && Writable(s, name) && |data| == s.pages[name].size
    ensures
      var t := s.(host := Poke(s.host, s.pages[name].dram[0].hostPtr, data));
      OneOk(t) && Stored(s, t, name, data) && LostBlocks(t) == LostBlocks(s)
  {
    var p, c := s.pages[name], s.pages[name].dram[0];
    var t := s.(host := Poke(s.host, c.hostPtr, data));
    assert PageOk(p);
    if 0 < p.size {
      HostRange(s, name);
      PeekPoke(s.host, c.hostPtr, data);
    }
    forall m | m in s.pages && m != name ensures Bytes(s, m) == Bytes(t, m) {
      if s.pages[m].dram != [] { OwnHostWrite(s, name, data, m); }
    }
    forall m | m in s.inflight ensures FlightOk(t.inflight[m], t.pages[m], t.copies, t.vram, t.host) {
      assert FlightOk(s.inflight[m], s.pages[m], s.copies, s.vram, s.host);
      OwnHostWrite(s, name, data, m);
    }
  }

  /** A cold write, whole or cut short, stays inside the page's own reservation. */
  lemma ColdWriteKept(sp: Spill, pages: map<Name, Page>, name: Name, data: seq<byte>)
    requires ColdOk(Some(sp), pages) && name in pages && pages[name].ssd.Some? && |data| <= pages[name].size
    ensures
      var off := pages[name].ssd.value;
      && (0 < pages[name].size ==> off + pages[name].size <= |sp.file|)
      && WriteFile(sp.file, off, data) == Poke(sp.file, off, data)
      && ColdOk(Some(sp.(file := Poke(sp.file, off, data))), pages)
  {
    var off := pages[name].ssd.value;
    if 0 < pages[name].size {
      var b := ColdBlocks(pages)[name];
      assert Span(b) <= Cells(sp.heap);
      assert b.off + Align(b.len) - 1 in Span(b);
      forall p | p in Range(off, |data|) ensures p in Cells(sp.heap) { assert p in Span(b); }
      ZerosAfterPoke(sp.file, Cells(sp.heap), off, data, |data|);
      assert Cells(sp.heap) + Range(off, |data|) == Cells(sp.heap);
    } else {
      assert Poke(sp.file, off, data) == sp.file;
    }
  }

  lemma ColdWriteElsewhere(s: State, name: Name, data: seq<byte>, m: Name)
    requires OneOk(s) && name in s.pages && s.pages[name].ssd.Some? && s.spill.Some? && |data| <= s.pages[name].size
    requires m in s.pages && m != name
    ensures
      var file := Poke(s.spill.value.file, s.pages[name].ssd.value, data);
      Contents(s.pages[m], s.vram, s.host, Some(s.spill.value.(file := file))) == Bytes(s, m)
  {
    hide HostOk, BlocksOk, FlightsOk;
    var p, q, file := s.pages[name], s.pages[m], s.spill.value.file;
    if q.ssd.Some? && 0 < q.size && 0 < p.size {
      SpansApart(ColdBlocks(s.pages)[m], ColdBlocks(s.pages)[name]);
      PeekAround(file, p.ssd.value, data, q.ssd.value, q.size);
    } else if p.size == 0 {
      assert Poke(file, p.ssd.value, data) == file;
    }
  }

  lemma ColdWriteHere(sp: Spill, off: nat, data: seq<byte>, size: nat)
    requires |data| <= size && (0 < size ==> off + size <= |sp.file|)
    ensures Peek(Poke(sp.file, off, data), off, size) == Poke(Peek(sp.file, off, size), 0, data)
  {
    if 0 < size { PeekPokeWithin(sp.file, off, data, size); }
  }

  lemma WriteColdOk(s: State, name: Name, data: seq<byte>)
    requires OneOk(s) && name in s.pages && s.pages[name].tier == Ssd && s.pages[name].ssd.Some? && s.spill.Some?
    requires |data| <= s.pages[name].size
    ensures
      var t := s.(spill := Some(s.spill.value.(file := WriteFile(s.spill.value.file, s.pages[name].ssd.value, data))));
      OneOk(t) && Stored(s, t, name, Poke(Bytes(s, name), 0, data)) && LostBlocks(t) == LostBlocks(s)
  {
    hide HostOk, BlocksOk, FlightOk, Lost, ColdOk, Poke;
    var p, file := s.pages[name], s.spill.value.file;
    var t := s.(spill := Some(s.spill.value.(file := WriteFile(file, p.ssd.value, data))));
    assert PageOk(p);
    ColdWriteKept(s.spill.value, s.pages, name, data);
    ColdWriteHere(s.spill.value, p.ssd.value, data, p.size);
    forall m | m in s.pages && m != name ensures Bytes(s, m) == Bytes(t, m) { ColdWriteElsewhere(s, name, data, m); }
  }

  /** With one pool the whole page goes into its one chunk. */
  lemma ScatterOne(host: seq<byte>, c: DramChunk, data: seq<byte>)
    requires c.size == |data|
    ensures Scatter(host, [c], data, 0) == (Poke(host, c.hostPtr, data), |data|)
  {
    if data == [] {
      assert Poke(host, c.hostPtr, data) == host;
    } else {
      assert data[0..|data|] == data && [c][1..] == [];
    }
  }

  /** What `write_page` does with one GPU. */
  lemma WriteIs(s: State, name: Name, data: seq<byte>, disk: Disk)
    requires name in s.pages && PageOk(s.pages[name]) && |data| == s.pages[name].size
    ensures
      var p := s.pages[name];
      var (t, r) := WriteStep(s, name, data, disk);
      if p.tier == Ssd then
        if s.spill.None? then t == s && r.Err?
        else
          && (r.Ok? <==> !Fails(data, disk))
          && t == s.(spill := Some(s.spill.value.(file := WriteFile(s.spill.value.file, p.ssd.value, Landed(data, disk)))))
      else if p.dram != [] then r.Ok? && t == s.(host := Poke(s.host, p.dram[0].hostPtr, data))
      else t == s
  {
    var p := s.pages[name];
    if p.tier != Ssd && p.dram != [] {
      assert p.dram == [p.dram[0]];
      ScatterOne(s.host, p.dram[0], data);
    }
  }

  /** The write reaches the spill file and the disk fails it. */
  predicate Torn(s: State, name: Name, data: seq<byte>, disk: Disk) {
    name in s.pages && |data| == s.pages[name].size && s.pages[name].tier == Ssd && s.spill.Some? && Fails(data, disk)
  }

  /** A write that succeeds replaces exactly that page's bytes; one that fails changes nothing, except
    * that a failing disk may have taken a prefix. */
  lemma WriteOk(s: State, name: Name, data: seq<byte>, disk: Disk, t: State, r: Result<()>)
    requires OneOk(s) && Writable(s, name) && (t, r) == WriteStep(s, name, data, disk)
    ensures Wired(t) && OneOk(t) && LostBlocks(t) == LostBlocks(s)
    ensures Torn(s, name, data, disk) ==> r.Err? && Stored(s, t, name, Poke(Bytes(s, name), 0, Landed(data, disk)))
    ensures !Torn(s, name, data, disk) ==> if r.Ok? && Backed(s.pages[name]) then Stored(s, t, name, data) else SameFlat(s, t)
  {
    if name in s.pages && |data| == s.pages[name].size {
      var p := s.pages[name];
      assert PageOk(p);
      WriteIs(s, name, data, disk);
      if p.tier == Ssd {
        if s.spill.Some? {
          WriteColdOk(s, name, Landed(data, disk));
          assert |Bytes(s, name)| == |data|;
          assert !Fails(data, disk) ==> Poke(Bytes(s, name), 0, data) == data;
        }
      } else if p.dram != [] {
        WriteWarmOk(s, name, data);
      }
    }
  }

  // --------------------------------------------------------------- device writes

  lemma DeviceWriteOk(s: State, name: Name, at: nat, data: seq<byte>)
    requires OneOk(s) && name in s.pages && s.pages[name].vram != []
    ensures
      var t := DeviceWriteStep(s, name, at, data);
      OneOk(t) && Stored(s, t, name, Poke(Bytes(s, name), at, data)) && LostBlocks(t) == LostBlocks(s)
  {
    PageHolds(s, name);
    assert PageOk(s.pages[name]);
    var ptr := s.pages[name].vram[0].ptr;
    var block := Poke(s.vram[ptr], at, data);
    assert Bytes(s, name) == s.vram[ptr];
    Overwritten(HoldersOf(s), s.vram, ptr, block);
    DeviceWriteFlat(s, name, ptr, block);
  }

  lemma DeviceWriteFlat(s: State, name: Name, ptr: nat, block: seq<byte>)
    requires OneOk(s) && name in s.pages && s.pages[name].vram != [] && s.pages[name].vram[0].ptr == ptr
    requires |block| == s.pages[name].size
    ensures
      var t := s.(vram := s.vram[ptr := block]);
      FlightsOk(t) && Stored(s, t, name, block)
  {
    var t := s.(vram := s.vram[ptr := block]);
    PageHolds(s, name);
    assert PageOk(s.pages[name]);
    forall m | m in s.pages && m != name ensures Bytes(s, m) == Bytes(t, m) {
      if s.pages[m].vram != [] { PageHolds(s, m); }
    }
    forall m | m in s.inflight ensures FlightOk(t.inflight[m], t.pages[m], t.copies, t.vram, t.host) {
      FlightHolds(s, m);
      assert FlightOk(s.inflight[m], s.pages[m], s.copies, s.vram, s.host);
    }
  }

  // ------------------------------------------------------------------ allocate

  /** `t` is `s` with `name` gone. */
  ghost predicate Removed(s: State, t: State, name: Name) {
    && t.pages.Keys == s.pages.Keys - {name}
    && (forall n :: n in t.pages ==> Backed(s.pages[n]) == Backed(t.pages[n]) && Bytes(s, n) == Bytes(t, n))
  }

  /** `t` is `s` with a new entry `name`. */
  ghost predicate Added(s: State, t: State, name: Name) {
    name !in s.pages && Removed(t, s, name) && name in t.pages
  }

  /** A new entry without any backing. */
  lemma EntryOk(s: State, name: Name, p: Page, t: State)
    requires OneOk(s) && name !in s.pages && PageOk(p) && !Backed(p) && p.vram == []
    requires t == s.(nextId := t.nextId, pages := s.pages[name := p])
    ensures Wired(t) && OneOk(t) && Added(s, t, name) && name !in t.inflight && LostBlocks(t) == LostBlocks(s)
  {
    EntryFlights(s, name, p);
    FreshPageHost(s.pools, s.pages, |s.host|, name, p);
    EntryBlocks(s, name, p);
    EntryCold(s.spill, s.pages, name, p);
  }

  lemma EntryFlights(s: State, name: Name, p: Page)
    requires PagesOk(s.pages) && FlightsOk(s) && name !in s.pages && PageOk(p)
    ensures
      var t := s.(pages := s.pages[name := p]);
      PagesOk(t.pages) && FlightsOk(t)
  {
    var t := s.(pages := s.pages[name := p]);
    forall m | m in s.inflight ensures FlightOk(t.inflight[m], t.pages[m], t.copies, t.vram, t.host) {
      assert FlightOk(s.inflight[m], s.pages[m], s.copies, s.vram, s.host);
    }
  }

  lemma EntryBlocks(s: State, name: Name, p: Page)
    requires Wired(s) && BlocksOk(HoldersOf(s), s.vram) && name !in s.pages && p.vram == []
    ensures
      var h := HoldersOf(s).(pages := s.pages[name := p]);
      BlocksOk(h, s.vram) && Lost(h, s.vram) == LostBlocks(s)
  {
    var h := HoldersOf(s).(pages := s.pages[name := p]);
    forall q ensures Holding(h, q) == Holding(HoldersOf(s), q) {}
    SameHolding(HoldersOf(s), h, s.vram);
  }

  lemma EntryCold(spill: Option<Spill>, pages: map<Name, Page>, name: Name, p: Page)
    requires ColdOk(spill, pages) && name !in pages && p.ssd.None?
    ensures ColdOk(spill, pages[name := p])
  {
    assert ColdBlocks(pages[name := p]) == ColdBlocks(pages);
  }

  lemma RegisterOk(s: State, name: Name, shape: seq<nat>, elementSize: nat)
    requires OneOk(s) && ChosenName(name, s.nextId) !in s.pages
    ensures
      var chosen := ChosenName(name, s.nextId);
      var t := Registered(s, name, shape, elementSize);
      OneOk(t) && Added(s, t, chosen) && !Backed(t.pages[chosen]) && chosen !in t.inflight && LostBlocks(t) == LostBlocks(s)
  {
    var t := Registered(s, name, shape, elementSize);
    var chosen := ChosenName(name, s.nextId);
    EntryOk(s, chosen, t.pages[chosen], t);
  }

  /** An unbacked page gets a record with no device block and no flight. */
  lemma ReplaceFlights(s: State, name: Name, p: Page)
    requires PagesOk(s.pages) && FlightsOk(s) && name in s.pages && name !in s.inflight
    requires PageOk(p) && p.vram == []
    ensures
      var t := s.(pages := s.pages[name := p]);
      PagesOk(t.pages) && FlightsOk(t)
  {
    var t := s.(pages := s.pages[name := p]);
    forall m | m in s.inflight ensures FlightOk(t.inflight[m], t.pages[m], t.copies, t.vram, t.host) {
      assert FlightOk(s.inflight[m], s.pages[m], s.copies, s.vram, s.host);
    }
  }

  lemma ReplaceBlocks(s: State, name: Name, p: Page)
    requires Wired(s) && BlocksOk(HoldersOf(s), s.vram) && name in s.pages && s.pages[name].vram == [] == p.vram
    ensures
      var t := s.(pages := s.pages[name := p]);
      BlocksOk(HoldersOf(t), t.vram) && LostBlocks(t) == LostBlocks(s)
  {
    var t := s.(pages := s.pages[name := p]);
    forall q ensures Holding(HoldersOf(t), q) == Holding(HoldersOf(s), q) {}
    SameHolding(HoldersOf(s), HoldersOf(t), s.vram);
  }

  /** Everything but `name` is as before. */
  ghost predicate OthersKept(s: State, t: State, name: Name) {
    && s.pages.Keys == t.pages.Keys && name in s.pages
    && (forall n :: n in s.pages && n != name ==> Backed(s.pages[n]) == Backed(t.pages[n]) && Bytes(s, n) == Bytes(t, n))
  }

  lemma AllocateColdOk(s: State, name: Name, t: State, r: Result<Name>)
    requires OneOk(s) && name in s.pages && !Backed(s.pages[name]) && name !in s.inflight && s.pages[name].vram == []
    requires (t, r) == AllocateCold(s, name)
    ensures Wired(t) && OneOk(t) && OthersKept(s, t, name) && LostBlocks(t) == LostBlocks(s)
    ensures Backed(t.pages[name]) <==> r.Ok?
    ensures r.Ok? ==> Bytes(t, name) == Zeros(s.pages[name].size)
  {
    hide HostOk, BlocksOk, FlightsOk, ColdOk, Lost, Peek, DevRead, ReserveSpec;
    if r.Ok? {
      assert s.pages[name].ssd.None?;
      ColdRecorded(s.spill.value, s.pages, name, t.pages[name], t.spill.value);
      SameShardsHost(s, name, t.pages[name]);
      BackedOk(s, name, t);
    } else if s.spill.Some? {
      RefusedUnchanged(s.spill.value, s.pages[name].size);
    }
  }

  lemma RefusedUnchanged(sp: Spill, bytes: nat)
    ensures ReserveSpec(sp, bytes).1.Err? ==> ReserveSpec(sp, bytes).0 == sp
  {
  }

  /** The new range is accounted for, and still zero. */
  lemma ColdRecorded(sp: Spill, pages: map<Name, Page>, name: Name, p: Page, sp': Spill)
    requires ColdOk(Some(sp), pages) && name in pages && pages[name].ssd.None? && p.ssd.Some?
    requires (sp', Ok(p.ssd.value)) == ReserveSpec(sp, p.size)
    ensures ColdOk(Some(sp'), pages[name := p]) && sp'.file == sp.file
    ensures Peek(sp'.file, p.ssd.value, p.size) == Zeros(p.size)
  {
    hide Covers, ZeroOutside, Peek, AllocateSpec, ColdBlocks;
    ReservedReadsZeros(sp, p.size);
    ColdReserved(sp.heap, pages, name, p, sp'.heap);
  }

  lemma ColdReserved(h: Heap, pages: map<Name, Page>, name: Name, p: Page, h': Heap)
    requires Covers(h, ColdBlocks(pages)) && name in pages && pages[name].ssd.None? && p.ssd.Some?
    requires (h', Ok(p.ssd.value)) == AllocateSpec(h, p.size)
    ensures Covers(h', ColdBlocks(pages[name := p])) && h'.capacity == h.capacity
  {
    var after := ColdBlocks(pages[name := p]);
    if 0 < p.size {
      assert after == ColdBlocks(pages)[name := Block(p.ssd.value, p.size)];
      CoversAllocate(h, ColdBlocks(pages), name, p.size);
    } else {
      assert after == ColdBlocks(pages);
      AllocateNothing(h);
    }
  }

  /** An unbacked page obtains its backing; host and spill ranges are accounted for by the callers. */
  lemma BackedOk(s: State, name: Name, t: State)
    requires OneOk(s) && name in s.pages && name !in s.inflight && s.pages[name].vram == []
    requires name in t.pages && PageOk(t.pages[name]) && t.pages[name].vram == []
    requires t == s.(pools := t.pools, spill := t.spill, pages := s.pages[name := t.pages[name]]) && |t.pools| == 1
    requires t.spill == s.spill || (s.spill.Some? && t.spill.Some? && t.spill.value.file == s.spill.value.file)
    requires HostOk(t.pools, t.pages, |t.host|) && ColdOk(t.spill, t.pages)
    ensures Wired(t) && OneOk(t) && OthersKept(s, t, name) && LostBlocks(t) == LostBlocks(s)
  {
    hide BlocksOk, Lost, HostOk, ColdOk, FlightOk, OthersKept;
    ReplaceFlights(s, name, t.pages[name]);
    ReplaceBlocks(s, name, t.pages[name]);
    OthersStay(s, name, t);
  }

  lemma OthersStay(s: State, name: Name, t: State)
    requires name in s.pages && name in t.pages
    requires t == s.(pools := t.pools, spill := t.spill, pages := s.pages[name := t.pages[name]])
    requires t.spill == s.spill || (s.spill.Some? && t.spill.Some? && t.spill.value.file == s.spill.value.file)
    ensures OthersKept(s, t, name)
  {
    hide Peek, DevRead;
  }

  lemma SameShardsHost(s: State, name: Name, p: Page)
    requires HostOk(s.pools, s.pages, |s.host|) && name in s.pages && p.dram == s.pages[name].dram
    ensures HostOk(s.pools, s.pages[name := p], |s.host|)
  {
    var t := s.pages[name := p];
    forall i | 0 <= i < |s.pools| ensures PoolAgrees(s.pools, t, i) {
      assert PoolAgrees(s.pools, s.pages, i);
      assert Shards(t, i, s.pools[i].base) == Shards(s.pages, i, s.pools[i].base);
    }
    forall n | n in t ensures ShardInPool(t[n], s.pools) { assert ShardInPool(s.pages[if n == name then name else n], s.pools); }
  }

  lemma WarmCold(spill: Option<Spill>, pages: map<Name, Page>, name: Name, p: Page)
    requires ColdOk(spill, pages) && name in pages && pages[name].ssd.None? && p.ssd.None?
    ensures ColdOk(spill, pages[name := p])
  {
    assert ColdBlocks(pages[name := p]) == ColdBlocks(pages);
  }

  lemma WarmBacked(s: State, name: Name, t: State)
    requires OneOk(s) && name in s.pages && !Backed(s.pages[name]) && name !in s.inflight && s.pages[name].vram == []
    requires name in t.pages && PageOk(t.pages[name]) && t.pages[name].vram == [] && t.pages[name].ssd.None?
    requires t == s.(pools := t.pools, pages := s.pages[name := t.pages[name]]) && |t.pools| == 1
    requires HostOk(t.pools, t.pages, |t.host|)
    ensures Wired(t) && OneOk(t) && OthersKept(s, t, name) && LostBlocks(t) == LostBlocks(s)
  {
    WarmCold(s.spill, s.pages, name, t.pages[name]);
    BackedOk(s, name, t);
  }

  lemma AllocateWarmOk(s: State, name: Name, tier: Tier, t: State, r: Result<Name>)
    requires OneOk(s) && name in s.pages && !Backed(s.pages[name]) && name !in s.inflight && s.pages[name].vram == []
    requires tier != Ssd && (t, r) == AllocateWarm(s, name, tier)
    ensures Wired(t) && OneOk(t) && OthersKept(s, t, name) && LostBlocks(t) == LostBlocks(s)
    ensures Backed(t.pages[name]) <==> r.Ok?
  {
    assert PageOk(s.pages[name]);
    AllocateWarmKeepsHost(s, name, tier);
    AllocateWarmIs(s, name, tier);
    WarmBacked(s, name, t);
  }

  /** With one pool an allocation is one chunk of the whole size, or none. */
  lemma AllocateWarmIs(s: State, name: Name, tier: Tier)
    requires Wired(s) && |s.pools| == 1 && name in s.pages && PageOk(s.pages[name]) && !Backed(s.pages[name]) && tier != Ssd
    ensures
      var (t, r) := AllocateWarm(s, name, tier);
      && name in t.pages && PageOk(t.pages[name]) && t.pages[name].vram == s.pages[name].vram
      && t == s.(pools := t.pools, pages := s.pages[name := t.pages[name]]) && |t.pools| == 1
      && (Backed(t.pages[name]) <==> r.Ok?) && t.pages[name].ssd.None?
  {
    var size := s.pages[name].size;
    assert ShardSize(size, 1, 0) == size;
    var (p, got) := PoolAllocate(s.pools[0], size);
    if got.Ok? {
      var chunk := DramChunk(p.node, got.value, size);
      assert AllocShards(s.pools[0 := p], size, 1, [] + [chunk]) == (s.pools[0 := p], [] + [chunk], None);
    }
  }

  lemma AllocateOk(s: State, name: Name, shape: seq<nat>, elementSize: nat, tier: Tier, t: State, r: Result<Name>)
    requires OneOk(s) && ChosenName(name, s.nextId) !in s.pages
    requires (t, r) == AllocateStep(s, name, shape, elementSize, tier)
    ensures Wired(t) && OneOk(t) && Added(s, t, ChosenName(name, s.nextId)) && LostBlocks(t) == LostBlocks(s)
    ensures Backed(t.pages[ChosenName(name, s.nextId)]) <==> r.Ok?
    ensures r.Ok? && tier == Ssd ==> Bytes(t, ChosenName(name, s.nextId)) == Zeros(Product(shape) * elementSize)
  {
    var chosen := ChosenName(name, s.nextId);
    RegisterOk(s, name, shape, elementSize);
    var s1 := Registered(s, name, shape, elementSize);
    assert PageOk(s1.pages[chosen]);
    if tier == Ssd { AllocateColdOk(s1, chosen, t, r); } else { AllocateWarmOk(s1, chosen, tier, t, r); }
    AddedThenKept(s, s1, t, chosen);
  }

  lemma AddedThenKept(s: State, s1: State, t: State, name: Name)
    requires Added(s, s1, name) && OthersKept(s1, t, name)
    ensures Added(s, t, name)
  {
  }

  // ---------------------------------------------------------------- deallocate

  /** On one GPU the page's block, if any, goes to the cache. */
  lemma FreeChunksIs(s: State, vram: seq<Chunk>)
    requires Wired(s) && |vram| <= 1
    ensures FreeChunks(s, vram) == if vram == [] then s else FreeVram(s, vram[0].gpu, vram[0].ptr, vram[0].size)
  {
    if vram != [] { assert vram[1..] == []; }
  }

  /** The entry goes first: its block is then nobody's. */
  lemma ForgetBlocks(s: State, name: Name)
    requires Wired(s) && BlocksOk(HoldersOf(s), s.vram) && name in s.pages
    ensures
      var h := HoldersOf(s).(pages := s.pages - {name});
      && BlocksOk(h, s.vram)
      && (if s.pages[name].vram == [] then Lost(h, s.vram) == LostBlocks(s)
          else var c := s.pages[name].vram[0];
               Real(Cached(c.size, c.ptr), s.vram) && Unheld(h, c.ptr) && c.ptr !in LostBlocks(s) && Lost(h, s.vram) == LostBlocks(s) + {c.ptr})
  {
    var h := HoldersOf(s).(pages := s.pages - {name});
    if s.pages[name].vram == [] {
      forall q ensures Holding(h, q) == Holding(HoldersOf(s), q) {}
      SameHolding(HoldersOf(s), h, s.vram);
    } else {
      assert Holding(HoldersOf(s), OfPage(name)).Some?;
      Released(HoldersOf(s), h, s.vram, OfPage(name));
    }
  }

  lemma ForgetFlights(s: State, name: Name)
    requires PagesOk(s.pages) && FlightsOk(s) && name !in s.inflight
    ensures
      var t := s.(pages := s.pages - {name});
      PagesOk(t.pages) && FlightsOk(t)
  {
    var t := s.(pages := s.pages - {name});
    forall m | m in s.inflight ensures m in t.pages && FlightOk(t.inflight[m], t.pages[m], t.copies, t.vram, t.host) {
      assert FlightOk(s.inflight[m], s.pages[m], s.copies, s.vram, s.host);
    }
  }

  lemma ForgetCold(spill: Option<Spill>, pages: map<Name, Page>, name: Name)
    requires ColdOk(spill, pages)
    ensures ColdOk(spill, pages - {name})
  {
    assert ColdBlocks(pages - {name}) == ColdBlocks(pages) - {name};
  }

  /** A page leaves the table; its host ranges have been given back by `t.pools`. */
  lemma ForgetOk(s: State, name: Name, t: State)
    requires OneOk(s) && name in s.pages && name !in s.inflight
    requires t == s.(pools := t.pools, pages := s.pages - {name}) && |t.pools| == 1 && HostOk(t.pools, t.pages, |t.host|)
    ensures OneOk(t) && Removed(s, t, name)
    ensures
      if s.pages[name].vram == [] then LostBlocks(t) == LostBlocks(s)
      else var c := s.pages[name].vram[0];
           Spare(t, c.ptr, c.size) && c.ptr !in LostBlocks(s) && LostBlocks(t) == LostBlocks(s) + {c.ptr}
  {
    ForgetBlocks(s, name);
    ForgetFlights(s, name);
    ForgetCold(s.spill, s.pages, name);
  }

  lemma DeallocateOk(s: State, name: Name, t: State, r: Result<()>)
    requires OneOk(s) && name !in s.inflight && (t, r) == DeallocateStep(s, name)
    ensures Wired(t) && OneOk(t) && LostBlocks(t) == LostBlocks(s)
    ensures if r.Ok? then Removed(s, t, name) else t == s
  {
    if name in s.pages {
      assert PageOk(s.pages[name]);
      FreeChunksIs(s, s.pages[name].vram);
      DeallocateKeepsHost(s, name);
      var s1 := s.(pools := FreeShards(s.pools, s.pages[name].dram), pages := s.pages - {name});
      ForgetOk(s, name, s1);
      if s.pages[name].vram != [] {
        var c := s.pages[name].vram[0];
        FreeSpare(s1, c.ptr, c.size);
      }
    }
  }

  // ------------------------------------------------------------- losing a block

  /** The one way to lose a device block, as a caller can see it coming: a warm page that is not on
    * its way, a block to be had for it, and no free slot in the ring. */
  predicate LosesBlock(s: State, name: Name, d: Driver)
    requires Wired(s)
  {
    && name !in s.inflight && name in s.pages && s.pages[name].tier == Dram && s.pages[name].dram != []
    && Obtainable(s, 0, s.pages[name].size, d) && RING <= s.queued[0]
  }

  lemma VramOutcome(s: State, name: Name, now: nat, d: Driver)
    requires Wired(s) && name in s.pages
    ensures AccessVram(s, name, 0, now, d).0.queued == s.queued && AccessVram(s, name, 0, now, d).1 != Err(DmaRingFull)
  {
  }

  lemma WarmOutcome(s: State, name: Name, now: nat, d: Driver)
    requires Wired(s) && name in s.pages && PageOk(s.pages[name]) && s.pages[name].tier == Dram
    ensures
      var (t, r) := AccessDram(s, name, 0, now, d);
      && t.queued[0] <= s.queued[0] + 1
      && (r == Err(DmaRingFull) <==> s.pages[name].dram != [] && Obtainable(s, 0, s.pages[name].size, d) && RING <= s.queued[0])
  {
    if s.pages[name].dram != [] { AccessDramIs(s, name, now, d); }
  }

  lemma ColdOutcome(s: State, name: Name, now: nat, d: Driver)
    requires Wired(s) && name in s.pages
    ensures AccessSsd(s, name, 0, now, d).0.queued == s.queued && AccessSsd(s, name, 0, now, d).1 != Err(DmaRingFull)
  {
    hide Stream, PoolAllocate, PoolFree;
    var p := s.pages[name];
    var (s1, got) := AllocVram(s, 0, p.size, d);
    BorrowError(s1.pools[0], p.size);
  }

  /** Only a warm promotion touches the ring, and it takes at most one slot. */
  lemma TierOutcome(s: State, name: Name, now: nat, d: Driver, t: State, r: Result<nat>)
    requires Wired(s) && name !in s.inflight && name in s.pages && PageOk(s.pages[name])
    requires (t, r) ==
      match s.pages[name].tier
      case Vram => AccessVram(s, name, 0, now, d)
      case Dram => AccessDram(s, name, 0, now, d)
      case Ssd => AccessSsd(s, name, 0, now, d)
    ensures Wired(t) && t.queued[0] <= s.queued[0] + 1
    ensures r == Err(DmaRingFull) <==> LosesBlock(s, name, d)
  {
    hide AccessVram, AccessDram, AccessSsd;
    match s.pages[name].tier
    case Vram => VramOutcome(s, name, now, d);
    case Dram => WarmOutcome(s, name, now, d);
    case Ssd => ColdOutcome(s, name, now, d);
  }

  /** An access reports a full ring if and only if the guard says so, and takes at most one slot. */
  lemma FillsRingIff(s: State, name: Name, now: nat, d: Driver, t: State, r: Result<nat>)
    requires OneOk(s) && (t, r) == AccessStep(s, name, 0, now, d)
    ensures r == Err(DmaRingFull) <==> LosesBlock(s, name, d)
    ensures Wired(t) && t.queued[0] <= s.queued[0] + 1
  {
    assert name in s.pages ==> PageOk(s.pages[name]);
    hide PagesOk, PageOk, HostOk, BlocksOk, FlightsOk, ColdOk, SameFlat, Lost, AccessVram, AccessDram, AccessSsd, ClaimStep, AccessStep;
    var s1 := s.(membrane := s.membrane.Observed(name));
    MembraneOk(s, s1.membrane);
    ClaimOk(s1, name, now);
    AccessUnfolds(s, name, now, d);
    if name !in s.inflight && name in s.pages {
      TierOutcome(s1, name, now, d, t, r);
    }
  }

  /** An access loses a block if and only if the guard says so; with room in the ring it never does. */
  lemma AccessLosesIff(s: State, name: Name, now: nat, d: Driver, t: State, r: Result<nat>)
    requires OneOk(s) && (t, r) == AccessStep(s, name, 0, now, d)
    ensures Accessed(s, t, r, name)
    ensures LostBlocks(t) != LostBlocks(s) <==> LosesBlock(s, name, d)
    ensures t.queued[0] <= s.queued[0] + 1
  {
    hide OneOk, SameFlat, Lost, AccessStep, LosesBlock;
    AccessOk(s, name, now, d, t, r);
    FillsRingIff(s, name, now, d, t, r);
  }

  // --------------------------------------------------------------------- sweeps

  /** What a sweep may do: move pages, take at most `slots` ring slots, lose blocks to a full ring
    * unless it is `lossless`, and nothing visible. */
  ghost predicate Swept(s: State, t: State, slots: nat, lossless: bool)
    requires Wired(s) && Wired(t)
  {
    && OneOk(t) && SameFlat(s, t) && LostBlocks(s) <= LostBlocks(t)
    && t.queued[0] <= s.queued[0] + slots
    && (lossless ==> LostBlocks(t) == LostBlocks(s))
  }

  lemma SweptTrans(s: State, t: State, u: State, m: nat, n: nat, first: bool, second: bool)
    requires Wired(s) && Wired(t) && Wired(u) && Swept(s, t, m, first) && Swept(t, u, n, second)
    ensures Swept(s, u, m + n, first && second)
  {
    SameFlatTrans(s, t, u);
  }

  lemma DemoteSweeps(s: State, name: Name)
    requires OneOk(s)
    ensures Swept(s, DemoteStep(s, name).0, 1, true)
  {
    DemoteOk(s, name);
    if name in s.pages && s.pages[name].tier == Vram && !s.pages[name].pinned {
      assert PageOk(s.pages[name]);
      DemoteIs(s, name);
    }
  }

  lemma {:induction false} EvictAllOk(s: State, names: seq<Name>)
    requires OneOk(s)
    ensures Swept(s, EvictAll(s, names).0, |names|, true)
    decreases |names|
  {
    hide PagesOk, HostOk, BlocksOk, FlightsOk, ColdOk, Lost, DemoteStep;
    if names != [] {
      if names[0] in s.pages && s.pages[names[0]].tier == Vram {
        DemoteSweeps(s, names[0]);
        var s1 := DemoteStep(s, names[0]).0;
        EvictAllOk(s1, names[1..]);
        SweptTrans(s, s1, EvictAll(s1, names[1..]).0, 1, |names| - 1, true, true);
      } else {
        EvictAllOk(s, names[1..]);
      }
    }
  }

  lemma {:induction false} DemoteAllOk(s: State, names: seq<Name>)
    requires OneOk(s)
    ensures Swept(s, DemoteAll(s, names).0, |names|, true)
    decreases |names|
  {
    hide PagesOk, HostOk, BlocksOk, FlightsOk, ColdOk, Lost, DemoteStep;
    if names != [] {
      DemoteSweeps(s, names[0]);
      var s1 := DemoteStep(s, names[0]).0;
      DemoteAllOk(s1, names[1..]);
      SweptTrans(s, s1, DemoteAll(s1, names[1..]).0, 1, |names| - 1, true, true);
    }
  }

  lemma {:induction false} PromoteAllOk(s: State, names: seq<Name>, now: nat, ds: seq<Driver>, i: nat)
    requires OneOk(s) && i <= |names|
    ensures Swept(s, PromoteAll(s, names, now, ds, i), |names| - i, s.queued[0] + |names| - i <= RING)
    decreases |names| - i
  {
    hide PagesOk, HostOk, BlocksOk, FlightsOk, ColdOk, Lost, AccessStep;
    if i < |names| {
      if names[i] in s.pages && s.pages[names[i]].tier != Vram {
        var (s1, r) := AccessStep(s, names[i], 0, now, DriverAt(ds, i));
        AccessLosesIff(s, names[i], now, DriverAt(ds, i), s1, r);
        PromoteAllOk(s1, names, now, ds, i + 1);
        SweptTrans(s, s1, PromoteAll(s1, names, now, ds, i + 1), 1, |names| - i - 1,
                   s.queued[0] < RING, s1.queued[0] + |names| - i - 1 <= RING);
      } else {
        PromoteAllOk(s, names, now, ds, i + 1);
      }
    }
  }

  lemma {:induction false} AccessAllOk(s: State, names: seq<Name>, now: nat, ds: seq<Driver>, i: nat)
    requires OneOk(s) && i <= |names|
    ensures Swept(s, AccessAll(s, names, now, ds, i).0, |names| - i, s.queued[0] + |names| - i <= RING)
    decreases |names| - i
  {
    hide PagesOk, HostOk, BlocksOk, FlightsOk, ColdOk, Lost, AccessStep;
    if i < |names| {
      var (s1, r) := AccessStep(s, names[i], 0, now, DriverAt(ds, i));
      AccessLosesIff(s, names[i], now, DriverAt(ds, i), s1, r);
      if r.Ok? {
        AccessAllOk(s1, names, now, ds, i + 1);
        SweptTrans(s, s1, AccessAll(s1, names, now, ds, i + 1).0, 1, |names| - i - 1,
                   s.queued[0] < RING, s1.queued[0] + |names| - i - 1 <= RING);
      }
    }
  }

  /** The demotions and promotions a sweep may start; none is started for a page not in `order`. */
  function Traffic(s: State, order: seq<Name>, now: nat): nat {
    if s.settings.budget.Some? then |order|
    else |Select(s, order, IdleResident(now, s.settings.idleAfter))| + |Select(s, order, HotWarm(s.settings.hotAt))|
  }

  /** The ring has a slot for everything the sweep may start. */
  predicate RoomToSweep(s: State, order: seq<Name>, now: nat)
    requires Wired(s)
  {
    s.queued[0] + Traffic(s, order, now) <= RING
  }

  lemma {:induction false} CandidatesAtMost(s: State, order: seq<Name>)
    ensures |Candidates(s, order)| <= |order|
    decreases |order|
  {
    if order != [] { CandidatesAtMost(s, order[1..]); }
  }

  lemma MembraneSweepOk(s: State, order: seq<Name>, now: nat, ds: seq<Driver>)
    requires OneOk(s) && s.settings.budget.Some?
    ensures Swept(s, MembraneSweepStep(s, order, now, ds).0, Traffic(s, order, now), RoomToSweep(s, order, now))
  {
    MembraneOk(s, s.membrane.Decayed());
    var s1 := s.(membrane := s.membrane.Decayed());
    var (keep, evict) := Plan(s.settings.policy, Candidates(s1, order), s.settings.budget.value);
    PlanSizes(s.settings.policy, Candidates(s1, order), s.settings.budget.value);
    CandidatesAtMost(s1, order);
    EvictAllOk(s1, evict);
    var (s2, r) := EvictAll(s1, evict);
    MembraneSweepIs(s, order, now, ds, s1, keep, evict, s2, r);
    PromoteAllOk(s2, keep, now, ds, 0);
    SweptTrans(s, s1, s2, 0, |evict|, true, true);
    SweptTrans(s, s2, PromoteAll(s2, keep, now, ds, 0), |evict|, |keep|, true, s2.queued[0] + |keep| <= RING);
  }

  lemma IdleSweepOk(s: State, order: seq<Name>, now: nat, ds: seq<Driver>)
    requires OneOk(s) && s.settings.budget.None?
    ensures Swept(s, BackgroundSweepStep(s, order, now, ds).0, Traffic(s, order, now), RoomToSweep(s, order, now))
  {
    var toDemote := Select(s, order, IdleResident(now, s.settings.idleAfter));
    var toPromote := Select(s, order, HotWarm(s.settings.hotAt));
    DemoteAllOk(s, toDemote);
    var (s1, r) := DemoteAll(s, toDemote);
    IdleSweepIs(s, order, now, ds, toDemote, toPromote, s1, r);
    AccessAllOk(s1, toPromote, now, ds, 0);
    SweptTrans(s, s1, AccessAll(s1, toPromote, now, ds, 0).0, |toDemote|, |toPromote|, true, s1.queued[0] + |toPromote| <= RING);
  }

  /** A sweep, whichever policy drives it and wherever it stops, changes no page's bytes, and loses
    * no block when the ring has room for its traffic. */
  lemma SweepOk(s: State, order: seq<Name>, now: nat, ds: seq<Driver>)
    requires OneOk(s)
    ensures Swept(s, BackgroundSweepStep(s, order, now, ds).0, Traffic(s, order, now), RoomToSweep(s, order, now))
  {
    if s.settings.budget.Some? { MembraneSweepOk(s, order, now, ds); } else { IdleSweepOk(s, order, now, ds); }
  }
}
