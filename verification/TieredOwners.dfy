/** Any number of GPUs: where every device block is, and the calls that lose one. */
module TieredOwners {
  import opened Common
  import opened DramPools
  import opened Vmt
  import opened Plans
  import opened Tiered
  import opened TieredHost
  import opened TieredMany
  import opened TieredOutcomes
  import opened TieredMoves
  import opened TieredSweeps

  /** A place that can list a block: a page's chunks, the in-flight table, a recycle cache. */
  datatype Place = OfPage(name: Name, j: nat) | OfFlight(name: Name) | OfCache(gpu: nat, i: nat)

  /** The block listed at a place: its GPU, address and size. */
  function At(s: State, p: Place): Option<Chunk> {
    match p
    case OfPage(n, j) => if n in s.pages && j < |s.pages[n].vram| then Some(s.pages[n].vram[j]) else None
    case OfFlight(n) =>
      if n in s.inflight then Some(Chunk(s.inflight[n].gpu, s.inflight[n].ptr, s.inflight[n].size)) else None
    case OfCache(g, i) =>
      if g < |s.cache| && i < |s.cache[g]| then Some(Chunk(g, s.cache[g][i].ptr, s.cache[g][i].size)) else None
  }

  ghost predicate Held(s: State, c: Chunk) {
    exists p :: At(s, p) == Some(c)
  }

  /** A block the pool can name: non-zero address, a GPU of the pool. */
  predicate Proper(s: State, c: Chunk) { c.ptr != 0 && c.gpu < |s.cache| }

  ghost predicate Somewhere(s: State, ptr: nat) {
    exists c: Chunk :: c.ptr == ptr && Proper(s, c) && Held(s, c)
  }

  /** Every block listed before is still listed, with its GPU and size, except perhaps `but`; every block
    * the driver handed out meanwhile is listed, or is `but`. */
  ghost predicate SafeBut(s: State, t: State, but: Option<Chunk>) {
    && |t.cache| == |s.cache| && s.vram.Keys <= t.vram.Keys
    && (forall c :: Proper(s, c) && Held(s, c) && but != Some(c) ==> Held(t, c))
    && (forall ptr :: ptr in t.vram && ptr !in s.vram ==> ptr != 0 && ((but.Some? && but.value.ptr == ptr) || Somewhere(t, ptr)))
  }

  ghost predicate Safe(s: State, t: State) { SafeBut(s, t, None) }

  // ------------------------------------------------------------------ small steps

  /** Whatever lists at least what was listed is safe. */
  lemma MoreIsSafe(s: State, t: State)
    requires t.cache == s.cache && t.inflight == s.inflight && t.vram.Keys == s.vram.Keys
    requires forall n :: n in s.pages ==> n in t.pages && s.pages[n].vram <= t.pages[n].vram
    ensures Safe(s, t)
  {
    forall c | Held(s, c) ensures Held(t, c) {
      var p :| At(s, p) == Some(c);
      assert At(t, p) == Some(c);
    }
  }

  lemma SafeTrans(s: State, t: State, u: State, but: Option<Chunk>)
    requires SafeBut(s, t, but) && Safe(t, u)
    ensures SafeBut(s, u, but)
  {
    forall ptr | ptr in u.vram && ptr !in s.vram && !(but.Some? && but.value.ptr == ptr) ensures ptr != 0 && Somewhere(u, ptr) {
      if ptr in t.vram {
        var c: Chunk :| c.ptr == ptr && Proper(t, c) && Held(t, c);
        assert Proper(u, c) && Held(u, c);
      }
    }
  }

  /** Listing the block in hand again makes up for it. */
  lemma PutBack(s: State, t: State, u: State, c: Chunk)
    requires SafeBut(s, t, Some(c)) && Safe(t, u) && Proper(s, c) && Held(u, c)
    ensures Safe(s, u)
  {
    SafeTrans(s, t, u, Some(c));
    assert Proper(u, c);
  }

  lemma FreeVramIsSafe(s: State, g: nat, ptr: nat, n: nat)
    requires Wired(s)
    ensures Safe(s, FreeVram(s, g, ptr, n))
    ensures Proper(s, Chunk(g, ptr, n)) ==> Held(FreeVram(s, g, ptr, n), Chunk(g, ptr, n))
  {
    var t := FreeVram(s, g, ptr, n);
    forall c | Held(s, c) ensures Held(t, c) {
      var p :| At(s, p) == Some(c);
      assert At(t, p) == Some(c);
    }
    if Proper(s, Chunk(g, ptr, n)) { assert At(t, OfCache(g, |s.cache[g]|)) == Some(Chunk(g, ptr, n)); }
  }

  lemma AttachIsSafe(s: State, name: Name, c: Chunk, now: nat)
    requires name in s.pages
    ensures Safe(s, Attach(s, name, c, now)) && Held(Attach(s, name, c, now), c)
  {
    var t := Attach(s, name, c, now);
    MoreIsSafe(s, t);
    assert At(t, OfPage(name, |s.pages[name].vram|)) == Some(c);
  }

  /** The first cached block of exactly that size is taken, before the driver is asked; the last one fills
    * its place and all others stay in theirs. */
  lemma TakenFromCache(s: State, g: nat, n: nat, d: Driver, i: nat)
    requires Wired(s) && g < |s.cache| && i < |s.cache[g]| && s.cache[g][i].size == n
    requires forall k :: 0 <= k < i ==> s.cache[g][k].size != n
    ensures
      var (t, r) := AllocVram(s, g, n, d);
      var (before, after) := (s.cache[g], t.cache[g]);
      && r == Ok(before[i].ptr) && t.vram == s.vram && |after| == |before| - 1
      && (forall k :: 0 <= k < |after| ==> after[k] == if k == i then before[|before| - 1] else before[k])
      && (forall h :: 0 <= h < |s.cache| && h != g ==> t.cache[h] == s.cache[h])
  {
    if FindSize(s.cache[g], n).Some? { FindSizeIsFirst(s.cache[g], n); }
  }

  /** A block taken from the cache or the driver is in hand, all others are where they were. */
  lemma AllocVramIsSafeBut(s: State, g: nat, n: nat, d: Driver)
    requires Wired(s) && AllocVram(s, g, n, d).1.Ok?
    ensures
      var (t, r) := AllocVram(s, g, n, d);
      SafeBut(s, t, Some(Chunk(g, r.value, n))) && g < |s.cache|
  {
    hide Peek;
    var (t, r) := AllocVram(s, g, n, d);
    var but := Chunk(g, r.value, n);
    forall c | Held(s, c) && c != but ensures Held(t, c) {
      var p :| At(s, p) == Some(c);
      assert At(t, MovedTo(s, g, n, p)) == Some(c);
    }
  }

  /** Where a listed block is after one was taken from the cache: the last one fills the gap. */
  function MovedTo(s: State, g: nat, n: nat, p: Place): Place
    requires g < |s.cache|
  {
    var found := FindSize(s.cache[g], n);
    if found.Some? && p == OfCache(g, |s.cache[g]| - 1) then OfCache(g, found.value) else p
  }

  lemma LandIsSafe(s: State, ptr: nat)
    ensures Safe(s, Land(s, ptr))
  {
    hide Peek, Poke;
    MoreIsSafe(s, Land(s, ptr));
  }

  // ----------------------------------------------------------------------- access

  /** Claiming on the prefetch's own GPU when the page or the GPU is gone: the code panics. */
  predicate ClaimPanics(s: State, name: Name, g: nat) {
    name in s.inflight && s.inflight[name].gpu == g && (name !in s.pages || |s.pools| <= g)
  }

  lemma ClaimIsSafe(s: State, name: Name, g: nat, now: nat)
    requires Wired(s) && !ClaimPanics(s, name, g)
    ensures Safe(s, ClaimStep(s, name, g, now).0)
  {
    hide Land, Attach, FreeVram;
    if name in s.inflight {
      var f := s.inflight[name];
      var s1 := s.(inflight := s.inflight - {name});
      var c := Chunk(f.gpu, f.ptr, f.size);
      UnflyIsSafeBut(s, name);
      if f.gpu != g {
        FreeVramIsSafe(s1, f.gpu, f.ptr, f.size);
        SafeOrImproper(s, s1, FreeVram(s1, f.gpu, f.ptr, f.size), c);
      } else {
        var s2 := Land(s1, f.ptr);
        LandIsSafe(s1, f.ptr);
        AttachIsSafe(s2, name, Chunk(g, f.ptr, f.size), now);
        SafeTrans(s1, s2, Attach(s2, name, Chunk(g, f.ptr, f.size), now), None);
        SafeOrImproper(s, s1, Attach(s2, name, Chunk(g, f.ptr, f.size), now), c);
      }
    } else {
      MoreIsSafe(s, s);
    }
  }

  lemma UnflyIsSafeBut(s: State, name: Name)
    requires name in s.inflight
    ensures SafeBut(s, s.(inflight := s.inflight - {name}), Some(Chunk(s.inflight[name].gpu, s.inflight[name].ptr, s.inflight[name].size)))
  {
    var t := s.(inflight := s.inflight - {name});
    forall c | Held(s, c) && c != Chunk(s.inflight[name].gpu, s.inflight[name].ptr, s.inflight[name].size) ensures Held(t, c) {
      var p :| At(s, p) == Some(c);
      assert At(t, p) == Some(c);
    }
  }

  lemma SafeOrImproper(s: State, t: State, u: State, c: Chunk)
    requires SafeBut(s, t, Some(c)) && t.vram == s.vram && Safe(t, u) && (Proper(t, c) ==> Held(u, c))
    ensures Safe(s, u)
  {
    SafeTrans(s, t, u, Some(c));
    forall ptr | ptr in u.vram && ptr !in s.vram ensures ptr != 0 && Somewhere(u, ptr) { assert ptr !in t.vram; }
  }

  lemma AccessVramIsSafe(s: State, name: Name, g: nat, now: nat, d: Driver)
    requires Wired(s) && name in s.pages
    ensures Safe(s, AccessVram(s, name, g, now, d).0)
  {
    hide AllocVram, FindChunk, DevRead, Attach, SafeBut;
    MoreIsSafe(s, s);
    var p := s.pages[name];
    var src := FindChunk(p.vram, g, false);
    if FindChunk(p.vram, g, true).Some? {
      MoreIsSafe(s, s.(pages := s.pages[name := p.Touch(now)]));
    } else if src.Some? && AllocVram(s, g, src.value.size, d).1.Ok? {
      var (s1, got) := AllocVram(s, g, src.value.size, d);
      AllocVramIsSafeBut(s, g, src.value.size, d);
      var s2 := s1.(vram := DevWrite(s1.vram, got.value, 0, DevRead(s1.vram, src.value.ptr, src.value.size)));
      MoreIsSafe(s1, s2);
      AttachedIsSafe(s, s1, s2, name, Chunk(g, got.value, src.value.size), now);
    } else if src.Some? {
      RefusedIsSame(s, g, src.value.size, d);
    }
  }

  lemma RefusedIsSame(s: State, g: nat, n: nat, d: Driver)
    requires Wired(s) && AllocVram(s, g, n, d).1.Err?
    ensures AllocVram(s, g, n, d).0 == s
  {
  }

  /** The block in hand becomes the page's. */
  lemma AttachedIsSafe(s: State, s1: State, s2: State, name: Name, c: Chunk, now: nat)
    requires SafeBut(s, s1, Some(c)) && Safe(s1, s2) && name in s2.pages && c.gpu < |s.cache|
    ensures Safe(s, Attach(s2, name, c, now))
  {
    hide Attach, SafeBut;
    AttachIsSafe(s2, name, c, now);
    SafeTrans(s1, s2, Attach(s2, name, c, now), None);
    InHandIsListed(s, s1, Attach(s2, name, c, now), c);
  }

  lemma InHandIsListed(s: State, t: State, u: State, c: Chunk)
    requires SafeBut(s, t, Some(c)) && Safe(t, u) && c.gpu < |s.cache| && Held(u, c)
    ensures Safe(s, u)
  {
    SafeTrans(s, t, u, Some(c));
    forall ptr | ptr in u.vram && ptr !in s.vram ensures ptr != 0 && Somewhere(u, ptr) {
      if ptr == c.ptr { assert ptr != 0 && Proper(u, c); }
    }
  }

  /** The warm promotion that finds the ring full after it took its block. */
  predicate RingFullFor(s: State, name: Name, g: nat, d: Driver) {
    && name in s.pages && s.pages[name].tier == Dram && g < |s.pages[name].dram| && g < |s.queued|
    && Obtainable(s, g, s.pages[name].dram[g].size, d) && RING <= s.queued[g]
  }

  lemma AccessDramIsSafe(s: State, name: Name, g: nat, now: nat, d: Driver)
    requires Wired(s) && name in s.pages && s.pages[name].tier == Dram && !RingFullFor(s, name, g, d)
    ensures Safe(s, AccessDram(s, name, g, now, d).0)
  {
    hide AllocVram, Peek, Attach, SafeBut;
    MoreIsSafe(s, s);
    var p := s.pages[name];
    if g < |p.dram| && g < |s.queued| {
      var c := p.dram[g];
      if AllocVram(s, g, c.size, d).1.Ok? {
        var (s1, got) := AllocVram(s, g, c.size, d);
        ObtainedIff(s, g, c.size, d);
        AllocVramIsSafeBut(s, g, c.size, d);
        var s2 := s1.(queued := s1.queued[g := s1.queued[g] + 1], vram := DevWrite(s1.vram, got.value, 0, Peek(s1.host, c.hostPtr, c.size)));
        MoreIsSafe(s1, s2);
        AttachedIsSafe(s, s1, s2, name, Chunk(g, got.value, c.size), now);
      } else {
        RefusedIsSame(s, g, c.size, d);
      }
    }
  }

  lemma ObtainedIff(s: State, g: nat, n: nat, d: Driver)
    requires Wired(s)
    ensures AllocVram(s, g, n, d).1.Ok? <==> Obtainable(s, g, n, d)
  {
  }

  lemma AccessSsdIsSafe(s: State, name: Name, g: nat, now: nat, d: Driver)
    requires Wired(s) && name in s.pages && g < |s.pools|
    ensures Safe(s, AccessSsd(s, name, g, now, d).0)
  {
    hide AllocVram, StageUp, CopyUp, Attach, FreeVram, SafeBut;
    MoreIsSafe(s, s);
    var p := s.pages[name];
    if p.ssd.Some? {
      if AllocVram(s, g, p.size, d).1.Ok? {
        var (s1, got) := AllocVram(s, g, p.size, d);
        AllocVramIsSafeBut(s, g, p.size, d);
        var (s2, err) :=
          if g < |p.dram| && p.size <= p.dram[g].size then CopyUp(s1, got.value, p.ssd.value, p.dram[g].hostPtr, p.size, p.size)
          else StageUp(s1, g, got.value, p.ssd.value, p.size);
        CopyKeys(s1, g, got.value, p, s2);
        MoreIsSafe(s1, s2);
        if err.Some? {
          FreedIsSafe(s, s1, s2, Chunk(g, got.value, p.size));
        } else {
          AttachedIsSafe(s, s1, s2, name, Chunk(g, got.value, p.size), now);
        }
      } else {
        RefusedIsSame(s, g, p.size, d);
      }
    }
  }

  lemma CopyKeys(s: State, g: nat, dst: nat, p: Page, t: State)
    requires Wired(s) && g < |s.pools| && p.ssd.Some?
    requires t == if OwnBuffer(p, g) then CopyUp(s, dst, p.ssd.value, p.dram[g].hostPtr, p.size, p.size).0
                  else StageUp(s, g, dst, p.ssd.value, p.size).0
    ensures t.vram.Keys == s.vram.Keys
  {
    hide Stream, Borrow, PoolAllocate, PoolFree;
  }

  /** The block in hand goes back to the cache of its GPU. */
  lemma FreedIsSafe(s: State, s1: State, s2: State, c: Chunk)
    requires Wired(s2) && SafeBut(s, s1, Some(c)) && Safe(s1, s2) && c.gpu < |s.cache|
    ensures Safe(s, FreeVram(s2, c.gpu, c.ptr, c.size))
  {
    hide FreeVram;
    var u := FreeVram(s2, c.gpu, c.ptr, c.size);
    FreeVramIsSafe(s2, c.gpu, c.ptr, c.size);
    SafeTrans(s1, s2, u, None);
    if c.ptr != 0 { InHandIsListed(s, s1, u, c); } else { ZeroInHand(s, s1, u, c); }
  }

  lemma ZeroInHand(s: State, t: State, u: State, c: Chunk)
    requires SafeBut(s, t, Some(c)) && Safe(t, u) && c.ptr == 0
    ensures Safe(s, u)
  {
    SafeTrans(s, t, u, Some(c));
  }

  /** The ways an access loses a block. */
  predicate AccessLoses(s: State, name: Name, g: nat, d: Driver) {
    ClaimPanics(s, name, g) || (!(name in s.inflight && s.inflight[name].gpu == g) && RingFullFor(s, name, g, d))
  }

  lemma AccessIsSafe(s: State, name: Name, g: nat, now: nat, d: Driver)
    requires Wired(s) && !AccessLoses(s, name, g, d)
    ensures Safe(s, AccessStep(s, name, g, now, d).0)
  {
    hide ClaimStep, AccessVram, AccessDram, AccessSsd, SafeBut;
    var s1 := s.(membrane := s.membrane.Observed(name));
    var (s2, c) := ClaimStep(s1, name, g, now);
    MoreIsSafe(s, s1);
    ClaimIsSafe(s1, name, g, now);
    SafeTrans(s, s1, s2, None);
    ClaimedPages(s1, name, g, now);
    if c == Ok(None) && name in s2.pages && g < |s2.pools| {
      match s2.pages[name].tier {
        case Vram => AccessVramIsSafe(s2, name, g, now, d);
        case Dram => AccessDramIsSafe(s2, name, g, now, d);
        case Ssd => AccessSsdIsSafe(s2, name, g, now, d);
      }
      SafeTrans(s, s2, AccessStep(s, name, g, now, d).0, None);
    }
  }

  /** Nothing claimed: the page table and this GPU's cache and ring are as they were. */
  lemma ClaimedPages(s: State, name: Name, g: nat, now: nat)
    requires Wired(s)
    ensures
      var (t, c) := ClaimStep(s, name, g, now);
      c == Ok(None) ==>
        && t.pages == s.pages && t.queued == s.queued && t.vram == s.vram && |t.cache| == |s.cache| && |t.pools| == |s.pools|
        && (g < |s.cache| ==> t.cache[g] == s.cache[g]) && !(name in s.inflight && s.inflight[name].gpu == g)
  {
    hide Land, Attach;
  }

  // ----------------------------------------------------------------------- demote

  lemma {:induction false} DemoteChunksAreSafe(s: State, vram: seq<Chunk>, dram: seq<DramChunk>, i: nat)
    requires Wired(s) && i <= |vram|
    ensures
      var (t, r) := DemoteChunks(s, vram, dram, i);
      && Safe(s, t)
      && (r.Ok? ==> forall j :: i <= j < |vram| && vram[j].ptr != 0 ==> vram[j].gpu < |t.cache| && Cached(vram[j].size, vram[j].ptr) in t.cache[vram[j].gpu])
    decreases |vram| - i
  {
    hide Poke, DevRead, Peek, FreeVram, SafeBut;
    MoreIsSafe(s, s);
    if i < |vram| {
      var c := vram[i];
      if c.gpu < |dram| && c.gpu < |s.queued| && c.size <= dram[c.gpu].size && s.queued[c.gpu] < RING {
        var s1 := s.(queued := s.queued[c.gpu := s.queued[c.gpu] + 1], host := Poke(s.host, dram[c.gpu].hostPtr, DevRead(s.vram, c.ptr, c.size)));
        var t := FreeVram(s1, c.gpu, c.ptr, c.size);
        MoreIsSafe(s, s1);
        FreeVramIsSafe(s1, c.gpu, c.ptr, c.size);
        FreedIsCached(s1, c);
        SafeTrans(s, s1, t, None);
        DemoteChunksAreSafe(t, vram, dram, i + 1);
        SafeTrans(s, t, DemoteChunks(t, vram, dram, i + 1).0, None);
        if c.ptr != 0 { CacheGrows(t, vram, dram, i + 1, c.gpu, Cached(c.size, c.ptr)); }
      }
    }
  }

  lemma FreedIsCached(s: State, c: Chunk)
    requires Wired(s) && c.gpu < |s.cache|
    ensures
      var t := FreeVram(s, c.gpu, c.ptr, c.size);
      |t.cache| == |s.cache| && (c.ptr != 0 ==> Cached(c.size, c.ptr) in t.cache[c.gpu])
  {
    if c.ptr != 0 {
      assert FreeVram(s, c.gpu, c.ptr, c.size).cache[c.gpu][|s.cache[c.gpu]|] == Cached(c.size, c.ptr);
    }
  }

  lemma {:induction false} CacheGrows(s: State, vram: seq<Chunk>, dram: seq<DramChunk>, i: nat, g: nat, b: Cached)
    requires Wired(s) && i <= |vram| && g < |s.cache| && b in s.cache[g]
    ensures
      var t := DemoteChunks(s, vram, dram, i).0;
      |t.cache| == |s.cache| && b in t.cache[g]
    decreases |vram| - i
  {
    hide Poke, DevRead, Peek;
    if i < |vram| {
      var c := vram[i];
      if c.gpu < |dram| && c.gpu < |s.queued| && c.size <= dram[c.gpu].size && s.queued[c.gpu] < RING {
        var s1 := s.(queued := s.queued[c.gpu := s.queued[c.gpu] + 1], host := Poke(s.host, dram[c.gpu].hostPtr, DevRead(s.vram, c.ptr, c.size)));
        CacheGrows(FreeVram(s1, c.gpu, c.ptr, c.size), vram, dram, i + 1, g, b);
      }
    }
  }

  /** Dropping a page's list is safe once all its blocks are cached. */
  lemma DropIsSafe(s: State, name: Name, t: State)
    requires name in s.pages && t == s.(pages := t.pages)
    requires forall n :: n in s.pages && n != name ==> n in t.pages && t.pages[n] == s.pages[n]
    requires forall j :: 0 <= j < |s.pages[name].vram| && Proper(s, s.pages[name].vram[j]) ==>
      Cached(s.pages[name].vram[j].size, s.pages[name].vram[j].ptr) in s.cache[s.pages[name].vram[j].gpu]
    ensures Safe(s, t)
  {
    forall c | Proper(s, c) && Held(s, c) ensures Held(t, c) {
      var p :| At(s, p) == Some(c);
      if p.OfPage? && p.name == name {
        var k :| 0 <= k < |s.cache[c.gpu]| && s.cache[c.gpu][k] == Cached(c.size, c.ptr);
        assert At(t, OfCache(c.gpu, k)) == Some(c);
      } else {
        assert At(t, p) == Some(c);
      }
    }
  }

  lemma DemoteIsSafe(s: State, name: Name)
    requires Wired(s)
    ensures Safe(s, DemoteStep(s, name).0)
  {
    hide DemoteChunks, SafeBut;
    MoreIsSafe(s, s);
    if name in s.pages {
      var p := s.pages[name];
      DemoteChunksAreSafe(s, p.vram, p.dram, 0);
      var (s1, r) := DemoteChunks(s, p.vram, p.dram, 0);
      if p.tier == Vram && !p.pinned && r.Ok? {
        var t := s1.(pages := s1.pages[name := p.(vram := [], tier := Dram, state := Warm)]);
        DropIsSafe(s1, name, t);
        SafeTrans(s, s1, t, None);
      }
    }
  }

  // ------------------------------------------------------------------- deallocate

  /** The blocks of the chunks on GPU `g`, as the recycle cache records them. */
  function BlocksFor(vram: seq<Chunk>, g: nat): multiset<Cached> {
    if vram == [] then multiset{}
    else (if vram[0].gpu == g && vram[0].ptr != 0 then multiset{Cached(vram[0].size, vram[0].ptr)} else multiset{}) + BlocksFor(vram[1..], g)
  }

  lemma {:induction false} FreeChunksReturns(s: State, vram: seq<Chunk>, g: nat)
    requires Wired(s) && g < |s.cache|
    ensures |FreeChunks(s, vram).cache| == |s.cache|
    ensures multiset(FreeChunks(s, vram).cache[g]) == multiset(s.cache[g]) + BlocksFor(vram, g)
    decreases |vram|
  {
    if vram != [] {
      var c := vram[0];
      var t := FreeVram(s, c.gpu, c.ptr, c.size);
      FreeChunksReturns(t, vram[1..], g);
      if c.gpu == g && c.ptr != 0 { assert t.cache[g] == s.cache[g] + [Cached(c.size, c.ptr)]; }
    }
  }

  lemma {:induction false} InBlocksFor(vram: seq<Chunk>, j: nat)
    requires j < |vram| && vram[j].ptr != 0
    ensures Cached(vram[j].size, vram[j].ptr) in BlocksFor(vram, vram[j].gpu)
    decreases |vram|
  {
    if 0 < j { InBlocksFor(vram[1..], j - 1); }
  }

  /** Any number of GPUs: deallocation puts each of the page's blocks back into the cache of its own GPU,
    * once, and leaves the other blocks, the prefetches and the other pages as they were. */
  lemma DeallocateReturnsBlocks(s: State, name: Name)
    requires Wired(s) && name in s.pages
    ensures
      var (t, r) := DeallocateStep(s, name);
      && r.Ok? && t.pages == s.pages - {name} && t.inflight == s.inflight && t.vram == s.vram && |t.cache| == |s.cache|
      && forall g :: 0 <= g < |s.cache| ==> multiset(t.cache[g]) == multiset(s.cache[g]) + BlocksFor(s.pages[name].vram, g)
  {
    hide FreeChunks, FreeShards, BlocksFor;
    forall g | 0 <= g < |s.cache| ensures multiset(FreeChunks(s, s.pages[name].vram).cache[g]) == multiset(s.cache[g]) + BlocksFor(s.pages[name].vram, g) {
      FreeChunksReturns(s, s.pages[name].vram, g);
    }
    FreeChunksReturns(s, s.pages[name].vram, 0);
  }

  lemma DeallocateIsSafe(s: State, name: Name)
    requires Wired(s)
    ensures Safe(s, DeallocateStep(s, name).0)
  {
    hide DeallocateStep, BlocksFor;
    if name in s.pages {
      DeallocateReturnsBlocks(s, name);
      var t := DeallocateStep(s, name).0;
      forall c | Proper(s, c) && Held(s, c) ensures Held(t, c) {
        var p :| At(s, p) == Some(c);
        if p.OfPage? && p.name == name {
          InBlocksFor(s.pages[name].vram, p.j);
          InCacheNow(t, c, multiset(s.cache[c.gpu]) + BlocksFor(s.pages[name].vram, c.gpu));
        } else if p.OfCache? {
          assert s.cache[c.gpu][p.i] in multiset(s.cache[c.gpu]);
          InCacheNow(t, c, multiset(s.cache[c.gpu]) + BlocksFor(s.pages[name].vram, c.gpu));
        } else {
          assert At(t, p) == Some(c);
        }
      }
    } else {
      UnknownStays(s, name);
      MoreIsSafe(s, s);
    }
  }

  lemma UnknownStays(s: State, name: Name)
    requires Wired(s) && name !in s.pages
    ensures DeallocateStep(s, name).0 == s
  {
  }

  lemma InCacheNow(t: State, c: Chunk, blocks: multiset<Cached>)
    requires c.gpu < |t.cache| && multiset(t.cache[c.gpu]) == blocks && Cached(c.size, c.ptr) in blocks
    ensures Held(t, c)
  {
    assert Cached(c.size, c.ptr) in t.cache[c.gpu];
    var k :| 0 <= k < |t.cache[c.gpu]| && t.cache[c.gpu][k] == Cached(c.size, c.ptr);
    assert At(t, OfCache(c.gpu, k)) == Some(c);
  }

  // --------------------------------------------------------------- the other calls

  lemma PrefetchIsSafe(s: State, name: Name, g: nat, d: Driver)
    requires Wired(s)
    ensures Safe(s, PrefetchStep(s, name, g, d).0)
  {
    hide AllocVram, SafeBut;
    MoreIsSafe(s, s);
    if name !in s.inflight && name in s.pages && s.pages[name].tier == Dram && s.pages[name].dram != [] {
      var p := s.pages[name];
      if AllocVram(s, g, p.size, d).1.Ok? {
        var (s1, got) := AllocVram(s, g, p.size, d);
        AllocVramIsSafeBut(s, g, p.size, d);
        var t := PrefetchStep(s, name, g, d).0;
        FlyIsSafe(s1, name, t);
        assert At(t, OfFlight(name)) == Some(Chunk(g, got.value, p.size));
        InHandIsListed(s, s1, t, Chunk(g, got.value, p.size));
      } else {
        RefusedIsSame(s, g, p.size, d);
      }
    }
  }

  lemma FlyIsSafe(s: State, name: Name, t: State)
    requires name !in s.inflight && name in t.inflight && t == s.(inflight := s.inflight[name := t.inflight[name]], copies := t.copies)
    ensures Safe(s, t)
  {
    forall c | Held(s, c) ensures Held(t, c) {
      var p :| At(s, p) == Some(c);
      assert At(t, p) == Some(c);
    }
  }

  /** Allocating over a page that has blocks forgets them. */
  predicate Overwrites(s: State, name: Name) {
    ChosenName(name, s.nextId) in s.pages && s.pages[ChosenName(name, s.nextId)].vram != []
  }

  lemma AllocateIsSafe(s: State, name: Name, shape: seq<nat>, elementSize: nat, tier: Tier)
    requires Wired(s) && !Overwrites(s, name)
    ensures Safe(s, AllocateStep(s, name, shape, elementSize, tier).0)
  {
    hide AllocateStep, SafeBut;
    AllocateSeeds(s, name, shape, elementSize, tier);
    AllocateSameBlocks(s, name, shape, elementSize, tier);
    MoreIsSafe(s, AllocateStep(s, name, shape, elementSize, tier).0);
  }

  lemma AllocateSameBlocks(s: State, name: Name, shape: seq<nat>, elementSize: nat, tier: Tier)
    requires Wired(s)
    ensures
      var t := AllocateStep(s, name, shape, elementSize, tier).0;
      && t.cache == s.cache && t.inflight == s.inflight && t.vram == s.vram
      && ChosenName(name, s.nextId) in t.pages && t.pages[ChosenName(name, s.nextId)].vram == []
  {
    hide AllocShards;
  }

  // ----------------------------------------------------------------------- sweeps

  lemma {:induction false} EvictAllIsSafe(s: State, names: seq<Name>)
    requires Wired(s)
    ensures Safe(s, EvictAll(s, names).0)
    decreases |names|
  {
    hide DemoteStep, SafeBut;
    MoreIsSafe(s, s);
    if names != [] {
      var t := DemoteStep(s, names[0]).0;
      DemoteIsSafe(s, names[0]);
      EvictAllIsSafe(t, names[1..]);
      EvictAllIsSafe(s, names[1..]);
      SafeTrans(s, t, EvictAll(t, names[1..]).0, None);
    }
  }

  lemma {:induction false} DemoteAllIsSafe(s: State, names: seq<Name>)
    requires Wired(s)
    ensures Safe(s, DemoteAll(s, names).0)
    decreases |names|
  {
    hide DemoteStep, SafeBut;
    MoreIsSafe(s, s);
    if names != [] {
      var t := DemoteStep(s, names[0]).0;
      DemoteIsSafe(s, names[0]);
      DemoteAllIsSafe(t, names[1..]);
      SafeTrans(s, t, DemoteAll(t, names[1..]).0, None);
    }
  }

  lemma {:induction false} PromoteAllIsSafe(s: State, names: seq<Name>, now: nat, ds: seq<Driver>, i: nat)
    requires Wired(s) && i <= |names| && s.queued[0] + |names| - i <= RING
    ensures Safe(s, PromoteAll(s, names, now, ds, i))
    decreases |names| - i
  {
    hide AccessStep, SafeBut;
    MoreIsSafe(s, s);
    if i < |names| {
      if names[i] in s.pages && s.pages[names[i]].tier != Vram {
        var t := AccessStep(s, names[i], 0, now, DriverAt(ds, i)).0;
        AccessIsSafe(s, names[i], 0, now, DriverAt(ds, i));
        AccessSpends(s, names[i], 0, now, DriverAt(ds, i), t);
        PromoteAllIsSafe(t, names, now, ds, i + 1);
        SafeTrans(s, t, PromoteAll(t, names, now, ds, i + 1), None);
      } else {
        PromoteAllIsSafe(s, names, now, ds, i + 1);
      }
    }
  }

  lemma {:induction false} AccessAllIsSafe(s: State, names: seq<Name>, now: nat, ds: seq<Driver>, i: nat)
    requires Wired(s) && i <= |names| && s.queued[0] + |names| - i <= RING
    requires forall n :: n in names ==> n in s.pages
    ensures Safe(s, AccessAll(s, names, now, ds, i).0)
    decreases |names| - i
  {
    hide AccessStep, SafeBut, Raised;
    MoreIsSafe(s, s);
    if i < |names| {
      var (t, r) := AccessStep(s, names[i], 0, now, DriverAt(ds, i));
      AccessIsSafe(s, names[i], 0, now, DriverAt(ds, i));
      if r.Ok? {
        AccessSpends(s, names[i], 0, now, DriverAt(ds, i), t);
        AccessRaises(s, names[i], 0, now, DriverAt(ds, i));
        AccessAllIsSafe(t, names, now, ds, i + 1);
        SafeTrans(s, t, AccessAll(t, names, now, ds, i + 1).0, None);
      }
    }
  }

  /** What a run of demotions takes at most of a ring. */
  lemma {:induction false} EvictAllTakes(s: State, names: seq<Name>)
    requires Wired(s)
    ensures EvictAll(s, names).1.Ok? ==> EvictAll(s, names).0.queued[0] <= s.queued[0] + BlocksOn(s, names, 0)
    decreases |names|
  {
    hide DemoteStep, CountOn;
    if names != [] {
      var n := names[0];
      if n in s.pages && s.pages[n].tier == Vram {
        var (t, r) := DemoteStep(s, n);
        if r.Ok? {
          DemoteTakesSlots(s, n, t, r);
          FewerBlocks(s, n, t, names[1..]);
          EvictAllTakes(t, names[1..]);
          HeadBlocks(s, n, names[1..], 0);
          assert names == [n] + names[1..];
        }
      } else {
        EvictAllTakes(s, names[1..]);
      }
    }
  }

  lemma {:induction false} DemoteAllTakes(s: State, names: seq<Name>)
    requires Wired(s)
    ensures DemoteAll(s, names).1.Ok? ==> DemoteAll(s, names).0.queued[0] <= s.queued[0] + BlocksOn(s, names, 0)
    decreases |names|
  {
    hide DemoteStep, CountOn;
    if names != [] {
      var n := names[0];
      var (t, r) := DemoteStep(s, n);
      if r.Ok? {
        DemoteLowers(s, n, t, r);
        DemoteTakesSlots(s, n, t, r);
        FewerBlocks(s, n, t, names[1..]);
        DemoteAllTakes(t, names[1..]);
        HeadBlocks(s, n, names[1..], 0);
        assert names == [n] + names[1..];
      }
    }
  }

  lemma {:induction false} FewerBlocks(s: State, n: Name, t: State, names: seq<Name>)
    requires Wired(s) && n in s.pages && t == DemoteStep(s, n).0
    ensures BlocksOn(t, names, 0) <= BlocksOn(s, names, 0)
    decreases |names|
  {
    hide DemoteStep, CountOn;
    DemoteLowers(s, n, t, DemoteStep(s, n).1);
    if names != [] { FewerBlocks(s, n, t, names[1..]); }
  }

  /** The ring of GPU 0 has a slot for every block to be demoted there and every page to be promoted. */
  predicate SweepHasRoom(s: State, order: seq<Name>, now: nat)
    requires Wired(s)
  {
    if s.settings.budget.Some? then
      var (keep, evict) := SweepPlan(s, order);
      s.queued[0] + BlocksOn(s, evict, 0) + |keep| <= RING
    else
      var toDemote := Select(s, order, IdleResident(now, s.settings.idleAfter));
      var toPromote := Select(s, order, HotWarm(s.settings.hotAt));
      s.queued[0] + BlocksOn(s, toDemote, 0) + |toPromote| <= RING
  }

  lemma SweepIsSafe(s: State, order: seq<Name>, now: nat, ds: seq<Driver>)
    requires Wired(s) && SweepHasRoom(s, order, now)
    ensures Safe(s, BackgroundSweepStep(s, order, now, ds).0)
  {
    if s.settings.budget.Some? { MembraneSweepIsSafe(s, order, now, ds); } else { IdleSweepIsSafe(s, order, now, ds); }
  }

  lemma MembraneSweepIsSafe(s: State, order: seq<Name>, now: nat, ds: seq<Driver>)
    requires Wired(s) && s.settings.budget.Some? && SweepHasRoom(s, order, now)
    ensures Safe(s, BackgroundSweepStep(s, order, now, ds).0)
  {
    hide EvictAll, PromoteAll, Plan, Candidates, SafeBut, CountOn;
    var s1 := s.(membrane := s.membrane.Decayed());
    var (keep, evict) := SweepPlan(s, order);
    var (s2, r) := EvictAll(s1, evict);
    MembraneSweepIs(s, order, now, ds, s1, keep, evict, s2, r);
    MoreIsSafe(s, s1);
    EvictAllIsSafe(s1, evict);
    SafeTrans(s, s1, s2, None);
    if r.Ok? {
      SameBlocks(s, s1, evict, 0);
      EvictAllTakes(s1, evict);
      PromoteAllIsSafe(s2, keep, now, ds, 0);
      SafeTrans(s, s2, PromoteAll(s2, keep, now, ds, 0), None);
    }
  }

  lemma IdleSweepIsSafe(s: State, order: seq<Name>, now: nat, ds: seq<Driver>)
    requires Wired(s) && s.settings.budget.None? && SweepHasRoom(s, order, now)
    ensures Safe(s, BackgroundSweepStep(s, order, now, ds).0)
  {
    hide DemoteAll, AccessAll, Select, SafeBut, CountOn, KeepsBacking;
    var toDemote := Select(s, order, IdleResident(now, s.settings.idleAfter));
    var toPromote := Select(s, order, HotWarm(s.settings.hotAt));
    var (s1, r) := DemoteAll(s, toDemote);
    IdleSweepIs(s, order, now, ds, toDemote, toPromote, s1, r);
    DemoteAllIsSafe(s, toDemote);
    if r.Ok? {
      DemoteAllTakes(s, toDemote);
      DemoteAllKeepsBacking(s, toDemote);
      SelectedAreKnown(s, order, HotWarm(s.settings.hotAt), s1);
      AccessAllIsSafe(s1, toPromote, now, ds, 0);
      SafeTrans(s, s1, AccessAll(s1, toPromote, now, ds, 0).0, None);
    }
  }

  lemma {:induction false} SelectedAreKnown(s: State, order: seq<Name>, pick: Page -> bool, t: State)
    requires KeepsBacking(s, t)
    ensures forall n :: n in Select(s, order, pick) ==> n in t.pages
    decreases |order|
  {
    if order != [] { SelectedAreKnown(s, order[1..], pick, t); }
  }

  // -------------------------------------------------------------------- every call

  /** The calls that can lose a block. */
  predicate Loses(s: State, op: Op)
    requires Wired(s)
  {
    match op
    case Allocate(name, _, _, _) => Overwrites(s, name)
    case Access(name, g, _, d) => AccessLoses(s, name, g, d)
    case Sweep(order, now, _) => !SweepHasRoom(s, order, now)
    case _ => false
  }

  /** Any number of GPUs, any state: a step that is not one of those keeps every block listed, with its GPU
    * and size, and lists every new one. */
  lemma StepIsSafe(s: State, op: Op)
    requires Wired(s) && !Loses(s, op)
    ensures Safe(s, Step(s, op).0)
  {
    hide AllocateStep, AccessStep, DemoteStep, PrefetchStep, DeallocateStep, BackgroundSweepStep;
    hide WriteStep, SafeBut, SweepHasRoom, AccessLoses, DeviceWriteStep, Overwrites, Land;
    match op
    case Allocate(name, shape, elementSize, tier) => AllocateIsSafe(s, name, shape, elementSize, tier);
    case Access(name, g, now, d) => AccessIsSafe(s, name, g, now, d);
    case Demote(name) => DemoteIsSafe(s, name);
    case Prefetch(name, g, d) => PrefetchIsSafe(s, name, g, d);
    case Deallocate(name) => DeallocateIsSafe(s, name);
    case Sweep(order, now, ds) => SweepIsSafe(s, order, now, ds);
    case CopyLands(ptr) => LandIsSafe(s, ptr);
    case _ => OtherStepIsSafe(s, op);
  }

  lemma OtherStepIsSafe(s: State, op: Op)
    requires Wired(s)
    requires op.WritePage? || op.AttachSpill? || op.EnableMembrane? || op.SetPinned? || op.DeviceWrite? || op.EngineAcks?
    ensures Safe(s, Step(s, op).0)
  {
    hide AllocateStep, AccessStep, DemoteStep, PrefetchStep, WriteStep, DeallocateStep, BackgroundSweepStep, SafeBut, Poke, Land;
    MoreIsSafe(s, Step(s, op).0);
  }

  /** Every block the driver has handed out is listed somewhere. */
  ghost predicate AllListed(s: State) {
    forall ptr :: ptr in s.vram ==> ptr != 0 && Somewhere(s, ptr)
  }

  ghost predicate LosesNowhere(s: State, ops: seq<Op>)
    requires Wired(s)
    decreases |ops|
  {
    ops == [] || (!Loses(s, ops[0]) && LosesNowhere(Step(s, ops[0]).0, ops[1..]))
  }

  lemma SafeKeepsAll(s: State, t: State)
    requires Safe(s, t) && AllListed(s)
    ensures AllListed(t)
  {
    forall ptr | ptr in t.vram ensures ptr != 0 && Somewhere(t, ptr) {
      if ptr in s.vram {
        var c: Chunk :| c.ptr == ptr && Proper(s, c) && Held(s, c);
        assert Proper(t, c) && Held(t, c);
      }
    }
  }

  /** Any number of GPUs: in every run without such a step, no block the driver ever handed out is lost. */
  lemma {:induction false} EveryBlockIsListed(s: State, ops: seq<Op>)
    requires Wired(s) && AllListed(s) && LosesNowhere(s, ops)
    ensures AllListed(Run(s, ops))
    decreases |ops|
  {
    hide Step, AllListed, Loses, SafeBut;
    if ops != [] {
      StepIsSafe(s, ops[0]);
      SafeKeepsAll(s, Step(s, ops[0]).0);
      EveryBlockIsListed(Step(s, ops[0]).0, ops[1..]);
    }
  }
}
