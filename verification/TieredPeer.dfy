/** Several GPUs: where the one-GPU guarantees of `TieredRuns` stop. */
module TieredPeer {
  import opened Common
  import opened Ranges
  import opened DramPools
  import opened RangeEdits
  import opened Spills
  import opened Vmt
  import opened Tiered
  import opened TieredHost
  import opened TieredScatter
  import opened TieredMany
  import opened TieredOutcomes

  // ------------------------------------------- a peer copy written over a shard

  /** A warm page of one shard per GPU; no cached block of the size of shard `g`, no prefetch of the
    * page, room in the two rings. */
  ghost predicate WarmOnBoth(s: State, name: Name, g: nat, h: nat) {
    && Wired(s) && g != h && g < |s.pools| && h < |s.pools|
    && s.queued[g] + 2 <= RING && s.queued[h] < RING
    && name in s.pages && name !in s.inflight
    && var p := s.pages[name];
      && p.tier == Dram && p.vram == [] && !p.pinned
      && |p.dram| == |s.pools| && Laid(p.dram, |s.host|)
      && FindSize(s.cache[g], p.dram[g].size).None? && FindSize(s.cache[h], p.dram[g].size).None?
  }

  predicate Grants(vram: map<nat, seq<byte>>, d: Driver) {
    d.Grant? && d.ptr != 0 && d.ptr !in vram
  }

  /** The bytes of shard `k`. */
  function ShardBytes(host: seq<byte>, dram: seq<DramChunk>, k: nat): seq<byte>
    requires k < |dram|
  {
    Peek(host, dram[k].hostPtr, dram[k].size)
  }

  ghost predicate SameShards(before: seq<byte>, after: seq<byte>, dram: seq<DramChunk>) {
    forall k :: 0 <= k < |dram| ==> ShardBytes(after, dram, k) == ShardBytes(before, dram, k)
  }

  /** The first GPU's access promotes its own shard. */
  lemma FirstPromotion(s: State, name: Name, g: nat, h: nat, now: nat, d: Driver, t: State, r: Result<nat>)
    requires WarmOnBoth(s, name, g, h) && Grants(s.vram, d) && (t, r) == AccessStep(s, name, g, now, d)
    ensures
      var p := s.pages[name];
      && r == Ok(d.ptr) && t.pools == s.pools && t.host == s.host && t.cache == s.cache && t.inflight == s.inflight
      && t.vram == s.vram[d.ptr := ShardBytes(s.host, p.dram, g)] && t.queued == s.queued[g := s.queued[g] + 1]
      && t.pages == s.pages[name := p.Touch(now).(vram := [Chunk(g, d.ptr, p.dram[g].size)], tier := Vram, state := Resident)]
  {
    var c := s.pages[name].dram[g];
    var a := Peek(s.host, c.hostPtr, c.size);
    assert Poke(Peek(d.junk, 0, c.size), 0, a) == a;
    assert s.vram[d.ptr := Peek(d.junk, 0, c.size)][d.ptr := a] == s.vram[d.ptr := a];
    assert s.pages[name].vram + [Chunk(g, d.ptr, c.size)] == [Chunk(g, d.ptr, c.size)];
  }

  /** The second GPU's access copies the first one's block, not its own shard. */
  lemma PeerPromotion(s: State, name: Name, src: Chunk, h: nat, now: nat, d: Driver, t: State, r: Result<nat>)
    requires Wired(s) && h < |s.pools| && name in s.pages && name !in s.inflight
    requires s.pages[name].tier == Vram && s.pages[name].vram == [src] && src.gpu != h
    requires src.ptr in s.vram && |s.vram[src.ptr]| == src.size && Grants(s.vram, d) && FindSize(s.cache[h], src.size).None?
    requires (t, r) == AccessStep(s, name, h, now, d)
    ensures
      && r == Ok(d.ptr) && t.pools == s.pools && t.host == s.host && t.queued == s.queued
      && t.vram == s.vram[d.ptr := s.vram[src.ptr]]
      && t.pages == s.pages[name := s.pages[name].Touch(now).(vram := [src, Chunk(h, d.ptr, src.size)], state := Resident)]
  {
    assert FindChunk([src], h, true).None? && FindChunk([src], h, false) == Some(src);
    var junk := Peek(d.junk, 0, src.size);
    assert s.vram[d.ptr := junk][src.ptr] == s.vram[src.ptr];
    assert Peek(s.vram[src.ptr], 0, src.size) == s.vram[src.ptr];
    assert Poke(junk, 0, s.vram[src.ptr]) == s.vram[src.ptr];
    assert s.vram[d.ptr := junk][d.ptr := s.vram[src.ptr]] == s.vram[d.ptr := s.vram[src.ptr]];
    assert [src] + [Chunk(h, d.ptr, src.size)] == [src, Chunk(h, d.ptr, src.size)];
  }

  /** Demoting the page writes each block to the shard of the GPU it is on. */
  lemma BothWrittenBack(s: State, name: Name, c0: Chunk, c1: Chunk, t: State, r: Result<()>)
    requires Wired(s) && name in s.pages && (t, r) == DemoteStep(s, name)
    requires
      var p := s.pages[name];
      && p.tier == Vram && !p.pinned && p.vram == [c0, c1] && c0.gpu != c1.gpu && c0.gpu < |p.dram| && c1.gpu < |p.dram|
      && |p.dram| == |s.pools| && c0.size <= p.dram[c0.gpu].size && c1.size <= p.dram[c1.gpu].size
      && s.queued[c0.gpu] < RING && s.queued[c1.gpu] < RING
    ensures
      var dram := s.pages[name].dram;
      r.Ok? && t.host == Poke(Poke(s.host, dram[c0.gpu].hostPtr, DevRead(s.vram, c0.ptr, c0.size)),
                              dram[c1.gpu].hostPtr, DevRead(s.vram, c1.ptr, c1.size))
  {
    hide DevRead, Poke;
    var p := s.pages[name];
    assert p.vram[0] == c0 && p.vram[1] == c1;
    var s1 := WrittenBack(s, c0, p.dram[c0.gpu].hostPtr);
    var s2 := WrittenBack(s1, c1, p.dram[c1.gpu].hostPtr);
    DemoteOne(s, p.vram, p.dram, 0, c0, s1);
    DemoteOne(s1, p.vram, p.dram, 1, c1, s2);
  }

  /** Rewriting shard `g` with its own bytes and the start of shard `h` with them changes only the latter. */
  lemma ShardsAfter(host: seq<byte>, dram: seq<DramChunk>, g: nat, h: nat)
    requires g != h && g < |dram| && h < |dram| && dram[g].size <= dram[h].size && Laid(dram, |host|)
    ensures
      var a, b := ShardBytes(host, dram, g), ShardBytes(host, dram, h);
      var after := Poke(Poke(host, dram[g].hostPtr, a), dram[h].hostPtr, a);
      && (forall k :: 0 <= k < |dram| && k != h ==> ShardBytes(after, dram, k) == ShardBytes(host, dram, k))
      && ShardBytes(after, dram, h) == a + b[|a|..]
  {
    var a, b := ShardBytes(host, dram, g), ShardBytes(host, dram, h);
    assert Poke(host, dram[g].hostPtr, a) == host;
    var after := Poke(host, dram[h].hostPtr, a);
    forall k | 0 <= k < |dram| && k != h ensures ShardBytes(after, dram, k) == ShardBytes(host, dram, k) {
      assert if k < h then ApartChunks(dram[k], dram[h]) else ApartChunks(dram[h], dram[k]);
      PeekAround(host, dram[h].hostPtr, a, dram[k].hostPtr, dram[k].size);
    }
    var got := ShardBytes(after, dram, h);
    forall i | 0 <= i < |b| ensures got[i] == (a + b[|a|..])[i] {
      if i < |a| { assert after[dram[h].hostPtr..dram[h].hostPtr + |a|][i] == a[i]; }
    }
  }

  /** Touching a warm page on `g` and then on `h`, and demoting it, puts shard `g` at the start of
    * shard `h`.  So the page survives if and only if shard `h` started with those bytes. */
  lemma PeerCopyOverwritesAShard(s: State, name: Name, g: nat, h: nat, now: nat, d0: Driver, d1: Driver)
    requires WarmOnBoth(s, name, g, h) && Grants(s.vram, d0) && Grants(s.vram, d1) && d0.ptr != d1.ptr
    requires s.pages[name].dram[g].size <= s.pages[name].dram[h].size
    ensures
      var s2 := AccessStep(AccessStep(s, name, g, now, d0).0, name, h, now, d1).0;
      var (t, r) := DemoteStep(s2, name);
      var dram := s.pages[name].dram;
      var a, b := ShardBytes(s.host, dram, g), ShardBytes(s.host, dram, h);
      && r.Ok? && ShardBytes(t.host, dram, h) == a + b[|a|..]
      && (forall k :: 0 <= k < |dram| && k != h ==> ShardBytes(t.host, dram, k) == ShardBytes(s.host, dram, k))
      && (SameShards(s.host, t.host, dram) <==> a == b[..|a|])
  {
    hide AccessStep, DemoteStep, Poke, Peek;
    var dram := s.pages[name].dram;
    var n := dram[g].size;
    var a, b := ShardBytes(s.host, dram, g), ShardBytes(s.host, dram, h);
    var (s1, r1) := AccessStep(s, name, g, now, d0);
    FirstPromotion(s, name, g, h, now, d0, s1, r1);
    var (s2, r2) := AccessStep(s1, name, h, now, d1);
    PeerPromotion(s1, name, Chunk(g, d0.ptr, n), h, now, d1, s2, r2);
    var (t, r) := DemoteStep(s2, name);
    BothWrittenBack(s2, name, Chunk(g, d0.ptr, n), Chunk(h, d1.ptr, n), t, r);
    WholeBlock(a, n);
    ShardsAfter(s.host, dram, g, h);
    SplitsAt(a, b);
  }

  /** If shard `g` is the larger one, that demotion fails, and the block on `g` ends up both listed by
    * the page and cached. */
  lemma UnevenShardsShareABlock(s: State, name: Name, g: nat, h: nat, now: nat, d0: Driver, d1: Driver)
    requires WarmOnBoth(s, name, g, h) && Grants(s.vram, d0) && Grants(s.vram, d1) && d0.ptr != d1.ptr
    ensures
      var s2 := AccessStep(AccessStep(s, name, g, now, d0).0, name, h, now, d1).0;
      var (t, r) := DemoteStep(s2, name);
      var dram := s.pages[name].dram;
      && (r.Ok? <==> dram[g].size <= dram[h].size)
      && (SharesBlock(t, name) <==> dram[h].size < dram[g].size)
      && (r.Err? ==> t.pages == s2.pages && t.pages[name].vram[0].ptr == d0.ptr && InCache(t, t.pages[name].vram[0]))
  {
    hide AccessStep, DemoteChunks, InCache, Peek, Laid;
    var dram := s.pages[name].dram;
    var n := dram[g].size;
    var (s1, r1) := AccessStep(s, name, g, now, d0);
    FirstPromotion(s, name, g, h, now, d0, s1, r1);
    var (s2, r2) := AccessStep(s1, name, h, now, d1);
    PeerPromotion(s1, name, Chunk(g, d0.ptr, n), h, now, d1, s2, r2);
    TwoFitIff(s2, Chunk(g, d0.ptr, n), Chunk(h, d1.ptr, n), dram);
    DemoteSucceedsIff(s2, name);
    FirstIsCached(s2, s2.pages[name].vram, dram);
  }

  lemma TwoFitIff(s: State, c0: Chunk, c1: Chunk, dram: seq<DramChunk>)
    requires c0.gpu != c1.gpu && c0.gpu < |dram| && c1.gpu < |dram| && c0.gpu < |s.queued| && c1.gpu < |s.queued|
    requires s.queued[c0.gpu] < RING && s.queued[c1.gpu] < RING
    ensures ChunkFits(s, [c0, c1], dram, 0, 0) <==> c0.size <= dram[c0.gpu].size
    ensures ChunkFits(s, [c0, c1], dram, 0, 1) <==> c1.size <= dram[c1.gpu].size
  {
  }

  lemma WholeBlock(a: seq<byte>, n: nat)
    requires |a| == n
    ensures Peek(a, 0, n) == a
  {
  }

  lemma SplitsAt(a: seq<byte>, b: seq<byte>)
    requires |a| <= |b|
    ensures a + b[|a|..] == b <==> a == b[..|a|]
  {
    assert b == b[..|a|] + b[|a|..];
    assert (a + b[|a|..])[..|a|] == a;
  }

  lemma GatherTwo(host: seq<byte>, dram: seq<DramChunk>)
    requires |dram| == 2
    ensures Gather(host, dram) == ShardBytes(host, dram, 0) + ShardBytes(host, dram, 1)
  {
    assert dram[1..][0] == dram[1] && dram[1..][1..] == [];
    assert Gather(host, dram[1..]) == Peek(host, dram[1].hostPtr, dram[1].size) + [];
  }

  /** Two pools from which nothing was taken back, `m` bytes handed out by each. */
  predicate Bumped(pools: seq<Pool>, m: nat) {
    |pools| == 2 && forall i :: 0 <= i < 2 ==> pools[i].heap == RawHeap(pools[i].heap.capacity, m, []) && m + 64 <= pools[i].heap.capacity
  }

  /** The next 64 bytes of the pool are handed out. */
  function Bump(p: Pool): Pool
    requires p.heap.blocks == [] && p.heap.offset + 64 <= p.heap.capacity
  {
    p.(heap := RawHeap(p.heap.capacity, p.heap.offset + 64, []))
  }

  lemma BumpServes(p: Pool, n: nat)
    requires p.heap.blocks == [] && p.heap.offset + 64 <= p.heap.capacity && 0 < n <= 64
    ensures PoolAllocate(p, n) == (Bump(p), Ok(p.base + p.heap.offset))
  {
    BumpIsAllocateSpec(p.heap, n);
  }

  /** A small page is put right above what the two pools have handed out. */
  lemma SmallPageIsPlaced(s: State, name: Name, n: nat, m: nat, t: State, r: Result<Name>)
    requires Wired(s) && Bumped(s.pools, m) && name != "" && 2 <= n <= 64
    requires (t, r) == AllocateStep(s, name, [n], 1, Dram)
    ensures
      && r == Ok(name) && name in t.pages
      && t == s.(pools := [Bump(s.pools[0]), Bump(s.pools[1])], pages := s.pages[name := t.pages[name]])
      && var p := t.pages[name];
        && p.size == n && p.vram == [] && !p.pinned && p.tier == Dram && |p.dram| == 2
        && p.dram[0].hostPtr == s.pools[0].base + m && p.dram[1].hostPtr == s.pools[1].base + m
        && p.dram[0].size == n / 2 && p.dram[1].size == n - n / 2
  {
    hide PoolAllocate;
    var p0, p1 := s.pools[0], s.pools[1];
    assert ShardSize(n, 2, 0) == n / 2 && ShardSize(n, 2, 1) == n - n / 2;
    BumpServes(p0, n / 2);
    BumpServes(p1, n - n / 2);
    assert Product([n]) == n * Product([]);
    var c0, c1 := DramChunk(p0.node, p0.base + m, n / 2), DramChunk(p1.node, p1.base + m, n - n / 2);
    var next := s.pools[0 := Bump(p0)];
    assert AllocShards(s.pools, n, 0, []) == AllocShards(next, n, 1, [] + [c0]);
    assert AllocShards(next, n, 1, [] + [c0]) == AllocShards(next[1 := Bump(p1)], n, 2, [] + [c0] + [c1]);
    assert next[1 := Bump(p1)] == [Bump(p0), Bump(p1)];
  }

  /** A new pool with two GPUs after allocating and writing three bytes: one on the first, two on the second. */
  lemma ThreeBytesStored(p0: Pool, p1: Pool, settings: Settings, host: seq<byte>, s1: State, s: State)
    requires NewPools([p0, p1], |host|) && 64 <= p0.heap.capacity && 64 <= p1.heap.capacity
    requires s1 == AllocateStep(Started([p0, p1], settings, host), "t", [3], 1, Dram).0
    requires s == WriteStep(s1, "t", [1, 2, 3], Sound).0
    ensures WarmOnBoth(s, "t", 0, 1) && WarmOnBoth(s, "t", 1, 0) && |s.pages["t"].dram| == 2 && s.vram == map[]
    ensures ShardBytes(s.host, s.pages["t"].dram, 0) == [1] && ShardBytes(s.host, s.pages["t"].dram, 1) == [2, 3]
  {
    hide AllocateStep, AllocShards, Scatter, Laid;
    var start := Started([p0, p1], settings, host);
    assert start.pools[0] == p0 && start.pools[1] == p1;
    SmallPageIsPlaced(start, "t", 3, 0, s1, AllocateStep(start, "t", [3], 1, Dram).1);
    NewPoolsAgree([p0, p1], |host|);
    AllocateKeepsHost(start, "t", [3], 1, Dram);
    assert ShardSize(3, 2, 0) == 1 && ShardSize(3, 2, 1) == 2;
    ShardsAreLaid(s1, "t");
    WriteRoundTrip(s1, "t", [1, 2, 3], Sound);
    GatherTwo(s.host, s.pages["t"].dram);
    var a, b := ShardBytes(s.host, s.pages["t"].dram, 0), ShardBytes(s.host, s.pages["t"].dram, 1);
    assert a == (a + b)[..1] && b == (a + b)[1..];
  }

  /** Such a page comes from two calls on a new pool with two GPUs, and three more turn its bytes
    * 1 2 3 into 1 1 3. */
  lemma ThreeBytesLost(p0: Pool, p1: Pool, settings: Settings, host: seq<byte>)
    requires NewPools([p0, p1], |host|) && 64 <= p0.heap.capacity && 64 <= p1.heap.capacity
    ensures
      var s := Run(Started([p0, p1], settings, host), [Allocate("t", [3], 1, Dram), WritePage("t", [1, 2, 3], Sound)]);
      && "t" in s.pages && Gather(s.host, s.pages["t"].dram) == [1, 2, 3]
      && var t := Run(s, [Access("t", 0, 0, Grant(1, [])), Access("t", 1, 0, Grant(2, [])), Demote("t")]);
         Gather(t.host, s.pages["t"].dram) == [1, 1, 3]
  {
    hide AllocateStep, WriteStep, AccessStep, DemoteStep, Gather;
    var start := Started([p0, p1], settings, host);
    var s1 := AllocateStep(start, "t", [3], 1, Dram).0;
    var s := WriteStep(s1, "t", [1, 2, 3], Sound).0;
    ThreeBytesStored(p0, p1, settings, host, s1, s);
    TwoSteps(start, Allocate("t", [3], 1, Dram), WritePage("t", [1, 2, 3], Sound));
    var dram := s.pages["t"].dram;
    PeerCopyOverwritesAShard(s, "t", 0, 1, 0, Grant(1, []), Grant(2, []));
    var ops := [Access("t", 0, 0, Grant(1, [])), Access("t", 1, 0, Grant(2, [])), Demote("t")];
    ThreeSteps(s, ops[0], ops[1], ops[2]);
    GatherTwo(s.host, dram);
    GatherTwo(Run(s, ops).host, dram);
    assert [1] + [2, 3][1..] == [1, 3];
  }

  /** Touching it on the second GPU first makes the demotion fail with block 1 both listed and cached. */
  lemma ThreeBytesShared(p0: Pool, p1: Pool, settings: Settings, host: seq<byte>)
    requires NewPools([p0, p1], |host|) && 64 <= p0.heap.capacity && 64 <= p1.heap.capacity
    ensures
      var s := Run(Started([p0, p1], settings, host), [Allocate("t", [3], 1, Dram), WritePage("t", [1, 2, 3], Sound)]);
      var t := Run(s, [Access("t", 1, 0, Grant(1, [])), Access("t", 0, 0, Grant(2, [])), Demote("t")]);
      "t" in t.pages && t.pages["t"].vram != [] && t.pages["t"].vram[0].ptr == 1 && InCache(t, t.pages["t"].vram[0])
  {
    hide AllocateStep, WriteStep, AccessStep, DemoteStep, InCache, Peek;
    var start := Started([p0, p1], settings, host);
    var s1 := AllocateStep(start, "t", [3], 1, Dram).0;
    var s := WriteStep(s1, "t", [1, 2, 3], Sound).0;
    ThreeBytesStored(p0, p1, settings, host, s1, s);
    TwoSteps(start, Allocate("t", [3], 1, Dram), WritePage("t", [1, 2, 3], Sound));
    UnevenShardsShareABlock(s, "t", 1, 0, 0, Grant(1, []), Grant(2, []));
    assert |ShardBytes(s.host, s.pages["t"].dram, 0)| == 1 && |ShardBytes(s.host, s.pages["t"].dram, 1)| == 2;
    var ops := [Access("t", 1, 0, Grant(1, [])), Access("t", 0, 0, Grant(2, [])), Demote("t")];
    ThreeSteps(s, ops[0], ops[1], ops[2]);
  }

  lemma TwoSteps(s: State, a: Op, b: Op)
    requires Wired(s)
    ensures Run(s, [a, b]) == Step(Step(s, a).0, b).0
  {
    hide Step;
    assert [a, b][1..] == [b] && [b][1..] == [];
    assert Run(Step(s, a).0, [b]) == Run(Step(Step(s, a).0, b).0, []);
  }

  lemma ThreeSteps(s: State, a: Op, b: Op, c: Op)
    requires Wired(s)
    ensures Run(s, [a, b, c]) == Step(Step(Step(s, a).0, b).0, c).0
  {
    hide Step;
    assert [a, b, c][1..] == [b, c];
    TwoSteps(Step(s, a).0, b, c);
  }
}
