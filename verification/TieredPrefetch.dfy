/** Several GPUs: what a prefetch copies, and what becomes of one that an access elsewhere discards. */
module TieredPrefetch {
  import opened Common
  import opened DramPools
  import opened Spills
  import opened Vmt
  import opened Tiered
  import opened TieredHost
  import opened TieredScatter
  import opened TieredMany
  import opened TieredOutcomes
  import opened TieredPeer
  import opened TieredMoves

  // ---------------------------------------------------- the bytes a prefetch copies

  /** A prefetch of the page is under way, into a block of its length. */
  predicate OnItsWay(s: State, name: Name) {
    && name in s.inflight && name in s.pages && s.inflight[name].size == s.pages[name].size
    && s.inflight[name].ptr in s.vram && |s.vram[s.inflight[name].ptr]| == s.pages[name].size
  }

  /** The bytes behind the first shard, where a prefetch of the whole page goes on reading. */
  function Behind(host: seq<byte>, p: Page): (r: seq<byte>)
    requires p.dram != [] && p.dram[0].size <= p.size
  {
    Peek(host, p.dram[0].hostPtr + p.dram[0].size, p.size - p.dram[0].size)
  }

  /** Starting a prefetch and claiming it on the same GPU. */
  lemma ClaimedPrefetch(s: State, name: Name, g: nat, now: nat, d: Driver, d': Driver, s1: State, t: State, r: Result<nat>)
    requires Wired(s) && g < |s.pools| && name in s.pages && name !in s.inflight
    requires s.pages[name].tier == Dram && s.pages[name].dram != []
    requires s1 == PrefetchStep(s, name, g, d).0 && OnItsWay(s1, name) && (t, r) == AccessStep(s1, name, g, now, d')
    ensures
      var (p, ptr) := (s.pages[name], s1.inflight[name].ptr);
      && r == Ok(ptr) && ptr in t.vram && t.vram[ptr] == Peek(s.host, p.dram[0].hostPtr, p.size)
      && t.queued == s.queued && t.host == s.host && t.pools == s.pools
      && t.pages == s.pages[name := p.Touch(now).(vram := p.vram + [Chunk(g, ptr, p.size)], tier := Vram, state := Resident)]
  {
    hide Peek;
  }

  lemma PeekSplits(mem: seq<byte>, a: nat, n: nat, k: nat)
    requires k <= n
    ensures Peek(mem, a, n) == Peek(mem, a, k) + Peek(mem, a + k, n - k)
  {
  }

  lemma SameTail(a: seq<byte>, b: seq<byte>, c: seq<byte>)
    ensures a + b == a + c <==> b == c
  {
    assert (a + b)[|a|..] == b && (a + c)[|a|..] == c;
  }

  /** Any number of GPUs: the claimed block holds the first shard and then whatever follows it in host
    * memory.  It holds the page if and only if the other shards read the same. */
  lemma PrefetchCopiesForeignBytes(s: State, name: Name, g: nat, now: nat, d: Driver, d': Driver)
    requires Wired(s) && g < |s.pools| && name in s.pages && name !in s.inflight
    requires s.pages[name].tier == Dram && Sharded(s.pages[name], |s.pools|)
    requires OnItsWay(PrefetchStep(s, name, g, d).0, name)
    ensures
      var (t, r) := AccessStep(PrefetchStep(s, name, g, d).0, name, g, now, d');
      var p := s.pages[name];
      && p.dram[0].size <= p.size && r.Ok? && r.value in t.vram
      && t.vram[r.value] == ShardBytes(s.host, p.dram, 0) + Behind(s.host, p)
      && (t.vram[r.value] == Gather(s.host, p.dram) <==> Behind(s.host, p) == Gather(s.host, p.dram[1..]))
  {
    hide AccessStep, PrefetchStep, Peek;
    var p := s.pages[name];
    var s1 := PrefetchStep(s, name, g, d).0;
    var (t, r) := AccessStep(s1, name, g, now, d');
    ClaimedPrefetch(s, name, g, now, d, d', s1, t, r);
    ShardAtMost(p.size, |s.pools|, 0);
    PeekSplits(s.host, p.dram[0].hostPtr, p.size, p.dram[0].size);
    SameTail(ShardBytes(s.host, p.dram, 0), Behind(s.host, p), Gather(s.host, p.dram[1..]));
  }

  /** A shard is never larger than the page, and holds all of it only where the others are empty. */
  lemma ShardAtMost(total: nat, n: nat, i: nat)
    requires i < n
    ensures ShardSize(total, n, i) <= total
    ensures ShardSize(total, n, i) == total <==> n == 1 || total == 0 || (total < n && i + 1 == n)
  {
    DivMod(total, n);
    var q := total / n;
    if n == 1 {
    } else {
      assert n * q == q + (n - 1) * q;
      assert (n - 1) * q >= q;
      assert q == 0 ==> total == total % n;
    }
  }

  /** Any number of GPUs: afterwards the page can be demoted if and only if that GPU's shard is the whole
    * page and its ring has a slot.  With several GPUs and a byte for each of them it never can. */
  lemma PrefetchedPageDemotesIff(s: State, name: Name, g: nat, now: nat, d: Driver, d': Driver)
    requires Wired(s) && g < |s.pools| && name in s.pages && name !in s.inflight
    requires
      var p := s.pages[name];
      p.tier == Dram && p.vram == [] && !p.pinned && Sharded(p, |s.pools|)
    requires OnItsWay(PrefetchStep(s, name, g, d).0, name)
    ensures
      var t := AccessStep(PrefetchStep(s, name, g, d).0, name, g, now, d').0;
      var (p, n) := (s.pages[name], |s.pools|);
      DemoteStep(t, name).1.Ok? <==>
        s.queued[g] < RING && (n == 1 || p.size == 0 || (p.size < n && g + 1 == n))
  {
    hide AccessStep, PrefetchStep, DemoteStep, ShardSize, Peek;
    var p := s.pages[name];
    var s1 := PrefetchStep(s, name, g, d).0;
    var (t, r) := AccessStep(s1, name, g, now, d');
    ClaimedPrefetch(s, name, g, now, d, d', s1, t, r);
    DemoteSucceedsIff(t, name);
    ShardAtMost(p.size, |s.pools|, g);
    var c := Chunk(g, r.value, p.size);
    assert t.pages[name].vram == [c];
    assert ChunkFits(t, [c], p.dram, 0, 0) <==> p.size <= p.dram[g].size && s.queued[g] < RING;
  }

  /** So a page with a byte for each of several GPUs is stuck in the top tier once a prefetch of it has
    * been claimed. */
  lemma ClaimedPrefetchIsStuck(s: State, name: Name, g: nat, now: nat, d: Driver, d': Driver)
    requires Wired(s) && g < |s.pools| && name in s.pages && name !in s.inflight
    requires s.pages[name].tier == Dram && Sharded(s.pages[name], |s.pools|) && 1 < |s.pools| <= s.pages[name].size
    requires OnItsWay(PrefetchStep(s, name, g, d).0, name)
    ensures StuckIn(AccessStep(PrefetchStep(s, name, g, d).0, name, g, now, d').0, name)
  {
    hide AccessStep, PrefetchStep, ShardSize, Peek;
    var p := s.pages[name];
    var s1 := PrefetchStep(s, name, g, d).0;
    var (t, r) := AccessStep(s1, name, g, now, d');
    ClaimedPrefetch(s, name, g, now, d, d', s1, t, r);
    ShardAtMost(p.size, |s.pools|, g);
    assert Oversized(t.pages[name], t.pages[name].vram[|p.vram|]);
  }

  /** What lies behind the first shard of the three bytes is what was there before. */
  lemma ThreeBytesBehind(p0: Pool, p1: Pool, settings: Settings, host: seq<byte>, s1: State, s: State)
    requires NewPools([p0, p1], |host|) && 64 <= p0.heap.capacity && 64 <= p1.heap.capacity
    requires s1 == AllocateStep(Started([p0, p1], settings, host), "t", [3], 1, Dram).0
    requires s == WriteStep(s1, "t", [1, 2, 3], Sound).0
    ensures |s.cache| == 2 && s.cache[0] == [] && "t" in s.pages && s.pages["t"].size == 3 && Sharded(s.pages["t"], 2)
    ensures Behind(s.host, s.pages["t"]) == Peek(host, p0.base + 1, 2)
  {
    hide AllocateStep, HostOk, Scatter, Gather, Peek;
    var start := Started([p0, p1], settings, host);
    assert start.pools[0] == p0 && start.pools[1] == p1;
    SmallPageIsPlaced(start, "t", 3, 0, s1, AllocateStep(start, "t", [3], 1, Dram).1);
    NewPoolsAgree([p0, p1], |host|);
    AllocateKeepsHost(start, "t", [3], 1, Dram);
    assert ShardSize(3, 2, 0) == 1 && ShardSize(3, 2, 1) == 2;
    WriteRoundTrip(s1, "t", [1, 2, 3], Sound);
    assert Separate([p0, p1][0], [p0, p1][1]);
    var dram := s1.pages["t"].dram;
    assert OutsideAll(dram, p0.base + 1) && OutsideAll(dram, p0.base + 2);
    SameBytes(host, s.host, p0.base + 1);
  }

  lemma SameBytes(a: seq<byte>, b: seq<byte>, p: nat)
    requires |a| == |b| && p + 2 <= |a| && a[p] == b[p] && a[p + 1] == b[p + 1]
    ensures Peek(a, p, 2) == Peek(b, p, 2)
  {
  }

  /** On a new pool with two GPUs: a prefetch of the bytes 1 2 3, claimed on its own GPU, yields 1 and
    * the two bytes of host memory behind it, and the page cannot be demoted. */
  lemma ThreeBytesPrefetched(p0: Pool, p1: Pool, settings: Settings, host: seq<byte>)
    requires NewPools([p0, p1], |host|) && 64 <= p0.heap.capacity && 64 <= p1.heap.capacity
    ensures
      var s := Run(Started([p0, p1], settings, host), [Allocate("t", [3], 1, Dram), WritePage("t", [1, 2, 3], Sound)]);
      var t := Run(s, [Prefetch("t", 0, Grant(1, [])), Access("t", 0, 0, Refuse)]);
      && "t" in t.pages && t.pages["t"].vram == [Chunk(0, 1, 3)]
      && 1 in t.vram && t.vram[1] == [1] + Peek(host, p0.base + 1, 2)
      && DemoteStep(t, "t").1.Err?
  {
    hide AllocateStep, WriteStep, AccessStep, DemoteStep, Peek, NewPools, Run;
    var start := Started([p0, p1], settings, host);
    var s1 := AllocateStep(start, "t", [3], 1, Dram).0;
    var s := WriteStep(s1, "t", [1, 2, 3], Sound).0;
    ThreeBytesStored(p0, p1, settings, host, s1, s);
    ThreeBytesBehind(p0, p1, settings, host, s1, s);
    TwoSteps(start, Allocate("t", [3], 1, Dram), WritePage("t", [1, 2, 3], Sound));
    TwoSteps(s, Prefetch("t", 0, Grant(1, [])), Access("t", 0, 0, Refuse));
    assert FindSize([], 3).None?;
    StartsPrefetch(s, "t", 0, Grant(1, []));
    var s2 := PrefetchStep(s, "t", 0, Grant(1, [])).0;
    var (t, r) := AccessStep(s2, "t", 0, 0, Refuse);
    ClaimedPrefetch(s, "t", 0, 0, Grant(1, []), Refuse, s2, t, r);
    PrefetchCopiesForeignBytes(s, "t", 0, 0, Grant(1, []), Refuse);
    PrefetchedPageDemotesIff(s, "t", 0, 0, Grant(1, []), Refuse);
  }

  /** The driver grants a block: the prefetch is under way. */
  lemma StartsPrefetch(s: State, name: Name, g: nat, d: Driver)
    requires Wired(s) && g < |s.pools| && name in s.pages && name !in s.inflight
    requires s.pages[name].tier == Dram && s.pages[name].dram != []
    requires Grants(s.vram, d) && FindSize(s.cache[g], s.pages[name].size).None?
    ensures OnItsWay(PrefetchStep(s, name, g, d).0, name) && PrefetchStep(s, name, g, d).0.inflight[name].ptr == d.ptr
  {
    hide Peek;
  }

  // -------------------------------------------- a discarded prefetch that still lands

  /** The recycle cache offers block `ptr` for `n` bytes; if a copy to it is outstanding, it is that long. */
  predicate Offered(s: State, g: nat, ptr: nat, n: nat) {
    && g < |s.cache| && FindSize(s.cache[g], n).Some? && s.cache[g][FindSize(s.cache[g], n).value].ptr == ptr
    && ptr in s.vram && |s.vram[ptr]| == n && (ptr in s.copies ==> s.copies[ptr].size == n)
  }

  /** A warm page with a shard of `n` bytes on GPU `g`, and a slot in the ring. */
  predicate WarmOn(s: State, u: Name, g: nat, n: nat)
    requires Wired(s)
  {
    && u in s.pages && u !in s.inflight && s.pages[u].tier == Dram
    && g < |s.pools| && g < |s.pages[u].dram| && s.pages[u].dram[g].size == n && s.queued[g] < RING
  }

  /** The page is given the offered block, which holds its shard until an outstanding copy lands. */
  lemma OfferedBlockIsOverwritten(s: State, u: Name, g: nat, ptr: nat, n: nat, now: nat, d: Driver)
    requires Wired(s) && WarmOn(s, u, g, n) && Offered(s, g, ptr, n)
    ensures
      var (t, r) := AccessStep(s, u, g, now, d);
      var shard := ShardBytes(s.host, s.pages[u].dram, g);
      && r == Ok(ptr) && u in t.pages && t.pages[u].vram == s.pages[u].vram + [Chunk(g, ptr, n)]
      && ptr in t.vram && t.vram[ptr] == shard && ptr in Land(t, ptr).vram
      && Land(t, ptr).vram[ptr] == (if ptr in s.copies then Peek(s.host, s.copies[ptr].src, n) else shard)
  {
    hide Peek;
    var shard := ShardBytes(s.host, s.pages[u].dram, g);
    WholePoke(s.vram[ptr], shard);
    if ptr in s.copies { WholePoke(shard, Peek(s.host, s.copies[ptr].src, n)); }
  }

  lemma WholePoke(mem: seq<byte>, data: seq<byte>)
    requires |data| == |mem|
    ensures Poke(mem, 0, data) == data
  {
  }

  /** Any number of GPUs: an access elsewhere puts the prefetched block into the recycle cache without
    * waiting for its copy.  A page `u` that is then given the block keeps its bytes if and only if no
    * copy is outstanding or it brings those very bytes. */
  lemma DiscardedPrefetchOverwritesIff(s: State, name: Name, g: nat, u: Name, now: nat, d: Driver)
    requires Wired(s) && name in s.inflight && s.inflight[name].gpu != g && s.inflight[name].ptr != 0
    requires
      var f := s.inflight[name];
      && f.gpu < |s.cache| && FindSize(s.cache[f.gpu], f.size).None? && f.ptr in s.vram && |s.vram[f.ptr]| == f.size
      && (f.ptr in s.copies ==> s.copies[f.ptr].size == f.size)
      && WarmOn(s.(inflight := s.inflight - {name}), u, f.gpu, f.size)
    ensures
      var f := s.inflight[name];
      var (t, r) := AccessStep(ClaimStep(s, name, g, now).0, u, f.gpu, now, d);
      var shard := ShardBytes(s.host, s.pages[u].dram, f.gpu);
      && r == Ok(f.ptr) && f.ptr in t.vram && t.vram[f.ptr] == shard && f.ptr in Land(t, f.ptr).vram
      && (Land(t, f.ptr).vram[f.ptr] == shard <==> f.ptr !in s.copies || Peek(s.host, s.copies[f.ptr].src, f.size) == shard)
  {
    hide AccessStep, Peek, Land;
    var f := s.inflight[name];
    var t := ClaimStep(s, name, g, now).0;
    AppendedIsFound(s.cache[f.gpu], f.size, f.ptr);
    OfferedBlockIsOverwritten(t, u, f.gpu, f.ptr, f.size, now, d);
  }

  lemma {:induction false} AppendedIsFound(c: seq<Cached>, n: nat, ptr: nat)
    requires FindSize(c, n).None?
    ensures FindSize(c + [Cached(n, ptr)], n) == Some(|c|)
    decreases |c|
  {
    if c == [] {
    } else {
      assert (c + [Cached(n, ptr)])[1..] == c[1..] + [Cached(n, ptr)];
      assert FindSize(c[1..], n).None?;
      AppendedIsFound(c[1..], n, ptr);
    }
  }

  // ------------------------------------------------------ the same from a new pool

  /** Pages "a" and "b" of two and four bytes, half on each of two GPUs, and nothing else going on. */
  ghost predicate TwoPages(s: State) {
    && Wired(s) && |s.pools| == 2 && s.cache == [[], []] && s.queued == [0, 0]
    && s.inflight == map[] && s.copies == map[] && s.vram == map[]
    && "a" in s.pages && "b" in s.pages
    && var (a, b) := (s.pages["a"], s.pages["b"]);
      && a.size == 2 && a.tier == Dram && a.vram == [] && |a.dram| == 2 && a.dram[0].size == 1 && a.dram[1].size == 1
      && b.size == 4 && b.tier == Dram && b.vram == [] && |b.dram| == 2 && b.dram[0].size == 2 && b.dram[1].size == 2
      && ShardBytes(s.host, a.dram, 0) == [1] && ShardBytes(s.host, b.dram, 0) == [2, 2]
  }

  /** The calls that make them. */
  function TwoPageCalls(): seq<Op> {
    [Allocate("a", [2], 1, Dram), Allocate("b", [4], 1, Dram),
     WritePage("a", [1, 1], Sound), WritePage("b", [2, 2, 2, 2], Sound)]
  }

  lemma TwoPagesPlaced(p0: Pool, p1: Pool, settings: Settings, host: seq<byte>, s1: State, s2: State)
    requires NewPools([p0, p1], |host|) && 128 <= p0.heap.capacity && 128 <= p1.heap.capacity
    requires s1 == AllocateStep(Started([p0, p1], settings, host), "a", [2], 1, Dram).0
    requires Wired(s1) && s2 == AllocateStep(s1, "b", [4], 1, Dram).0
    ensures
      && Wired(s2) && |s2.pools| == 2 && s2.cache == [[], []] && s2.queued == [0, 0]
      && s2.inflight == map[] && s2.copies == map[] && s2.vram == map[]
      && HostOk(s2.pools, s2.pages, |s2.host|) && "a" in s2.pages && "b" in s2.pages
      && var (a, b) := (s2.pages["a"], s2.pages["b"]);
        && a.size == 2 && a.tier == Dram && a.vram == [] && Sharded(a, 2)
        && b.size == 4 && b.tier == Dram && b.vram == [] && Sharded(b, 2)
        && b.dram[0].hostPtr == a.dram[0].hostPtr + 64 && ApartChunks(a.dram[0], b.dram[1])
  {
    hide AllocateStep, HostOk;
    var start := Started([p0, p1], settings, host);
    assert start.pools[0] == p0 && start.pools[1] == p1;
    NewPoolsAgree([p0, p1], |host|);
    SmallPageIsPlaced(start, "a", 2, 0, s1, AllocateStep(start, "a", [2], 1, Dram).1);
    AllocateKeepsHost(start, "a", [2], 1, Dram);
    SmallPageIsPlaced(s1, "b", 4, 64, s2, AllocateStep(s1, "b", [4], 1, Dram).1);
    AllocateKeepsHost(s1, "b", [4], 1, Dram);
    assert ShardSize(2, 2, 0) == 1 && ShardSize(2, 2, 1) == 1 && ShardSize(4, 2, 0) == 2 && ShardSize(4, 2, 1) == 2;
    assert Separate([p0, p1][0], [p0, p1][1]);
  }

  lemma TwoPagesStored(p0: Pool, p1: Pool, settings: Settings, host: seq<byte>)
    requires NewPools([p0, p1], |host|) && 128 <= p0.heap.capacity && 128 <= p1.heap.capacity
    ensures TwoPages(Run(Started([p0, p1], settings, host), TwoPageCalls()))
  {
    hide AllocateStep, WriteStep, HostOk, TwoPages, Sharded, ApartChunks, NewPools;
    var start := Started([p0, p1], settings, host);
    var s1 := AllocateStep(start, "a", [2], 1, Dram).0;
    var s2 := AllocateStep(s1, "b", [4], 1, Dram).0;
    TwoPagesPlaced(p0, p1, settings, host, s1, s2);
    var s3 := WriteStep(s2, "a", [1, 1], Sound).0;
    TwoPagesWritten(s2, s3, WriteStep(s3, "b", [2, 2, 2, 2], Sound).0);
    FourSteps(start, TwoPageCalls());
  }

  lemma FourSteps(s: State, ops: seq<Op>)
    requires Wired(s) && |ops| == 4
    ensures Run(s, ops) == Step(Step(Step(Step(s, ops[0]).0, ops[1]).0, ops[2]).0, ops[3]).0
  {
    hide Step;
    assert ops[1..] == [ops[1], ops[2], ops[3]];
    ThreeSteps(Step(s, ops[0]).0, ops[1], ops[2], ops[3]);
  }

  lemma TwoPagesWritten(s2: State, s3: State, s4: State)
    requires Wired(s2) && |s2.pools| == 2 && HostOk(s2.pools, s2.pages, |s2.host|)
    requires s2.cache == [[], []] && s2.queued == [0, 0] && s2.inflight == map[] && s2.copies == map[] && s2.vram == map[]
    requires "a" in s2.pages && "b" in s2.pages
    requires
      var (a, b) := (s2.pages["a"], s2.pages["b"]);
      && a.size == 2 && a.tier == Dram && a.vram == [] && Sharded(a, 2)
      && b.size == 4 && b.tier == Dram && b.vram == [] && Sharded(b, 2)
      && b.dram[0].hostPtr == a.dram[0].hostPtr + 64 && ApartChunks(a.dram[0], b.dram[1])
    requires s3 == WriteStep(s2, "a", [1, 1], Sound).0 && s4 == WriteStep(s3, "b", [2, 2, 2, 2], Sound).0
    ensures TwoPages(s4)
  {
    hide HostOk, Gather, Scatter;
    var (a, b) := (s2.pages["a"], s2.pages["b"]);
    assert ShardSize(2, 2, 0) == 1 && ShardSize(2, 2, 1) == 1 && ShardSize(4, 2, 0) == 2 && ShardSize(4, 2, 1) == 2;
    WriteRoundTrip(s2, "a", [1, 1], Sound);
    WriteRoundTrip(s3, "b", [2, 2, 2, 2], Sound);
    ShardsAreLaid(s2, "a");
    GatherTwo(s3.host, a.dram);
    GatherTwo(s4.host, b.dram);
    var a0, a1 := ShardBytes(s3.host, a.dram, 0), ShardBytes(s3.host, a.dram, 1);
    assert a0 == (a0 + a1)[..1];
    var b0, b1 := ShardBytes(s4.host, b.dram, 0), ShardBytes(s4.host, b.dram, 1);
    assert b0 == (b0 + b1)[..2];
    assert OutsideAll(b.dram, a.dram[0].hostPtr);
    assert ShardBytes(s4.host, a.dram, 0) == a0;
  }

  /** Prefetch "a" to the first GPU and touch it on the second: block 1 is cached, its copy outstanding. */
  lemma PrefetchedThenTouched(s: State, s1: State, s2: State)
    requires TwoPages(s) && s1 == PrefetchStep(s, "a", 0, Grant(1, [])).0 && s2 == AccessStep(s1, "a", 1, 0, Grant(2, [])).0
    ensures Wired(s2) && WarmOn(s2, "b", 0, 2) && Offered(s2, 0, 1, 2) && s2.host == s.host
    ensures s2.pages["b"] == s.pages["b"] && s2.copies == map[1 := Copy(s.pages["a"].dram[0].hostPtr, 2)]
  {
    hide Peek, Poke;
    assert s1.inflight["a"] == Flight(0, 1, 2);
    var t := ClaimStep(s1.(membrane := s1.membrane.Observed("a")), "a", 1, 0).0;
    assert s1.cache[0] + [Cached(2, 1)] == [Cached(2, 1)];
    assert t.cache[0] == [Cached(2, 1)] && t.cache[1] == [];
    assert FindSize(t.cache[1], 1).None?;
    assert s2.cache == t.cache;
    assert FindSize([Cached(2, 1)], 2) == Some(0);
  }

  /** On a new pool with two GPUs: page "b", given the block of a discarded prefetch of "a", reads 2 2
    * until the prefetch's copy lands, and not afterwards. */
  lemma TwoBytesOverwritten(p0: Pool, p1: Pool, settings: Settings, host: seq<byte>)
    requires NewPools([p0, p1], |host|) && 128 <= p0.heap.capacity && 128 <= p1.heap.capacity
    ensures
      var s := Run(Started([p0, p1], settings, host), TwoPageCalls());
      var t := Run(s, [Prefetch("a", 0, Grant(1, [])), Access("a", 1, 0, Grant(2, [])), Access("b", 0, 0, Refuse)]);
      && "b" in t.pages && t.pages["b"].vram == [Chunk(0, 1, 2)] && 1 in t.vram && t.vram[1] == [2, 2]
      && var u := Step(t, CopyLands(1)).0;
        u.pages == t.pages && 1 in u.vram && u.vram[1] != [2, 2]
  {
    hide PrefetchStep, AccessStep, Run, NewPools, Peek, Land;
    TwoPagesStored(p0, p1, settings, host);
    var s := Run(Started([p0, p1], settings, host), TwoPageCalls());
    ThreeSteps(s, Prefetch("a", 0, Grant(1, [])), Access("a", 1, 0, Grant(2, [])), Access("b", 0, 0, Refuse));
    var s1 := PrefetchStep(s, "a", 0, Grant(1, [])).0;
    var s2 := AccessStep(s1, "a", 1, 0, Grant(2, [])).0;
    PrefetchedThenTouched(s, s1, s2);
    OfferedBlockIsOverwritten(s2, "b", 0, 1, 2, 0, Refuse);
    var src := s.pages["a"].dram[0].hostPtr;
    PeekSplits(s.host, src, 2, 1);
    assert (Peek(s.host, src, 1) + Peek(s.host, src + 1, 1))[0] == 1;
  }
}
