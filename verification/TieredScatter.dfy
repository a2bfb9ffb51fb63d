/** Splitting a page over the pools and writing it back: the shards, in pool order, are the page. */
module TieredScatter {
  import opened Common
  import opened DramPools
  import opened Spills
  import opened Vmt
  import opened Tiered
  import opened TieredHost

  /** Sizes of the first `i` shards. */
  function ShardTotal(total: nat, n: nat, i: nat): nat
    requires 0 < n
  {
    if i == 0 then 0 else ShardTotal(total, n, i - 1) + ShardSize(total, n, i - 1)
  }

  lemma {:induction false} ShardTotalBelow(total: nat, n: nat, i: nat)
    requires 0 < n && i < n
    ensures ShardTotal(total, n, i) == i * (total / n)
  {
    if 0 < i {
      ShardTotalBelow(total, n, i - 1);
      Distribute(i, total / n);
    }
  }

  lemma Distribute(i: nat, q: nat)
    requires 0 < i
    ensures (i - 1) * q + q == i * q
  {
  }

  lemma DivMod(total: nat, n: nat)
    requires 0 < n
    ensures n * (total / n) + total % n == total
  {
  }

  /** The shards account for every byte of the page. */
  lemma ShardsSumToTotal(total: nat, n: nat)
    requires 0 < n
    ensures ShardTotal(total, n, n) == total
  {
    ShardTotalBelow(total, n, n - 1);
    Distribute(n, total / n);
    DivMod(total, n);
  }

  /** The bytes of the chunks, one after another. */
  function Gather(host: seq<byte>, chunks: seq<DramChunk>): seq<byte>
    decreases |chunks|
  {
    if chunks == [] then [] else Peek(host, chunks[0].hostPtr, chunks[0].size) + Gather(host, chunks[1..])
  }

  function SizeOf(chunks: seq<DramChunk>): nat
    decreases |chunks|
  {
    if chunks == [] then 0 else chunks[0].size + SizeOf(chunks[1..])
  }

  predicate Inside(c: DramChunk, p: int) { c.hostPtr <= p < c.hostPtr + c.size }

  predicate ApartChunks(c: DramChunk, d: DramChunk) {
    c.hostPtr + c.size <= d.hostPtr || d.hostPtr + d.size <= c.hostPtr
  }

  /** Chunks are non-empty, in host memory and pairwise apart. */
  ghost predicate Laid(chunks: seq<DramChunk>, hostLen: nat) {
    && (forall i :: 0 <= i < |chunks| ==> 0 < chunks[i].size && chunks[i].hostPtr + chunks[i].size <= hostLen)
    && (forall i, j :: 0 <= i < j < |chunks| ==> ApartChunks(chunks[i], chunks[j]))
  }

  lemma LaidTail(chunks: seq<DramChunk>, hostLen: nat)
    requires Laid(chunks, hostLen) && chunks != []
    ensures Laid(chunks[1..], hostLen)
  {
    forall i, j | 0 <= i < j < |chunks[1..]| ensures ApartChunks(chunks[1..][i], chunks[1..][j]) {
      assert ApartChunks(chunks[i + 1], chunks[j + 1]);
    }
  }

  ghost predicate OutsideAll(chunks: seq<DramChunk>, p: int) {
    forall i :: 0 <= i < |chunks| ==> !Inside(chunks[i], p)
  }

  lemma OutsideTail(chunks: seq<DramChunk>, p: int)
    requires chunks != [] && OutsideAll(chunks, p)
    ensures !Inside(chunks[0], p) && OutsideAll(chunks[1..], p)
  {
  }

  lemma HeadOutsideTail(chunks: seq<DramChunk>, hostLen: nat, p: int)
    requires Laid(chunks, hostLen) && chunks != [] && Inside(chunks[0], p)
    ensures OutsideAll(chunks[1..], p)
  {
    forall i | 0 <= i < |chunks[1..]| ensures !Inside(chunks[1..][i], p) {
      assert ApartChunks(chunks[0], chunks[i + 1]);
    }
  }

  /** Scattering touches no byte outside the chunks. */
  lemma {:induction false} ScatterElsewhere(host: seq<byte>, chunks: seq<DramChunk>, data: seq<byte>, written: nat, p: nat)
    requires written <= |data| && p < |host| && OutsideAll(chunks, p)
    ensures Scatter(host, chunks, data, written).0[p] == host[p]
    decreases |chunks|
  {
    if chunks != [] {
      var end := if written + chunks[0].size <= |data| then written + chunks[0].size else |data|;
      if written < end {
        OutsideTail(chunks, p);
        ScatterElsewhere(Poke(host, chunks[0].hostPtr, data[written..end]), chunks[1..], data, end, p);
      }
    }
  }

  /** Scattering fills the chunks with the data, in order. */
  lemma {:induction false} ScatterFills(host: seq<byte>, chunks: seq<DramChunk>, data: seq<byte>, written: nat)
    requires Laid(chunks, |host|) && written + SizeOf(chunks) == |data|
    ensures Scatter(host, chunks, data, written).1 == |data|
    ensures Gather(Scatter(host, chunks, data, written).0, chunks) == data[written..]
    decreases |chunks|
  {
    if chunks != [] {
      var c, end := chunks[0], written + chunks[0].size;
      var host1 := Poke(host, c.hostPtr, data[written..end]);
      var host2 := Scatter(host1, chunks[1..], data, end).0;
      LaidTail(chunks, |host|);
      ScatterFills(host1, chunks[1..], data, end);
      forall p: nat | c.hostPtr <= p < c.hostPtr + c.size ensures host2[p] == host1[p] {
        HeadOutsideTail(chunks, |host|, p);
        ScatterElsewhere(host1, chunks[1..], data, end, p);
      }
      PeekPoke(host, c.hostPtr, data[written..end]);
      assert Peek(host2, c.hostPtr, c.size) == Peek(host1, c.hostPtr, c.size);
      assert data[written..end] + data[end..] == data[written..];
    }
  }

  /** A page's chunks as `allocate` leaves them: one per pool, of the shard sizes. */
  ghost predicate Sharded(p: Page, n: nat)
    requires 0 < n
  {
    |p.dram| == n && forall i :: 0 <= i < n ==> p.dram[i].size == ShardSize(p.size, n, i)
  }

  lemma {:induction false} AllocShardsSizes(pools: seq<Pool>, total: nat, i: nat, chunks: seq<DramChunk>)
    requires 0 < |pools| && |chunks| == i <= |pools|
    requires forall j :: 0 <= j < i ==> chunks[j].size == ShardSize(total, |pools|, j) && chunks[j].node == pools[j].node
    ensures
      var (_, cs, err) := AllocShards(pools, total, i, chunks);
      && (err.None? ==> |cs| == |pools|)
      && |cs| <= |pools| && (forall j :: 0 <= j < |cs| ==> cs[j].size == ShardSize(total, |pools|, j) && cs[j].node == pools[j].node)
    decreases |pools| - i
  {
    if i < |pools| {
      var n := ShardSize(total, |pools|, i);
      var (p, r) := PoolAllocate(pools[i], n);
      if r.Ok? { AllocShardsSizes(pools[i := p], total, i + 1, chunks + [DramChunk(p.node, r.value, n)]); }
    }
  }

  /** A successful warm allocation shards the page over all pools, each chunk on its pool's node. */
  lemma AllocateShards(s: State, name: Name, shape: seq<nat>, elementSize: nat, tier: Tier)
    requires Wired(s) && tier != Ssd && AllocateStep(s, name, shape, elementSize, tier).1.Ok?
    ensures
      var (t, r) := AllocateStep(s, name, shape, elementSize, tier);
      && r.value in t.pages && t.pages[r.value].size == Product(shape) * elementSize && Sharded(t.pages[r.value], |s.pools|)
      && forall i :: 0 <= i < |s.pools| ==> t.pages[r.value].dram[i].node == s.pools[i].node
  {
    AllocShardsSizes(s.pools, Product(shape) * elementSize, 0, []);
  }

  lemma {:induction false} SizeOfShards(chunks: seq<DramChunk>, total: nat, n: nat, k: nat)
    requires 0 < n == |chunks| && k <= n
    requires forall i :: 0 <= i < n ==> chunks[i].size == ShardSize(total, n, i)
    ensures ShardTotal(total, n, k) + SizeOf(chunks[k..]) == ShardTotal(total, n, n)
    decreases n - k
  {
    if k < n {
      SizeOfShards(chunks, total, n, k + 1);
      assert chunks[k..][0] == chunks[k] && chunks[k..][1..] == chunks[k + 1..];
    }
  }

  lemma ShardsAreLaid(s: State, name: Name)
    requires Wired(s) && HostOk(s.pools, s.pages, |s.host|) && name in s.pages && Sharded(s.pages[name], |s.pools|)
    requires |s.pools| <= s.pages[name].size
    ensures Laid(s.pages[name].dram, |s.host|)
  {
    var p, n := s.pages[name], |s.pools|;
    forall i | 0 <= i < n ensures 0 < p.dram[i].size && p.dram[i].hostPtr + p.dram[i].size <= s.pools[i].End() && s.pools[i].base <= p.dram[i].hostPtr {
      QuotientPositive(p.size, n);
      SpanInPool(s.pools, s.pages, |s.host|, name, i);
    }
    forall i, j | 0 <= i < j < n ensures ApartChunks(p.dram[i], p.dram[j]) {
      assert Separate(s.pools[i], s.pools[j]);
    }
  }

  lemma QuotientPositive(total: nat, n: nat)
    requires 0 < n <= total
    ensures 0 < total / n
  {
  }

  /** Writing a warm page of at least as many bytes as there are pools: the shards, in pool order,
    * are the data, and no other host byte changes. */
  lemma WriteRoundTrip(s: State, name: Name, data: seq<byte>, disk: Disk)
    requires Wired(s) && HostOk(s.pools, s.pages, |s.host|)
    requires name in s.pages && s.pages[name].tier != Ssd && Sharded(s.pages[name], |s.pools|)
    requires |s.pools| <= s.pages[name].size == |data|
    ensures
      var (t, r) := WriteStep(s, name, data, disk);
      && r.Ok? && Gather(t.host, s.pages[name].dram) == data
      && (forall p :: 0 <= p < |s.host| && OutsideAll(s.pages[name].dram, p) ==> t.host[p] == s.host[p])
  {
    var dram, n := s.pages[name].dram, |s.pools|;
    ShardsAreLaid(s, name);
    SizeOfShards(dram, |data|, n, 0);
    ShardsSumToTotal(|data|, n);
    assert dram[0..] == dram && data[0..] == data;
    ScatterFills(s.host, dram, data, 0);
    forall p | 0 <= p < |s.host| && OutsideAll(dram, p) ensures Scatter(s.host, dram, data, 0).0[p] == s.host[p] {
      ScatterElsewhere(s.host, dram, data, 0, p);
    }
  }

  /** The walk stops at an empty first shard, so the write succeeds exactly when there is nothing to
    * write or at least one byte for every pool. */
  lemma WriteSucceedsIff(s: State, name: Name, data: seq<byte>, disk: Disk)
    requires Wired(s) && HostOk(s.pools, s.pages, |s.host|)
    requires name in s.pages && s.pages[name].tier != Ssd && Sharded(s.pages[name], |s.pools|)
    requires s.pages[name].size == |data|
    ensures WriteStep(s, name, data, disk).1.Ok? <==> data == [] || |s.pools| <= |data|
  {
    var n := |s.pools|;
    if n <= |data| {
      WriteRoundTrip(s, name, data, disk);
    } else {
      assert |data| / n == 0;
      var dram := s.pages[name].dram;
      assert data == [] || 1 < n;
      assert dram[0].size == ShardSize(|data|, n, 0);
    }
  }
}
