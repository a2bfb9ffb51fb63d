/** src/spill.rs: the cold tier, a byte file with its own range allocator. */
module Spills {
  import opened Common
  import opened Ranges
  import opened RangeOps
  import opened RangeAlloc
  import opened LiveRanges

  datatype Spill = Spill(heap: Heap, file: seq<byte>)

  /** What the operating system does with a write: all of it, or an error once so many bytes are written. */
  datatype Disk = Sound | Faulty(written: nat)

  ghost function ReserveSpec(s: Spill, bytes: nat): (Spill, Result<nat>) {
    var (h, r) := AllocateSpec(s.heap, bytes);
    (s.(heap := h), r)
  }

  /** A write fails if it is longer than what the disk takes; an empty one never does. */
  predicate Fails(data: seq<byte>, disk: Disk) { disk.Faulty? && disk.written < |data| }

  /** What reaches the file: everything, or the prefix written before the error. */
  function Landed(data: seq<byte>, disk: Disk): (r: seq<byte>)
    ensures r <= data && |r| == if disk.Faulty? && disk.written < |data| then disk.written else |data|
  {
    if Fails(data, disk) then data[..disk.written] else data
  }

  /** A positioned write: past the end the file grows, and bytes skipped over read as zeros. */
  function WriteFile(file: seq<byte>, off: nat, data: seq<byte>): (r: seq<byte>)
    ensures data == [] ==> r == file
    ensures off + |data| <= |file| ==> r == Poke(file, off, data)
  {
    if data == [] || off + |data| <= |file| then Poke(file, off, data) else Peek(file, 0, off) + data
  }

  /** Wherever it lands, a write reads back, and every read apart from it is as before. */
  lemma WriteFileReads(file: seq<byte>, off: nat, data: seq<byte>, q: nat, n: nat)
    ensures Peek(WriteFile(file, off, data), off, |data|) == data
    ensures q + n <= off || off + |data| <= q ==> Peek(WriteFile(file, off, data), q, n) == Peek(file, q, n)
    ensures |WriteFile(file, off, data)| == if data == [] || off + |data| <= |file| then |file| else off + |data|
  {
    if off + |data| <= |file| && (q + n <= off || off + |data| <= q) { PeekAround(file, off, data, q, n); }
  }

  /** Reserve and write; when the write fails the reservation is given back. */
  ghost function WriteNewSpec(s: Spill, data: seq<byte>, disk: Disk): (Spill, Result<nat>) {
    match AllocateSpec(s.heap, |data|)
    case (_, Err(e)) => (s, Err(e))
    case (h, Ok(off)) =>
      var file := WriteFile(s.file, off, Landed(data, disk));
      if Fails(data, disk) then (Spill(s.heap, file), Err(Io)) else (Spill(h, file), Ok(off))
  }

  /** What a read of `n` bytes can deliver before the end of the file. */
  function Available(file: seq<byte>, off: nat, n: nat): (r: seq<byte>)
    ensures |r| <= n && (|r| == n <==> n == 0 || off + n <= |file|)
    ensures |r| == n ==> r == Peek(file, off, n)
  {
    if off + n <= |file| then file[off..off + n] else if off <= |file| then file[off..] else []
  }

  /** What reaches the buffer, and whether that is all that was asked for. */
  function ReadSpec(s: Spill, offset: nat, bytes: nat): (seq<byte>, Result<()>) {
    var got := Available(s.file, offset, bytes);
    (got, if |got| == bytes then Ok(()) else Err(Io))
  }

  class SpillFile {
    const alloc: RangeAllocator
    var file: seq<byte>

    predicate Valid()
      reads this, alloc
    {
      alloc.Valid()
    }

    function State(): Spill
      requires Valid()
      reads this, alloc
    {
      Spill(alloc.State(), file)
    }

    /** A file of `capacity` zero bytes. */
    constructor Create(capacity: nat)
      ensures fresh(alloc) && Valid()
      ensures State() == Spill(Empty(capacity), Zeros(capacity))
    {
      alloc := new RangeAllocator(capacity);
      file := Zeros(capacity);
    }

    method Reserve(bytes: nat) returns (r: Result<nat>)
      requires Valid()
      modifies alloc
      ensures Valid() && (State(), r) == ReserveSpec(old(State()), bytes)
    {
      r := alloc.Allocate(bytes);
    }

    /** Write at an offset obtained from `Reserve`; an error may leave a prefix written. */
    method WriteAt(data: seq<byte>, offset: nat, disk: Disk) returns (r: Result<()>)
      requires Valid()
      modifies this
      ensures Valid()
      ensures State() == old(State()).(file := WriteFile(old(file), offset, Landed(data, disk)))
      ensures r == if Fails(data, disk) then Err(Io) else Ok(())
    {
      file := WriteFile(file, offset, Landed(data, disk));
      r := if Fails(data, disk) then Err(Io) else Ok(());
    }

    method WriteAtNewOffset(data: seq<byte>, disk: Disk) returns (r: Result<nat>)
      requires Valid()
      modifies this, alloc
      ensures Valid() && (State(), r) == WriteNewSpec(old(State()), data, disk)
    {
      ghost var h: Heap := alloc.State();
      r := alloc.Allocate(|data|);
      if r.Err? { return; }
      var io := WriteAt(data, r.value, disk);
      if io.Err? {
        // The failed write keeps nothing reserved.
        AllocateThenFree(h, |data|);
        alloc.Free(r.value, |data|);
        return Err(Io);
      }
    }

    /** Fills the buffer from the file; at the end of the file it stops with an error, part-filled. */
    method ReadInto(offset: nat, bytes: nat) returns (buffer: seq<byte>, r: Result<()>)
      requires Valid()
      ensures (buffer, r) == ReadSpec(State(), offset, bytes)
    {
      buffer := Available(file, offset, bytes);
      r := if |buffer| == bytes then Ok(()) else Err(Io);
    }

    method Free(offset: nat, bytes: nat)
      requires Valid()
      modifies alloc
      ensures Valid() && State() == old(State()).(heap := FreeSpec(old(State()).heap, offset, bytes))
    {
      alloc.Free(offset, bytes);
    }
  }

  // ------------------------------------------------------------ non-interference

  datatype SpillOp =
    | Reserve(bytes: nat)
    | Write(id: nat, data: seq<byte>, disk: Disk)
    | WriteNew(content: seq<byte>, diskNew: Disk)
    | Read(readId: nat)
    | Release(freeId: nat)

  /** The file, its clients' live reservations, what each should read back, and every position ever written. */
  datatype Ledger = Ledger(spill: Spill, live: map<nat, Block>, expected: map<nat, seq<byte>>, next: nat, written: set<nat>)

  ghost function Held(c: Ledger, id: nat): seq<byte>
    requires id in c.live
  {
    Peek(c.spill.file, c.live[id].off, c.live[id].len)
  }

  ghost function SpillStep(c: Ledger, op: SpillOp): Ledger {
    match op
    case Reserve(bytes) =>
      var (s, r) := ReserveSpec(c.spill, bytes);
      if r.Ok? && 0 < bytes then
        Ledger(s, c.live[c.next := Block(r.value, bytes)], c.expected[c.next := Peek(s.file, r.value, bytes)], c.next + 1, c.written)
      else c.(spill := s)
    case Write(id, data, disk) =>
      if id in c.live && id in c.expected && |data| <= c.live[id].len then
        var landed := Landed(data, disk);
        c.(spill := c.spill.(file := WriteFile(c.spill.file, c.live[id].off, landed)),
           expected := c.expected[id := Poke(c.expected[id], 0, landed)],
           written := c.written + Range(c.live[id].off, |landed|))
      else c
    case WriteNew(data, disk) =>
      var (s, r) := WriteNewSpec(c.spill, data, disk);
      var place := AllocateSpec(c.spill.heap, |data|).1;
      var written := if place.Ok? then c.written + Range(place.value, |data|) else c.written;
      if r.Ok? && data != [] then
        Ledger(s, c.live[c.next := Block(r.value, |data|)], c.expected[c.next := data], c.next + 1, written)
      else c.(spill := s, written := written)
    case Read(_) => c
    case Release(id) =>
      if id in c.live then
        c.(spill := c.spill.(heap := FreeSpec(c.spill.heap, c.live[id].off, c.live[id].len)),
           live := c.live - {id}, expected := c.expected - {id})
      else c
  }

  ghost function SpillRun(c: Ledger, ops: seq<SpillOp>): Ledger
    decreases |ops|
  {
    if ops == [] then c else SpillRun(SpillStep(c, ops[0]), ops[1..])
  }

  function Created(capacity: nat): Ledger {
    Ledger(Spill(Empty(capacity), Zeros(capacity)), map[], map[], 0, {})
  }

  ghost predicate LedgerInv(c: Ledger) {
    && Good(c.spill.heap, c.live)
    && |c.spill.file| == c.spill.heap.capacity
    && c.expected.Keys == c.live.Keys
    && (forall id :: id in c.live ==> id < c.next && Held(c, id) == c.expected[id])
    && ZeroOutside(c.spill.file, c.written)
  }

  ghost predicate ZeroOutside(file: seq<byte>, written: set<nat>) {
    forall p :: 0 <= p < |file| && p !in written ==> file[p] == 0
  }

  /** Where nothing but reserved bytes was ever written, a new reservation reads as zeros. */
  lemma ReservedReadsZeros(s: Spill, bytes: nat)
    requires |s.file| == s.heap.capacity && ZeroOutside(s.file, Cells(s.heap)) && ReserveSpec(s, bytes).1.Ok?
    ensures Peek(s.file, ReserveSpec(s, bytes).1.value, bytes) == Zeros(bytes)
    ensures ZeroOutside(s.file, Cells(ReserveSpec(s, bytes).0.heap))
  {
    PlaceIsVacant(s.heap, Align(bytes));
    var off := ReserveSpec(s, bytes).1.value;
    forall p: nat | off <= p < off + bytes ensures s.file[p] == 0 { assert p in Range(off, Align(bytes)); }
  }

  lemma ZerosAfterPoke(file: seq<byte>, written: set<nat>, off: nat, data: seq<byte>, n: nat)
    requires ZeroOutside(file, written) && |data| <= n
    ensures ZeroOutside(Poke(file, off, data), written + Range(off, n))
  {
    var f := Poke(file, off, data);
    forall p | 0 <= p < |f| && p !in written + Range(off, n) ensures f[p] == 0 {
      assert p !in Range(off, n);
    }
  }

  /** A live reservation lies inside the file. */
  lemma InFile(c: Ledger, id: nat)
    requires LedgerInv(c) && id in c.live
    ensures c.live[id].off + Align(c.live[id].len) <= |c.spill.file|
  {
    LiveRangesAreSafe(c.spill.heap, c.live);
  }

  lemma SpansApart(a: Block, b: Block)
    requires Span(a) !! Span(b) && 0 < a.len && 0 < b.len
    ensures a.off + a.len <= b.off || b.off + b.len <= a.off
  {
    var lo := if a.off <= b.off then b.off else a.off;
    assert lo in Span(a) <==> lo < a.off + Align(a.len);
    assert lo in Span(b) <==> lo < b.off + Align(b.len);
  }

  /** Writing to one reservation updates what it holds and no other. */
  lemma WriteSeenOnlyByOwner(c: Ledger, id: nat, landed: seq<byte>, k: nat)
    requires LedgerInv(c) && id in c.live && k in c.live && |landed| <= c.live[id].len
    ensures Peek(Poke(c.spill.file, c.live[id].off, landed), c.live[k].off, c.live[k].len) ==
      if k == id then Poke(c.expected[id], 0, landed) else c.expected[k]
  {
    InFile(c, id);
    assert Held(c, id) == c.expected[id];
    if k != id {
      SpansApart(c.live[k], c.live[id]);
      PeekAround(c.spill.file, c.live[id].off, landed, c.live[k].off, c.live[k].len);
    } else {
      PeekPoke(c.spill.file, c.live[id].off, landed);
    }
  }

  lemma WriteKeepsInv(c: Ledger, id: nat, data: seq<byte>, disk: Disk)
    requires LedgerInv(c)
    ensures LedgerInv(SpillStep(c, Write(id, data, disk)))
  {
    if id in c.live && |data| <= c.live[id].len {
      var landed := Landed(data, disk);
      InFile(c, id);
      ZerosAfterPoke(c.spill.file, c.written, c.live[id].off, landed, |landed|);
      forall k | k in c.live
        ensures Peek(Poke(c.spill.file, c.live[id].off, landed), c.live[k].off, c.live[k].len) ==
          if k == id then Poke(c.expected[id], 0, landed) else c.expected[k]
      {
        WriteSeenOnlyByOwner(c, id, landed, k);
      }
    }
  }

  /** Placing bytes in a vacant place keeps what the live reservations hold. */
  lemma PlacedApart(c: Ledger, n: nat, data: seq<byte>, id: nat)
    requires LedgerInv(c) && id in c.live && |data| <= n && 0 < n
    requires AllocateSpec(c.spill.heap, n).1.Ok?
    ensures
      var off := AllocateSpec(c.spill.heap, n).1.value;
      Peek(Poke(c.spill.file, off, data), c.live[id].off, c.live[id].len) == c.expected[id]
  {
    var off := AllocateSpec(c.spill.heap, n).1.value;
    PlaceIsVacant(c.spill.heap, Align(n));
    SpansApart(c.live[id], Block(off, n));
    PeekAround(c.spill.file, off, data, c.live[id].off, c.live[id].len);
    assert Held(c, id) == c.expected[id];
  }

  lemma ReserveKeepsInv(c: Ledger, bytes: nat)
    requires LedgerInv(c)
    ensures LedgerInv(SpillStep(c, Reserve(bytes)))
  {
    if bytes == 0 { AllocateNothing(c.spill.heap); }
    else if AllocateSpec(c.spill.heap, bytes).1.Ok? { GoodAllocate(c.spill.heap, c.live, c.next, bytes); }
  }

  /** What the file holds for everyone else after an attempted write to a new place. */
  lemma AttemptKeepsOthers(c: Ledger, data: seq<byte>, disk: Disk)
    requires LedgerInv(c) && data != [] && AllocateSpec(c.spill.heap, |data|).1.Ok?
    ensures
      var off := AllocateSpec(c.spill.heap, |data|).1.value;
      var file := Poke(c.spill.file, off, Landed(data, disk));
      && ZeroOutside(file, c.written + Range(off, |data|))
      && (forall k :: k in c.live ==> Peek(file, c.live[k].off, c.live[k].len) == c.expected[k])
  {
    var off, landed := AllocateSpec(c.spill.heap, |data|).1.value, Landed(data, disk);
    ZerosAfterPoke(c.spill.file, c.written, off, landed, |data|);
    forall k | k in c.live ensures Peek(Poke(c.spill.file, off, landed), c.live[k].off, c.live[k].len) == c.expected[k] {
      PlacedApart(c, |data|, landed, k);
    }
  }

  lemma WriteNewLands(c: Ledger, data: seq<byte>, disk: Disk)
    requires LedgerInv(c) && data != [] && AllocateSpec(c.spill.heap, |data|).1.Ok? && !Fails(data, disk)
    ensures LedgerInv(SpillStep(c, WriteNew(data, disk)))
  {
    AttemptKeepsOthers(c, data, disk);
    PlaceIsVacant(c.spill.heap, Align(|data|));
    GoodAllocate(c.spill.heap, c.live, c.next, |data|);
    PeekPoke(c.spill.file, AllocateSpec(c.spill.heap, |data|).1.value, data);
  }

  lemma WriteNewFails(c: Ledger, data: seq<byte>, disk: Disk)
    requires LedgerInv(c) && data != [] && AllocateSpec(c.spill.heap, |data|).1.Ok? && Fails(data, disk)
    ensures LedgerInv(SpillStep(c, WriteNew(data, disk)))
  {
    hide Good, Peek, Poke, AllocateSpec, ZeroOutside, Range;
    AttemptKeepsOthers(c, data, disk);
    PlaceInFile(c, data);
  }

  lemma PlaceInFile(c: Ledger, data: seq<byte>)
    requires LedgerInv(c) && AllocateSpec(c.spill.heap, |data|).1.Ok?
    ensures AllocateSpec(c.spill.heap, |data|).1.value + |data| <= |c.spill.file|
  {
    PlaceIsVacant(c.spill.heap, Align(|data|));
  }

  lemma EmptyWriteNew(c: Ledger, disk: Disk)
    ensures SpillStep(c, WriteNew([], disk)) == c
  {
    AllocateNothing(c.spill.heap);
    var off := AllocateSpec(c.spill.heap, 0).1.value;
    assert Landed([], disk) == [];
    assert c.written + Range(off, 0) == c.written;
  }

  lemma WriteNewKeepsInv(c: Ledger, data: seq<byte>, disk: Disk)
    requires LedgerInv(c)
    ensures LedgerInv(SpillStep(c, WriteNew(data, disk)))
  {
    hide LedgerInv;
    if data == [] {
      EmptyWriteNew(c, disk);
    } else if AllocateSpec(c.spill.heap, |data|).1.Ok? {
      if Fails(data, disk) { WriteNewFails(c, data, disk); } else { WriteNewLands(c, data, disk); }
    }
  }

  lemma SpillStepKeepsInv(c: Ledger, op: SpillOp)
    requires LedgerInv(c)
    ensures LedgerInv(SpillStep(c, op))
  {
    match op
    case Reserve(bytes) => ReserveKeepsInv(c, bytes);
    case Write(id, data, disk) => WriteKeepsInv(c, id, data, disk);
    case WriteNew(data, disk) => WriteNewKeepsInv(c, data, disk);
    case Read(_) =>
    case Release(id) => if id in c.live { GoodFree(c.spill.heap, c.live, id); }
  }

  /** Every run: each live reservation reads back what its owner last wrote, whatever others did. */
  lemma {:induction false} ReservationsDoNotInterfere(c: Ledger, ops: seq<SpillOp>)
    requires LedgerInv(c)
    ensures LedgerInv(SpillRun(c, ops))
    ensures forall id :: id in SpillRun(c, ops).live ==>
      ReadSpec(SpillRun(c, ops).spill, SpillRun(c, ops).live[id].off, SpillRun(c, ops).live[id].len) == (SpillRun(c, ops).expected[id], Ok(()))
    decreases |ops|
  {
    if ops == [] {
      forall id | id in c.live ensures ReadSpec(c.spill, c.live[id].off, c.live[id].len) == (c.expected[id], Ok(())) {
        InFile(c, id);
      }
    } else {
      SpillStepKeepsInv(c, ops[0]);
      ReservationsDoNotInterfere(SpillStep(c, ops[0]), ops[1..]);
    }
  }

  lemma CreatedIsInv(capacity: nat)
    ensures LedgerInv(Created(capacity))
  {
  }

  /** After any sequence of operations on a new spill file, a live reservation reads back what was
    * last written to it. */
  lemma CreatedFilesDoNotInterfere(capacity: nat, ops: seq<SpillOp>, id: nat)
    requires id in SpillRun(Created(capacity), ops).live
    ensures
      var c := SpillRun(Created(capacity), ops);
      id in c.expected && ReadSpec(c.spill, c.live[id].off, c.live[id].len) == (c.expected[id], Ok(()))
  {
    CreatedIsInv(capacity);
    ReservationsDoNotInterfere(Created(capacity), ops);
  }

  /** A new reservation over bytes never written reads as zeros. */
  lemma FreshReservationReadsZeros(c: Ledger, bytes: nat)
    requires LedgerInv(c) && 0 < bytes && ReserveSpec(c.spill, bytes).1.Ok?
    requires Range(ReserveSpec(c.spill, bytes).1.value, bytes) !! c.written
    ensures SpillStep(c, Reserve(bytes)).expected[c.next] == Zeros(bytes)
  {
    var off := ReserveSpec(c.spill, bytes).1.value;
    PlaceIsVacant(c.spill.heap, Align(bytes));
    forall p: nat | off <= p < off + bytes ensures c.spill.file[p] == 0 {
      assert p in Range(off, bytes);
    }
  }
}
