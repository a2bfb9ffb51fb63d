/** Who holds each device block, on one GPU: a page, a prefetch in flight or the recycle cache. */
module TieredBlocks {
  import opened Common
  import opened Vmt
  import opened Tiered

  datatype Owner = OfPage(name: Name) | OfFlight(name: Name) | OfCache(i: nat)

  /** The three places that can hold a block. */
  datatype Holders = Holders(pages: map<Name, Page>, inflight: map<Name, Flight>, cache: seq<Cached>)

  function Holding(h: Holders, o: Owner): Option<Cached> {
    match o
    case OfPage(n) =>
      if n in h.pages && h.pages[n].vram != [] then Some(Cached(h.pages[n].vram[0].size, h.pages[n].vram[0].ptr)) else None
    case OfFlight(n) =>
      if n in h.inflight then Some(Cached(h.inflight[n].size, h.inflight[n].ptr)) else None
    case OfCache(i) =>
      if i < |h.cache| then Some(h.cache[i]) else None
  }

  predicate Holds(h: Holders, o: Owner, ptr: nat) {
    Holding(h, o).Some? && Holding(h, o).value.ptr == ptr
  }

  /** A held block is a live driver block of exactly the recorded size. */
  predicate Real(b: Cached, vram: map<nat, seq<byte>>) {
    b.ptr != 0 && b.ptr in vram && |vram[b.ptr]| == b.size
  }

  /** Held blocks are real, and no block has two owners. */
  ghost predicate BlocksOk(h: Holders, vram: map<nat, seq<byte>>) {
    && (forall o :: Holding(h, o).Some? ==> Real(Holding(h, o).value, vram))
    && (forall o, q, ptr :: Holds(h, o, ptr) && Holds(h, q, ptr) ==> o == q)
  }

  ghost predicate Unheld(h: Holders, ptr: nat) {
    forall o :: !Holds(h, o, ptr)
  }

  /** Driver blocks nobody holds any more. */
  ghost function Lost(h: Holders, vram: map<nat, seq<byte>>): set<nat> {
    set ptr | ptr in vram && Unheld(h, ptr)
  }

  /** `k` holds what `h` holds, owners renamed by `f`, except block `b` of owner `o`. */
  lemma Released(h: Holders, k: Holders, vram: map<nat, seq<byte>>, o: Owner)
    requires BlocksOk(h, vram) && Holding(h, o).Some?
    requires forall q :: q != o ==> Holding(k, q) == Holding(h, q)
    requires Holding(k, o).None?
    ensures BlocksOk(k, vram) && Unheld(k, Holding(h, o).value.ptr)
    ensures Lost(k, vram) == Lost(h, vram) + {Holding(h, o).value.ptr} && Holding(h, o).value.ptr !in Lost(h, vram)
  {
    var ptr := Holding(h, o).value.ptr;
    assert Holds(h, o, ptr);
    forall q, x ensures Holds(k, q, x) <==> Holds(h, q, x) && q != o {}
    forall q ensures !Holds(k, q, ptr) { assert Holds(h, q, ptr) ==> q == o; }
    forall x ensures Unheld(k, x) <==> Unheld(h, x) || x == ptr {
      if Unheld(k, x) && x != ptr { forall q ensures !Holds(h, q, x) { assert !Holds(k, q, x); } }
    }
  }

  /** Owner `o`, who held nothing, takes an unheld block. */
  lemma Taken(h: Holders, k: Holders, vram: map<nat, seq<byte>>, o: Owner)
    requires BlocksOk(h, vram) && Holding(h, o).None? && Holding(k, o).Some?
    requires Real(Holding(k, o).value, vram) && Unheld(h, Holding(k, o).value.ptr)
    requires forall q :: q != o ==> Holding(k, q) == Holding(h, q)
    ensures BlocksOk(k, vram)
    ensures Lost(k, vram) == Lost(h, vram) - {Holding(k, o).value.ptr}
  {
    var ptr := Holding(k, o).value.ptr;
    assert Holds(k, o, ptr);
    forall q, x ensures Holds(k, q, x) <==> Holds(h, q, x) || (q == o && x == ptr) {}
    forall x ensures Unheld(k, x) <==> Unheld(h, x) && x != ptr {
      if Unheld(h, x) && x != ptr { forall q ensures !Holds(k, q, x) { assert !Holds(h, q, x); } }
      if Unheld(k, x) { forall q ensures !Holds(h, q, x) { assert !Holds(k, q, x); } }
    }
  }

  /** Who holds what depends on the blocks alone. */
  lemma SameHolding(h: Holders, k: Holders, vram: map<nat, seq<byte>>)
    requires BlocksOk(h, vram)
    requires forall q :: Holding(k, q) == Holding(h, q)
    ensures BlocksOk(k, vram) && Lost(k, vram) == Lost(h, vram)
    ensures forall x :: Unheld(k, x) <==> Unheld(h, x)
  {
    forall q, x ensures Holds(k, q, x) <==> Holds(h, q, x) {}
    forall x ensures Unheld(k, x) <==> Unheld(h, x) {
      if Unheld(h, x) { forall q ensures !Holds(k, q, x) { assert !Holds(h, q, x); } }
      if Unheld(k, x) { forall q ensures !Holds(h, q, x) { assert !Holds(k, q, x); } }
    }
  }

  /** Overwriting a block keeps everybody's claim to it. */
  lemma Overwritten(h: Holders, vram: map<nat, seq<byte>>, ptr: nat, data: seq<byte>)
    requires BlocksOk(h, vram) && ptr in vram && |data| == |vram[ptr]|
    ensures BlocksOk(h, vram[ptr := data]) && Lost(h, vram[ptr := data]) == Lost(h, vram)
  {
  }

  /** A new driver block belongs to nobody yet. */
  lemma Granted(h: Holders, vram: map<nat, seq<byte>>, ptr: nat, data: seq<byte>)
    requires BlocksOk(h, vram) && ptr !in vram
    ensures BlocksOk(h, vram[ptr := data]) && Unheld(h, ptr)
    ensures Lost(h, vram[ptr := data]) == Lost(h, vram) + {ptr} && ptr !in Lost(h, vram)
  {
    forall o ensures !Holds(h, o, ptr) {}
  }

  /** Taking entry `i` out of the cache; the last entry changes places. */
  lemma Recycled(h: Holders, vram: map<nat, seq<byte>>, i: nat)
    requires BlocksOk(h, vram) && i < |h.cache|
    ensures
      var k := h.(cache := SwapRemove(h.cache, i));
      && BlocksOk(k, vram) && Unheld(k, h.cache[i].ptr)
      && Lost(k, vram) == Lost(h, vram) + {h.cache[i].ptr} && h.cache[i].ptr !in Lost(h, vram)
  {
    // First exchange entry i with the last one, then drop the last.
    var last := |h.cache| - 1;
    var swapped := h.(cache := h.cache[i := h.cache[last]][last := h.cache[i]]);
    Exchanged(h, vram, i, last);
    var k := h.(cache := SwapRemove(h.cache, i));
    forall q | q != OfCache(last) ensures Holding(k, q) == Holding(swapped, q) {}
    Released(swapped, k, vram, OfCache(last));
  }

  lemma Exchanged(h: Holders, vram: map<nat, seq<byte>>, i: nat, j: nat)
    requires BlocksOk(h, vram) && i < |h.cache| && j < |h.cache|
    ensures
      var k := h.(cache := h.cache[i := h.cache[j]][j := h.cache[i]]);
      BlocksOk(k, vram) && Lost(k, vram) == Lost(h, vram)
  {
    var k := h.(cache := h.cache[i := h.cache[j]][j := h.cache[i]]);
    forall q ensures Holding(k, q) == Holding(h, Renamed(q, i, j)) {}
    forall q, x ensures Holds(k, q, x) <==> Holds(h, Renamed(q, i, j), x) {}
    forall q, r, x | Holds(k, q, x) && Holds(k, r, x) ensures q == r {
      assert Holds(h, Renamed(q, i, j), x) && Holds(h, Renamed(r, i, j), x);
    }
    forall x ensures Unheld(k, x) <==> Unheld(h, x) {
      if Unheld(h, x) { forall q ensures !Holds(k, q, x) { assert !Holds(h, Renamed(q, i, j), x); } }
      if Unheld(k, x) {
        forall q ensures !Holds(h, q, x) {
          assert Renamed(Renamed(q, i, j), i, j) == q;
          assert !Holds(k, Renamed(q, i, j), x);
        }
      }
    }
  }

  function Renamed(q: Owner, i: nat, j: nat): Owner {
    if q == OfCache(i) then OfCache(j) else if q == OfCache(j) then OfCache(i) else q
  }

  /** Putting an unheld block in the cache. */
  lemma Parked(h: Holders, vram: map<nat, seq<byte>>, b: Cached)
    requires BlocksOk(h, vram) && Real(b, vram) && Unheld(h, b.ptr)
    ensures
      var k := h.(cache := h.cache + [b]);
      BlocksOk(k, vram) && Lost(k, vram) == Lost(h, vram) - {b.ptr}
  {
    Taken(h, h.(cache := h.cache + [b]), vram, OfCache(|h.cache|));
  }
}
