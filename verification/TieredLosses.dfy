/** Any number of GPUs: the calls that can lose a device block do lose one. */
module TieredLosses {
  import opened Common
  import opened Vmt
  import opened Tiered
  import opened TieredMany
  import opened TieredOwners

  /** No block is listed twice, and only blocks of the driver are. */
  ghost predicate OneHolder(s: State) {
    && (forall p, q :: At(s, p).Some? && At(s, q).Some? && At(s, p).value.ptr == At(s, q).value.ptr ==> p == q)
    && (forall p :: At(s, p).Some? ==> Proper(s, At(s, p).value) && At(s, p).value.ptr in s.vram)
  }

  /** If all that is listed was listed elsewhere, the block at the dropped place is listed no more. */
  lemma DroppedIsLost(s: State, t: State, p: Place)
    requires OneHolder(s) && At(s, p).Some?
    requires forall q :: At(t, q).Some? ==> q != p && At(s, q) == At(t, q)
    ensures !Safe(s, t)
  {
    var c := At(s, p).value;
    assert Proper(s, c) && Held(s, c);
    forall q | At(t, q).Some? ensures At(t, q) != Some(c) { assert At(s, q) == At(t, q); }
  }

  lemma OverwritingLoses(s: State, name: Name, shape: seq<nat>, elementSize: nat, tier: Tier)
    requires Wired(s) && OneHolder(s) && Overwrites(s, name)
    ensures !Safe(s, AllocateStep(s, name, shape, elementSize, tier).0)
  {
    hide AllocateStep, Safe, OneHolder;
    AllocateSeeds(s, name, shape, elementSize, tier);
    AllocateSameBlocks(s, name, shape, elementSize, tier);
    DroppedIsLost(s, AllocateStep(s, name, shape, elementSize, tier).0, OfPage(ChosenName(name, s.nextId), 0));
  }

  lemma PanicLoses(s: State, name: Name, g: nat, now: nat, d: Driver)
    requires Wired(s) && OneHolder(s) && ClaimPanics(s, name, g)
    ensures !Safe(s, AccessStep(s, name, g, now, d).0)
  {
    hide Safe, OneHolder, Peek, Poke, AccessVram, AccessDram, AccessSsd;
    DroppedIsLost(s, AccessStep(s, name, g, now, d).0, OfFlight(name));
  }

  /** A prefetch discarded for another GPU leaves every block with one holder. */
  lemma DiscardKeepsOne(s: State, name: Name, g: nat, now: nat)
    requires Wired(s) && OneHolder(s) && ClaimStep(s, name, g, now).1 == Ok(None)
    ensures OneHolder(ClaimStep(s, name, g, now).0)
    ensures forall c :: Held(ClaimStep(s, name, g, now).0, c) ==> Held(s, c)
  {
    hide Peek, Poke;
    var t := ClaimStep(s, name, g, now).0;
    if name in s.inflight {
      var f := s.inflight[name];
      assert At(s, OfFlight(name)) == Some(Chunk(f.gpu, f.ptr, f.size));
      var there := OfCache(f.gpu, |s.cache[f.gpu]|);
      forall p | At(t, p).Some? ensures At(s, if p == there then OfFlight(name) else p) == At(t, p) && p != OfFlight(name) {}
      forall c | Held(t, c) ensures Held(s, c) {
        var p :| At(t, p) == Some(c);
        assert At(s, if p == there then OfFlight(name) else p) == Some(c);
      }
    }
  }

  /** The cached block taken for a promotion that then finds the ring full is listed no more; nor is the
    * driver's, if it came from there. */
  lemma TakenAndForgotten(s: State, g: nat, n: nat, d: Driver)
    requires Wired(s) && OneHolder(s) && Obtainable(s, g, n, d)
    ensures !Safe(s, AllocVram(s, g, n, d).0)
  {
    hide Peek;
    var t := AllocVram(s, g, n, d).0;
    var found := FindSize(s.cache[g], n);
    if found.Some? {
      var i, last := found.value, |s.cache[g]| - 1;
      var c := Chunk(g, s.cache[g][i].ptr, n);
      assert At(s, OfCache(g, i)) == Some(c);
      assert Proper(s, c) && Held(s, c);
      forall q | At(t, q).Some? ensures At(t, q) != Some(c) {
        var p := if q == OfCache(g, i) then OfCache(g, last) else q;
        assert At(s, p) == At(t, q) && p != OfCache(g, i);
      }
    } else {
      assert d.ptr in t.vram && d.ptr !in s.vram;
      forall q | At(t, q).Some? ensures At(t, q).value.ptr != d.ptr { assert At(s, q) == At(t, q); }
      assert !Somewhere(t, d.ptr);
    }
  }

  lemma FullRingLoses(s: State, name: Name, g: nat, now: nat, d: Driver)
    requires Wired(s) && OneHolder(s) && !(name in s.inflight && s.inflight[name].gpu == g) && RingFullFor(s, name, g, d)
    ensures !Safe(s, AccessStep(s, name, g, now, d).0)
  {
    hide AllocVram, Peek, Poke, OneHolder, AccessVram, AccessSsd, FreeVram, Land;
    var s1 := s.(membrane := s.membrane.Observed(name));
    var (s2, c) := ClaimStep(s1, name, g, now);
    ClaimedPages(s1, name, g, now);
    SameOne(s, s1);
    DiscardKeepsOne(s1, name, g, now);
    var n := s.pages[name].dram[g].size;
    TakenAndForgotten(s2, g, n, d);
    ObtainedIff(s2, g, n, d);
    var t := AllocVram(s2, g, n, d).0;
    assert AccessStep(s, name, g, now, d).0 == t;
    if Safe(s, t) { OldLossIsLoss(s, s2, t); }
  }

  lemma SameOne(s: State, t: State)
    requires t == s.(membrane := t.membrane) && OneHolder(s)
    ensures OneHolder(t) && forall c :: Held(t, c) <==> Held(s, c)
  {
    assert forall p :: At(t, p) == At(s, p);
    forall c ensures Held(t, c) <==> Held(s, c) {
      if Held(s, c) { var p :| At(s, p) == Some(c); assert At(t, p) == Some(c); }
      if Held(t, c) { var p :| At(t, p) == Some(c); assert At(s, p) == Some(c); }
    }
  }

  lemma OldLossIsLoss(s: State, s2: State, t: State)
    requires Safe(s, t) && |s2.cache| == |s.cache| && s2.vram == s.vram && forall c :: Held(s2, c) ==> Held(s, c)
    ensures Safe(s2, t)
  {
  }

  /** Where every block has one holder: outside sweeps, a step loses a block if and only if it is one of
    * those calls. */
  lemma StepLosesIff(s: State, op: Op)
    requires Wired(s) && OneHolder(s) && !op.Sweep?
    ensures Safe(s, Step(s, op).0) <==> !Loses(s, op)
  {
    hide AllocateStep, AccessStep, DemoteStep, PrefetchStep, WriteStep, DeallocateStep, Safe, Land;
    if Loses(s, op) {
      match op
      case Allocate(name, shape, elementSize, tier) => OverwritingLoses(s, name, shape, elementSize, tier);
      case Access(name, g, now, d) => if ClaimPanics(s, name, g) { PanicLoses(s, name, g, now, d); } else { FullRingLoses(s, name, g, now, d); }
      case _ =>
    } else {
      StepIsSafe(s, op);
    }
  }
}
