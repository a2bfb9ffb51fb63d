/** src/vmt.rs: page records, their state machine and the table that names them. */
module Vmt {
  import opened Common

  datatype Tier = Vram | Dram | Ssd
  datatype PageState = Unmapped | Allocated | Resident | Warm | Cold

  /** A block of device memory on one GPU (by index in the cluster). */
  datatype Chunk = Chunk(gpu: nat, ptr: nat, size: nat)

  /** A range of a host pool. */
  datatype DramChunk = DramChunk(node: nat, hostPtr: nat, size: nat)

  function Product(shape: seq<nat>): nat {
    if shape == [] then 1 else shape[0] * Product(shape[1..])
  }

  /** Shapes put end to end multiply, a one-dimensional one has its length, and a tensor is empty
    * exactly if one of its dimensions is. */
  lemma {:induction false} ProductLaws(xs: seq<nat>, ys: seq<nat>, n: nat)
    ensures Product([n]) == n
    ensures Product(xs + ys) == Product(xs) * Product(ys)
    ensures Product(xs) == 0 <==> 0 in xs
    decreases |xs|
  {
    assert Product([n]) == n * Product([]);
    if xs == [] {
      assert xs + ys == ys;
    } else {
      ProductLaws(xs[1..], ys, n);
      assert (xs + ys)[1..] == xs[1..] + ys;
      assert xs == [xs[0]] + xs[1..];
      MulAssociates(xs[0], Product(xs[1..]), Product(ys));
      MulZero(xs[0], Product(xs[1..]));
    }
  }

  lemma MulAssociates(a: nat, b: nat, c: nat)
    ensures a * (b * c) == (a * b) * c
  {
  }

  lemma MulZero(a: nat, b: nat)
    ensures a * b == 0 <==> a == 0 || b == 0
  {
  }

  /** Figure 5's edges, as `transition` accepts them. */
  predicate Edge(from: PageState, to: PageState) {
    || (from == Unmapped && to == Allocated)
    || (from == Allocated && to == Resident)
    || (from == Resident && to == Warm)
    || (from == Warm && to == Resident)
    || (from == Warm && to == Cold)
    || (from == Cold && to == Warm)
    || (from == Cold && to == Resident)
    || (from == Resident && to == Cold)
  }

  /** The state a successful allocation, promotion or demotion leaves in a tier. */
  function StateOf(t: Tier): PageState {
    match t case Vram => Resident case Dram => Warm case Ssd => Cold
  }

  datatype Page = Page(
    name: Name, shape: seq<nat>, elementSize: nat,
    tier: Tier, state: PageState, size: nat,
    vram: seq<Chunk>, dram: seq<DramChunk>, ssd: Option<nat>,
    accessCount: nat, lastAccess: nat, pinned: bool)
  {
    function Transition(to: PageState): (Page, Result<()>) {
      if Edge(state, to) then (this.(state := to), Ok(())) else (this, Err(InvalidTransition))
    }

    function Touch(now: nat): Page { this.(accessCount := accessCount + 1, lastAccess := now) }

    predicate IsIdle(now: nat, threshold: nat) {
      !pinned && threshold < (if lastAccess <= now then now - lastAccess else 0)
    }

    predicate IsHot(threshold: nat) { threshold <= accessCount }
  }

  function NewPage(name: Name, shape: seq<nat>, elementSize: nat): Page {
    Page(name, shape, elementSize, Vram, Unmapped, Product(shape) * elementSize, [], [], None, 0, 0, false)
  }

  /** Which requests are accepted: registering, then becoming resident, then any change of tier. */
  lemma TransitionAcceptsIff(p: Page, to: PageState)
    ensures p.Transition(to).1.Ok? <==>
      || (p.state == Unmapped && to == Allocated)
      || (p.state == Allocated && to == Resident)
      || (p.state !in {Unmapped, Allocated} && to !in {Unmapped, Allocated, p.state})
    ensures p.Transition(to).0 == if p.Transition(to).1.Ok? then p.(state := to) else p
  {
  }

  /** States reached by a sequence of requested transitions, rejected ones included. */
  function TransitionRun(p: Page, to: seq<PageState>): Page
    decreases |to|
  {
    if to == [] then p else TransitionRun(p.Transition(to[0]).0, to[1..])
  }

  /** A mapped page is never unmapped again, and a page that has had a tier always has one. */
  lemma {:induction false} TransitionsNeverGoBack(p: Page, to: seq<PageState>)
    ensures p.state != Unmapped ==> TransitionRun(p, to).state != Unmapped
    ensures p.state !in {Unmapped, Allocated} ==> TransitionRun(p, to).state !in {Unmapped, Allocated}
    decreases |to|
  {
    if to != [] { TransitionsNeverGoBack(p.Transition(to[0]).0, to[1..]); }
  }

  // ----------------------------------------------------------- generated names

  function Digit(d: nat): char
    requires d < 10
  {
    "0123456789"[d]
  }

  function Decimal(n: nat): string {
    if n < 10 then [Digit(n)] else Decimal(n / 10) + [Digit(n % 10)]
  }

  lemma {:induction false} DecimalInjective(m: nat, n: nat)
    requires Decimal(m) == Decimal(n)
    ensures m == n
  {
    var s, t := Decimal(m), Decimal(n);
    assert s[|s| - 1] == Digit(m % 10) && t[|t| - 1] == Digit(n % 10);
    assert m >= 10 ==> |s| >= 2 by { if m >= 10 { DecimalNonEmpty(m / 10); } }
    assert n >= 10 ==> |t| >= 2 by { if n >= 10 { DecimalNonEmpty(n / 10); } }
    if m >= 10 && n >= 10 {
      assert s[..|s| - 1] == Decimal(m / 10) && t[..|t| - 1] == Decimal(n / 10);
      DecimalInjective(m / 10, n / 10);
    }
  }

  /** The number a string of digits writes. */
  function Value(s: string): int {
    if s == [] then 0 else 10 * Value(s[..|s| - 1]) + (s[|s| - 1] as int - '0' as int)
  }

  /** `Decimal` is the usual notation: it reads back, uses digits only and has no leading zero. */
  lemma {:induction false} DecimalReadsBack(n: nat)
    ensures Value(Decimal(n)) == n && Decimal(n) != [] && (0 < n ==> Decimal(n)[0] != '0')
    ensures forall i :: 0 <= i < |Decimal(n)| ==> '0' <= Decimal(n)[i] <= '9'
  {
    var s := Decimal(n);
    assert s[|s| - 1] as int - '0' as int == n % 10;
    if n < 10 {
      assert s[..0] == [];
    } else {
      DecimalReadsBack(n / 10);
      assert s[..|s| - 1] == Decimal(n / 10);
    }
  }

  lemma DecimalNonEmpty(n: nat)
    ensures Decimal(n) != []
  {
  }

  function AutoName(id: nat): Name { "vugva_alloc_" + Decimal(id) }

  /** Generated names are unique, and none is the empty name that asks for one. */
  lemma AutoNamesDiffer(i: nat, j: nat)
    ensures i != j ==> AutoName(i) != AutoName(j)
    ensures AutoName(i) != ""
  {
    if AutoName(i) == AutoName(j) {
      assert AutoName(i)[12..] == Decimal(i) && AutoName(j)[12..] == Decimal(j);
      DecimalInjective(i, j);
    }
  }

  /** The name an allocation gets: the caller's, or the next generated one. */
  function ChosenName(name: Name, nextId: nat): Name {
    if name == "" then AutoName(nextId + 1) else name
  }

  class VirtualMemoryTable {
    var pages: map<Name, Page>
    var nextId: nat

    constructor ()
      ensures pages == map[] && nextId == 0
    {
      pages, nextId := map[], 0;
    }

    /** Register a page; an existing page of that name is overwritten. */
    method Allocate(name: Name, shape: seq<nat>, elementSize: nat) returns (allocName: Name)
      modifies this
      ensures allocName == ChosenName(name, old(nextId))
      ensures nextId == old(nextId) + if name == "" then 1 else 0
      ensures pages == old(pages)[allocName := NewPage(allocName, shape, elementSize).(state := Allocated)]
    {
      if name == "" {
        nextId := nextId + 1;
        allocName := AutoName(nextId);
      } else {
        allocName := name;
      }
      var page := NewPage(allocName, shape, elementSize);
      page := page.(state := Allocated, tier := Vram);
      pages := pages[allocName := page];
    }

    method Remove(name: Name) returns (page: Option<Page>)
      modifies this
      ensures page == if name in old(pages) then Some(old(pages)[name]) else None
      ensures pages == old(pages) - {name} && nextId == old(nextId)
    {
      page := if name in pages then Some(pages[name]) else None;
      pages := pages - {name};
    }
  }
}
