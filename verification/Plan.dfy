/** src/membrane.rs: the placement plan, a greedy fill of a fixed budget in score order. */
module Plans {
  import opened Common

  datatype PageObs = PageObs(rate: real, bytes: nat, resident: bool, pinned: bool)

  /** Pinned pages score infinity. */
  datatype Score = Fin(v: real) | Infinite

  const HYSTERESIS: real := 1.5

  datatype TierPolicy = TierPolicy(alpha: real, beta: real) {
    function Score(o: PageObs): Score {
      if o.pinned then Infinite
      else
        var mib := o.bytes as real / 1048576.0;
        var benefit := alpha * o.rate * (if o.resident then HYSTERESIS else 1.0);
        Fin(benefit - beta * mib)
    }
  }

  datatype Candidate = Candidate(name: Name, obs: PageObs)
  datatype Ranked = Ranked(score: Score, name: Name, obs: PageObs)

  // ----------------------------------------------------------- the rank order

  predicate NameLess(a: Name, b: Name) {
    if b == [] then false
    else if a == [] then true
    else if a[0] != b[0] then a[0] < b[0]
    else NameLess(a[1..], b[1..])
  }

  lemma {:induction false} NameLessTotal(a: Name, b: Name)
    ensures a != b ==> NameLess(a, b) || NameLess(b, a)
    ensures !(NameLess(a, b) && NameLess(b, a))
    decreases |a|
  {
    if a != [] && b != [] && a[0] == b[0] {
      NameLessTotal(a[1..], b[1..]);
      assert a == [a[0]] + a[1..] && b == [b[0]] + b[1..];
    }
  }

  lemma {:induction false} NameLessTransitive(a: Name, b: Name, c: Name)
    requires NameLess(a, b) && NameLess(b, c)
    ensures NameLess(a, c)
    decreases |a|
  {
    if a != [] && a[0] == b[0] == c[0] { NameLessTransitive(a[1..], b[1..], c[1..]); }
  }

  /** The names agree up to `k` and differ there. */
  predicate FirstLess(a: Name, b: Name, k: nat) {
    k < |a| && k < |b| && a[..k] == b[..k] && a[k] < b[k]
  }

  lemma FirstLessTail(a: Name, b: Name, k: nat)
    requires a != [] && b != [] && a[0] == b[0]
    ensures FirstLess(a, b, k + 1) <==> FirstLess(a[1..], b[1..], k)
  {
    if k < |a| - 1 && k < |b| - 1 {
      assert a[..k + 1] == [a[0]] + a[1..][..k] && b[..k + 1] == [b[0]] + b[1..][..k];
      assert a[..k + 1][1..] == a[1..][..k] && b[..k + 1][1..] == b[1..][..k];
    }
  }

  /** It is the lexicographic order: a proper prefix comes first, else the first difference decides. */
  lemma {:induction false} NameLessIff(a: Name, b: Name)
    ensures NameLess(a, b) <==> a < b || exists k :: FirstLess(a, b, k)
    decreases |a|
  {
    if a != [] && b != [] {
      if a[0] != b[0] {
        assert FirstLess(a, b, 0) <==> a[0] < b[0];
        forall k | 0 < k < |a| && k < |b| ensures !FirstLess(a, b, k) { assert a[..k][0] != b[..k][0]; }
      } else {
        hide FirstLess;
        NameLessIff(a[1..], b[1..]);
        assert a == [a[0]] + a[1..] && b == [b[0]] + b[1..];
        if k: nat :| FirstLess(a[1..], b[1..], k) { FirstLessTail(a, b, k); }
        if k: nat :| FirstLess(a, b, k) {
          NotAtZero(a, b, k);
          FirstLessTail(a, b, k - 1);
        }
      }
    }
  }

  lemma NotAtZero(a: Name, b: Name, k: nat)
    requires FirstLess(a, b, k) && a[0] == b[0]
    ensures k != 0
  {
  }

  predicate Higher(s: Score, t: Score) {
    !t.Infinite? && (s.Infinite? || t.v < s.v)
  }

  /** Score descending, ties broken by name. */
  predicate Precedes(x: Ranked, y: Ranked) {
    Higher(x.score, y.score) || (x.score == y.score && NameLess(x.name, y.name))
  }

  lemma PrecedesTotal(x: Ranked, y: Ranked)
    ensures x.name != y.name ==> Precedes(x, y) || Precedes(y, x)
    ensures !(Precedes(x, y) && Precedes(y, x))
  {
    NameLessTotal(x.name, y.name);
  }

  lemma PrecedesTransitive(x: Ranked, y: Ranked, z: Ranked)
    requires Precedes(x, y) && Precedes(y, z)
    ensures Precedes(x, z)
  {
    if x.score == y.score == z.score { NameLessTransitive(x.name, y.name, z.name); }
  }

  // ------------------------------------------------------------------- sorting

  /** Names identify entries, and none is repeated. */
  ghost predicate Distinct(s: seq<Ranked>) {
    && (forall x, y :: x in s && y in s && x.name == y.name ==> x == y)
    && (forall x :: x in s ==> multiset(s)[x] == 1)
  }

  ghost predicate Sorted(s: seq<Ranked>) {
    forall i, j :: 0 <= i < j < |s| ==> Precedes(s[i], s[j])
  }

  function Insert(x: Ranked, s: seq<Ranked>): (r: seq<Ranked>)
    ensures multiset(r) == multiset(s) + multiset{x}
  {
    if s == [] then [x]
    else if Precedes(x, s[0]) then assert [x] + s == [x] + s; [x] + s
    else
      assert s == [s[0]] + s[1..];
      [s[0]] + Insert(x, s[1..])
  }

  /** The result of the stable library sort with the comparator above. */
  function SortRanked(s: seq<Ranked>): (r: seq<Ranked>)
    ensures multiset(r) == multiset(s)
  {
    if s == [] then []
    else
      assert s == [s[0]] + s[1..];
      Insert(s[0], SortRanked(s[1..]))
  }

  lemma InMultiset(s: seq<Ranked>, x: Ranked)
    ensures x in s <==> x in multiset(s)
  {
  }

  lemma {:induction false} InsertSorted(x: Ranked, s: seq<Ranked>)
    requires Sorted(s) && forall y :: y in s ==> y.name != x.name
    ensures Sorted(Insert(x, s))
  {
    var r := Insert(x, s);
    if s != [] {
      if Precedes(x, s[0]) {
        forall j | 0 < j < |r| ensures Precedes(r[0], r[j]) {
          if 1 < j { PrecedesTransitive(x, s[0], s[j - 1]); }
        }
      } else {
        PrecedesTotal(x, s[0]);
        InsertSorted(x, s[1..]);
        forall j | 0 < j < |r| ensures Precedes(r[0], r[j]) {
          assert r[j] == Insert(x, s[1..])[j - 1];
          InMultiset(Insert(x, s[1..]), r[j]);
          InMultiset(s[1..], r[j]);
        }
      }
    }
  }

  lemma {:induction false} SortIsSorted(s: seq<Ranked>)
    requires Distinct(s)
    ensures Sorted(SortRanked(s))
  {
    if s != [] {
      assert s == [s[0]] + s[1..];
      DistinctTail(s);
      SortIsSorted(s[1..]);
      forall y | y in SortRanked(s[1..]) ensures y.name != s[0].name {
        InMultiset(SortRanked(s[1..]), y);
        InMultiset(s[1..], y);
      }
      InsertSorted(s[0], SortRanked(s[1..]));
    }
  }

  lemma DistinctTail(s: seq<Ranked>)
    requires Distinct(s) && s != []
    ensures Distinct(s[1..]) && forall y :: y in s[1..] ==> y.name != s[0].name
  {
    assert s == [s[0]] + s[1..];
    assert multiset(s) == multiset{s[0]} + multiset(s[1..]);
    forall x | x in s[1..] ensures multiset(s[1..])[x] == 1 && x.name != s[0].name {
      assert x in s;
      assert multiset(s[1..])[x] > 0;
    }
  }

  lemma TailMultiset(s: seq<Ranked>)
    requires s != []
    ensures multiset(s[1..]) == multiset(s) - multiset{s[0]}
  {
    assert s == [s[0]] + s[1..];
  }

  lemma HeadsAgree(s: seq<Ranked>, t: seq<Ranked>)
    requires Sorted(s) && Sorted(t) && multiset(s) == multiset(t) && s != [] && t != []
    ensures s[0] == t[0]
  {
    InMultiset(t, s[0]);
    InMultiset(s, t[0]);
    var i :| 0 <= i < |t| && t[i] == s[0];
    var j :| 0 <= j < |s| && s[j] == t[0];
    PrecedesTotal(s[0], t[0]);
  }

  /** A strict total order has one sorted form: any correct sort gives this one. */
  lemma {:induction false} SortedIsUnique(s: seq<Ranked>, t: seq<Ranked>)
    requires Sorted(s) && Sorted(t) && multiset(s) == multiset(t)
    ensures s == t
    decreases |s|
  {
    assert |s| == |multiset(s)| == |multiset(t)| == |t|;
    if s != [] {
      HeadsAgree(s, t);
      TailMultiset(s);
      TailMultiset(t);
      SortedIsUnique(s[1..], t[1..]);
      assert s == [s[0]] + s[1..] && t == [t[0]] + t[1..];
    }
  }

  // -------------------------------------------------------------- the greedy fill

  /** Bytes used by the pages kept among the first `i`. */
  function UsedBefore(r: seq<Ranked>, cap: nat, i: nat): nat
    requires i <= |r|
  {
    if i == 0 then 0
    else
      var u := UsedBefore(r, cap, i - 1);
      if r[i - 1].obs.pinned || u + r[i - 1].obs.bytes <= cap then u + r[i - 1].obs.bytes else u
  }

  predicate Keeps(r: seq<Ranked>, cap: nat, i: nat)
    requires i < |r|
  {
    r[i].obs.pinned || UsedBefore(r, cap, i) + r[i].obs.bytes <= cap
  }

  /** Names of the first `i` entries that are kept (or not kept), in rank order. */
  function Split(r: seq<Ranked>, cap: nat, i: nat, kept: bool): seq<Name>
    requires i <= |r|
  {
    if i == 0 then []
    else Split(r, cap, i - 1, kept) + (if Keeps(r, cap, i - 1) == kept then [r[i - 1].name] else [])
  }

  function RankOf(policy: TierPolicy, c: Candidate): Ranked {
    Ranked(policy.Score(c.obs), c.name, c.obs)
  }

  function Rank(policy: TierPolicy, cs: seq<Candidate>): seq<Ranked> {
    seq(|cs|, i requires 0 <= i < |cs| => RankOf(policy, cs[i]))
  }

  /** 85% of the budget, rounded down. */
  function Cap(budget: nat): nat { budget * 85 / 100 }

  lemma CapIs(budget: nat, n: nat)
    ensures n <= Cap(budget) <==> 100 * n <= 85 * budget
  {
  }

  function Plan(policy: TierPolicy, cs: seq<Candidate>, budget: nat): (seq<Name>, seq<Name>) {
    var r := SortRanked(Rank(policy, cs));
    (Split(r, Cap(budget), |r|, true), Split(r, Cap(budget), |r|, false))
  }

  /** Candidates come from a table keyed by name. */
  ghost predicate Named(cs: seq<Candidate>) {
    forall i, j :: 0 <= i < j < |cs| ==> cs[i].name != cs[j].name
  }

  lemma {:induction false} CountOnce(s: seq<Ranked>, x: Ranked)
    requires forall i, j :: 0 <= i < j < |s| ==> s[i].name != s[j].name
    requires x in s
    ensures multiset(s)[x] == 1
  {
    assert s == [s[0]] + s[1..];
    if x == s[0] {
      assert x !in s[1..];
      assert x !in multiset(s[1..]);
    } else {
      CountOnce(s[1..], x);
    }
  }

  lemma RankIsDistinct(policy: TierPolicy, cs: seq<Candidate>)
    requires Named(cs)
    ensures Distinct(Rank(policy, cs))
  {
    var s := Rank(policy, cs);
    forall x | x in s ensures multiset(s)[x] == 1 { CountOnce(s, x); }
  }

  /** The sorted ranking: sorted, and exactly the candidates with their scores. */
  lemma RankingFacts(policy: TierPolicy, cs: seq<Candidate>, r: seq<Ranked>)
    requires Named(cs) && r == SortRanked(Rank(policy, cs))
    ensures Sorted(r)
    ensures forall i, j :: 0 <= i < j < |r| ==> r[i].name != r[j].name
    ensures forall x :: x in r <==> Candidate(x.name, x.obs) in cs && x.score == policy.Score(x.obs)
  {
    var s := Rank(policy, cs);
    RankIsDistinct(policy, cs);
    SortIsSorted(s);
    forall x ensures x in r <==> Candidate(x.name, x.obs) in cs && x.score == policy.Score(x.obs) {
      InMultiset(r, x);
      InMultiset(s, x);
      if Candidate(x.name, x.obs) in cs && x.score == policy.Score(x.obs) {
        var i :| 0 <= i < |cs| && cs[i] == Candidate(x.name, x.obs);
        assert s[i] == x;
      }
    }
    forall i, j | 0 <= i < j < |r| ensures r[i].name != r[j].name {
      InMultiset(r, r[i]); InMultiset(s, r[i]);
      InMultiset(r, r[j]); InMultiset(s, r[j]);
      assert Precedes(r[i], r[j]);
      PrecedesTotal(r[i], r[i]);
    }
  }

  /** The order in which candidates are listed does not matter. */
  lemma PlanIgnoresOrder(policy: TierPolicy, cs: seq<Candidate>, ds: seq<Candidate>, budget: nat)
    requires Named(cs) && Named(ds) && multiset(cs) == multiset(ds)
    ensures Plan(policy, cs, budget) == Plan(policy, ds, budget)
  {
    var r, t := Rank(policy, cs), Rank(policy, ds);
    RankMultiset(policy, cs, ds);
    RankIsDistinct(policy, cs);
    RankIsDistinct(policy, ds);
    SortIsSorted(r);
    SortIsSorted(t);
    SortedIsUnique(SortRanked(r), SortRanked(t));
  }

  function Without<T>(s: seq<T>, i: nat): seq<T>
    requires i < |s|
  {
    s[..i] + s[i + 1..]
  }

  lemma RemoveOne<T>(s: seq<T>, i: nat)
    requires i < |s|
    ensures multiset(s) == multiset(Without(s, i)) + multiset{s[i]}
  {
    assert s == s[..i] + [s[i]] + s[i + 1..];
  }

  /** Equal multisets: the head of one is found in the other, and taking it out of both keeps them equal. */
  lemma MatchHead<T>(s: seq<T>, t: seq<T>) returns (i: nat)
    requires multiset(s) == multiset(t) && s != []
    ensures i < |t| && t[i] == s[0] && multiset(Without(s, 0)) == multiset(Without(t, i))
  {
    RemoveOne(s, 0);
    assert s[0] in multiset(t);
    i :| 0 <= i < |t| && t[i] == s[0];
    RemoveOne(t, i);
    assert multiset(Without(s, 0)) == multiset(s) - multiset{s[0]};
    assert multiset(Without(t, i)) == multiset(t) - multiset{s[0]};
  }

  lemma EmptyMultiset<T>(s: seq<T>, t: seq<T>)
    requires multiset(s) == multiset(t) && s == []
    ensures t == []
  {
    assert |multiset(t)| == |t|;
  }

  lemma RankWithout(policy: TierPolicy, cs: seq<Candidate>, i: nat)
    requires i < |cs|
    ensures multiset(Rank(policy, cs)) == multiset(Rank(policy, Without(cs, i))) + multiset{RankOf(policy, cs[i])}
  {
    var s := Rank(policy, cs);
    RemoveOne(s, i);
    assert Rank(policy, Without(cs, i)) == Without(s, i);
  }

  lemma {:induction false} RankMultiset(policy: TierPolicy, cs: seq<Candidate>, ds: seq<Candidate>)
    requires multiset(cs) == multiset(ds)
    ensures multiset(Rank(policy, cs)) == multiset(Rank(policy, ds))
    decreases |cs|
  {
    if cs == [] {
      EmptyMultiset(cs, ds);
    } else {
      var i := MatchHead(cs, ds);
      RankWithout(policy, cs, 0);
      RankWithout(policy, ds, i);
      RankMultiset(policy, Without(cs, 0), Without(ds, i));
    }
  }

  // -------------------------------------------------- sizes added up over names

  ghost function Weight(size: map<Name, nat>, names: set<Name>): nat
    requires names <= size.Keys
  {
    if names == {} then 0
    else
      var n :| n in names;
      size[n] + Weight(size, names - {n})
  }

  lemma {:induction false} WeightAdd(size: map<Name, nat>, names: set<Name>, x: Name)
    requires names <= size.Keys && x in size && x !in names
    ensures Weight(size, names + {x}) == size[x] + Weight(size, names)
    decreases |names|
  {
    var all := names + {x};
    var n :| n in all && Weight(size, all) == size[n] + Weight(size, all - {n});
    if n == x {
      assert all - {n} == names;
    } else {
      WeightAdd(size, names - {n}, x);
      assert all - {n} == (names - {n}) + {x};
      WeightAdd(size, names - {n}, n);
      assert (names - {n}) + {n} == names;
    }
  }

  lemma {:induction false} WeightMonotone(size: map<Name, nat>, a: set<Name>, b: set<Name>)
    requires a <= b <= size.Keys
    ensures Weight(size, a) <= Weight(size, b)
    decreases |b - a|
  {
    if x :| x in b && x !in a {
      WeightMonotone(size, a + {x}, b);
      WeightAdd(size, a, x);
    } else {
      assert a == b;
    }
  }

  // ------------------------------------------------------- what the plan promises

  /** A ranking: sorted, names not repeated, sizes as in `size`. */
  ghost predicate Ranking(r: seq<Ranked>, size: map<Name, nat>) {
    && Sorted(r)
    && (forall i, j :: 0 <= i < j < |r| ==> r[i].name != r[j].name)
    && (forall i :: 0 <= i < |r| ==> r[i].name in size && size[r[i].name] == r[i].obs.bytes)
    && (forall i :: 0 <= i < |r| ==> (r[i].obs.pinned <==> r[i].score.Infinite?))
  }

  /** Entry `j` is called `n` and is kept (or not). */
  ghost predicate Decided(r: seq<Ranked>, cap: nat, j: int, kept: bool, n: Name) {
    0 <= j < |r| && Keeps(r, cap, j) == kept && r[j].name == n
  }

  ghost function KeptNames(r: seq<Ranked>, cap: nat, i: nat): (s: set<Name>)
    requires i <= |r|
    ensures forall n :: n in s <==> exists j :: j < i && Decided(r, cap, j, true, n)
  {
    if i == 0 then {}
    else
      var last := i - 1;
      assert forall n :: Decided(r, cap, last, true, n) <==> Keeps(r, cap, last) && r[last].name == n;
      assert Keeps(r, cap, last) ==> Decided(r, cap, last, true, r[last].name);
      if Keeps(r, cap, last) then KeptNames(r, cap, last) + {r[last].name} else KeptNames(r, cap, last)
  }

  lemma NotYetKept(r: seq<Ranked>, size: map<Name, nat>, cap: nat, i: nat)
    requires Ranking(r, size) && i < |r|
    ensures r[i].name !in KeptNames(r, cap, i)
  {
    forall j | j < i ensures !Decided(r, cap, j, true, r[i].name) {}
  }

  lemma KeptNamesAreSized(r: seq<Ranked>, size: map<Name, nat>, cap: nat, i: nat)
    requires Ranking(r, size) && i <= |r|
    ensures KeptNames(r, cap, i) <= size.Keys
  {
  }

  lemma {:induction false} UsedIsWeight(r: seq<Ranked>, size: map<Name, nat>, cap: nat, i: nat)
    requires Ranking(r, size) && i <= |r|
    ensures KeptNames(r, cap, i) <= size.Keys
    ensures UsedBefore(r, cap, i) == Weight(size, KeptNames(r, cap, i))
  {
    KeptNamesAreSized(r, size, cap, i);
    if 0 < i {
      UsedIsWeight(r, size, cap, i - 1);
      NotYetKept(r, size, cap, i - 1);
      if Keeps(r, cap, i - 1) { WeightAdd(size, KeptNames(r, cap, i - 1), r[i - 1].name); }
    }
  }

  lemma {:induction false} UsedGrows(r: seq<Ranked>, cap: nat, i: nat, j: nat)
    requires i <= j <= |r|
    ensures UsedBefore(r, cap, i) <= UsedBefore(r, cap, j)
    decreases j - i
  {
    if i < j { UsedGrows(r, cap, i, j - 1); }
  }

  lemma PinnedComeFirst(r: seq<Ranked>, size: map<Name, nat>, i: nat, j: nat)
    requires Ranking(r, size) && i <= j < |r|
    ensures r[j].obs.pinned ==> r[i].obs.pinned
  {
    if i < j { assert Precedes(r[i], r[j]); }
  }

  lemma PositionsFollowOrder(r: seq<Ranked>, i: nat, j: nat)
    requires Sorted(r) && i < |r| && j < |r| && Precedes(r[i], r[j])
    ensures i < j
  {
    PrecedesTotal(r[i], r[j]);
  }

  /** Over the cap only while nothing but pinned pages has been kept. */
  lemma {:induction false} OverCapOnlyPinned(r: seq<Ranked>, size: map<Name, nat>, cap: nat, i: nat)
    requires Ranking(r, size) && i <= |r|
    ensures UsedBefore(r, cap, i) <= cap || forall j :: 0 <= j < i && Keeps(r, cap, j) ==> r[j].obs.pinned
  {
    if 0 < i {
      OverCapOnlyPinned(r, size, cap, i - 1);
      if r[i - 1].obs.pinned {
        forall j | 0 <= j < i ensures r[j].obs.pinned { PinnedComeFirst(r, size, j, i - 1); }
      }
    }
  }

  ghost predicate Lists(r: seq<Ranked>, cap: nat, i: nat, kept: bool, n: Name)
    requires i <= |r|
  {
    exists j :: j < i && Decided(r, cap, j, kept, n)
  }

  lemma {:induction false} SplitLists(r: seq<Ranked>, cap: nat, i: nat, kept: bool, n: Name)
    requires i <= |r|
    ensures n in Split(r, cap, i, kept) <==> Lists(r, cap, i, kept, n)
  {
    if 0 < i {
      SplitLists(r, cap, i - 1, kept, n);
      assert Decided(r, cap, i - 1, kept, n) <==> Keeps(r, cap, i - 1) == kept && r[i - 1].name == n;
      assert Lists(r, cap, i, kept, n) <==> Lists(r, cap, i - 1, kept, n) || Decided(r, cap, i - 1, kept, n);
    }
  }

  function Names(r: seq<Ranked>): seq<Name> {
    seq(|r|, i requires 0 <= i < |r| => r[i].name)
  }

  lemma NamesGrow(r: seq<Ranked>, i: nat)
    requires 0 < i <= |r|
    ensures multiset(Names(r[..i])) == multiset(Names(r[..i - 1])) + multiset{r[i - 1].name}
  {
    assert Names(r[..i]) == Names(r[..i - 1]) + [r[i - 1].name];
  }

  lemma {:induction false} SplitPartitions(r: seq<Ranked>, cap: nat, i: nat)
    requires i <= |r|
    ensures multiset(Split(r, cap, i, true)) + multiset(Split(r, cap, i, false)) == multiset(Names(r[..i]))
  {
    if 0 < i {
      hide Keeps;
      SplitPartitions(r, cap, i - 1);
      var n := r[i - 1].name;
      NamesGrow(r, i);
      var kept, left := Split(r, cap, i - 1, true), Split(r, cap, i - 1, false);
      if Keeps(r, cap, i - 1) {
        assert Split(r, cap, i, true) == kept + [n] && Split(r, cap, i, false) == left;
      } else {
        assert Split(r, cap, i, true) == kept && Split(r, cap, i, false) == left + [n];
      }
    }
  }

  /** `size` gives each candidate's size. */
  ghost predicate Sizes(cs: seq<Candidate>, size: map<Name, nat>) {
    forall c :: c in cs ==> c.name in size && size[c.name] == c.obs.bytes
  }

  ghost function NameSet(s: seq<Name>): set<Name> { set n | n in s }

  ghost function PinnedNames(cs: seq<Candidate>): set<Name> {
    set c | c in cs && c.obs.pinned :: c.name
  }

  /** Entry of candidate `c` in the sorted ranking. */
  lemma Locate(policy: TierPolicy, cs: seq<Candidate>, r: seq<Ranked>, c: Candidate) returns (i: nat)
    requires Named(cs) && r == SortRanked(Rank(policy, cs)) && c in cs
    ensures i < |r| && r[i] == RankOf(policy, c)
  {
    RankingFacts(policy, cs, r);
    assert RankOf(policy, c) in r;
    i :| 0 <= i < |r| && r[i] == RankOf(policy, c);
  }

  lemma PlanRanking(policy: TierPolicy, cs: seq<Candidate>, size: map<Name, nat>, r: seq<Ranked>)
    requires Named(cs) && Sizes(cs, size) && r == SortRanked(Rank(policy, cs))
    ensures Ranking(r, size)
  {
    RankingFacts(policy, cs, r);
    forall i | 0 <= i < |r|
      ensures r[i].name in size && size[r[i].name] == r[i].obs.bytes && (r[i].obs.pinned <==> r[i].score.Infinite?)
    {
      assert r[i] in r;
      assert Candidate(r[i].name, r[i].obs) in cs;
    }
  }

  lemma InPlanIff(r: seq<Ranked>, size: map<Name, nat>, cap: nat, i: nat, kept: bool)
    requires Ranking(r, size) && i < |r|
    ensures r[i].name in Split(r, cap, |r|, kept) <==> Keeps(r, cap, i) == kept
  {
    SplitLists(r, cap, |r|, kept, r[i].name);
    assert Decided(r, cap, i, kept, r[i].name) <==> Keeps(r, cap, i) == kept;
    forall j | 0 <= j < |r| && j != i ensures !Decided(r, cap, j, kept, r[i].name) {}
  }

  lemma KeptNamesIsSplit(r: seq<Ranked>, cap: nat)
    ensures NameSet(Split(r, cap, |r|, true)) == KeptNames(r, cap, |r|)
  {
    forall n ensures n in Split(r, cap, |r|, true) <==> n in KeptNames(r, cap, |r|) {
      SplitLists(r, cap, |r|, true, n);
    }
  }

  /** Every candidate lands in exactly one of the two lists, exactly once. */
  lemma PlanPartitions(policy: TierPolicy, cs: seq<Candidate>, budget: nat)
    requires Named(cs)
    ensures
      var (keep, evict) := Plan(policy, cs, budget);
      multiset(keep) + multiset(evict) == multiset(seq(|cs|, i requires 0 <= i < |cs| => cs[i].name))
  {
    var s := Rank(policy, cs);
    var r := SortRanked(s);
    SplitPartitions(r, Cap(budget), |r|);
    assert r[..|r|] == r;
    NamesMultiset(r, s);
    assert Names(s) == seq(|cs|, i requires 0 <= i < |cs| => cs[i].name);
  }

  /** Every candidate goes to one of the two lists. */
  lemma PlanSizes(policy: TierPolicy, cs: seq<Candidate>, budget: nat)
    ensures |Plan(policy, cs, budget).0| + |Plan(policy, cs, budget).1| == |cs|
  {
    var r := SortRanked(Rank(policy, cs));
    SplitPartitions(r, Cap(budget), |r|);
    var (keep, evict) := Plan(policy, cs, budget);
    assert |multiset(keep) + multiset(evict)| == |multiset(Names(r[..|r|]))|;
    assert |multiset(r)| == |multiset(Rank(policy, cs))|;
  }

  /** Taking one entry out takes its name out. */
  lemma NamesWithout(s: seq<Ranked>, i: nat)
    requires i < |s|
    ensures multiset(Names(s)) == multiset(Names(Without(s, i))) + multiset{s[i].name}
  {
    RemoveOne(Names(s), i);
    assert Names(Without(s, i)) == Without(Names(s), i);
  }

  lemma {:induction false} NamesMultiset(r: seq<Ranked>, s: seq<Ranked>)
    requires multiset(r) == multiset(s)
    ensures multiset(Names(r)) == multiset(Names(s))
    decreases |r|
  {
    if r == [] {
      EmptyMultiset(r, s);
    } else {
      var i := MatchHead(r, s);
      NamesWithout(r, 0);
      NamesWithout(s, i);
      NamesMultiset(Without(r, 0), Without(s, i));
    }
  }

  /** Kept bytes never exceed the cap, unless the pinned pages alone do. */
  lemma KeptBytesBounded(policy: TierPolicy, cs: seq<Candidate>, size: map<Name, nat>, budget: nat)
    requires Named(cs) && Sizes(cs, size)
    ensures
      var keep := NameSet(Plan(policy, cs, budget).0);
      && keep <= size.Keys && PinnedNames(cs) <= keep
      && (100 * Weight(size, keep) <= 85 * budget || keep == PinnedNames(cs))
  {
    var r, cap := SortRanked(Rank(policy, cs)), Cap(budget);
    PlanRanking(policy, cs, size, r);
    KeptNamesIsSplit(r, cap);
    UsedIsWeight(r, size, cap, |r|);
    OverCapOnlyPinned(r, size, cap, |r|);
    CapIs(budget, UsedBefore(r, cap, |r|));
    RankingFacts(policy, cs, r);
    var keep := KeptNames(r, cap, |r|);
    forall n | n in PinnedNames(cs) ensures n in keep {
      var c :| c in cs && c.obs.pinned && c.name == n;
      var i := Locate(policy, cs, r, c);
      assert Decided(r, cap, i, true, n);
    }
    if cap < UsedBefore(r, cap, |r|) {
      forall n | n in keep ensures n in PinnedNames(cs) {
        var j :| j < |r| && Decided(r, cap, j, true, n);
        assert r[j] in r;
        assert Candidate(r[j].name, r[j].obs) in cs;
      }
    }
  }

  /** What was evicted would still not fit, and is larger than anything kept that ranks below it. */
  lemma EvictedDoNotFit(policy: TierPolicy, cs: seq<Candidate>, size: map<Name, nat>, budget: nat, c: Candidate, d: Candidate)
    requires Named(cs) && Sizes(cs, size) && c in cs && d in cs
    requires c.name in Plan(policy, cs, budget).1
    ensures !c.obs.pinned
    ensures NameSet(Plan(policy, cs, budget).0) <= size.Keys
    ensures 85 * budget < 100 * (Weight(size, NameSet(Plan(policy, cs, budget).0)) + c.obs.bytes)
    ensures d.name in Plan(policy, cs, budget).0 && Precedes(RankOf(policy, c), RankOf(policy, d)) ==>
      d.obs.bytes < c.obs.bytes
  {
    var r, cap := SortRanked(Rank(policy, cs)), Cap(budget);
    PlanRanking(policy, cs, size, r);
    KeptNamesIsSplit(r, cap);
    UsedIsWeight(r, size, cap, |r|);
    CapIs(budget, UsedBefore(r, cap, |r|) + c.obs.bytes);
    var i := Locate(policy, cs, r, c);
    var j := Locate(policy, cs, r, d);
    InPlanIff(r, size, cap, i, false);
    InPlanIff(r, size, cap, j, true);
    UsedGrows(r, cap, i, |r|);
    if Keeps(r, cap, j) && Precedes(r[i], r[j]) {
      PositionsFollowOrder(r, i, j);
      UsedGrows(r, cap, i, j);
      PinnedComeFirst(r, size, i, j);
    }
  }

  // ---------------------------------------------------------------- hysteresis

  /** The candidates at the next sweep: same rates and sizes, residence as planned. */
  function Reseated(cs: seq<Candidate>, keep: seq<Name>): seq<Candidate> {
    seq(|cs|, i requires 0 <= i < |cs| => Reseat(cs[i], keep))
  }

  function Reseat(c: Candidate, keep: seq<Name>): Candidate {
    c.(obs := c.obs.(resident := c.name in keep))
  }

  /** Incumbency can only help the kept and hurt the evicted. */
  lemma ScoreMoves(policy: TierPolicy, o: PageObs)
    requires 0.0 <= policy.alpha && 0.0 <= o.rate && !o.pinned
    ensures policy.Score(o.(resident := true)).v >= policy.Score(o).v >= policy.Score(o.(resident := false)).v
  {
    assert 0.0 <= policy.alpha * o.rate;
  }

  /** A kept page ranked above an evicted one stays above it after both are reseated. */
  lemma OrderSurvives(policy: TierPolicy, c: Candidate, d: Candidate, keep: seq<Name>)
    requires 0.0 <= policy.alpha && 0.0 <= c.obs.rate && 0.0 <= d.obs.rate
    requires c.name in keep && d.name !in keep && !d.obs.pinned
    requires Precedes(RankOf(policy, c), RankOf(policy, d))
    ensures Precedes(RankOf(policy, Reseat(c, keep)), RankOf(policy, Reseat(d, keep)))
  {
    ScoreMoves(policy, d.obs);
    if !c.obs.pinned { ScoreMoves(policy, c.obs); }
  }

  /** What the second greedy run needs to know about the first. */
  ghost predicate Stable(r: seq<Ranked>, size: map<Name, nat>, cap: nat, kept: set<Name>) {
    && kept <= size.Keys
    && (forall i :: 0 <= i < |r| && r[i].name in kept && !r[i].obs.pinned ==> Weight(size, kept) <= cap)
    && (forall i :: 0 <= i < |r| && r[i].name !in kept ==>
          && !r[i].obs.pinned
          && cap < Weight(size, KeptAbove(r, kept, i)) + r[i].obs.bytes)
  }

  predicate Called(r: seq<Ranked>, j: int, n: Name) {
    0 <= j < |r| && r[j].name == n
  }

  /** The members of `kept` among the first `i` entries. */
  ghost function KeptAbove(r: seq<Ranked>, kept: set<Name>, i: nat): (s: set<Name>)
    requires i <= |r|
    ensures forall n :: n in s <==> n in kept && exists j :: j < i && Called(r, j, n)
  {
    if i == 0 then {}
    else
      var last := i - 1;
      assert Called(r, last, r[last].name);
      if r[last].name in kept then KeptAbove(r, kept, last) + {r[last].name} else KeptAbove(r, kept, last)
  }

  lemma {:induction false} StableRunKeeps(r: seq<Ranked>, size: map<Name, nat>, cap: nat, kept: set<Name>, i: nat)
    requires Ranking(r, size) && Stable(r, size, cap, kept) && i <= |r|
    ensures KeptNames(r, cap, i) == KeptAbove(r, kept, i)
  {
    if 0 < i {
      StableRunKeeps(r, size, cap, kept, i - 1);
      StableDecision(r, size, cap, kept, i - 1);
    }
  }

  lemma StableDecision(r: seq<Ranked>, size: map<Name, nat>, cap: nat, kept: set<Name>, i: nat)
    requires Ranking(r, size) && Stable(r, size, cap, kept) && i < |r|
    requires KeptNames(r, cap, i) == KeptAbove(r, kept, i)
    ensures Keeps(r, cap, i) <==> r[i].name in kept
  {
    UsedIsWeight(r, size, cap, i);
    if r[i].name in kept && !r[i].obs.pinned {
      NotYetKept(r, size, cap, i);
      var above := KeptAbove(r, kept, i);
      WeightAdd(size, above, r[i].name);
      WeightMonotone(size, above + {r[i].name}, kept);
    }
  }

  lemma SameNameSame(cs: seq<Candidate>, c: Candidate, d: Candidate)
    requires Named(cs) && c in cs && d in cs && c.name == d.name
    ensures c == d
  {
    var i :| 0 <= i < |cs| && cs[i] == c;
    var j :| 0 <= j < |cs| && cs[j] == d;
  }

  /** The candidate behind an entry of the second ranking. */
  lemma Origin(policy: TierPolicy, cs: seq<Candidate>, keep: seq<Name>, r: seq<Ranked>, i: nat) returns (c: Candidate)
    requires Named(cs) && r == SortRanked(Rank(policy, Reseated(cs, keep))) && i < |r|
    ensures c in cs && r[i] == RankOf(policy, Reseat(c, keep))
  {
    var ds := Reseated(cs, keep);
    RankingFacts(policy, ds, r);
    assert r[i] in r;
    var k :| 0 <= k < |ds| && ds[k] == Candidate(r[i].name, r[i].obs);
    c := cs[k];
  }

  lemma Reseating(policy: TierPolicy, cs: seq<Candidate>, keep: seq<Name>, r: seq<Ranked>, c: Candidate) returns (i: nat)
    requires Named(cs) && r == SortRanked(Rank(policy, Reseated(cs, keep))) && c in cs
    ensures i < |r| && r[i] == RankOf(policy, Reseat(c, keep))
  {
    var k :| 0 <= k < |cs| && cs[k] == c;
    hide SortRanked, Rank, RankOf;
    assert Reseated(cs, keep)[k] in Reseated(cs, keep);
    i := Locate(policy, Reseated(cs, keep), r, Reseat(c, keep));
  }

  lemma KeptIsCandidate(policy: TierPolicy, cs: seq<Candidate>, budget: nat, n: Name) returns (c: Candidate)
    requires Named(cs) && n in Plan(policy, cs, budget).0
    ensures c in cs && c.name == n
  {
    var r := SortRanked(Rank(policy, cs));
    SplitLists(r, Cap(budget), |r|, true, n);
    var j :| j < |r| && Decided(r, Cap(budget), j, true, n);
    RankingFacts(policy, cs, r);
    assert r[j] in r;
    c := Candidate(r[j].name, r[j].obs);
  }

  /** Kept pages above an evicted one in the first ranking are above it in the second. */
  lemma KeptStayAbove(policy: TierPolicy, cs: seq<Candidate>, budget: nat, keep: seq<Name>,
                      r0: seq<Ranked>, i0: nat, r: seq<Ranked>, i: nat, size: map<Name, nat>, n: Name)
    requires Named(cs) && 0.0 <= policy.alpha && forall c :: c in cs ==> 0.0 <= c.obs.rate
    requires keep == Plan(policy, cs, budget).0
    requires r0 == SortRanked(Rank(policy, cs)) && Ranking(r0, size) && i0 < |r0|
    requires r == SortRanked(Rank(policy, Reseated(cs, keep))) && Ranking(r, size) && i < |r|
    requires r0[i0].name == r[i].name && r[i].name !in keep && !r[i].obs.pinned
    requires n in KeptNames(r0, Cap(budget), i0)
    ensures n in KeptAbove(r, NameSet(keep), i)
  {
    var j0 :| j0 < i0 && Decided(r0, Cap(budget), j0, true, n);
    InPlanIff(r0, size, Cap(budget), j0, true);
    RankingFacts(policy, cs, r0);
    assert r0[j0] in r0 && r0[i0] in r0;
    var c := Candidate(r0[j0].name, r0[j0].obs);
    var d := Origin(policy, cs, keep, r, i);
    SameNameSame(cs, d, Candidate(r0[i0].name, r0[i0].obs));
    assert Precedes(r0[j0], r0[i0]);
    OrderSurvives(policy, c, d, keep);
    var j := Reseating(policy, cs, keep, r, c);
    PositionsFollowOrder(r, j, i);
    assert Called(r, j, n);
  }

  lemma SecondRunIsStable(policy: TierPolicy, cs: seq<Candidate>, size: map<Name, nat>, budget: nat, r: seq<Ranked>)
    requires Named(cs) && 0.0 <= policy.alpha && forall c :: c in cs ==> 0.0 <= c.obs.rate
    requires Sizes(cs, size)
    requires r == SortRanked(Rank(policy, Reseated(cs, Plan(policy, cs, budget).0))) && Ranking(r, size)
    ensures Stable(r, size, Cap(budget), NameSet(Plan(policy, cs, budget).0))
  {
    var keep, cap := Plan(policy, cs, budget).0, Cap(budget);
    var kept := NameSet(keep);
    var r0 := SortRanked(Rank(policy, cs));
    KeptBytesBounded(policy, cs, size, budget);
    PlanRanking(policy, cs, size, r0);
    forall i | 0 <= i < |r| && r[i].name in kept && !r[i].obs.pinned ensures Weight(size, kept) <= cap {
      var c := Origin(policy, cs, keep, r, i);
      forall p | p in cs && p.obs.pinned ensures p.name != c.name {
        if p.name == c.name { SameNameSame(cs, c, p); }
      }
      assert c.name !in PinnedNames(cs);
    }
    forall i | 0 <= i < |r| && r[i].name !in kept
      ensures !r[i].obs.pinned && cap < Weight(size, KeptAbove(r, kept, i)) + r[i].obs.bytes
    {
      var d := Origin(policy, cs, keep, r, i);
      var i0 := Locate(policy, cs, r0, d);
      InPlanIff(r0, size, cap, i0, true);
      UsedIsWeight(r0, size, cap, i0);
      forall n | n in KeptNames(r0, cap, i0) ensures n in KeptAbove(r, kept, i) {
        KeptStayAbove(policy, cs, budget, keep, r0, i0, r, i, size, n);
      }
      WeightMonotone(size, KeptNames(r0, cap, i0), KeptAbove(r, kept, i));
    }
  }

  /** With rates held fixed, making residence match a plan and planning again keeps the same pages. */
  lemma HysteresisIsStable(policy: TierPolicy, cs: seq<Candidate>, size: map<Name, nat>, budget: nat)
    requires Named(cs) && Sizes(cs, size)
    requires 0.0 <= policy.alpha && forall c :: c in cs ==> 0.0 <= c.obs.rate
    ensures
      var keep := Plan(policy, cs, budget).0;
      NameSet(Plan(policy, Reseated(cs, keep), budget).0) == NameSet(keep)
  {
    var keep := Plan(policy, cs, budget).0;
    var r := SortRanked(Rank(policy, Reseated(cs, keep)));
    ReseatedSizes(cs, size, keep);
    PlanRanking(policy, Reseated(cs, keep), size, r);
    SecondRunIsStable(policy, cs, size, budget, r);
    StableRunKeeps(r, size, Cap(budget), NameSet(keep), |r|);
    KeptNamesIsSplit(r, Cap(budget));
    KeptAreRanked(policy, cs, budget, r);
  }

  lemma ReseatedSizes(cs: seq<Candidate>, size: map<Name, nat>, keep: seq<Name>)
    requires Sizes(cs, size)
    ensures Sizes(Reseated(cs, keep), size)
  {
    var ds := Reseated(cs, keep);
    forall d | d in ds ensures d.name in size && size[d.name] == d.obs.bytes {
      var i :| 0 <= i < |ds| && ds[i] == d;
      assert cs[i] in cs;
    }
  }

  lemma KeptAreRanked(policy: TierPolicy, cs: seq<Candidate>, budget: nat, r: seq<Ranked>)
    requires Named(cs) && r == SortRanked(Rank(policy, Reseated(cs, Plan(policy, cs, budget).0)))
    ensures KeptAbove(r, NameSet(Plan(policy, cs, budget).0), |r|) == NameSet(Plan(policy, cs, budget).0)
  {
    var keep := Plan(policy, cs, budget).0;
    forall n | n in keep ensures n in KeptAbove(r, NameSet(keep), |r|) {
      var c := KeptIsCandidate(policy, cs, budget, n);
      var j := Reseating(policy, cs, keep, r, c);
      assert Called(r, j, n);
    }
  }
}
