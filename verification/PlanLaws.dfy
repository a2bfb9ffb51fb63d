/** What the placement plan trades against what: heat, residence, size and, last, names. */
module PlanLaws {
  import opened Common
  import opened Plans

  /** A resident page counts half as hot again. */
  function Heat(o: PageObs): real {
    if o.resident then 3.0 * o.rate / 2.0 else o.rate
  }

  /** By how much `c` beats `d`: alpha for each unit of heat, less beta for each MiB. */
  function Lead(policy: TierPolicy, c: PageObs, d: PageObs): real {
    policy.alpha * (Heat(c) - Heat(d)) - policy.beta * ((c.bytes - d.bytes) as real / 1048576.0)
  }

  /** `c` goes before `d`: it is ahead, or level and first by name. */
  predicate Outranks(policy: TierPolicy, c: Candidate, d: Candidate) {
    Lead(policy, c.obs, d.obs) > 0.0 || (Lead(policy, c.obs, d.obs) == 0.0 && NameLess(c.name, d.name))
  }

  lemma Distribute(k: real, x: real, y: real)
    ensures k * (x - y) == k * x - k * y
  {
  }

  lemma Benefit(alpha: real, o: PageObs)
    ensures alpha * o.rate * (if o.resident then HYSTERESIS else 1.0) == alpha * Heat(o)
  {
    if o.resident { assert Heat(o) == o.rate * 1.5; }
  }

  lemma OutranksIsPrecedes(policy: TierPolicy, c: Candidate, d: Candidate)
    requires !c.obs.pinned && !d.obs.pinned
    ensures Outranks(policy, c, d) <==> Precedes(RankOf(policy, c), RankOf(policy, d))
  {
    Benefit(policy.alpha, c.obs);
    Benefit(policy.alpha, d.obs);
    Distribute(policy.alpha, Heat(c.obs), Heat(d.obs));
    var m, n := c.obs.bytes as real / 1048576.0, d.obs.bytes as real / 1048576.0;
    assert (c.obs.bytes - d.obs.bytes) as real / 1048576.0 == m - n;
    Distribute(policy.beta, m, n);
  }

  /** Of two unpinned pages the one that outranks the other is given up first only if it is larger. */
  lemma PlanFollowsRank(policy: TierPolicy, cs: seq<Candidate>, size: map<Name, nat>, budget: nat, c: Candidate, d: Candidate)
    requires Named(cs) && Sizes(cs, size) && c in cs && d in cs && !c.obs.pinned && !d.obs.pinned
    requires Outranks(policy, c, d) && c.name in Plan(policy, cs, budget).1
    ensures d.name in Plan(policy, cs, budget).1 || d.obs.bytes < c.obs.bytes
  {
    hide Outranks, Plan, Precedes, RankOf;
    OutranksIsPrecedes(policy, c, d);
    EvictedDoNotFit(policy, cs, size, budget, c, d);
    KeptOrEvicted(policy, cs, budget, d);
  }

  lemma KeptOrEvicted(policy: TierPolicy, cs: seq<Candidate>, budget: nat, d: Candidate)
    requires Named(cs) && d in cs
    ensures d.name in Plan(policy, cs, budget).0 || d.name in Plan(policy, cs, budget).1
  {
    hide Plan;
    PlanPartitions(policy, cs, budget);
    var (keep, evict) := Plan(policy, cs, budget);
    var names := seq(|cs|, i requires 0 <= i < |cs| => cs[i].name);
    var i :| 0 <= i < |cs| && cs[i] == d;
    assert names[i] == d.name;
    assert d.name in multiset(names);
  }

  lemma Positive(x: real, y: real)
    requires 0.0 < x && 0.0 < y
    ensures 0.0 < x * y
  {
  }

  lemma HotterLeads(policy: TierPolicy, c: PageObs, d: PageObs)
    requires 0.0 < policy.alpha && c.bytes == d.bytes && Heat(d) < Heat(c)
    ensures 0.0 < Lead(policy, c, d)
  {
    hide Heat;
    Positive(policy.alpha, Heat(c) - Heat(d));
  }

  lemma SmallerLeads(policy: TierPolicy, c: PageObs, d: PageObs)
    requires 0.0 < policy.beta && c.bytes < d.bytes && Heat(d) == Heat(c)
    ensures 0.0 < Lead(policy, c, d)
  {
    hide Heat;
    var m := (d.bytes - c.bytes) as real / 1048576.0;
    assert (c.bytes - d.bytes) as real / 1048576.0 == -m;
    Positive(policy.beta, m);
  }

  /** Heat decides between pages of one size: if the hotter is given up, so is the colder. */
  lemma HotterStaysLonger(policy: TierPolicy, cs: seq<Candidate>, size: map<Name, nat>, budget: nat, c: Candidate, d: Candidate)
    requires Named(cs) && Sizes(cs, size) && c in cs && d in cs && !c.obs.pinned && !d.obs.pinned
    requires 0.0 < policy.alpha && c.obs.bytes == d.obs.bytes && Heat(d.obs) < Heat(c.obs)
    ensures c.name in Plan(policy, cs, budget).1 ==> d.name in Plan(policy, cs, budget).1
  {
    hide Plan, Lead, Heat;
    HotterLeads(policy, c.obs, d.obs);
    if c.name in Plan(policy, cs, budget).1 { PlanFollowsRank(policy, cs, size, budget, c, d); }
  }

  /** Size decides between pages equally hot: if the smaller is given up, so is the larger. */
  lemma SmallerStaysLonger(policy: TierPolicy, cs: seq<Candidate>, size: map<Name, nat>, budget: nat, c: Candidate, d: Candidate)
    requires Named(cs) && Sizes(cs, size) && c in cs && d in cs && !c.obs.pinned && !d.obs.pinned
    requires 0.0 < policy.beta && c.obs.bytes < d.obs.bytes && Heat(d.obs) == Heat(c.obs)
    ensures c.name in Plan(policy, cs, budget).1 ==> d.name in Plan(policy, cs, budget).1
  {
    hide Plan, Lead, Heat;
    SmallerLeads(policy, c.obs, d.obs);
    if c.name in Plan(policy, cs, budget).1 { PlanFollowsRank(policy, cs, size, budget, c, d); }
  }

  /** A newcomer displaces a resident page of its size only if it is more than half as hot again: above
    * that the resident goes first, below it the newcomer does. */
  lemma NewcomerMustBeHotter(policy: TierPolicy, cs: seq<Candidate>, size: map<Name, nat>, budget: nat, c: Candidate, d: Candidate)
    requires Named(cs) && Sizes(cs, size) && c in cs && d in cs && !c.obs.pinned && !d.obs.pinned
    requires 0.0 < policy.alpha && c.obs.bytes == d.obs.bytes && !c.obs.resident && d.obs.resident
    ensures 3.0 * d.obs.rate < 2.0 * c.obs.rate && c.name in Plan(policy, cs, budget).1 ==> d.name in Plan(policy, cs, budget).1
    ensures 2.0 * c.obs.rate < 3.0 * d.obs.rate && d.name in Plan(policy, cs, budget).1 ==> c.name in Plan(policy, cs, budget).1
  {
    hide Plan;
    if 3.0 * d.obs.rate < 2.0 * c.obs.rate { HotterStaysLonger(policy, cs, size, budget, c, d); }
    if 2.0 * c.obs.rate < 3.0 * d.obs.rate { HotterStaysLonger(policy, cs, size, budget, d, c); }
  }

  // ------------------------------------------------------------ order of the lists

  lemma {:induction false} SplitFrom(r: seq<Ranked>, cap: nat, i: nat, kept: bool, a: nat) returns (x: nat)
    requires i <= |r| && a < |Split(r, cap, i, kept)|
    ensures x < i && r[x].name == Split(r, cap, i, kept)[a]
  {
    hide Keeps;
    var front := Split(r, cap, i - 1, kept);
    if a < |front| { x := SplitFrom(r, cap, i - 1, kept, a); } else { x := i - 1; }
  }

  lemma {:induction false} SplitInOrder(r: seq<Ranked>, cap: nat, i: nat, kept: bool, a: nat, b: nat) returns (x: nat, y: nat)
    requires i <= |r| && a < b < |Split(r, cap, i, kept)|
    ensures x < y < i && r[x].name == Split(r, cap, i, kept)[a] && r[y].name == Split(r, cap, i, kept)[b]
  {
    hide Keeps;
    var front := Split(r, cap, i - 1, kept);
    if b < |front| {
      x, y := SplitInOrder(r, cap, i - 1, kept, a, b);
    } else {
      x := SplitFrom(r, cap, i - 1, kept, a);
      y := i - 1;
    }
  }

  /** Both lists come in rank order: pinned pages first, then each page before those it outranks. */
  lemma PlanIsInOrder(policy: TierPolicy, cs: seq<Candidate>, budget: nat, kept: bool, a: nat, b: nat, c: Candidate, d: Candidate)
    requires Named(cs) && c in cs && d in cs
    requires
      var list := if kept then Plan(policy, cs, budget).0 else Plan(policy, cs, budget).1;
      a < b < |list| && list[a] == c.name && list[b] == d.name
    ensures d.obs.pinned ==> c.obs.pinned
    ensures !c.obs.pinned ==> Outranks(policy, c, d)
  {
    hide Outranks, SortRanked, Split;
    var r := SortRanked(Rank(policy, cs));
    var x, y := SplitInOrder(r, Cap(budget), |r|, kept, a, b);
    RankingFacts(policy, cs, r);
    var i := Locate(policy, cs, r, c);
    var j := Locate(policy, cs, r, d);
    assert i == x && j == y;
    assert Precedes(r[x], r[y]);
    if !c.obs.pinned && !d.obs.pinned { OutranksIsPrecedes(policy, c, d); }
  }

  // ------------------------------------------------------------ room for only one

  lemma SortTwo(x: Ranked, y: Ranked)
    requires x.name != y.name
    ensures SortRanked([x, y]) == if Precedes(x, y) then [x, y] else [y, x]
  {
    hide Precedes;
    assert [x, y][1..] == [y] && [y][1..] == [];
    assert SortRanked([y]) == Insert(y, []) == [y];
    assert SortRanked([x, y]) == Insert(x, [y]);
    assert Insert(x, []) == [x];
  }

  lemma SplitTwo(x: Ranked, y: Ranked, cap: nat)
    requires !x.obs.pinned && !y.obs.pinned && x.obs.bytes <= cap && cap < x.obs.bytes + y.obs.bytes
    ensures Split([x, y], cap, 2, true) == [x.name] && Split([x, y], cap, 2, false) == [y.name]
  {
    var r := [x, y];
    assert UsedBefore(r, cap, 0) == 0 && UsedBefore(r, cap, 1) == x.obs.bytes;
    assert Keeps(r, cap, 0) && !Keeps(r, cap, 1);
    assert Split(r, cap, 1, true) == Split(r, cap, 0, true) + [x.name];
    assert Split(r, cap, 1, false) == Split(r, cap, 0, false) + [];
    assert Split(r, cap, 2, true) == Split(r, cap, 1, true) + [];
    assert Split(r, cap, 2, false) == Split(r, cap, 1, false) + [y.name];
  }

  /** Two unpinned pages, each of which fits 85% of the budget while both together do not: the one that
    * outranks the other is kept.  This is the exact trade of heat against size. */
  lemma Duel(policy: TierPolicy, c: Candidate, d: Candidate, budget: nat)
    requires c.name != d.name && !c.obs.pinned && !d.obs.pinned
    requires 100 * c.obs.bytes <= 85 * budget && 100 * d.obs.bytes <= 85 * budget
    requires 85 * budget < 100 * (c.obs.bytes + d.obs.bytes)
    ensures Plan(policy, [c, d], budget) == if Outranks(policy, c, d) then ([c.name], [d.name]) else ([d.name], [c.name])
  {
    hide Outranks, Precedes, SortRanked, Cap;
    var x, y := RankOf(policy, c), RankOf(policy, d);
    assert Rank(policy, [c, d]) == [x, y];
    OutranksIsPrecedes(policy, c, d);
    SortTwo(x, y);
    CapIs(budget, c.obs.bytes);
    CapIs(budget, d.obs.bytes);
    CapIs(budget, c.obs.bytes + d.obs.bytes);
    if Outranks(policy, c, d) { SplitTwo(x, y, Cap(budget)); } else { SplitTwo(y, x, Cap(budget)); }
  }
}
