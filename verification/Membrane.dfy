/** src/membrane.rs: decayed access rates. */
module Membranes {
  import opened Common
  import opened Plans

  const RATE_DECAY: real := 0.75

  datatype Rates = Rates(rates: map<Name, real>, hits: map<Name, nat>, sweeps: nat) {
    /** Absent pages have rate 0. */
    function Rate(n: Name): real { if n in rates then rates[n] else 0.0 }
    function Hits(n: Name): nat { if n in hits then hits[n] else 0 }

    function Observed(n: Name): Rates { this.(hits := hits[n := Hits(n) + 1]) }

    /** Every page known or seen in the window moves a quarter of the way to its hit count. */
    function Decayed(): Rates {
      Rates(map n | n in rates.Keys + hits.Keys :: Average(n), map[], sweeps + 1)
    }

    /** The moving average of the rate and the window's hits. */
    function Average(n: Name): real { 0.75 * Rate(n) + 0.25 * Hits(n) as real }

    function Forgotten(n: Name): Rates { this.(rates := rates - {n}, hits := hits - {n}) }
  }

  class Membrane {
    var rates: map<Name, real>
    var hits: map<Name, nat>
    var sweeps: nat

    function State(): Rates
      reads this
    {
      Rates(rates, hits, sweeps)
    }

    constructor ()
      ensures State() == Rates(map[], map[], 0)
    {
      rates, hits, sweeps := map[], map[], 0;
    }

    method Observe(name: Name)
      modifies this
      ensures State() == old(State()).Observed(name)
    {
      var h := if name in hits then hits[name] else 0;
      hits := hits[name := h + 1];
    }

    method Decay()
      modifies this
      ensures State() == old(State()).Decayed()
    {
      ghost var m := State();
      var todo := rates.Keys;
      while todo != {}
        invariant todo <= rates.Keys == m.rates.Keys
        invariant hits == m.hits && sweeps == m.sweeps
        invariant forall n :: n in todo ==> rates[n] == m.rates[n]
        invariant forall n :: n in rates && n !in todo ==> rates[n] == m.Average(n)
        decreases todo
      {
        var name :| name in todo;
        var h := if name in hits then hits[name] else 0;
        rates := rates[name := rates[name] * RATE_DECAY + h as real * (1.0 - RATE_DECAY)];
        todo := todo - {name};
      }
      // Hits of pages without a rate.
      todo := hits.Keys;
      while todo != {}
        invariant todo <= hits.Keys
        invariant hits == m.hits && sweeps == m.sweeps
        invariant rates.Keys == m.rates.Keys + (hits.Keys - todo)
        invariant forall n :: n in rates ==> rates[n] == m.Average(n)
        decreases todo
      {
        var name :| name in todo;
        if name !in rates {
          rates := rates[name := hits[name] as real * (1.0 - RATE_DECAY)];
        }
        todo := todo - {name};
      }
      hits := map[];
      sweeps := sweeps + 1;
    }

    method Forget(name: Name)
      modifies this
      ensures State() == old(State()).Forgotten(name)
    {
      rates := rates - {name};
      hits := hits - {name};
    }

    /** Rank, then fill down to the cap. */
    method Plan(policy: TierPolicy, candidates: seq<Candidate>, vramBudget: nat) returns (keep: seq<Name>, evict: seq<Name>)
      ensures (keep, evict) == Plans.Plan(policy, candidates, vramBudget)
    {
      var ranked := SortRanked(Rank(policy, candidates));
      var cap := Cap(vramBudget);
      keep, evict := [], [];
      var used := 0;
      for i := 0 to |ranked|
        invariant used == UsedBefore(ranked, cap, i)
        invariant keep == Split(ranked, cap, i, true) && evict == Split(ranked, cap, i, false)
      {
        var obs := ranked[i].obs;
        if obs.pinned || used + obs.bytes <= cap {
          used := used + obs.bytes;
          keep := keep + [ranked[i].name];
        } else {
          evict := evict + [ranked[i].name];
        }
      }
    }
  }

  // ------------------------------------------------------ rates over many windows

  /** `x` after `n` decays: x * (3/4)^n. */
  function DecayTimes(x: real, n: nat): real {
    if n == 0 then x else 0.75 * DecayTimes(x, n - 1)
  }

  function Count(window: seq<Name>, n: Name): nat {
    multiset(window)[n]
  }

  ghost function ObserveAll(m: Rates, window: seq<Name>): Rates {
    if window == [] then m else ObserveAll(m, window[..|window| - 1]).Observed(window[|window| - 1])
  }

  /** A history of windows: the accesses of each, then a decay. */
  ghost function Sweeps(m: Rates, windows: seq<seq<Name>>): Rates {
    if windows == [] then m
    else ObserveAll(Sweeps(m, windows[..|windows| - 1]), windows[|windows| - 1]).Decayed()
  }

  /** A quarter of each window's hits, decayed once for every later window. */
  function WeighedHits(windows: seq<seq<Name>>, n: Name, until: nat): real
    requires until <= |windows|
  {
    if until == 0 then 0.0
    else WeighedHits(windows, n, until - 1) + DecayTimes(0.25 * Count(windows[until - 1], n) as real, |windows| - until)
  }

  lemma {:induction false} ObserveAllCounts(m: Rates, window: seq<Name>, n: Name)
    ensures ObserveAll(m, window).rates == m.rates
    ensures ObserveAll(m, window).Hits(n) == m.Hits(n) + Count(window, n)
  {
    if window != [] {
      var front, x := window[..|window| - 1], window[|window| - 1];
      ObserveAllCounts(m, front, n);
      assert window == front + [x];
      assert multiset(window) == multiset(front) + multiset{x};
    }
  }

  lemma SweepIsAverage(m: Rates, windows: seq<seq<Name>>, n: Name)
    requires windows != [] && m.hits == map[]
    ensures
      var before := Sweeps(m, windows[..|windows| - 1]);
      Sweeps(m, windows).Rate(n) == 0.75 * before.Rate(n) + 0.25 * Count(windows[|windows| - 1], n) as real
  {
    var before := Sweeps(m, windows[..|windows| - 1]);
    SweepsClearHits(m, windows[..|windows| - 1]);
    ObserveAllCounts(before, windows[|windows| - 1], n);
  }

  lemma SweepsClearHits(m: Rates, windows: seq<seq<Name>>)
    requires m.hits == map[]
    ensures Sweeps(m, windows).hits == map[] && Sweeps(m, windows).sweeps == m.sweeps + |windows|
    decreases |windows|
  {
    if windows != [] {
      var front := windows[..|windows| - 1];
      SweepsClearHits(m, front);
      ObserveAllSweeps(Sweeps(m, front), windows[|windows| - 1]);
    }
  }

  lemma {:induction false} ObserveAllSweeps(m: Rates, window: seq<Name>)
    ensures ObserveAll(m, window).sweeps == m.sweeps
  {
    if window != [] { ObserveAllSweeps(m, window[..|window| - 1]); }
  }

  lemma {:induction false} WeighedHitsShift(windows: seq<seq<Name>>, last: seq<Name>, n: Name, until: nat)
    requires until <= |windows|
    ensures WeighedHits(windows + [last], n, until) == 0.75 * WeighedHits(windows, n, until)
  {
    if 0 < until { WeighedHitsShift(windows, last, n, until - 1); }
  }

  /** Closed form: the starting rate and every window's hits, each decayed by its age. */
  lemma {:induction false} RateClosedForm(m: Rates, windows: seq<seq<Name>>, n: Name)
    requires m.hits == map[]
    ensures Sweeps(m, windows).Rate(n) == DecayTimes(m.Rate(n), |windows|) + WeighedHits(windows, n, |windows|)
    decreases |windows|
  {
    if windows != [] {
      var front, last := windows[..|windows| - 1], windows[|windows| - 1];
      RateClosedForm(m, front, n);
      SweepIsAverage(m, windows, n);
      WeighedHitsShift(front, last, n, |front|);
      assert windows == front + [last];
      assert DecayTimes(0.25 * Count(last, n) as real, 0) == 0.25 * Count(last, n) as real;
    }
  }

  /** Rates never go negative. */
  lemma {:induction false} RatesStayNonNegative(m: Rates, windows: seq<seq<Name>>, n: Name)
    requires m.hits == map[] && 0.0 <= m.Rate(n)
    ensures 0.0 <= Sweeps(m, windows).Rate(n)
    decreases |windows|
  {
    if windows != [] {
      RatesStayNonNegative(m, windows[..|windows| - 1], n);
      SweepIsAverage(m, windows, n);
    }
  }

  lemma {:induction false} DecayShift(x: real, n: nat)
    ensures DecayTimes(0.75 * x, n) == DecayTimes(x, n + 1)
  {
    if 0 < n { DecayShift(x, n - 1); }
  }

  /** Bernoulli's inequality, in the form `x < 1 + n/3` implies `x * (3/4)^n < 1`. */
  lemma {:induction false} DecaysBelowOne(x: real, n: nat)
    requires x < 1.0 + n as real / 3.0
    ensures DecayTimes(x, n) < 1.0
    decreases n
  {
    if 0 < n {
      DecayShift(x, n - 1);
      DecaysBelowOne(0.75 * x, n - 1);
    }
  }

  lemma {:induction false} DecayAdds(x: real, y: real, n: nat)
    ensures DecayTimes(x + y, n) == DecayTimes(x, n) + DecayTimes(y, n)
  {
    if 0 < n { DecayAdds(x, y, n - 1); }
  }

  lemma {:induction false} IdleOnlyDecays(m: Rates, windows: seq<seq<Name>>, n: Name)
    requires m.hits == map[] && forall i :: 0 <= i < |windows| ==> n !in windows[i]
    ensures Sweeps(m, windows).Rate(n) == DecayTimes(m.Rate(n), |windows|)
    decreases |windows|
  {
    if windows != [] {
      IdleOnlyDecays(m, windows[..|windows| - 1], n);
      SweepIsAverage(m, windows, n);
      assert n !in windows[|windows| - 1];
    }
  }

  lemma {:induction false} ActiveStaysUp(m: Rates, windows: seq<seq<Name>>, n: Name)
    requires m.hits == map[] && 0.0 <= m.Rate(n)
    requires forall i :: 0 <= i < |windows| ==> n in windows[i]
    ensures 1.0 - DecayTimes(1.0, |windows|) <= Sweeps(m, windows).Rate(n)
    decreases |windows|
  {
    if windows != [] {
      ActiveStaysUp(m, windows[..|windows| - 1], n);
      SweepIsAverage(m, windows, n);
      assert n in windows[|windows| - 1];
    }
  }

  /** After more than 3r sweeps a page idle since it had rate r is strictly colder than any page
    * accessed at least once in each of them. */
  lemma IdleFallsBelowActive(m: Rates, windows: seq<seq<Name>>, idle: Name, active: Name)
    requires m.hits == map[] && 0.0 <= m.Rate(active)
    requires forall i :: 0 <= i < |windows| ==> idle !in windows[i] && active in windows[i]
    requires 3.0 * m.Rate(idle) < |windows| as real
    ensures Sweeps(m, windows).Rate(idle) < Sweeps(m, windows).Rate(active)
  {
    IdleOnlyDecays(m, windows, idle);
    ActiveStaysUp(m, windows, active);
    DecayAdds(m.Rate(idle), 1.0, |windows|);
    DecaysBelowOne(m.Rate(idle) + 1.0, |windows|);
  }
}
