/** Provider selection: the strategies over the healthy candidates, and the shared counter. */
module Routing {
  import opened Text
  import opened CircuitBreaker

  const U64: nat := 0x1_0000_0000_0000_0000

  datatype Strategy = Fallback | Weighted | RoundRobin | LeastConnections | LatencyBased | CostBased

  datatype ProviderState = ProviderState(weight: nat, breaker: Breaker)

  datatype Target = Target(name: string, state: ProviderState, isPrimary: bool)

  function Healthy(candidates: seq<Target>, now: nat): seq<Target> {
    if |candidates| == 0 then []
    else
      var rest, last := Healthy(candidates[..|candidates| - 1], now), candidates[|candidates| - 1];
      if IsOpen(last.state.breaker, now) then rest else rest + [last]
  }

  function Weights(targets: seq<Target>): seq<nat> {
    seq(|targets|, i requires 0 <= i < |targets| => targets[i].state.weight)
  }

  function Sum(weights: seq<nat>): nat {
    if |weights| == 0 then 0 else Sum(weights[..|weights| - 1]) + weights[|weights| - 1]
  }

  /** The share of the counter range that falls to a candidate starts after all before it. */
  predicate InShare(weights: seq<nat>, i: nat, target: nat) {
    i < |weights| && Sum(weights[..i]) <= target < Sum(weights[..i]) + weights[i]
  }

  lemma {:induction false} SumSplits(weights: seq<nat>, i: nat)
    requires i < |weights|
    ensures Sum(weights[..i + 1]) == Sum(weights[..i]) + weights[i]
    ensures Sum(weights[..i]) + weights[i] <= Sum(weights)
    decreases |weights|
  {
    assert weights[..i + 1][..i] == weights[..i];
    var init := weights[..|weights| - 1];
    if i < |weights| - 1 {
      assert init[..i] == weights[..i];
      SumSplits(init, i);
    } else {
      assert weights[..i] == init;
    }
  }

  lemma {:induction false} SharesAreDisjoint(weights: seq<nat>, i: nat, j: nat, target: nat)
    requires InShare(weights, i, target) && InShare(weights, j, target)
    ensures i == j
  {
    if i < j {
      PrefixSums(weights, i + 1, j);
      SumSplits(weights, i);
    } else if j < i {
      PrefixSums(weights, j + 1, i);
      SumSplits(weights, j);
    }
  }

  lemma {:induction false} PrefixSums(weights: seq<nat>, i: nat, j: nat)
    requires i <= j <= |weights|
    ensures Sum(weights[..i]) <= Sum(weights[..j])
    decreases j
  {
    if i < j {
      PrefixSums(weights, i, j - 1);
      SumSplits(weights, j - 1);
    }
  }

  /** The weighted choice: the candidate whose share holds the target. Shares do not overlap and
      cover the range below the total, so there is exactly one. */
  method WeightedIndex(weights: seq<nat>, target: nat) returns (index: nat)
    requires target < Sum(weights) < U32
    ensures InShare(weights, index, target)
  {
    var cumulative := 0;
    index := 0;
    assert weights[..|weights|] == weights;
    for i := 0 to |weights|
      invariant cumulative == Sum(weights[..i]) <= target
    {
      SumSplits(weights, i);
      cumulative := cumulative + weights[i];
      if target < cumulative {
        return i;
      }
    }
    // The code's fallback to the last candidate: never reached.
    assert false;
  }

  lemma {:induction false} ShareExists(weights: seq<nat>, target: nat)
    requires target < Sum(weights)
    ensures exists i: nat :: InShare(weights, i, target)
  {
    if |weights| > 0 {
      var n := |weights| - 1;
      if target < Sum(weights[..n]) {
        ShareExists(weights[..n], target);
        var i: nat :| InShare(weights[..n], i, target);
        assert weights[..n][..i] == weights[..i];
        assert InShare(weights, i, target);
      } else {
        assert InShare(weights, n, target);
      }
    }
  }

  /** The index whose share holds the target. */
  ghost function ShareOf(weights: seq<nat>, target: nat): (i: nat)
    requires target < Sum(weights)
    ensures InShare(weights, i, target)
  {
    ShareExists(weights, target);
    var i: nat :| InShare(weights, i, target);
    i
  }

  predicate IsFirstMinimum(keys: seq<nat>, i: nat) {
    && i < |keys|
    && (forall j | 0 <= j < |keys| :: keys[i] <= keys[j])
    && (forall j | 0 <= j < i :: keys[i] < keys[j])
  }

  function Failures(targets: seq<Target>): seq<nat> {
    seq(|targets|, i requires 0 <= i < |targets| => targets[i].state.breaker.failures)
  }

  /** What `select` may answer for a counter value: the index of the chosen healthy candidate. */
  predicate Chooses(strategy: Strategy, healthy: seq<Target>, counter: nat, i: nat) {
    && i < |healthy|
    && match strategy
       case Weighted =>
         var total := Sum(Weights(healthy));
         if total == 0 then i == 0 else InShare(Weights(healthy), i, counter % total)
       case RoundRobin => i == counter % |healthy|
       case LeastConnections => IsFirstMinimum(Failures(healthy), i)
       case _ => i == 0
  }

  /** Whether a selection draws a value from the shared counter. */
  predicate DrawsCounter(strategy: Strategy, healthy: seq<Target>) {
    |healthy| > 0 && (strategy == RoundRobin || (strategy == Weighted && Sum(Weights(healthy)) > 0))
  }

  /** The process-wide counter that round-robin and weighted selection share. */
  class Selector {
    var counter: nat

    constructor ()
      ensures counter == 0
    {
      counter := 0;
    }

    method Filter(candidates: seq<Target>, now: nat) returns (healthy: seq<Target>)
      ensures healthy == Healthy(candidates, now)
    {
      healthy := [];
      for i := 0 to |candidates|
        invariant healthy == Healthy(candidates[..i], now)
      {
        assert candidates[..i + 1][..i] == candidates[..i];
        if !IsOpen(candidates[i].state.breaker, now) {
          healthy := healthy + [candidates[i]];
        }
      }
      assert candidates[..|candidates|] == candidates;
    }

    method Draw() returns (value: nat)
      requires counter < U64
      modifies this
      ensures value == old(counter) && counter == (old(counter) + 1) % U64
    {
      value := counter;
      counter := (counter + 1) % U64;
    }

    /** `select`: nothing when no candidate is healthy, else the candidate the strategy chooses. */
    method Select(strategy: Strategy, candidates: seq<Target>, now: nat) returns (chosen: Option<Target>)
      requires counter < U64
      requires strategy == Weighted ==> Sum(Weights(Healthy(candidates, now))) < U32
      modifies this
      ensures chosen.None? <==> Healthy(candidates, now) == []
      ensures chosen.Some? ==>
                exists i: nat :: Chooses(strategy, Healthy(candidates, now), old(counter), i) &&
                                 chosen.value == Healthy(candidates, now)[i]
      ensures counter == if DrawsCounter(strategy, Healthy(candidates, now)) then (old(counter) + 1) % U64
                         else old(counter)
    {
      hide Healthy, Sum, InShare, IsFirstMinimum;
      var healthy := Filter(candidates, now);
      if |healthy| == 0 {
        return None;
      }
      var index := 0;
      match strategy {
        case Weighted =>
          var total := Sum(Weights(healthy));
          if total != 0 {
            var value := Draw();
            index := WeightedIndex(Weights(healthy), value % total);
          }
        case RoundRobin =>
          var value := Draw();
          index := value % |healthy|;
        case LeastConnections =>
          index := FirstMinimum(Failures(healthy));
        case _ =>
          index := 0;
      }
      assert Chooses(strategy, healthy, old(counter), index);
      return Some(healthy[index]);
    }

    /** `Iterator::min_by_key`: the first of the smallest. */
    method FirstMinimum(keys: seq<nat>) returns (index: nat)
      requires |keys| > 0
      ensures IsFirstMinimum(keys, index)
    {
      index := 0;
      for i := 1 to |keys|
        invariant index < i
        invariant forall j | 0 <= j < i :: keys[index] <= keys[j]
        invariant forall j | 0 <= j < index :: keys[index] < keys[j]
      {
        if keys[i] < keys[index] {
          index := i;
        }
      }
    }
  }

  /** The choice is unique, so `Chooses` pins the answer down. */
  lemma ChoiceIsUnique(strategy: Strategy, healthy: seq<Target>, counter: nat, i: nat, j: nat)
    requires Chooses(strategy, healthy, counter, i) && Chooses(strategy, healthy, counter, j)
    ensures i == j
  {
    if strategy == Weighted && Sum(Weights(healthy)) > 0 {
      SharesAreDisjoint(Weights(healthy), i, j, counter % Sum(Weights(healthy)));
    } else if strategy == LeastConnections {
      FirstMinimumIsUnique(Failures(healthy), i, j);
    }
  }

  lemma FirstMinimumIsUnique(keys: seq<nat>, i: nat, j: nat)
    requires IsFirstMinimum(keys, i) && IsFirstMinimum(keys, j)
    ensures i == j
  {
    var a, b := keys[i], keys[j];
  }

  lemma {:induction false} HealthyAreClosed(candidates: seq<Target>, now: nat)
    ensures forall t :: t in Healthy(candidates, now) <==> t in candidates && !IsOpen(t.state.breaker, now)
  {
    if |candidates| > 0 {
      HealthyAreClosed(candidates[..|candidates| - 1], now);
      assert candidates == candidates[..|candidates| - 1] + [candidates[|candidates| - 1]];
    }
  }

  // ---- Fairness ------------------------------------------------------------------------------

  /** How many of the `n` counter values from `from` on satisfy `p`. */
  function Hits(p: nat -> bool, from: nat, n: nat): nat {
    if n == 0 then 0 else Hits(p, from, n - 1) + (if p(from + n - 1) then 1 else 0)
  }

  lemma {:induction false} HitsFromFront(p: nat -> bool, from: nat, n: nat)
    ensures Hits(p, from, n + 1) == (if p(from) then 1 else 0) + Hits(p, from + 1, n)
  {
    if n > 0 {
      HitsFromFront(p, from, n - 1);
    }
  }

  ghost predicate Periodic(p: nat -> bool, m: nat) {
    forall c: nat :: p(c + m) == p(c)
  }

  /** A full period has the same hits wherever it starts. */
  lemma {:induction false} PeriodHits(p: nat -> bool, m: nat, from: nat)
    requires m > 0 && Periodic(p, m)
    ensures Hits(p, from, m) == Hits(p, 0, m)
  {
    if from > 0 {
      PeriodHits(p, m, from - 1);
      HitsFromFront(p, from - 1, m);
      var c: nat := from - 1;
      assert p(c + m) == p(c);
      assert Hits(p, from - 1, m + 1) == Hits(p, from - 1, m) + (if p(c + m) then 1 else 0);
    }
  }

  /** Hits of an interval. */
  lemma {:induction false} IntervalHits(p: nat -> bool, lo: nat, hi: nat, n: nat)
    requires lo <= hi
    requires forall c: nat | c < n :: p(c) <==> lo <= c < hi
    ensures Hits(p, 0, n) == if n <= lo then 0 else if n <= hi then n - lo else hi - lo
  {
    if n > 0 {
      IntervalHits(p, lo, hi, n - 1);
      var c: nat := n - 1;
      assert p(c) <==> lo <= c < hi;
    }
  }

  lemma ModPeriodic(c: nat, m: nat)
    requires m > 0
    ensures (c + m) % m == c % m
  {
    var q, r := c / m, c % m;
    assert c == m * q + r;
    ModOf(c + m, m, q + 1, r);
  }

  lemma ModOf(c: nat, m: nat, q: nat, r: nat)
    requires r < m && c == m * q + r
    ensures c % m == r
  {
    QuotientIsUnique(m, c / m, c % m, q, r);
  }

  lemma QuotientIsUnique(m: nat, q1: nat, r1: nat, q2: nat, r2: nat)
    requires r1 < m && r2 < m && m * q1 + r1 == m * q2 + r2
    ensures r1 == r2
  {
    if q1 < q2 {
      MultipleAtLeast(m, q1, q2);
    } else if q2 < q1 {
      MultipleAtLeast(m, q2, q1);
    }
  }

  lemma {:induction false} MultipleAtLeast(m: nat, q1: nat, q2: nat)
    requires q1 < q2
    ensures m * q2 >= m * q1 + m
    decreases q2
  {
    if q1 + 1 < q2 {
      MultipleAtLeast(m, q1, q2 - 1);
      assert m * q2 == m * (q2 - 1) + m;
    } else {
      assert m * q2 == m * q1 + m;
    }
  }

  /** The counter values for which a strategy chooses candidate `i`. */
  function ChosenAt(strategy: Strategy, healthy: seq<Target>, i: nat): nat -> bool {
    (counter: nat) => Chooses(strategy, healthy, counter, i)
  }

  /** Weighted selection is exactly fair: over any run of as many consecutive counter values as the
      weights sum to, each candidate is chosen exactly as often as its weight says; so a candidate of
      weight zero never. */
  lemma WeightedIsFair(healthy: seq<Target>, from: nat, i: nat)
    requires i < |healthy|
    requires 0 < Sum(Weights(healthy)) < U32 && from + Sum(Weights(healthy)) <= U64
    ensures Hits(ChosenAt(Weighted, healthy, i), from, Sum(Weights(healthy))) == healthy[i].state.weight
  {
    hide Sum;
    var weights := Weights(healthy);
    var total, p := Sum(weights), ChosenAt(Weighted, healthy, i);
    forall c: nat
      ensures p(c + total) == p(c)
    {
      ModPeriodic(c, total);
    }
    PeriodHits(p, total, from);
    SumSplits(weights, i);
    forall c: nat | c < total
      ensures p(c) <==> Sum(weights[..i]) <= c < Sum(weights[..i]) + weights[i]
    {
      ModOf(c, total, 0, c);
    }
    IntervalHits(p, Sum(weights[..i]), Sum(weights[..i]) + weights[i], total);
  }

  /** Round-robin is exactly fair: over `n` consecutive counter values each of `n` candidates is
      chosen exactly once. */
  lemma RoundRobinIsFair(healthy: seq<Target>, from: nat, i: nat)
    requires i < |healthy| && from + |healthy| <= U64
    ensures Hits(ChosenAt(RoundRobin, healthy, i), from, |healthy|) == 1
  {
    var n, p := |healthy|, ChosenAt(RoundRobin, healthy, i);
    forall c: nat
      ensures p(c + n) == p(c)
    {
      ModPeriodic(c, n);
    }
    PeriodHits(p, n, from);
    forall c: nat | c < n
      ensures p(c) <==> i <= c < i + 1
    {
      ModOf(c, n, 0, c);
    }
    IntervalHits(p, i, i + 1, n);
  }
}
