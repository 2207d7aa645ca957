/** Rounds of selecting a provider and recording its answer, on a clock. */
module Failover {
  import opened Text
  import opened CircuitBreaker
  import opened Routing

  datatype Route = Route(provider: string, fallbacks: seq<string>, strategy: Strategy)

  datatype Gateway = Gateway(providers: map<string, ProviderState>, counter: nat)

  function TargetOf(g: Gateway, name: string, isPrimary: bool): seq<Target> {
    if name in g.providers then [Target(name, g.providers[name], isPrimary)] else []
  }

  function FallbackTargets(g: Gateway, names: seq<string>): seq<Target> {
    if |names| == 0 then []
    else FallbackTargets(g, names[..|names| - 1]) + TargetOf(g, names[|names| - 1], false)
  }

  /** The primary if it is configured, then the configured fallbacks in order. */
  function CandidatesOf(g: Gateway, route: Route): seq<Target> {
    TargetOf(g, route.provider, true) + FallbackTargets(g, route.fallbacks)
  }

  lemma NoFallbacks(g: Gateway)
    ensures FallbackTargets(g, []) == []
  {
  }

  lemma OneMoreFallback(g: Gateway, names: seq<string>, name: string)
    ensures FallbackTargets(g, names + [name]) == FallbackTargets(g, names) + TargetOf(g, name, false)
  {
    hide TargetOf;
    assert (names + [name])[..|names|] == names;
  }

  /** The request fields `select_provider` sets. */
  datatype Selection = Selection(providerName: string, fallbackUsed: bool, originalProvider: Option<string>)

  method BuildCandidates(g: Gateway, route: Route) returns (candidates: seq<Target>)
    ensures candidates == CandidatesOf(g, route)
  {
    hide FallbackTargets;
    candidates := [];
    NoFallbacks(g);
    if route.provider in g.providers {
      candidates := candidates + [Target(route.provider, g.providers[route.provider], true)];
    }
    ghost var primary := candidates;
    assert route.fallbacks[..0] == [] && primary + [] == primary;
    for i := 0 to |route.fallbacks|
      invariant candidates == primary + FallbackTargets(g, route.fallbacks[..i])
    {
      var name := route.fallbacks[i];
      assert route.fallbacks[..i + 1] == route.fallbacks[..i] + [name];
      OneMoreFallback(g, route.fallbacks[..i], name);
      assert primary + (FallbackTargets(g, route.fallbacks[..i]) + TargetOf(g, name, false)) ==
             candidates + TargetOf(g, name, false);
      if name in g.providers {
        candidates := candidates + [Target(name, g.providers[name], false)];
      }
    }
    assert route.fallbacks[..|route.fallbacks|] == route.fallbacks;
  }

  /** `select_provider`. The selector's counter stands for the process-wide one in `g`. */
  method SelectProvider(g: Gateway, selector: Selector, route: Route, now: nat) returns (s: Option<Selection>)
    requires selector.counter == g.counter < U64
    requires route.strategy == Weighted ==> Sum(Weights(Healthy(CandidatesOf(g, route), now))) < U32
    modifies selector
    ensures s == SelectionOf(g, route, now)
    ensures selector.counter == CounterAfter(g, route, now)
  {
    hide Healthy, Sum, InShare, IsFirstMinimum, CandidatesOf, DrawsCounter;
    var candidates := BuildCandidates(g, route);
    var chosen := selector.Select(route.strategy, candidates, now);
    if chosen.None? {
      return None;
    }
    ghost var healthy := Healthy(candidates, now);
    ghost var i: nat :| Chooses(route.strategy, healthy, g.counter, i) && chosen.value == healthy[i];
    ChoiceIsUnique(route.strategy, healthy, g.counter, i, ChoiceOf(route.strategy, healthy, g.counter));
    return Some(SelectionFor(route, chosen.value));
  }

  function SelectionFor(route: Route, target: Target): Selection {
    if target.isPrimary then Selection(target.name, false, None)
    else Selection(target.name, true, Some(route.provider))
  }

  lemma ChoiceExists(strategy: Strategy, healthy: seq<Target>, counter: nat)
    requires |healthy| > 0
    ensures exists i: nat :: Chooses(strategy, healthy, counter, i)
  {
    if strategy == Weighted {
      var weights := Weights(healthy);
      if Sum(weights) > 0 {
        var i := ShareOf(weights, counter % Sum(weights));
        assert Chooses(strategy, healthy, counter, i);
      } else {
        assert Chooses(strategy, healthy, counter, 0);
      }
    } else if strategy == LeastConnections {
      var i := FirstMinimumExists(Failures(healthy));
      assert Chooses(strategy, healthy, counter, i);
    } else if strategy == RoundRobin {
      assert Chooses(strategy, healthy, counter, counter % |healthy|);
    } else {
      assert Chooses(strategy, healthy, counter, 0);
    }
  }

  lemma {:induction false} FirstMinimumExists(keys: seq<nat>) returns (i: nat)
    requires |keys| > 0
    ensures IsFirstMinimum(keys, i)
  {
    var n := |keys| - 1;
    if n == 0 {
      i := 0;
    } else {
      i := FirstMinimumExists(keys[..n]);
      assert forall j | 0 <= j < n :: keys[j] == keys[..n][j];
      if keys[n] < keys[i] {
        i := n;
      }
    }
  }

  ghost function ChoiceOf(strategy: Strategy, healthy: seq<Target>, counter: nat): (i: nat)
    requires |healthy| > 0
    ensures i < |healthy| && Chooses(strategy, healthy, counter, i)
  {
    ChoiceExists(strategy, healthy, counter);
    var i: nat :| Chooses(strategy, healthy, counter, i);
    i
  }

  lemma {:induction false} CandidatesAreProviders(g: Gateway, names: seq<string>)
    ensures forall t | t in FallbackTargets(g, names) :: t.name in g.providers && t.state == g.providers[t.name]
  {
    if |names| > 0 {
      CandidatesAreProviders(g, names[..|names| - 1]);
    }
  }

  /** What is selected, if anything. Under every strategy it is one of the gateway's providers, and one
      whose breaker is not open. */
  ghost function Chosen(g: Gateway, route: Route, now: nat): (t: Option<Target>)
    ensures t.Some? ==>
      && t.value.name in g.providers && t.value.state == g.providers[t.value.name]
      && !IsOpen(t.value.state.breaker, now)
  {
    var healthy := Healthy(CandidatesOf(g, route), now);
    if |healthy| == 0 then None
    else
      HealthyAreClosed(CandidatesOf(g, route), now);
      CandidatesAreProviders(g, route.fallbacks);
      var t := healthy[ChoiceOf(route.strategy, healthy, g.counter)];
      assert t in healthy;
      Some(t)
  }

  ghost function SelectionOf(g: Gateway, route: Route, now: nat): Option<Selection> {
    match Chosen(g, route, now)
    case None => None
    case Some(target) => Some(SelectionFor(route, target))
  }

  function CounterAfter(g: Gateway, route: Route, now: nat): nat {
    if DrawsCounter(route.strategy, Healthy(CandidatesOf(g, route), now)) then (g.counter + 1) % U64 else g.counter
  }

  // ---- A selection by the route's names ----------------------------------------------------------------

  /** The names a route may use, the primary first. */
  function NamesOn(route: Route): seq<string> {
    [route.provider] + route.fallbacks
  }

  /** `usable` are the places, in order, of the names that are configured and whose breaker is not open. */
  ghost predicate AreUsable(usable: seq<nat>, g: Gateway, names: seq<string>, now: nat) {
    && (forall p | 0 <= p < |usable| :: usable[p] < |names| && names[usable[p]] in g.providers)
    && (forall p, q | 0 <= p < q < |usable| :: usable[p] < usable[q])
    && forall k: nat | k < |names| ::
         k in usable <==> names[k] in g.providers && !IsOpen(g.providers[names[k]].breaker, now)
  }

  /** The candidates at these places. */
  function TargetsAt(g: Gateway, names: seq<string>, usable: seq<nat>): seq<Target>
    requires forall p | 0 <= p < |usable| :: usable[p] < |names| && names[usable[p]] in g.providers
  {
    seq(|usable|, p requires 0 <= p < |usable| =>
      Target(names[usable[p]], g.providers[names[usable[p]]], usable[p] == 0))
  }

  lemma {:induction false} HealthyAppend(a: seq<Target>, b: seq<Target>, now: nat)
    ensures Healthy(a + b, now) == Healthy(a, now) + Healthy(b, now)
    decreases |b|
  {
    hide IsOpen;
    if |b| == 0 {
      assert a + b == a;
    } else {
      assert (a + b)[..|a + b| - 1] == a + b[..|b| - 1];
      HealthyAppend(a, b[..|b| - 1], now);
    }
  }

  /** Whether a name can be used, and the place it adds. */
  predicate Usable(g: Gateway, name: string, now: nat) {
    name in g.providers && !IsOpen(g.providers[name].breaker, now)
  }

  function Place(g: Gateway, name: string, now: nat, k: nat): seq<nat> {
    if Usable(g, name, now) then [k] else []
  }

  lemma HealthyOne(g: Gateway, name: string, isPrimary: bool, now: nat)
    ensures Healthy(TargetOf(g, name, isPrimary), now) ==
            if Usable(g, name, now) then [Target(name, g.providers[name], isPrimary)] else []
  {
    hide IsOpen;
    if name in g.providers {
      var t := Target(name, g.providers[name], isPrimary);
      assert [t][..0] == [] && Healthy([], now) == [];
    }
  }

  lemma {:induction false} UsableOf(g: Gateway, route: Route, now: nat) returns (usable: seq<nat>)
    ensures AreUsable(usable, g, NamesOn(route), now)
    ensures Healthy(CandidatesOf(g, route), now) == TargetsAt(g, NamesOn(route), usable)
    decreases |route.fallbacks|
  {
    hide Healthy, FallbackTargets, Usable, AreUsable;
    var n := |route.fallbacks|;
    if n == 0 {
      NoFallbacks(g);
      HealthyOne(g, route.provider, true, now);
      assert CandidatesOf(g, route) == TargetOf(g, route.provider, true) by {
        assert route.fallbacks == [] && TargetOf(g, route.provider, true) + [] == TargetOf(g, route.provider, true);
      }
      usable := OneUsable(g, route, now);
    } else {
      var before, name := route.(fallbacks := route.fallbacks[..n - 1]), route.fallbacks[n - 1];
      var places := UsableOf(g, before, now);
      assert route.fallbacks == before.fallbacks + [name];
      OneMoreFallback(g, before.fallbacks, name);
      assert CandidatesOf(g, route) == CandidatesOf(g, before) + TargetOf(g, name, false);
      HealthyAppend(CandidatesOf(g, before), TargetOf(g, name, false), now);
      HealthyOne(g, name, false, now);
      assert NamesOn(route) == NamesOn(before) + [name];
      usable := OneMoreUsable(g, NamesOn(before), name, places, now);
    }
  }

  lemma OneUsable(g: Gateway, route: Route, now: nat) returns (usable: seq<nat>)
    requires route.fallbacks == []
    ensures AreUsable(usable, g, NamesOn(route), now)
    ensures TargetsAt(g, NamesOn(route), usable) ==
            if Usable(g, route.provider, now)
            then [Target(route.provider, g.providers[route.provider], true)] else []
  {
    usable := Place(g, route.provider, now, 0);
  }

  lemma OneMoreUsable(g: Gateway, names: seq<string>, name: string, places: seq<nat>, now: nat)
    returns (usable: seq<nat>)
    requires |names| > 0 && AreUsable(places, g, names, now)
    ensures AreUsable(usable, g, names + [name], now)
    ensures TargetsAt(g, names + [name], usable) ==
            TargetsAt(g, names, places) +
            if Usable(g, name, now) then [Target(name, g.providers[name], false)] else []
  {
    hide IsOpen;
    var all := names + [name];
    usable := places + Place(g, name, now, |names|);
    assert forall k | 0 <= k < |names| :: all[k] == names[k];
    forall k: nat | k < |all|
      ensures k in usable <==> all[k] in g.providers && !IsOpen(g.providers[all[k]].breaker, now)
    {
      if k < |names| {
        assert k in usable <==> k in places;
      }
    }
  }

  /** Which provider a request goes to: one the route names, that is configured and whose breaker is not
      open, if there is one. Under `Fallback`, and the strategies treated like it, the first of them; under
      `LeastConnections` the first of those with the fewest failures; under `RoundRobin` and `Weighted` the
      one whose turn or share the shared counter says. A provider other than the primary counts as a
      fallback for it. */
  lemma SelectionSays(g: Gateway, route: Route, now: nat) returns (usable: seq<nat>)
    ensures AreUsable(usable, g, NamesOn(route), now)
    ensures usable == [] ==> SelectionOf(g, route, now) == None && CounterAfter(g, route, now) == g.counter
    ensures usable != [] ==>
      var names := NamesOn(route);
      var weights := seq(|usable|, q requires 0 <= q < |usable| => g.providers[names[usable[q]]].weight);
      && (exists p: nat ::
            && p < |usable|
            && SelectionOf(g, route, now) ==
               Some(Selection(names[usable[p]], usable[p] != 0, if usable[p] == 0 then None else Some(route.provider)))
            && match route.strategy
               case RoundRobin => p == g.counter % |usable|
               case Weighted =>
                 if Sum(weights) == 0 then p == 0
                 else Sum(weights[..p]) <= g.counter % Sum(weights) < Sum(weights[..p]) + weights[p]
               case LeastConnections =>
                 forall q | 0 <= q < |usable| ::
                   var mine := g.providers[names[usable[p]]].breaker.failures;
                   var other := g.providers[names[usable[q]]].breaker.failures;
                   mine <= other && (q < p ==> mine < other)
               case _ => p == 0)
      && CounterAfter(g, route, now) ==
         if route.strategy == RoundRobin || (route.strategy == Weighted && Sum(weights) > 0)
         then (g.counter + 1) % 0x1_0000_0000_0000_0000 else g.counter
  {
    hide IsOpen, AreUsable, Sum, CandidatesOf, Healthy;
    usable := UsableOf(g, route, now);
    PlacesAre(usable, g, NamesOn(route), now);
    var names, healthy := NamesOn(route), Healthy(CandidatesOf(g, route), now);
    if usable != [] {
      var weights := seq(|usable|, q requires 0 <= q < |usable| => g.providers[names[usable[q]]].weight);
      assert weights == Weights(healthy);
      var p := ChoiceOf(route.strategy, healthy, g.counter);
      assert Chooses(route.strategy, healthy, g.counter, p);
      assert healthy[p] == Target(names[usable[p]], g.providers[names[usable[p]]], usable[p] == 0);
      assert SelectionOf(g, route, now) == Some(SelectionFor(route, healthy[p]));
      match route.strategy {
        case Weighted => assert Sum(weights) > 0 ==> InShare(weights, p, g.counter % Sum(weights));
        case LeastConnections =>
          forall q | 0 <= q < |usable|
            ensures
              var mine := g.providers[names[usable[p]]].breaker.failures;
              var other := g.providers[names[usable[q]]].breaker.failures;
              mine <= other && (q < p ==> mine < other)
          {
            assert Failures(healthy)[q] == g.providers[names[usable[q]]].breaker.failures;
            assert Failures(healthy)[p] == g.providers[names[usable[p]]].breaker.failures;
          }
        case _ =>
      }
    }
  }

  lemma PlacesAre(usable: seq<nat>, g: Gateway, names: seq<string>, now: nat)
    requires AreUsable(usable, g, names, now)
    ensures forall p | 0 <= p < |usable| :: usable[p] < |names| && names[usable[p]] in g.providers
  {
  }

  // ---- Rounds ----------------------------------------------------------------------------------

  predicate IsFailureStatus(status: nat) {
    500 <= status <= 599 || status == 429
  }

  /** What `response_filter` records. Other statuses change nothing. */
  function Observed(b: Breaker, status: nat, now: nat): Breaker {
    if IsFailureStatus(status) then Failed(b, now)
    else if 200 <= status <= 299 then Succeeded(b)
    else b
  }

  /** A request: selected on a route at one time, answered with a status at another. */
  datatype Round = Round(route: Route, selectAt: nat, respondAt: nat, status: nat)

  ghost predicate Picks(g: Gateway, r: Round, p: string) {
    Chosen(g, r.route, r.selectAt).Some? && Chosen(g, r.route, r.selectAt).value.name == p
  }

  ghost function Step(g: Gateway, r: Round): Gateway {
    var counter := CounterAfter(g, r.route, r.selectAt);
    match Chosen(g, r.route, r.selectAt)
    case None => Gateway(g.providers, counter)
    case Some(target) =>
      if target.name !in g.providers then Gateway(g.providers, counter)
      else
        var s := g.providers[target.name];
        Gateway(g.providers[target.name := s.(breaker := Observed(s.breaker, r.status, r.respondAt))], counter)
  }

  /** The clock never goes back, and `p` answers every request it gets with a failure. */
  ghost predicate DeadRun(g: Gateway, rounds: seq<Round>, p: string, start: nat)
    decreases |rounds|
  {
    |rounds| > 0 ==>
      var r := rounds[0];
      && start <= r.selectAt <= r.respondAt
      && (Picks(g, r, p) ==> IsFailureStatus(r.status))
      && DeadRun(Step(g, r), rounds[1..], p, r.respondAt)
  }

  /** How often `p` is selected. */
  ghost function Traffic(g: Gateway, rounds: seq<Round>, p: string): nat
    decreases |rounds|
  {
    if |rounds| == 0 then 0
    else (if Picks(g, rounds[0], p) then 1 else 0) + Traffic(Step(g, rounds[0]), rounds[1..], p)
  }

  function End(rounds: seq<Round>, start: nat): nat {
    if |rounds| == 0 then start else rounds[|rounds| - 1].respondAt
  }

  lemma {:induction false} EndAfterStart(g: Gateway, rounds: seq<Round>, p: string, start: nat)
    requires DeadRun(g, rounds, p, start)
    ensures start <= End(rounds, start)
    decreases |rounds|
  {
    hide Step;
    if |rounds| > 0 {
      EndAfterStart(Step(g, rounds[0]), rounds[1..], p, rounds[0].respondAt);
    }
  }

  /** One round leaves the breaker of `p` alone, or selects `p` while closed and records a failure. */
  lemma BreakerStep(g: Gateway, r: Round, p: string)
    requires p in g.providers && (Picks(g, r, p) ==> IsFailureStatus(r.status))
    ensures p in Step(g, r).providers
    ensures
      var b, b' := g.providers[p].breaker, Step(g, r).providers[p].breaker;
      if Picks(g, r, p) then !IsOpen(b, r.selectAt) && b' == Failed(b, r.respondAt) else b' == b
  {
    hide Chosen, CounterAfter, IsOpen, Failed;
  }

  /** The failure count of `p` cannot wrap around: `p` is not selected often enough, or there is no time
      for it, since `left` timeouts do not pass after `from`. */
  ghost predicate NoWrap(g: Gateway, rounds: seq<Round>, p: string, start: nat, from: nat, count: nat, left: nat)
    requires p in g.providers
  {
    || g.providers[p].breaker.failures + Traffic(g, rounds, p) <= U32
    || (count + left <= U32 && End(rounds, start) < from + left * g.providers[p].breaker.timeoutMs)
  }

  /** Once the limit is reached, each further selection waits out the timeout since the last failure. */
  lemma {:induction false} TrippedTraffic(g: Gateway, rounds: seq<Round>, p: string, start: nat, left: nat)
    requires p in g.providers && DeadRun(g, rounds, p, start)
    requires
      var b := g.providers[p].breaker;
      && b.failures >= b.maxFails && b.lastFailureAt <= start
      && NoWrap(g, rounds, p, start, b.lastFailureAt, b.failures, left)
    ensures
      var b := g.providers[p].breaker;
      Traffic(g, rounds, p) * b.timeoutMs <= End(rounds, start) - b.lastFailureAt
    decreases |rounds|
  {
    hide Step, Picks;
    EndAfterStart(g, rounds, p, start);
    if |rounds| > 0 {
      var r, b := rounds[0], g.providers[p].breaker;
      BreakerStep(g, r, p);
      EndAfterStart(Step(g, r), rounds[1..], p, r.respondAt);
      var more := Traffic(Step(g, r), rounds[1..], p);
      if !Picks(g, r, p) {
        TrippedTraffic(Step(g, r), rounds[1..], p, r.respondAt, left);
      } else {
        OneMore(more, b.timeoutMs);
        if more > 0 {
          if left > 0 {
            OneMore(left - 1, b.timeoutMs);
          }
          if left > 1 {
            OneMore(left - 2, b.timeoutMs);
          }
          TrippedTraffic(Step(g, r), rounds[1..], p, r.respondAt, if left > 0 then left - 1 else 0);
        }
      }
    }
  }

  lemma OneMore(n: nat, t: nat)
    ensures (1 + n) * t == n * t + t
  {
  }

  /** From a closed breaker: `free` selections are unconditional, the rest wait out the timeout. */
  lemma {:induction false} ClosedTraffic(
    g: Gateway, rounds: seq<Round>, p: string, start: nat, free: nat, left: nat)
    requires p in g.providers && DeadRun(g, rounds, p, start)
    requires
      var b := g.providers[p].breaker;
      && free >= 1 && b.failures + free >= b.maxFails
      && NoWrap(g, rounds, p, start, start, b.failures + free, left)
    ensures
      var n := Traffic(g, rounds, p);
      n <= free || (n - free) * g.providers[p].breaker.timeoutMs <= End(rounds, start) - start
    decreases |rounds|
  {
    hide Step, Picks;
    EndAfterStart(g, rounds, p, start);
    if |rounds| > 0 {
      var r, b := rounds[0], g.providers[p].breaker;
      var g', rest := Step(g, r), rounds[1..];
      BreakerStep(g, r, p);
      EndAfterStart(g', rest, p, r.respondAt);
      if !Picks(g, r, p) {
        ClosedTraffic(g', rest, p, r.respondAt, free, left);
      } else if Traffic(g', rest, p) > 0 {
        if left > 0 {
          OneMore(left - 1, b.timeoutMs);
        }
        if free > 1 {
          ClosedTraffic(g', rest, p, r.respondAt, free - 1, left);
        } else {
          TrippedTraffic(g', rest, p, r.respondAt, left);
        }
      }
    }
  }

  lemma {:induction false} QuotientBound(k: nat, t: nat, total: nat)
    requires t > 0 && k * t <= total
    ensures k <= total / t
  {
    var q, r := total / t, total % t;
    assert total == t * q + r;
    assert t * k == k * t;
    if k > q {
      MultipleAtLeast(t, q, k);
    }
  }

  /** Selections of a dead provider that a breaker lets through without waiting. */
  function Free(b: Breaker): nat {
    if b.maxFails == 0 then 1 else b.maxFails
  }

  /** Traffic to a dead provider is bounded, under every mix of routes, strategies and answers of
      the other providers: from a fresh breaker, a provider that always answers with a failure is
      selected at most `maxFails` times (at least once) plus once per elapsed timeout. The failure
      count must not wrap around, which it does not if it has no time to: if that many timeouts do not
      pass. */
  lemma DeadProviderBound(g: Gateway, rounds: seq<Round>, p: string)
    requires 0 < |rounds|
    requires p in g.providers && g.providers[p].breaker.failures == 0
    requires DeadRun(g, rounds, p, rounds[0].selectAt)
    requires
      var b, elapsed := g.providers[p].breaker, rounds[|rounds| - 1].respondAt - rounds[0].selectAt;
      Traffic(g, rounds, p) <= U32 || (b.timeoutMs > 0 && Free(b) + elapsed / b.timeoutMs < U32)
    ensures
      var b := g.providers[p].breaker;
      var elapsed := rounds[|rounds| - 1].respondAt - rounds[0].selectAt;
      && elapsed >= 0
      && (Traffic(g, rounds, p) <= Free(b) || (Traffic(g, rounds, p) - Free(b)) * b.timeoutMs <= elapsed)
      && (b.timeoutMs > 0 ==> Traffic(g, rounds, p) <= Free(b) + elapsed / b.timeoutMs)
  {
    hide DeadRun, Traffic;
    var start, b := rounds[0].selectAt, g.providers[p].breaker;
    EndAfterStart(g, rounds, p, start);
    var n, elapsed: nat := Traffic(g, rounds, p), End(rounds, start) - start;
    var left := if b.timeoutMs > 0 then elapsed / b.timeoutMs + 1 else 0;
    if b.timeoutMs > 0 {
      OneMore(elapsed / b.timeoutMs, b.timeoutMs);
      QuotientLeaves(elapsed, b.timeoutMs);
    }
    ClosedTraffic(g, rounds, p, start, Free(b), left);
    if n > Free(b) && b.timeoutMs > 0 {
      QuotientBound(n - Free(b), b.timeoutMs, elapsed);
    }
  }

  lemma QuotientLeaves(total: nat, t: nat)
    requires t > 0
    ensures total < (total / t) * t + t
  {
    assert total == t * (total / t) + total % t;
    assert t * (total / t) == (total / t) * t;
  }

  // ---- The breaker over any rounds ---------------------------------------------------------------------

  datatype Reply = Reply(status: nat, at: nat)

  /** What `p` answered, in the rounds that picked it. */
  ghost function RepliesOf(g: Gateway, rounds: seq<Round>, p: string): seq<Reply>
    decreases |rounds|
  {
    if |rounds| == 0 then []
    else
      var r := rounds[0];
      (if Picks(g, r, p) then [Reply(r.status, r.respondAt)] else []) + RepliesOf(Step(g, r), rounds[1..], p)
  }

  ghost function EndOf(g: Gateway, rounds: seq<Round>): Gateway
    decreases |rounds|
  {
    if |rounds| == 0 then g else EndOf(Step(g, rounds[0]), rounds[1..])
  }

  /** Answers 500..599 or 429 since the last 200..299; other answers do not count either way. */
  function FailingSince(replies: seq<Reply>): nat {
    if |replies| == 0 then 0
    else
      var rest, status := FailingSince(replies[..|replies| - 1]), replies[|replies| - 1].status;
      if 200 <= status <= 299 then 0
      else if 500 <= status <= 599 || status == 429 then rest + 1
      else rest
  }

  /** When the last answer 500..599 or 429 came, or 0 if there was none. */
  function LastFailing(replies: seq<Reply>): nat {
    if |replies| == 0 then 0
    else
      var last := replies[|replies| - 1];
      if 500 <= last.status <= 599 || last.status == 429 then last.at else LastFailing(replies[..|replies| - 1])
  }

  lemma ReplySnoc(replies: seq<Reply>, r: Reply)
    ensures FailingSince(replies + [r]) ==
            if 200 <= r.status <= 299 then 0
            else if 500 <= r.status <= 599 || r.status == 429 then FailingSince(replies) + 1
            else FailingSince(replies)
    ensures LastFailing(replies + [r]) ==
            if 500 <= r.status <= 599 || r.status == 429 then r.at else LastFailing(replies)
  {
    assert (replies + [r])[..|replies|] == replies;
  }

  lemma PickStep(g: Gateway, r: Round, p: string)
    requires p in g.providers
    ensures p in Step(g, r).providers
    ensures
      var s, s' := g.providers[p], Step(g, r).providers[p];
      s' == if Picks(g, r, p) then s.(breaker := Observed(s.breaker, r.status, r.respondAt)) else s
  {
    hide Chosen, CounterAfter, Observed;
  }

  /** From a breaker that remembers the answers so far, the rounds leave one that remembers all. */
  lemma {:induction false} BreakerRemembers(g: Gateway, rounds: seq<Round>, p: string, before: seq<Reply>)
    requires p in g.providers
    requires
      var b := g.providers[p].breaker;
      b.failures == FailingSince(before) % 0x1_0000_0000 && b.lastFailureAt == LastFailing(before)
    ensures p in EndOf(g, rounds).providers
    ensures
      var b, all := g.providers[p].breaker, before + RepliesOf(g, rounds, p);
      EndOf(g, rounds).providers[p].breaker ==
      b.(failures := FailingSince(all) % 0x1_0000_0000, lastFailureAt := LastFailing(all))
    decreases |rounds|
  {
    hide Picks, Step, FailingSince, LastFailing;
    if |rounds| == 0 {
      assert before + [] == before;
    } else {
      var r := rounds[0];
      var reply, more := Reply(r.status, r.respondAt), RepliesOf(Step(g, r), rounds[1..], p);
      PickStep(g, r, p);
      if Picks(g, r, p) {
        ReplySnoc(before, reply);
        BreakerRemembers(Step(g, r), rounds[1..], p, before + [reply]);
        assert before + [reply] + more == before + ([reply] + more);
      } else {
        BreakerRemembers(Step(g, r), rounds[1..], p, before);
        assert [] + more == more;
      }
    }
  }

  /** Whatever the rounds, from a fresh breaker: that of `p` is open if and only if at least `maxFails` of
      its answers since the last 200..299 were 500..599 or 429, and the timeout has not passed since the
      last of those; as long as they are fewer than 2^32. */
  lemma OpenIffFailing(g: Gateway, rounds: seq<Round>, p: string, maxFails: nat, timeoutSecs: nat, now: nat)
    requires p in g.providers && g.providers[p].breaker == Fresh(maxFails, timeoutSecs)
    requires FailingSince(RepliesOf(g, rounds, p)) < 0x1_0000_0000
    ensures p in EndOf(g, rounds).providers
    ensures
      var replies := RepliesOf(g, rounds, p);
      IsOpen(EndOf(g, rounds).providers[p].breaker, now) <==>
      && FailingSince(replies) >= maxFails
      && timeoutSecs > 0 && now < LastFailing(replies) + timeoutSecs * 1000
  {
    hide RepliesOf, EndOf;
    var replies := RepliesOf(g, rounds, p);
    BreakerRemembers(g, rounds, p, []);
    assert [] + replies == replies;
  }
}
