/** The team budget bound is exact about joining keys: one request in flight carried into the team is
    enough to break the bound that holds without any. */
module OvershootExact {
  import opened Text
  import opened AdminLedger
  import opened Overshoot

  /** A run of requests costing at most `c`, at most `p` of a team in flight together, in which joining
      keys bring at most `j` requests into the team, keeps the team within its budget plus `p` costs. */
  ghost predicate TeamBoundHolds(p: nat, j: nat, c: real) {
    forall steps, id ::
      Legal(steps, c) && AtMost(steps, TheTeam(id), p) && Brought(steps, TheTeam(id)) <= j ==>
      WithinBudget(Exec(steps).ledger, id, p as real * c)
  }

  predicate WithinBudget(l: Ledger, id: string, excess: real) {
    id in l.teams && l.teams[id].maxBudget.Some? ==>
      l.teams[id].budgetSpent <= PositivePart(l.teams[id].maxBudget.value) + excess
  }

  /** The bound holds in every run if and only if no key joins with a request in flight. */
  lemma TeamBoundHoldsIff(p: nat, j: nat, c: real)
    requires p >= 1 && c > 0.0
    ensures TeamBoundHolds(p, j, c) <==> j == 0
  {
    hide Legal, AtMost, Exec, Brought, WithinBudget;
    if j == 0 {
      forall steps, id |
        Legal(steps, c) && AtMost(steps, TheTeam(id), p) && Brought(steps, TheTeam(id)) <= j
        ensures WithinBudget(Exec(steps).ledger, id, p as real * c)
      {
        BoundWithoutJoins(steps, id, c, p);
      }
    } else {
      JoinBreaksBound(p, c);
    }
  }

  lemma BoundWithoutJoins(steps: seq<Step>, id: string, c: real, p: nat)
    requires Legal(steps, c) && AtMost(steps, TheTeam(id), p) && Brought(steps, TheTeam(id)) == 0 && c >= 0.0
    ensures WithinBudget(Exec(steps).ledger, id, p as real * c)
  {
    hide Legal, AtMost, Exec, Brought;
    if id in Exec(steps).ledger.teams && Exec(steps).ledger.teams[id].maxBudget.Some? {
      TeamOvershoot(steps, id, c, p);
    }
  }

  // ---- A run that breaks the bound -----------------------------------------------------------------

  const T := "t"
  const A := "a"
  const B := "b"
  const HA := "hash of a"
  const HB := "hash of b"

  const NO_LIMIT := KeyRequest(None, None, None, None)

  /** A team with half the cost of a request as its budget, key `a` in it and key `b` outside. */
  function Setting(c: real): seq<Step> {
    [Admin(DoCreateTeam(T, Some(c / 2.0))),
     Admin(DoGenerateKey(A, HA, NO_LIMIT.(teamId := Some(T)), 0)),
     Admin(DoGenerateKey(B, HB, NO_LIMIT, 0))]
  }

  function Answer(c: real): Step {
    Finish(0, Usage("", "", 0, 0, c), 0)
  }

  /** `n` requests of `a` let through, `k` of them answered. */
  function Burst(n: nat, k: nat, c: real): seq<Step>
    decreases n, k
  {
    if k > 0 then Burst(n, k - 1, c) + [Answer(c)]
    else if n > 0 then Burst(n - 1, 0, c) + [Admit(A)]
    else Setting(c)
  }

  /** Then a request of `b` is let through, `b` joins the team, and the request is answered. */
  function Breaking(p: nat, c: real): seq<Step> {
    Burst(p, p, c) + [Admit(B)] + [JOIN] + [Answer(c)]
  }

  function Repeat(id: string, n: nat): (r: seq<string>)
    ensures |r| == n && forall i | 0 <= i < n :: r[i] == id
  {
    if n == 0 then [] else Repeat(id, n - 1) + [id]
  }

  /** Where the run stands: `spent` by the team, `inflight` still to be answered. */
  predicate At(w: World, c: real, spent: real, bTeam: Option<string>, inflight: seq<string>) {
    var l := w.ledger;
    && A in l.keys && l.keys[A].teamId == Some(T) && l.keys[A].maxBudget == None
    && B in l.keys && l.keys[B].teamId == bTeam && l.keys[B].maxBudget == None
    && T in l.teams && l.teams[T].maxBudget == Some(c / 2.0) && l.teams[T].budgetSpent == spent
    && (bTeam == None ==> l.teams[T].members == [])
    && w.inflight == inflight
  }

  lemma OneMoreStep(steps: seq<Step>, s: Step, c: real, h: Holder, p: nat)
    requires Legal(steps, c) && AtMost(steps, h, p)
    requires Enabled(Exec(steps), s, c) && (s.Admin? ==> Fresh(s.op, Used(Calls(steps))))
    requires Flying(Next(Exec(steps), s).ledger, Next(Exec(steps), s).inflight, h) <= p
    ensures Legal(steps + [s], c) && AtMost(steps + [s], h, p)
    ensures Exec(steps + [s]) == Next(Exec(steps), s)
    ensures Brought(steps + [s], h) == Brought(steps, h) + BroughtBy(Exec(steps), s, h)
  {
    hide Next, Enabled, Fresh, Flying, BroughtBy, Calls;
    assert (steps + [s])[..|steps|] == steps;
  }

  lemma {:induction false} TeamFlying(l: Ledger, n: nat)
    requires A in l.keys && l.keys[A].teamId == Some(T)
    ensures Flying(l, Repeat(A, n), TheTeam(T)) == n
  {
    if n > 0 {
      hide Flying;
      TeamFlying(l, n - 1);
      FlyingSnoc(l, Repeat(A, n - 1), A, TheTeam(T));
    }
  }

  lemma AfterSetting(c: real, p: nat)
    requires c > 0.0
    ensures Legal(Setting(c), c) && AtMost(Setting(c), TheTeam(T), p) && Brought(Setting(c), TheTeam(T)) == 0
    ensures At(Exec(Setting(c)), c, 0.0, None, [])
  {
    hide Exec, Legal, AtMost, Brought, Calls;
    var s := Setting(c);
    Nothing(c, TheTeam(T), p);
    NoCallsYet();
    OneMoreStep([], s[0], c, TheTeam(T), p);
    FreshAfter([], s[0]);
    assert [] + [s[0]] == [s[0]];
    OneMoreStep([s[0]], s[1], c, TheTeam(T), p);
    FreshAfter([s[0]], s[1]);
    OneMoreStep([s[0]] + [s[1]], s[2], c, TheTeam(T), p);
    assert s == [s[0]] + [s[1]] + [s[2]];
  }

  lemma Nothing(c: real, h: Holder, p: nat)
    ensures Legal([], c) && AtMost([], h, p) && Exec([]) == World(EMPTY, []) && Brought([], h) == 0
  {
  }

  lemma NoCallsYet()
    ensures Used(Calls([])) == {}
  {
  }

  lemma FreshAfter(steps: seq<Step>, s: Step)
    requires s.Admin?
    ensures Used(Calls(steps + [s])) == Used(Calls(steps)) + NamesIn(s.op)
  {
    hide NamesIn;
    assert (steps + [s])[..|steps|] == steps;
    assert (Calls(steps) + [s.op])[..|Calls(steps)|] == Calls(steps);
  }

  lemma {:induction false} AfterBurst(n: nat, k: nat, c: real, p: nat)
    requires k <= n <= p && c > 0.0
    ensures Legal(Burst(n, k, c), c) && AtMost(Burst(n, k, c), TheTeam(T), p)
    ensures Brought(Burst(n, k, c), TheTeam(T)) == 0
    ensures At(Exec(Burst(n, k, c)), c, k as real * c, None, Repeat(A, n - k))
    decreases n, k
  {
    hide Exec, Legal, AtMost, Brought, Next, Enabled, Flying, Setting;
    if k > 0 {
      AfterBurst(n, k - 1, c, p);
      var spent := (k - 1) as real * c;
      assert k as real * c == spent + c;
      Answered(Exec(Burst(n, k - 1, c)), c, spent, n - k, p);
      OneMoreStep(Burst(n, k - 1, c), Answer(c), c, TheTeam(T), p);
    } else if n > 0 {
      AfterBurst(n - 1, 0, c, p);
      assert 0 as real * c == 0.0;
      LetThrough(Exec(Burst(n - 1, 0, c)), c, n - 1, p);
      OneMoreStep(Burst(n - 1, 0, c), Admit(A), c, TheTeam(T), p);
    } else {
      AfterSetting(c, p);
      assert Repeat(A, 0) == [];
    }
  }

  lemma LetThrough(w: World, c: real, n: nat, p: nat)
    requires At(w, c, 0.0, None, Repeat(A, n)) && n < p && c > 0.0
    ensures Enabled(w, Admit(A), c) && At(Next(w, Admit(A)), c, 0.0, None, Repeat(A, n + 1))
    ensures Flying(w.ledger, Next(w, Admit(A)).inflight, TheTeam(T)) <= p
    ensures Next(w, Admit(A)).ledger == w.ledger
  {
    hide Flying;
    TeamFlying(w.ledger, n + 1);
  }

  lemma Answered(w: World, c: real, spent: real, n: nat, p: nat)
    requires At(w, c, spent, None, Repeat(A, n + 1)) && n <= p && c > 0.0
    ensures Enabled(w, Answer(c), c) && At(Next(w, Answer(c)), c, spent + c, None, Repeat(A, n))
    ensures Flying(Next(w, Answer(c)).ledger, Next(w, Answer(c)).inflight, TheTeam(T)) <= p
  {
    hide Flying;
    var m := Next(w, Answer(c));
    assert Repeat(A, n + 1)[1..] == Repeat(A, n);
    assert m.inflight == Repeat(A, n);
    TeamFlying(m.ledger, n);
  }

  const JOIN := Admin(DoAddMember(T, B))

  lemma OneFlying(l: Ledger, id: string, h: Holder)
    ensures Flying(l, [id], h) == if ChargedTo(l, h, id) then 1 else 0
  {
    hide ChargedTo;
    FlyingSnoc(l, [], id, h);
    assert [] + [id] == [id];
  }

  lemma Joining(w: World, c: real, spent: real, p: nat)
    requires At(w, c, spent, None, []) && p >= 1 && c > 0.0
    ensures Enabled(w, Admit(B), c) && Flying(w.ledger, Next(w, Admit(B)).inflight, TheTeam(T)) <= p
    ensures var w1 := Next(w, Admit(B)); var w2 := Next(w1, JOIN);
      && w1.ledger == w.ledger
      && Enabled(w1, JOIN, c) && BroughtBy(w1, JOIN, TheTeam(T)) == 1
      && Flying(w2.ledger, w2.inflight, TheTeam(T)) <= p
      && At(w2, c, spent, Some(T), [B])
  {
    hide Flying;
    var w1 := Next(w, Admit(B));
    assert w1.inflight == [B];
    OneFlying(w.ledger, B, TheTeam(T));
    OneFlying(w.ledger, B, TheKey(B));
    OneFlying(Next(w1, JOIN).ledger, B, TheTeam(T));
  }

  lemma LastAnswer(w: World, c: real, p: nat)
    requires At(w, c, p as real * c, Some(T), [B]) && c > 0.0
    ensures Enabled(w, Answer(c), c) && BroughtBy(w, Answer(c), TheTeam(T)) == 0
    ensures Flying(Next(w, Answer(c)).ledger, Next(w, Answer(c)).inflight, TheTeam(T)) <= p
    ensures !WithinBudget(Next(w, Answer(c)).ledger, T, p as real * c)
  {
    assert Next(w, Answer(c)).inflight == [];
  }

  lemma JoinBreaksBound(p: nat, c: real)
    requires p >= 1 && c > 0.0
    ensures var steps := Breaking(p, c);
      && Legal(steps, c) && AtMost(steps, TheTeam(T), p) && Brought(steps, TheTeam(T)) == 1
      && !WithinBudget(Exec(steps).ledger, T, p as real * c)
  {
    hide Exec, Legal, AtMost, Brought, Next, Enabled, Flying, At, Joins, WithinBudget, Burst, Calls, Used;
    var s := Burst(p, p, c);
    AfterBurst(p, p, c, p);
    assert Repeat(A, p - p) == [];
    Joining(Exec(s), c, p as real * c, p);
    OneMoreStep(s, Admit(B), c, TheTeam(T), p);
    OneMoreStep(s + [Admit(B)], JOIN, c, TheTeam(T), p);
    LastAnswer(Exec(s + [Admit(B)] + [JOIN]), c, p);
    OneMoreStep(s + [Admit(B)] + [JOIN], Answer(c), c, TheTeam(T), p);
  }
}
