/** How far a budget can be overshot: a request is let through when the budget check passes, and its
    cost is recorded only when it is answered. */
module Overshoot {
  import opened Text
  import opened AdminLedger
  import opened KeyHistory

  /** The ledger, and the key of every request let through but not yet answered. */
  datatype World = World(ledger: Ledger, inflight: seq<string>)

  datatype Step =
    | Admit(id: string)                           // the budget check of a key's request passes
    | Finish(i: nat, usage: Usage, now: int)      // a request in flight is answered and recorded
    | Fail(i: nat)                                // a request in flight is never recorded
    | Admin(op: Op)                               // any other call on the ledger

  /** A step that can happen when no request costs more than `c`. */
  predicate Enabled(w: World, s: Step, c: real) {
    match s
    case Admit(id) => id in w.ledger.keys && CheckBudget(w.ledger, w.ledger.keys[id]).Ok?
    case Finish(i, u, _) => i < |w.inflight| && 0.0 <= u.cost <= c
    case Fail(i) => i < |w.inflight|
    case Admin(op) => !op.DoRecordUsage?
  }

  /** The ledger calls of a step. */
  function CallsOf(w: World, s: Step): seq<Op> {
    match s
    case Finish(i, u, now) => if i < |w.inflight| then [DoRecordUsage(w.inflight[i], u, now)] else []
    case Admin(op) => [op]
    case _ => []
  }

  function Next(w: World, s: Step): World {
    match s
    case Admit(id) => w.(inflight := w.inflight + [id])
    case Finish(i, u, now) =>
      if i < |w.inflight|
      then World(RecordUsage(w.ledger, w.inflight[i], u, now).0, RemoveAt(w.inflight, i)) else w
    case Fail(i) => if i < |w.inflight| then w.(inflight := RemoveAt(w.inflight, i)) else w
    case Admin(op) => w.(ledger := Apply(w.ledger, op))
  }

  function Exec(steps: seq<Step>): World {
    if |steps| == 0 then World(EMPTY, []) else Next(Exec(steps[..|steps| - 1]), steps[|steps| - 1])
  }

  function Calls(steps: seq<Step>): seq<Op> {
    if |steps| == 0 then []
    else Calls(steps[..|steps| - 1]) + CallsOf(Exec(steps[..|steps| - 1]), steps[|steps| - 1])
  }

  /** Every step can happen, and the names drawn are fresh. */
  predicate Legal(steps: seq<Step>, c: real) {
    |steps| == 0 ||
    (var init, s := steps[..|steps| - 1], steps[|steps| - 1];
     && Legal(init, c) && Enabled(Exec(init), s, c)
     && (s.Admin? ==> Fresh(s.op, Used(Calls(init)))))
  }

  lemma OneMoreCall(ops: seq<Op>, op: Op)
    requires FreshRun(ops) && Fresh(op, Used(ops))
    ensures FreshRun(ops + [op]) && Run(ops + [op]) == Apply(Run(ops), op)
    ensures Used(ops + [op]) == Used(ops) + NamesIn(op)
  {
    hide Apply, Fresh, NamesIn;
    assert (ops + [op])[..|ops|] == ops;
  }

  lemma NextCalls(w: World, s: Step, c: real, used: set<string>)
    requires Enabled(w, s, c) && (s.Admin? ==> Fresh(s.op, used))
    ensures
      var calls := CallsOf(w, s);
      || (calls == [] && Next(w, s).ledger == w.ledger)
      || (|calls| == 1 && Fresh(calls[0], used) && Next(w, s).ledger == Apply(w.ledger, calls[0]))
  {
  }

  lemma {:induction false} CallsAreARun(steps: seq<Step>, c: real)
    requires Legal(steps, c)
    ensures FreshRun(Calls(steps)) && Run(Calls(steps)) == Exec(steps).ledger
    ensures |steps| > 0 ==> Used(Calls(steps[..|steps| - 1])) <= Used(Calls(steps))
  {
    hide Apply, Fresh, FreshRun, Run, Used, NamesIn, CallsOf, Next, Enabled;
    if |steps| == 0 {
      NoCalls();
    } else {
      var init, s := steps[..|steps| - 1], steps[|steps| - 1];
      CallsAreARun(init, c);
      NextCalls(Exec(init), s, c, Used(Calls(init)));
      var calls := CallsOf(Exec(init), s);
      if calls == [] {
        assert Calls(steps) == Calls(init);
      } else {
        assert calls == [calls[0]];
        OneMoreCall(Calls(init), calls[0]);
      }
    }
  }

  lemma NoCalls()
    ensures FreshRun([]) && Run([]) == EMPTY
  {
  }

  lemma NextInFlight(w: World, s: Step, c: real, used: set<string>)
    requires Enabled(w, s, c) && KeyNamesUsed(w.ledger, used)
    requires forall i | 0 <= i < |w.inflight| :: w.inflight[i] in used
    ensures forall i | 0 <= i < |Next(w, s).inflight| :: Next(w, s).inflight[i] in used
  {
    hide Apply, RecordUsage, CheckBudget;
  }

  lemma {:induction false} InFlightUsed(steps: seq<Step>, c: real)
    requires Legal(steps, c)
    ensures forall i | 0 <= i < |Exec(steps).inflight| :: Exec(steps).inflight[i] in Used(Calls(steps))
  {
    hide FreshRun, Run, Next, Enabled, Calls, Used, Indexed, KeysBalanced, TeamsBalanced, KeyNamesUsed, LogNamesUsed;
    if |steps| > 0 {
      var init, s := steps[..|steps| - 1], steps[|steps| - 1];
      InFlightUsed(init, c);
      CallsAreARun(init, c);
      CallsAreARun(steps, c);
      RunsKeepInv(Calls(init));
      NextInFlight(Exec(init), s, c, Used(Calls(init)));
    }
  }

  // ---- Keys and teams alike --------------------------------------------------------------------------

  datatype Holder = TheKey(id: string) | TheTeam(id: string)

  predicate Exists(l: Ledger, h: Holder) {
    match h case TheKey(id) => id in l.keys case TheTeam(id) => id in l.teams
  }

  function Limit(l: Ledger, h: Holder): Option<real>
    requires Exists(l, h)
  {
    match h case TheKey(id) => l.keys[id].maxBudget case TheTeam(id) => l.teams[id].maxBudget
  }

  function Spent(l: Ledger, h: Holder): real
    requires Exists(l, h)
  {
    match h case TheKey(id) => l.keys[id].budgetSpent case TheTeam(id) => l.teams[id].budgetSpent
  }

  /** A request of key `id` is charged to `h`. */
  predicate ChargedTo(l: Ledger, h: Holder, id: string) {
    match h case TheKey(k) => id == k case TheTeam(t) => id in l.keys && l.keys[id].teamId == Some(t)
  }

  /** Requests in flight charged to `h`. */
  function Flying(l: Ledger, ids: seq<string>, h: Holder): nat {
    if |ids| == 0 then 0
    else Flying(l, ids[..|ids| - 1], h) + (if ChargedTo(l, h, ids[|ids| - 1]) then 1 else 0)
  }

  /** At most `p` requests charged to `h` are ever in flight together. */
  predicate AtMost(steps: seq<Step>, h: Holder, p: nat) {
    && Flying(Exec(steps).ledger, Exec(steps).inflight, h) <= p
    && (|steps| == 0 || AtMost(steps[..|steps| - 1], h, p))
  }

  /** `op` moves a key into the team `h` from outside. */
  predicate Joins(l: Ledger, op: Op, h: Holder) {
    && h.TheTeam? && op.DoAddMember? && op.teamId == h.id && AddMember(l, op.teamId, op.id).1.Ok?
    && !ChargedTo(l, h, op.id)
  }

  /** Requests in flight that a joining key brings along. */
  function BroughtBy(w: World, s: Step, h: Holder): nat {
    if s.Admin? && Joins(w.ledger, s.op, h) then Flying(w.ledger, w.inflight, TheKey(s.op.id)) else 0
  }

  function Brought(steps: seq<Step>, h: Holder): nat {
    if |steps| == 0 then 0
    else Brought(steps[..|steps| - 1], h) + BroughtBy(Exec(steps[..|steps| - 1]), steps[|steps| - 1], h)
  }

  // ---- Counting --------------------------------------------------------------------------------------

  lemma FlyingSnoc(l: Ledger, ids: seq<string>, id: string, h: Holder)
    ensures Flying(l, ids + [id], h) == Flying(l, ids, h) + (if ChargedTo(l, h, id) then 1 else 0)
  {
    assert (ids + [id])[..|ids|] == ids;
  }

  lemma {:induction false} FlyingWithout(l: Ledger, ids: seq<string>, i: nat, h: Holder)
    requires i < |ids|
    ensures Flying(l, ids, h) == Flying(l, RemoveAt(ids, i), h) + (if ChargedTo(l, h, ids[i]) then 1 else 0)
    decreases |ids|
  {
    hide Flying, ChargedTo;
    var init, last := ids[..|ids| - 1], ids[|ids| - 1];
    assert ids == init + [last];
    FlyingSnoc(l, init, last, h);
    if i == |ids| - 1 {
      assert RemoveAt(ids, i) == init;
    } else {
      FlyingWithout(l, init, i, h);
      assert RemoveAt(ids, i) == RemoveAt(init, i) + [last];
      FlyingSnoc(l, RemoveAt(init, i), last, h);
    }
  }

  lemma {:induction false} SameFlying(l: Ledger, m: Ledger, ids: seq<string>, h: Holder)
    requires forall id :: ChargedTo(l, h, id) == ChargedTo(m, h, id)
    ensures Flying(l, ids, h) == Flying(m, ids, h)
  {
    hide ChargedTo;
    if |ids| > 0 {
      SameFlying(l, m, ids[..|ids| - 1], h);
    }
  }

  lemma {:induction false} FlyingAfter(l: Ledger, ids: seq<string>, op: Op, t: string)
    requires !op.DoRecordUsage? && (op.DoGenerateKey? ==> op.id !in ids)
    ensures Flying(Apply(l, op), ids, TheTeam(t)) <=
            Flying(l, ids, TheTeam(t)) + (if Joins(l, op, TheTeam(t)) then Flying(l, ids, TheKey(op.id)) else 0)
  {
    if |ids| > 0 {
      hide Apply, Joins;
      var init, last := ids[..|ids| - 1], ids[|ids| - 1];
      assert ids == init + [last];
      FlyingAfter(l, init, op, t);
    }
  }

  // ---- The bound -------------------------------------------------------------------------------------

  function Times(n: nat, c: real): real {
    n as real * c
  }

  lemma TimesNext(n: nat, c: real)
    ensures Times(n + 1, c) == Times(n, c) + c
  {
  }

  lemma TimesMonotone(n: nat, m: nat, c: real)
    requires n <= m && c >= 0.0
    ensures 0.0 <= Times(n, c) <= Times(m, c)
  {
    assert (m - n) as real * c >= 0.0;
  }

  function PositivePart(x: real): real {
    if x > 0.0 then x else 0.0
  }

  /** Spent so far, plus what the requests in flight may still cost, is within the bound. */
  predicate Bounded(w: World, h: Holder, c: real, n: nat) {
    Exists(w.ledger, h) && Limit(w.ledger, h).Some? ==>
      Spent(w.ledger, h) + Times(Flying(w.ledger, w.inflight, h), c) <=
      PositivePart(Limit(w.ledger, h).value) + Times(n, c)
  }

  lemma AdmitStep(w: World, s: Step, h: Holder, c: real, p: nat, n: nat)
    requires s.Admit? && Enabled(w, s, c) && c >= 0.0 && p <= n
    requires Bounded(w, h, c, n) && Flying(w.ledger, Next(w, s).inflight, h) <= p
    requires Indexed(w.ledger)
    ensures Bounded(Next(w, s), h, c, n)
  {
    hide Times, Flying;
    FlyingSnoc(w.ledger, w.inflight, s.id, h);
    TimesMonotone(Flying(w.ledger, Next(w, s).inflight, h), p, c);
    TimesMonotone(p, n, c);
  }

  lemma FinishStep(w: World, s: Step, h: Holder, c: real, n: nat)
    requires s.Finish? && Enabled(w, s, c) && c >= 0.0
    requires Bounded(w, h, c, n)
    ensures Bounded(Next(w, s), h, c, n)
  {
    hide Times, Flying, RemoveAt;
    var l, m := w.ledger, Next(w, s).ledger;
    var id := w.inflight[s.i];
    FlyingWithout(l, w.inflight, s.i, h);
    SameFlying(l, m, RemoveAt(w.inflight, s.i), h);
    TimesNext(Flying(l, RemoveAt(w.inflight, s.i), h), c);
  }

  lemma FailStep(w: World, s: Step, h: Holder, c: real, n: nat)
    requires s.Fail? && Enabled(w, s, c) && c >= 0.0
    requires Bounded(w, h, c, n)
    ensures Bounded(Next(w, s), h, c, n)
  {
    hide Times, Flying;
    FlyingWithout(w.ledger, w.inflight, s.i, h);
    TimesMonotone(Flying(w.ledger, RemoveAt(w.inflight, s.i), h), Flying(w.ledger, w.inflight, h), c);
  }

  /** No other call raises what is spent; it may only start again from zero. */
  lemma AdminSpends(l: Ledger, op: Op, h: Holder)
    requires !op.DoRecordUsage? && Indexed(l) && Exists(Apply(l, op), h)
    ensures
      || Spent(Apply(l, op), h) == 0.0
      || (Exists(l, h) && Limit(l, h) == Limit(Apply(l, op), h) && Spent(l, h) == Spent(Apply(l, op), h))
  {
    if h.TheKey? {
      if h.id in l.keys {
        hide Apply;
        KeyStep(l, op, h.id);
      }
    }
  }

  lemma AdminStep(w: World, s: Step, h: Holder, c: real, p: nat, n: nat)
    requires s.Admin? && Enabled(w, s, c) && c >= 0.0 && p <= n
    requires Bounded(w, h, c, n) && Indexed(w.ledger)
    requires s.op.DoGenerateKey? ==> s.op.id !in w.inflight
    requires Flying(Next(w, s).ledger, w.inflight, h) <= p
    ensures Bounded(Next(w, s), h, c, n + BroughtBy(w, s, h))
  {
    hide Times, Flying, Apply, Joins, Indexed, Spent, Limit, Exists, ChargedTo;
    var l, m := w.ledger, Next(w, s).ledger;
    if Exists(m, h) {
      AdminSpends(l, s.op, h);
      var before, after := Flying(l, w.inflight, h), Flying(m, w.inflight, h);
      TimesMonotone(n, n + BroughtBy(w, s, h), c);
      TimesMonotone(after, n, c);
      if h.TheTeam? {
        FlyingAfter(l, w.inflight, s.op, h.id);
      } else {
        KeysFlyAlike(l, m, w.inflight, h);
      }
      TimesMonotone(after, before + BroughtBy(w, s, h), c);
      TimesPlus(before, BroughtBy(w, s, h), c);
      TimesPlus(n, BroughtBy(w, s, h), c);
    }
  }

  lemma TimesPlus(a: nat, b: nat, c: real)
    ensures Times(a + b, c) == Times(a, c) + Times(b, c)
  {
  }

  lemma KeysFlyAlike(l: Ledger, m: Ledger, ids: seq<string>, h: Holder)
    requires h.TheKey?
    ensures Flying(l, ids, h) == Flying(m, ids, h)
  {
    SameFlying(l, m, ids, h);
  }

  /** In every reachable state, what a key or a team has spent in its window exceeds its budget by at
      most the cost of the requests in flight together, plus, for a team, that of the requests already
      in flight for a key when it joined. */
  lemma {:induction false} OvershootBound(steps: seq<Step>, h: Holder, c: real, p: nat)
    requires Legal(steps, c) && AtMost(steps, h, p) && c >= 0.0
    ensures Bounded(Exec(steps), h, c, p + Brought(steps, h))
  {
    hide Next, Enabled, Bounded, Fresh, Flying, BroughtBy, Indexed, NamesUsed, KeysBalanced, TeamsBalanced, Run, FreshRun;
    if |steps| == 0 {
      NothingSpent(h, c, p);
    } else {
      var init, s := steps[..|steps| - 1], steps[|steps| - 1];
      var w, n := Exec(init), p + Brought(init, h);
      OvershootBound(init, h, c, p);
      CallsAreARun(init, c);
      RunsKeepInv(Calls(init));
      InFlightUsed(init, c);
      OneStep(w, s, h, c, p, n, Used(Calls(init)));
    }
  }

  lemma NothingSpent(h: Holder, c: real, n: nat)
    ensures Bounded(World(EMPTY, []), h, c, n)
  {
  }

  lemma OneStep(w: World, s: Step, h: Holder, c: real, p: nat, n: nat, used: set<string>)
    requires Enabled(w, s, c) && c >= 0.0 && p <= n && Indexed(w.ledger) && Bounded(w, h, c, n)
    requires forall i | 0 <= i < |w.inflight| :: w.inflight[i] in used
    requires s.Admin? ==> Fresh(s.op, used)
    requires Flying(Next(w, s).ledger, Next(w, s).inflight, h) <= p
    ensures Bounded(Next(w, s), h, c, n + BroughtBy(w, s, h))
  {
    hide Bounded, Flying, Indexed, Apply, RecordUsage, CheckBudget, Joins;
    match s
    case Admit(_) => AdmitStep(w, s, h, c, p, n);
    case Finish(_, _, _) => FinishStep(w, s, h, c, n);
    case Fail(_) => FailStep(w, s, h, c, n);
    case Admin(_) => AdminStep(w, s, h, c, p, n);
  }

  /** A key never spends more than its budget plus the cost of `p` requests, resets included. */
  lemma KeyOvershoot(steps: seq<Step>, id: string, c: real, p: nat)
    requires Legal(steps, c) && AtMost(steps, TheKey(id), p) && c >= 0.0
    requires id in Exec(steps).ledger.keys && Exec(steps).ledger.keys[id].maxBudget.Some?
    ensures var key := Exec(steps).ledger.keys[id];
      key.budgetSpent <= PositivePart(key.maxBudget.value) + p as real * c
  {
    hide Exec, Flying, Legal;
    OvershootBound(steps, TheKey(id), c, p);
    NoKeyJoins(steps, id);
    TimesMonotone(0, Flying(Exec(steps).ledger, Exec(steps).inflight, TheKey(id)), c);
  }

  lemma {:induction false} NoKeyJoins(steps: seq<Step>, id: string)
    ensures Brought(steps, TheKey(id)) == 0
  {
    if |steps| > 0 {
      NoKeyJoins(steps[..|steps| - 1], id);
    }
  }

  /** A team's overshoot also counts the requests brought in by joining keys; when keys only join with
      nothing in flight, the bound is the one for keys. */
  lemma TeamOvershoot(steps: seq<Step>, id: string, c: real, p: nat)
    requires Legal(steps, c) && AtMost(steps, TheTeam(id), p) && c >= 0.0
    requires id in Exec(steps).ledger.teams && Exec(steps).ledger.teams[id].maxBudget.Some?
    ensures var team := Exec(steps).ledger.teams[id];
      team.budgetSpent <= PositivePart(team.maxBudget.value) + (p + Brought(steps, TheTeam(id))) as real * c
  {
    hide Exec, Flying, Legal, Brought;
    OvershootBound(steps, TheTeam(id), c, p);
    TimesMonotone(0, Flying(Exec(steps).ledger, Exec(steps).inflight, TheTeam(id)), c);
  }
}
