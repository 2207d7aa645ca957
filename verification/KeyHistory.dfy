/** What a run of the ledger says about one key: whether it is still accepted, and what its budget
    window holds. */
module KeyHistory {
  import opened Text
  import opened AdminLedger

  /** Nothing a call can change about a key, short of deleting it. */
  predicate SameTerms(a: VirtualKey, b: VirtualKey) {
    a.keyHash == b.keyHash && a.maxBudget == b.maxBudget && a.resetDays == b.resetDays && a.expiresAt == b.expiresAt
  }

  /** A key after one more call, its team aside. */
  function NextKey(key: VirtualKey, op: Op): VirtualKey {
    if op.DoRecordUsage? && op.id == key.id then Charge(key, op.usage, op.now)
    else if op.DoResetExpired? then ResetKey(key, op.now)
    else if op.DoRevokeKey? && op.id == key.id then key.(isActive := false)
    else key
  }

  lemma KeyStep(l: Ledger, op: Op, id: string)
    requires id in l.keys && l.keys[id].id == id
    ensures id in Apply(l, op).keys <==> op != DoDeleteKey(id)
    ensures op != DoDeleteKey(id) ==>
      var key, next := l.keys[id], Apply(l, op).keys[id];
      && next.(teamId := key.teamId) == NextKey(key, op)
      && next.id == id && SameTerms(next, key) && (next.isActive <==> key.isActive && op != DoRevokeKey(id))
  {
    hide Apply, NextKey;
    KeyBecomes(l, op, id);
    SameTermsNext(l.keys[id], op);
  }

  lemma KeyBecomes(l: Ledger, op: Op, id: string)
    requires id in l.keys && l.keys[id].id == id
    ensures id in Apply(l, op).keys <==> op != DoDeleteKey(id)
    ensures op != DoDeleteKey(id) ==> Apply(l, op).keys[id].(teamId := l.keys[id].teamId) == NextKey(l.keys[id], op)
  {
    hide RecordOf, ChargeTeam, Without;
  }

  lemma SameTermsNext(key: VirtualKey, op: Op)
    ensures
      var next := NextKey(key, op);
      && next.id == key.id && next.teamId == key.teamId && SameTerms(next, key)
      && (next.isActive <==> key.isActive && op != DoRevokeKey(key.id))
  {
  }

  lemma AbsentStep(l: Ledger, op: Op, id: string)
    requires id !in l.keys
    requires op.DoGenerateKey? ==> op.id != id
    ensures id !in Apply(l, op).keys
  {
  }

  lemma {:induction false} Mentioned(ops: seq<Op>, i: nat)
    requires i < |ops|
    ensures NamesIn(ops[i]) <= Used(ops)
  {
    hide NamesIn;
    if i < |ops| - 1 {
      Mentioned(ops[..|ops| - 1], i);
    }
  }

  predicate DoneLater(ops: seq<Op>, i: nat, op: Op) {
    exists j :: i < j < |ops| && ops[j] == op
  }

  lemma DoneLaterSnoc(ops: seq<Op>, i: nat, op: Op)
    requires 0 < |ops|
    requires i < |ops| - 1
    ensures DoneLater(ops, i, op) <==> DoneLater(ops[..|ops| - 1], i, op) || ops[|ops| - 1] == op
  {
    var init := ops[..|ops| - 1];
    if DoneLater(init, i, op) {
      var j :| i < j < |init| && init[j] == op;
      assert ops[j] == op;
    }
    if DoneLater(ops, i, op) && ops[|ops| - 1] != op {
      var j :| i < j < |ops| && ops[j] == op;
      assert init[j] == op;
    }
  }

  predicate TermsOf(key: VirtualKey, op: Op)
    requires op.DoGenerateKey?
  {
    && key.id == op.id && key.keyHash == op.hash && key.maxBudget == op.request.maxBudget
    && key.resetDays == op.request.resetDays && key.expiresAt == Later(op.now, op.request.expiresInDays)
  }

  /** A generated key exists until it is deleted, keeps its terms, and is active until revoked. */
  lemma {:induction false} KeyFate(ops: seq<Op>, i: nat)
    requires FreshRun(ops) && i < |ops| && ops[i].DoGenerateKey?
    ensures
      var id, l := ops[i].id, Run(ops);
      && (id in l.keys <==> !DoneLater(ops, i, DoDeleteKey(id)))
      && (id in l.keys ==>
           TermsOf(l.keys[id], ops[i]) && (l.keys[id].isActive <==> !DoneLater(ops, i, DoRevokeKey(id))))
    decreases |ops|
  {
    hide Indexed, KeysBalanced, TeamsBalanced, DoneLater, Apply, NextKey;
    var init, op, id := ops[..|ops| - 1], ops[|ops| - 1], ops[i].id;
    RunsKeepInv(init);
    if i == |ops| - 1 {
      NothingLater(ops, DoDeleteKey(id));
      NothingLater(ops, DoRevokeKey(id));
      Generated(Run(init), op);
    } else {
      assert init[i] == ops[i];
      KeyFate(init, i);
      Mentioned(init, i);
      DoneLaterSnoc(ops, i, DoDeleteKey(id));
      DoneLaterSnoc(ops, i, DoRevokeKey(id));
      if id in Run(init).keys {
        KeyStep(Run(init), op, id);
      } else {
        AbsentStep(Run(init), op, id);
      }
    }
  }

  /** No other key ever has the hash of a generated key. */
  lemma {:induction false} HashOwner(ops: seq<Op>, i: nat, id: string)
    requires FreshRun(ops) && i < |ops| && ops[i].DoGenerateKey?
    requires id in Run(ops).keys && Run(ops).keys[id].keyHash == ops[i].hash
    ensures id == ops[i].id
    decreases |ops|
  {
    hide KeysBalanced, TeamsBalanced, Apply, NextKey;
    var init, op := ops[..|ops| - 1], ops[|ops| - 1];
    var l := Run(init);
    RunsKeepInv(init);
    if id in l.keys {
      KeyStep(l, op, id);
      if i < |ops| - 1 {
        assert init[i] == ops[i];
        HashOwner(init, i, id);
      }
    } else {
      if op.DoGenerateKey? && op.id == id {
        Generated(l, op);
        if i < |ops| - 1 {
          assert init[i] == ops[i];
          Mentioned(init, i);
        }
      } else {
        AbsentStep(l, op, id);
      }
    }
  }

  lemma NothingLater(ops: seq<Op>, op: Op)
    requires 0 < |ops|
    ensures !DoneLater(ops, |ops| - 1, op)
  {
  }

  lemma Generated(l: Ledger, op: Op)
    requires op.DoGenerateKey? && op.id !in l.keys
    ensures op.id in Apply(l, op).keys && TermsOf(Apply(l, op).keys[op.id], op) && Apply(l, op).keys[op.id].isActive
  {
  }

  // ---- A key from the calls alone ------------------------------------------------------------------

  predicate Generates(ops: seq<Op>, i: nat) {
    i < |ops| && ops[i].DoGenerateKey?
  }

  /** A window that opened at `start` ends after the days the key was generated with, if it has any. */
  predicate Ends(generate: Op, start: int, now: int)
    requires generate.DoGenerateKey?
  {
    generate.request.resetDays.Some? && now >= start + generate.request.resetDays.value * 86400
  }

  /** When the window of the key generated by call `i` opened: when the key was generated, or when it was
      last swept after its window had ended. */
  function Opened(ops: seq<Op>, i: nat): int
    requires Generates(ops, i)
    decreases |ops|
  {
    var init, op := ops[..|ops| - 1], ops[|ops| - 1];
    if i == |init| then op.now
    else if op.DoResetExpired? && Ends(ops[i], Opened(init, i), op.now) then op.now
    else Opened(init, i)
  }

  /** The number of calls made when that window opened. */
  function WindowStart(ops: seq<Op>, i: nat): (k: nat)
    requires Generates(ops, i)
    ensures i < k <= |ops|
    decreases |ops|
  {
    var init, op := ops[..|ops| - 1], ops[|ops| - 1];
    if i == |init| || (op.DoResetExpired? && Ends(ops[i], Opened(init, i), op.now)) then |ops|
    else WindowStart(init, i)
  }

  /** What the usage recorded for a key adds up to. */
  function UsageOf(ops: seq<Op>, id: string): Totals {
    if |ops| == 0 then Totals(0, 0, 0, 0.0)
    else
      var t, op := UsageOf(ops[..|ops| - 1], id), ops[|ops| - 1];
      if op.DoRecordUsage? && op.id == id then
        Totals(t.requests + 1, t.tokensIn + op.usage.tokensIn, t.tokensOut + op.usage.tokensOut, t.spend + op.usage.cost)
      else t
  }

  function LastUsed(ops: seq<Op>, id: string): Option<int> {
    if |ops| == 0 then None
    else
      var op := ops[|ops| - 1];
      if op.DoRecordUsage? && op.id == id then Some(op.now) else LastUsed(ops[..|ops| - 1], id)
  }

  /** Spent since the window opened. */
  function WindowSum(ops: seq<Op>, i: nat): real
    requires Generates(ops, i)
  {
    UsageOf(ops[WindowStart(ops, i)..], ops[i].id).spend
  }

  /** Over every run, a key is what its calls made it: counters, last use, budget window and all, from the
      calls and their times alone. */
  lemma {:induction false} KeyIsItsCalls(ops: seq<Op>, i: nat)
    requires FreshRun(ops) && Generates(ops, i) && ops[i].id in Run(ops).keys
    ensures
      var key, id := Run(ops).keys[ops[i].id], ops[i].id;
      && key.lifetime == UsageOf(ops[i..], id)
      && key.lastUsedAt == LastUsed(ops[i..], id)
      && key.budgetSpent == WindowSum(ops, i)
      && key.resetDays == ops[i].request.resetDays
      && key.resetAt ==
         (if key.resetDays.Some? then Some(Opened(ops, i) + key.resetDays.value * 86400) else None)
    decreases |ops|
  {
    hide Apply, Indexed, KeysBalanced, TeamsBalanced, UsageOf, LastUsed;
    var init, op, id := ops[..|ops| - 1], ops[|ops| - 1], ops[i].id;
    if i == |init| {
      RunsKeepInv(init);
      GeneratedPlain(Run(init), op);
      NothingUsed(ops[i..], id);
      NothingUsed(ops[|ops|..], id);
    } else {
      assert init[i] == ops[i];
      LivedBefore(ops, i);
      KeyIsItsCalls(init, i);
      KeyStep(Run(init), op, id);
      UsedNext(ops, i, id);
      UsedNext(ops, WindowStart(init, i), id);
      NothingUsed(ops[|ops|..], id);
    }
  }

  lemma GeneratedPlain(l: Ledger, op: Op)
    requires op.DoGenerateKey? && op.id !in l.keys
    ensures op.id in Apply(l, op).keys
    ensures
      var key := Apply(l, op).keys[op.id];
      && key.lifetime == Totals(0, 0, 0, 0.0) && key.lastUsedAt == None && key.budgetSpent == 0.0
      && key.resetDays == op.request.resetDays
      && key.resetAt == (if key.resetDays.Some? then Some(op.now + key.resetDays.value * 86400) else None)
  {
  }

  lemma NothingUsed(ops: seq<Op>, id: string)
    requires |ops| == 0 || (|ops| == 1 && ops[0].DoGenerateKey?)
    ensures UsageOf(ops, id) == Totals(0, 0, 0, 0.0) && LastUsed(ops, id) == None
  {
    if |ops| == 1 {
      assert ops[..0] == [];
    }
  }

  /** One more call after the first `k`. */
  lemma UsedNext(ops: seq<Op>, k: nat, id: string)
    requires k < |ops|
    ensures
      var init, op := ops[..|ops| - 1], ops[|ops| - 1];
      var t := UsageOf(init[k..], id);
      if op.DoRecordUsage? && op.id == id then
        && UsageOf(ops[k..], id) == Totals(t.requests + 1, t.tokensIn + op.usage.tokensIn,
                                           t.tokensOut + op.usage.tokensOut, t.spend + op.usage.cost)
        && LastUsed(ops[k..], id) == Some(op.now)
      else
        UsageOf(ops[k..], id) == t && LastUsed(ops[k..], id) == LastUsed(init[k..], id)
  {
    assert ops[k..][..|ops| - k - 1] == ops[..|ops| - 1][k..];
  }

  /** A key that exists now has existed since it was generated. */
  lemma LivedBefore(ops: seq<Op>, i: nat)
    requires FreshRun(ops) && Generates(ops, i) && i < |ops| - 1 && ops[i].id in Run(ops).keys
    ensures ops[i].id in Run(ops[..|ops| - 1]).keys && Run(ops[..|ops| - 1]).keys[ops[i].id].id == ops[i].id
  {
    hide Run, FreshRun, DoneLater;
    var init := ops[..|ops| - 1];
    assert init[i] == ops[i];
    KeyFate(ops, i);
    FreshBefore(ops);
    KeyFate(init, i);
    DoneLaterSnoc(ops, i, DoDeleteKey(ops[i].id));
  }

  lemma FreshBefore(ops: seq<Op>)
    requires FreshRun(ops) && 0 < |ops|
    ensures FreshRun(ops[..|ops| - 1])
  {
  }

  /** The window of a key is over if and only if the days it was generated with have passed since it was
      generated, or since its last reset if it had one; without such days it never is. */
  lemma WindowOverIff(ops: seq<Op>, i: nat, now: int)
    requires FreshRun(ops) && Generates(ops, i) && ops[i].id in Run(ops).keys
    ensures WindowOver(Run(ops).keys[ops[i].id], now) <==> Ends(ops[i], Opened(ops, i), now)
  {
    hide Run, FreshRun, WindowSum, Opened;
    KeyIsItsCalls(ops, i);
  }

  lemma LogGrows(l: Ledger, op: Op)
    ensures Apply(l, op).log ==
            if op.DoRecordUsage? && op.id in l.keys then
              l.log + [SpendRecord(op.id, l.keys[op.id].teamId, op.usage.model, op.usage.provider,
                                   op.usage.tokensIn, op.usage.tokensOut, op.usage.cost)]
            else l.log
  {
  }

  /** What the log holds of a key since a call after it was generated is what was recorded for it since. */
  lemma {:induction false} LogHoldsUsage(ops: seq<Op>, i: nat, k: nat)
    requires FreshRun(ops) && Generates(ops, i) && ops[i].id in Run(ops).keys && i < k <= |ops|
    ensures |Run(ops[..k]).log| <= |Run(ops).log|
    ensures Sum(Run(ops).log[|Run(ops[..k]).log|..], OfKey(ops[i].id)) == UsageOf(ops[k..], ops[i].id)
    decreases |ops|
  {
    hide Apply, Sum, UsageOf, FreshRun;
    var init, op, id := ops[..|ops| - 1], ops[|ops| - 1], ops[i].id;
    if k == |ops| {
      assert ops[..k] == ops;
      NothingUsed(ops[k..], id);
      SumOfNoMatch(Run(ops).log[|Run(ops).log|..], OfKey(id));
    } else {
      assert init[i] == ops[i] && init[..k] == ops[..k];
      LivedBefore(ops, i);
      FreshBefore(ops);
      LogHoldsUsage(init, i, k);
      LogGrows(Run(init), op);
      UsedNext(ops, k, id);
      var n, log := |Run(ops[..k]).log|, Run(init).log;
      if |Run(ops).log| > |log| {
        var r := Run(ops).log[|log|];
        assert Run(ops).log[n..] == log[n..] + [r];
        SumSnoc(log[n..], r, OfKey(id));
      }
    }
  }

  /** A key's window spend is the sum of its records since its window opened. */
  lemma WindowIsSinceReset(ops: seq<Op>, i: nat)
    requires FreshRun(ops) && Generates(ops, i) && ops[i].id in Run(ops).keys
    ensures
      var id, l, n := ops[i].id, Run(ops), |Run(ops[..WindowStart(ops, i)]).log|;
      n <= |l.log| && l.keys[id].budgetSpent == Sum(l.log[n..], OfKey(id)).spend
  {
    hide Run, FreshRun, Sum, UsageOf;
    KeyIsItsCalls(ops, i);
    LogHoldsUsage(ops, i, WindowStart(ops, i));
  }

  predicate CostsNotNegative(ops: seq<Op>) {
    forall i | 0 <= i < |ops| :: ops[i].DoRecordUsage? ==> ops[i].usage.cost >= 0.0
  }

  lemma {:induction false} SpendInParts(ops: seq<Op>, k: nat, id: string)
    requires CostsNotNegative(ops) && k <= |ops|
    ensures 0.0 <= UsageOf(ops[k..], id).spend <= UsageOf(ops, id).spend
    decreases |ops|
  {
    if k == |ops| {
      SpendNeverNegative(ops, id);
    } else {
      var init := ops[..|ops| - 1];
      SpendInParts(init, k, id);
      assert ops[k..][..|ops| - k - 1] == init[k..];
    }
  }

  lemma {:induction false} SpendNeverNegative(ops: seq<Op>, id: string)
    requires CostsNotNegative(ops)
    ensures UsageOf(ops, id).spend >= 0.0
  {
    if |ops| > 0 {
      SpendNeverNegative(ops[..|ops| - 1], id);
    }
  }

  /** Window spend never exceeds lifetime spend, and neither is negative. */
  lemma WindowWithinLifetime(ops: seq<Op>, i: nat)
    requires FreshRun(ops) && CostsNotNegative(ops) && Generates(ops, i) && ops[i].id in Run(ops).keys
    ensures 0.0 <= Run(ops).keys[ops[i].id].budgetSpent <= Run(ops).keys[ops[i].id].lifetime.spend
  {
    hide UsageOf, Run, FreshRun, Used;
    var k := WindowStart(ops, i);
    KeyIsItsCalls(ops, i);
    assert ops[i..][k - i..] == ops[k..];
    assert forall j | 0 <= j < |ops| - i :: ops[i..][j] == ops[i + j];
    SpendInParts(ops[i..], k - i, ops[i].id);
  }

  // ---- Acceptance ----------------------------------------------------------------------------------

  /** Over any run, what the check of a generated key says: nothing is known of it once it is deleted; a
      revoked key is that, expired or not; an expired one is that, overspent or not. */
  lemma ValidateIs(ops: seq<Op>, i: nat, now: int)
    requires FreshRun(ops) && Generates(ops, i)
    ensures
      var id, request, r := ops[i].id, ops[i].request, Validate(Run(ops), ops[i].hash, now);
      if DoneLater(ops, i, DoDeleteKey(id)) then r == Ok(None)
      else if DoneLater(ops, i, DoRevokeKey(id)) then r == Err(Revoked)
      else if request.expiresInDays.Some? && now > ops[i].now + request.expiresInDays.value * 86400 then r == Err(Expired)
      else if request.maxBudget.Some? && WindowSum(ops, i) >= request.maxBudget.value then r == Err(BudgetExceeded)
      else id in Run(ops).keys && r == Ok(Some(Run(ops).keys[id]))
  {
    hide Run, FreshRun, Used, DoneLater, WindowSum, KeysBalanced, TeamsBalanced, NamesUsed;
    var id, l := ops[i].id, Run(ops);
    RunsKeepInv(ops);
    KeyFate(ops, i);
    if id in l.keys {
      KeyIsItsCalls(ops, i);
    } else {
      if ops[i].hash in l.hashIndex {
        HashOwner(ops, i, l.hashIndex[ops[i].hash]);
      }
    }
  }

  /** So it is accepted if and only if it has been neither deleted nor revoked since, has not expired, and
      has spent less than its budget since its window opened. */
  lemma AcceptedIff(ops: seq<Op>, i: nat, now: int)
    requires FreshRun(ops) && Generates(ops, i)
    ensures
      var id, request := ops[i].id, ops[i].request;
      Accepts(Run(ops), ops[i].hash, now) <==>
      && !DoneLater(ops, i, DoDeleteKey(id))
      && !DoneLater(ops, i, DoRevokeKey(id))
      && (request.expiresInDays.Some? ==> now <= ops[i].now + request.expiresInDays.value * 86400)
      && (request.maxBudget.Some? ==> WindowSum(ops, i) < request.maxBudget.value)
  {
    hide Run, FreshRun, Validate, DoneLater, WindowSum;
    ValidateIs(ops, i, now);
  }

  /** Once revoked or deleted, whatever follows, a key is never accepted again. */
  lemma RevokedForGood(ops: seq<Op>, more: seq<Op>, i: nat, now: int)
    requires FreshRun(ops + more) && i < |ops| && ops[i].DoGenerateKey?
    requires DoneLater(ops, i, DoRevokeKey(ops[i].id)) || DoneLater(ops, i, DoDeleteKey(ops[i].id))
    ensures !Accepts(Run(ops + more), ops[i].hash, now)
  {
    hide Run, FreshRun, Used, WindowSum, Accepts;
    AcceptedIff(ops + more, i, now);
    var op := if DoneLater(ops, i, DoRevokeKey(ops[i].id)) then DoRevokeKey(ops[i].id) else DoDeleteKey(ops[i].id);
    var j :| i < j < |ops| && ops[j] == op;
    assert (ops + more)[j] == op;
  }
}
