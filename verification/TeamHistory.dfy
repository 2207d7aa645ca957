/** What a run of the ledger says about teams and who is in them. */
module TeamHistory {
  import opened Text
  import opened AdminLedger
  import opened KeyHistory

  // ---- From the calls alone ----------------------------------------------------------------------

  /** The key has been generated and not deleted since. */
  predicate Lives(ops: seq<Op>, id: string) {
    |ops| > 0 &&
    (var init, op := ops[..|ops| - 1], ops[|ops| - 1];
     match op
     case DoGenerateKey(i, _, _, _) => i == id || Lives(init, id)
     case DoDeleteKey(i) => i != id && Lives(init, id)
     case _ => Lives(init, id))
  }

  /** The members of a team in the order they joined, if it has been created and not deleted since. */
  function MembersOf(ops: seq<Op>, t: string): Option<seq<string>> {
    if |ops| == 0 then None
    else
      var init, op := ops[..|ops| - 1], ops[|ops| - 1];
      var m := MembersOf(init, t);
      match op
      case DoCreateTeam(i, _) => if i == t then Some([]) else m
      case DoDeleteTeam(i) => if i == t then None else m
      case DoAddMember(i, k) =>
        if i == t && m.Some? && k !in m.value && Lives(init, k) then Some(m.value + [k]) else m
      case DoRemoveMember(i, k) => if i == t && m.Some? then Some(Without(m.value, k)) else m
      case _ => m
  }

  /** What a team may spend. */
  function LimitOf(ops: seq<Op>, t: string): Option<real> {
    if |ops| == 0 then None
    else
      var init, op := ops[..|ops| - 1], ops[|ops| - 1];
      if op.DoCreateTeam? && op.id == t then op.maxBudget else LimitOf(init, t)
  }

  /** The team a key was put into last, by the call that generated it or by joining; none, once it has been
      removed from a team that listed it, whichever that was. */
  function TeamOf(ops: seq<Op>, id: string): Option<string> {
    if |ops| == 0 then None
    else
      var init, op := ops[..|ops| - 1], ops[|ops| - 1];
      match op
      case DoGenerateKey(i, _, request, _) => if i == id then request.teamId else TeamOf(init, id)
      case DoAddMember(t, k) =>
        var m := MembersOf(init, t);
        if k == id && m.Some? && k !in m.value then Some(t) else TeamOf(init, id)
      case DoRemoveMember(t, k) =>
        var m := MembersOf(init, t);
        if k == id && m.Some? && k in m.value then None else TeamOf(init, id)
      case _ => TeamOf(init, id)
  }

  // ---- The ledger agrees ---------------------------------------------------------------------------

  ghost predicate KeyAgrees(l: Ledger, ops: seq<Op>, id: string) {
    (id in l.keys <==> Lives(ops, id)) && (id in l.keys ==> l.keys[id].teamId == TeamOf(ops, id))
  }

  ghost predicate TeamAgrees(l: Ledger, ops: seq<Op>, t: string) {
    && (t in l.teams <==> MembersOf(ops, t).Some?)
    && (t in l.teams ==>
         Some(l.teams[t].members) == MembersOf(ops, t) && l.teams[t].maxBudget == LimitOf(ops, t))
  }

  /** The team a call is about, if it is about one. */
  function About(op: Op): string {
    match op
    case DoAddMember(t, _) => t
    case DoRemoveMember(t, _) => t
    case _ => ""
  }

  lemma KeyNext(l: Ledger, ops: seq<Op>, id: string)
    requires 0 < |ops|
    requires KeyAgrees(l, ops[..|ops| - 1], id) && TeamAgrees(l, ops[..|ops| - 1], About(ops[|ops| - 1]))
    requires ops[|ops| - 1].DoGenerateKey? ==> ops[|ops| - 1].id !in l.keys
    ensures KeyAgrees(Apply(l, ops[|ops| - 1]), ops, id)
  {
    hide Without, LimitOf;
    var op := ops[|ops| - 1];
    match op {
      case DoRecordUsage(_, _, _) =>
        hide Apply;
        UsageKeeps(l, op);
      case DoRemoveMember(t, k) =>
        RemovedOrNot(l, t, k);
      case _ =>
    }
  }

  lemma RemovedOrNot(l: Ledger, t: string, k: string)
    ensures t in l.teams && k !in l.teams[t].members ==> Without(l.teams[t].members, k) == l.teams[t].members
  {
    if t in l.teams && k !in l.teams[t].members {
      WithoutAbsent(l.teams[t].members, k);
    }
  }

  lemma TeamNext(l: Ledger, ops: seq<Op>, t: string)
    requires 0 < |ops|
    requires TeamAgrees(l, ops[..|ops| - 1], t)
    requires ops[|ops| - 1].DoAddMember? ==> KeyAgrees(l, ops[..|ops| - 1], ops[|ops| - 1].id)
    requires ops[|ops| - 1].DoCreateTeam? ==> ops[|ops| - 1].id !in l.teams
    ensures TeamAgrees(Apply(l, ops[|ops| - 1]), ops, t)
  {
    hide Without, TeamOf;
    var op := ops[|ops| - 1];
    match op {
      case DoRecordUsage(_, _, _) =>
        hide Apply;
        UsageKeeps(l, op);
      case DoRemoveMember(i, k) =>
        RemovedOrNot(l, i, k);
      case _ =>
    }
  }

  /** Recording usage keeps who is in which team, and the limits. */
  lemma UsageKeeps(l: Ledger, op: Op)
    requires op.DoRecordUsage?
    ensures
      var m := Apply(l, op);
      && m.keys.Keys == l.keys.Keys && m.teams.Keys == l.teams.Keys
      && (forall id | id in l.keys :: m.keys[id].teamId == l.keys[id].teamId)
      && forall t | t in l.teams ::
           m.teams[t].members == l.teams[t].members && m.teams[t].maxBudget == l.teams[t].maxBudget
  {
  }

  lemma FreshNames(ops: seq<Op>)
    requires 0 < |ops| && FreshRun(ops) && Inv(Run(ops[..|ops| - 1]), Used(ops[..|ops| - 1]))
    ensures
      var l, op := Run(ops[..|ops| - 1]), ops[|ops| - 1];
      && (op.DoGenerateKey? ==> op.id !in l.keys) && (op.DoCreateTeam? ==> op.id !in l.teams)
      && Run(ops) == Apply(l, op) && forall t | t in l.teams :: l.teams[t].id == t
  {
    hide Apply, Indexed, KeysBalanced, Sum;
  }

  /** Over every run, which keys and teams there are, who is in which team and what a team may spend is what
      the calls made it. */
  lemma {:induction false} TeamsAreTheirCalls(ops: seq<Op>)
    requires FreshRun(ops)
    ensures forall id :: KeyAgrees(Run(ops), ops, id)
    ensures forall t :: TeamAgrees(Run(ops), ops, t)
  {
    if |ops| > 0 {
      hide Run, Apply, Inv, KeyAgrees, TeamAgrees;
      var init := ops[..|ops| - 1];
      TeamsAreTheirCalls(init);
      RunsKeepInv(init);
      FreshNames(ops);
      forall id ensures KeyAgrees(Run(ops), ops, id) {
        KeyNext(Run(init), ops, id);
      }
      forall t ensures TeamAgrees(Run(ops), ops, t) {
        TeamNext(Run(init), ops, t);
      }
    }
  }

  /** Over every run, what the budget check of a key says: its own budget first, by what was spent in its
      window; then that of its team, if there is one with a limit, by all that was spent for the team. */
  lemma BudgetCheckSays(ops: seq<Op>, i: nat)
    requires FreshRun(ops) && Generates(ops, i) && ops[i].id in Run(ops).keys
    ensures
      var id, limit, spent := ops[i].id, ops[i].request.maxBudget, WindowSum(ops, i);
      var l := Run(ops);
      CheckBudget(l, l.keys[id]) ==
      if limit.Some? && spent >= limit.value then Err(KeyBudgetExceeded(spent, limit.value))
      else
        match TeamOf(ops, id)
        case None => Ok(())
        case Some(t) =>
          var total := Sum(l.log, OfTeam(t)).spend;
          if MembersOf(ops, t).Some? && LimitOf(ops, t).Some? && total >= LimitOf(ops, t).value
          then Err(TeamBudgetExceeded(total, LimitOf(ops, t).value))
          else Ok(())
  {
    hide Run, FreshRun, Sum, WindowSum, TeamOf, MembersOf, LimitOf;
    TeamsAreTheirCalls(ops);
    KeyIsItsCalls(ops, i);
    KeyFate(ops, i);
    Conservation(ops);
    var id := ops[i].id;
    assert KeyAgrees(Run(ops), ops, id);
    if Run(ops).keys[id].teamId.Some? {
      assert TeamAgrees(Run(ops), ops, Run(ops).keys[id].teamId.value);
    }
  }

  /** What the calls answer, and when they change nothing. */
  lemma CallsAnswer(l: Ledger, id: string, hash: string, request: KeyRequest, t: string, limit: Option<real>,
                    u: Usage, now: int)
    ensures GenerateKey(l, id, hash, request, now).1 == if id in l.keys then Err(Duplicate) else Ok(())
    ensures id in l.keys ==> GenerateKey(l, id, hash, request, now).0 == l
    ensures RevokeKey(l, id).1 == DeleteKey(l, id).1 == (id in l.keys)
    ensures id !in l.keys ==> RevokeKey(l, id).0 == l == DeleteKey(l, id).0
    ensures CreateTeam(l, t, limit).1 == if t in l.teams then Err(Duplicate) else Ok(())
    ensures t in l.teams ==> CreateTeam(l, t, limit).0 == l
    ensures DeleteTeam(l, t).1 == (t in l.teams)
    ensures
      AddMember(l, t, id).1 ==
      if id !in l.keys then Err(KeyNotFound)
      else if t !in l.teams then Err(TeamNotFound)
      else if id in l.teams[t].members then Err(AlreadyMember)
      else Ok(())
    ensures AddMember(l, t, id).1.Err? ==> AddMember(l, t, id).0 == l
    ensures
      RemoveMember(l, t, id).1 ==
      if t !in l.teams then Err(TeamNotFound)
      else if id !in l.teams[t].members then Err(KeyNotFound)
      else Ok(())
    ensures RemoveMember(l, t, id).1.Err? ==> RemoveMember(l, t, id).0 == l
    ensures RecordUsage(l, id, u, now).1 == if id in l.keys then Ok(u.cost) else Err(NoSuchKey)
    ensures id !in l.keys ==> RecordUsage(l, id, u, now).0 == l
  {
  }
}
