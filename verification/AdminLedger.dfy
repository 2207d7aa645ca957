/** Virtual keys, teams and the spend log as one value, and every public call as a step on it. */
module AdminLedger {
  import opened Text

  /** What a spend record adds up to; also the four lifetime counters of a key. */
  datatype Totals = Totals(requests: nat, tokensIn: nat, tokensOut: nat, spend: real)

  const NOTHING := Totals(0, 0, 0, 0.0)

  datatype VirtualKey = VirtualKey(
    id: string, keyHash: string, teamId: Option<string>, maxBudget: Option<real>, resetDays: Option<nat>,
    budgetSpent: real, resetAt: Option<int>, expiresAt: Option<int>, lastUsedAt: Option<int>, isActive: bool,
    lifetime: Totals)

  datatype Team = Team(id: string, maxBudget: Option<real>, budgetSpent: real, members: seq<string>)

  datatype SpendRecord = SpendRecord(
    keyId: string, teamId: Option<string>, model: string, provider: string,
    tokensIn: nat, tokensOut: nat, cost: real)

  datatype Ledger = Ledger(
    keys: map<string, VirtualKey>, hashIndex: map<string, string>, teams: map<string, Team>, log: seq<SpendRecord>)

  const EMPTY := Ledger(map[], map[], map[], [])

  /** Seconds in a day; every time is a number of seconds. */
  const DAY: nat := 86400

  // ---- Adding up the log -------------------------------------------------------------------------

  datatype Filter =
    | AnyRecord | OfKey(name: string) | OfTeam(name: string) | OfModel(name: string) | OfProvider(name: string)

  predicate Matches(f: Filter, r: SpendRecord) {
    match f
    case AnyRecord => true
    case OfKey(id) => r.keyId == id
    case OfTeam(id) => r.teamId == Some(id)
    case OfModel(m) => r.model == m
    case OfProvider(p) => r.provider == p
  }

  function Add(t: Totals, r: SpendRecord): Totals {
    Totals(t.requests + 1, t.tokensIn + r.tokensIn, t.tokensOut + r.tokensOut, t.spend + r.cost)
  }

  function Plus(a: Totals, b: Totals): Totals {
    Totals(a.requests + b.requests, a.tokensIn + b.tokensIn, a.tokensOut + b.tokensOut, a.spend + b.spend)
  }

  function Sum(log: seq<SpendRecord>, f: Filter): Totals {
    if |log| == 0 then NOTHING
    else
      var rest, last := Sum(log[..|log| - 1], f), log[|log| - 1];
      if Matches(f, last) then Add(rest, last) else rest
  }

  lemma SumSnoc(log: seq<SpendRecord>, r: SpendRecord, f: Filter)
    ensures Sum(log + [r], f) == if Matches(f, r) then Add(Sum(log, f), r) else Sum(log, f)
  {
    assert (log + [r])[..|log|] == log;
  }

  lemma {:induction false} SumOfNoMatch(log: seq<SpendRecord>, f: Filter)
    requires forall i | 0 <= i < |log| :: !Matches(f, log[i])
    ensures Sum(log, f) == NOTHING
  {
    if |log| > 0 {
      SumOfNoMatch(log[..|log| - 1], f);
    }
  }

  lemma {:induction false} SumAppend(a: seq<SpendRecord>, b: seq<SpendRecord>, f: Filter)
    ensures Sum(a + b, f) == Plus(Sum(a, f), Sum(b, f))
    decreases |b|
  {
    hide Sum, Matches;
    if |b| == 0 {
      assert a + b == a && b == [];
      SumOfNoMatch([], f);
    } else {
      var init, last := b[..|b| - 1], b[|b| - 1];
      assert b == init + [last] && a + b == a + init + [last];
      SumAppend(a, init, f);
      SumSnoc(a + init, last, f);
      SumSnoc(init, last, f);
    }
  }

  predicate NoNegativeCost(log: seq<SpendRecord>) {
    forall i | 0 <= i < |log| :: log[i].cost >= 0.0
  }

  lemma {:induction false} SpendNotNegative(log: seq<SpendRecord>, f: Filter)
    requires NoNegativeCost(log)
    ensures Sum(log, f).spend >= 0.0
  {
    if |log| > 0 {
      SpendNotNegative(log[..|log| - 1], f);
    }
  }

  // ---- The store ---------------------------------------------------------------------------------

  datatype StoreError = NotFound | Duplicate

  /** `create_key`: the hash index entry is written together with the key. */
  function CreateKey(l: Ledger, key: VirtualKey): (Ledger, Result<(), StoreError>) {
    if key.id in l.keys then (l, Err(Duplicate))
    else (l.(hashIndex := l.hashIndex[key.keyHash := key.id], keys := l.keys[key.id := key]), Ok(()))
  }

  function KeyById(l: Ledger, id: string): Option<VirtualKey> {
    if id in l.keys then Some(l.keys[id]) else None
  }

  function KeyByHash(l: Ledger, hash: string): Option<VirtualKey> {
    if hash in l.hashIndex then KeyById(l, l.hashIndex[hash]) else None
  }

  /** `update_key` leaves the hash index alone. */
  function UpdateKey(l: Ledger, key: VirtualKey): (Ledger, Result<(), StoreError>) {
    if key.id in l.keys then (l.(keys := l.keys[key.id := key]), Ok(())) else (l, Err(NotFound))
  }

  function DeleteKey(l: Ledger, id: string): (Ledger, bool) {
    if id in l.keys
    then (l.(keys := l.keys - {id}, hashIndex := l.hashIndex - {l.keys[id].keyHash}), true)
    else (l, false)
  }

  function StoreTeam(l: Ledger, team: Team): (Ledger, Result<(), StoreError>) {
    if team.id in l.teams then (l, Err(Duplicate)) else (l.(teams := l.teams[team.id := team]), Ok(()))
  }

  function UpdateTeam(l: Ledger, team: Team): (Ledger, Result<(), StoreError>) {
    if team.id in l.teams then (l.(teams := l.teams[team.id := team]), Ok(())) else (l, Err(NotFound))
  }

  function DeleteTeam(l: Ledger, id: string): (Ledger, bool) {
    (l.(teams := l.teams - {id}), id in l.teams)
  }

  // ---- Keys --------------------------------------------------------------------------------------

  datatype KeyRequest = KeyRequest(
    teamId: Option<string>, maxBudget: Option<real>, resetDays: Option<nat>, expiresInDays: Option<nat>)

  function Later(now: int, days: Option<nat>): Option<int> {
    if days.Some? then Some(now + days.value * DAY) else None
  }

  function NewKey(id: string, hash: string, request: KeyRequest, now: int): VirtualKey {
    VirtualKey(id, hash, request.teamId, request.maxBudget, request.resetDays, 0.0, Later(now, request.resetDays),
               Later(now, request.expiresInDays), None, true, NOTHING)
  }

  /** `generate_key`, given the identifier and the hash of the raw key it draws. */
  function GenerateKey(l: Ledger, id: string, hash: string, request: KeyRequest, now: int)
    : (Ledger, Result<(), StoreError>)
  {
    CreateKey(l, NewKey(id, hash, request, now))
  }

  datatype KeyError = Expired | Revoked | BudgetExceeded

  /** `validate_key`, given the hash of the raw key. */
  function Validate(l: Ledger, hash: string, now: int): Result<Option<VirtualKey>, KeyError> {
    match KeyByHash(l, hash)
    case None => Ok(None)
    case Some(key) =>
      if !key.isActive then Err(Revoked)
      else if key.expiresAt.Some? && now > key.expiresAt.value then Err(Expired)
      else if key.maxBudget.Some? && key.budgetSpent >= key.maxBudget.value then Err(BudgetExceeded)
      else Ok(Some(key))
  }

  predicate Accepts(l: Ledger, hash: string, now: int) {
    var r := Validate(l, hash, now);
    r.Ok? && r.value.Some?
  }

  function RevokeKey(l: Ledger, id: string): (Ledger, bool) {
    if id in l.keys then (l.(keys := l.keys[id := l.keys[id].(isActive := false)]), true) else (l, false)
  }

  // ---- Teams -------------------------------------------------------------------------------------

  datatype TeamError = TeamNotFound | KeyNotFound | AlreadyMember

  function CreateTeam(l: Ledger, id: string, maxBudget: Option<real>): (Ledger, Result<(), StoreError>) {
    StoreTeam(l, Team(id, maxBudget, 0.0, []))
  }

  function AddMember(l: Ledger, teamId: string, keyId: string): (Ledger, Result<(), TeamError>) {
    if keyId !in l.keys then (l, Err(KeyNotFound))
    else if teamId !in l.teams then (l, Err(TeamNotFound))
    else if keyId in l.teams[teamId].members then (l, Err(AlreadyMember))
    else
      var key, team := l.keys[keyId], l.teams[teamId];
      (l.(teams := l.teams[teamId := team.(members := team.members + [keyId])],
          keys := l.keys[keyId := key.(teamId := Some(teamId))]),
       Ok(()))
  }

  /** The key's team is cleared whichever team it is in; if the key is gone, only the list changes. */
  function RemoveMember(l: Ledger, teamId: string, keyId: string): (Ledger, Result<(), TeamError>) {
    if teamId !in l.teams then (l, Err(TeamNotFound))
    else if keyId !in l.teams[teamId].members then (l, Err(KeyNotFound))
    else
      var team := l.teams[teamId];
      var rest := l.(teams := l.teams[teamId := team.(members := Without(team.members, keyId))]);
      if keyId in l.keys
      then (rest.(keys := l.keys[keyId := l.keys[keyId].(teamId := None)]), Ok(()))
      else (rest, Ok(()))
  }

  // ---- Budgets -----------------------------------------------------------------------------------

  datatype BudgetError =
    | KeyBudgetExceeded(spent: real, limit: real) | TeamBudgetExceeded(spent: real, limit: real) | NoSuchKey

  function CheckBudget(l: Ledger, key: VirtualKey): Result<(), BudgetError> {
    if key.maxBudget.Some? && key.budgetSpent >= key.maxBudget.value then
      Err(KeyBudgetExceeded(key.budgetSpent, key.maxBudget.value))
    else if key.teamId.Some? && key.teamId.value in l.teams then
      var team := l.teams[key.teamId.value];
      if team.maxBudget.Some? && team.budgetSpent >= team.maxBudget.value
      then Err(TeamBudgetExceeded(team.budgetSpent, team.maxBudget.value))
      else Ok(())
    else Ok(())
  }

  /** One answered request; the cost is what the cost calculator says. */
  datatype Usage = Usage(model: string, provider: string, tokensIn: nat, tokensOut: nat, cost: real)

  function RecordOf(keyId: string, teamId: Option<string>, u: Usage): SpendRecord {
    SpendRecord(keyId, teamId, u.model, u.provider, u.tokensIn, u.tokensOut, u.cost)
  }

  function Charge(key: VirtualKey, u: Usage, now: int): VirtualKey {
    key.(lifetime := Totals(key.lifetime.requests + 1, key.lifetime.tokensIn + u.tokensIn,
                            key.lifetime.tokensOut + u.tokensOut, key.lifetime.spend + u.cost),
         budgetSpent := key.budgetSpent + u.cost,
         lastUsedAt := Some(now))
  }

  function ChargeTeam(teams: map<string, Team>, id: Option<string>, cost: real): map<string, Team> {
    if id.Some? && id.value in teams
    then teams[id.value := teams[id.value].(budgetSpent := teams[id.value].budgetSpent + cost)] else teams
  }

  function RecordUsage(l: Ledger, keyId: string, u: Usage, now: int): (Ledger, Result<real, BudgetError>) {
    if keyId !in l.keys then (l, Err(NoSuchKey))
    else
      var key := l.keys[keyId];
      (l.(keys := l.keys[keyId := Charge(key, u, now)],
          teams := ChargeTeam(l.teams, key.teamId, u.cost),
          log := l.log + [RecordOf(keyId, key.teamId, u)]),
       Ok(u.cost))
  }

  predicate WindowOver(key: VirtualKey, now: int) {
    key.resetAt.Some? && key.resetDays.Some? && now >= key.resetAt.value
  }

  function ResetKey(key: VirtualKey, now: int): VirtualKey {
    if WindowOver(key, now)
    then key.(budgetSpent := 0.0, resetAt := Later(now, key.resetDays)) else key
  }

  function ResetExpired(l: Ledger, now: int): Ledger {
    l.(keys := map id | id in l.keys :: ResetKey(l.keys[id], now))
  }

  // ---- Runs --------------------------------------------------------------------------------------

  datatype Op =
    | DoGenerateKey(id: string, hash: string, request: KeyRequest, now: int)
    | DoRevokeKey(id: string)
    | DoDeleteKey(id: string)
    | DoCreateTeam(id: string, maxBudget: Option<real>)
    | DoDeleteTeam(id: string)
    | DoAddMember(teamId: string, id: string)
    | DoRemoveMember(teamId: string, id: string)
    | DoRecordUsage(id: string, usage: Usage, now: int)
    | DoResetExpired(now: int)

  function Apply(l: Ledger, op: Op): Ledger {
    match op
    case DoGenerateKey(id, hash, request, now) => GenerateKey(l, id, hash, request, now).0
    case DoRevokeKey(id) => RevokeKey(l, id).0
    case DoDeleteKey(id) => DeleteKey(l, id).0
    case DoCreateTeam(id, maxBudget) => CreateTeam(l, id, maxBudget).0
    case DoDeleteTeam(id) => DeleteTeam(l, id).0
    case DoAddMember(teamId, id) => AddMember(l, teamId, id).0
    case DoRemoveMember(teamId, id) => RemoveMember(l, teamId, id).0
    case DoRecordUsage(id, usage, now) => RecordUsage(l, id, usage, now).0
    case DoResetExpired(now) => ResetExpired(l, now)
  }

  function Run(ops: seq<Op>): Ledger {
    if |ops| == 0 then EMPTY else Apply(Run(ops[..|ops| - 1]), ops[|ops| - 1])
  }

  function TeamNames(teamId: Option<string>): set<string> {
    if teamId.Some? then {teamId.value} else {}
  }

  /** Identifiers and hashes a call mentions. */
  function NamesIn(op: Op): set<string> {
    match op
    case DoGenerateKey(id, hash, request, _) => {id, hash} + TeamNames(request.teamId)
    case DoCreateTeam(id, _) => {id}
    case DoAddMember(teamId, id) => {teamId, id}
    case _ => {}
  }

  function Used(ops: seq<Op>): set<string> {
    if |ops| == 0 then {} else Used(ops[..|ops| - 1]) + NamesIn(ops[|ops| - 1])
  }

  /** The identifiers and the hash a call draws at random have not been seen before. */
  predicate Fresh(op: Op, used: set<string>) {
    match op
    case DoGenerateKey(id, hash, request, _) => id !in used && hash !in used && request.teamId != Some(id)
    case DoCreateTeam(id, _) => id !in used
    case _ => true
  }

  predicate FreshRun(ops: seq<Op>) {
    |ops| == 0 || (FreshRun(ops[..|ops| - 1]) && Fresh(ops[|ops| - 1], Used(ops[..|ops| - 1])))
  }

  // ---- What every run keeps ----------------------------------------------------------------------

  predicate KeyNamesUsed(l: Ledger, used: set<string>) {
    && l.keys.Keys <= used && l.hashIndex.Keys <= used && l.teams.Keys <= used
    && forall id | id in l.keys :: TeamNames(l.keys[id].teamId) <= used
  }

  predicate LogNamesUsed(l: Ledger, used: set<string>) {
    forall i | 0 <= i < |l.log| :: l.log[i].keyId in used && TeamNames(l.log[i].teamId) <= used
  }

  predicate NamesUsed(l: Ledger, used: set<string>) {
    KeyNamesUsed(l, used) && LogNamesUsed(l, used)
  }

  /** The hash index and a scan of the keys agree. */
  predicate Indexed(l: Ledger) {
    && (forall h | h in l.hashIndex :: l.hashIndex[h] in l.keys && l.keys[l.hashIndex[h]].keyHash == h)
    && (forall id | id in l.keys ::
         l.keys[id].id == id && l.keys[id].keyHash in l.hashIndex && l.hashIndex[l.keys[id].keyHash] == id)
  }

  predicate KeysBalanced(l: Ledger) {
    forall id | id in l.keys :: l.keys[id].lifetime == Sum(l.log, OfKey(id))
  }

  predicate TeamsBalanced(l: Ledger) {
    forall id | id in l.teams :: l.teams[id].id == id && l.teams[id].budgetSpent == Sum(l.log, OfTeam(id)).spend
  }

  predicate Inv(l: Ledger, used: set<string>) {
    NamesUsed(l, used) && Indexed(l) && KeysBalanced(l) && TeamsBalanced(l)
  }

  lemma NamesStayUsed(l: Ledger, used: set<string>, op: Op)
    requires NamesUsed(l, used)
    ensures NamesUsed(Apply(l, op), used + NamesIn(op))
  {
    hide Apply, NamesIn, KeyNamesUsed, LogNamesUsed;
    KeyNamesStayUsed(l, used, op);
    LogNamesStayUsed(l, used, op);
  }

  lemma KeyNamesStayUsed(l: Ledger, used: set<string>, op: Op)
    requires KeyNamesUsed(l, used)
    ensures KeyNamesUsed(Apply(l, op), used + NamesIn(op))
  {
    if op.DoRecordUsage? {
      if op.id in l.keys {
        assert ChargeTeam(l.teams, l.keys[op.id].teamId, op.usage.cost).Keys == l.teams.Keys;
      }
    }
  }

  lemma LogNamesStayUsed(l: Ledger, used: set<string>, op: Op)
    requires NamesUsed(l, used)
    ensures LogNamesUsed(Apply(l, op), used + NamesIn(op))
  {
  }

  /** The same keys under the same hashes, whatever else changed. */
  predicate SameIdentities(l: Ledger, m: Ledger) {
    && m.keys.Keys == l.keys.Keys && m.hashIndex == l.hashIndex
    && forall id | id in l.keys :: m.keys[id].id == l.keys[id].id && m.keys[id].keyHash == l.keys[id].keyHash
  }

  /** Only creating and deleting a key touch the index, and nothing else touches identities. */
  lemma IdentitiesKept(l: Ledger, op: Op)
    requires !op.DoGenerateKey? && !op.DoDeleteKey?
    ensures SameIdentities(l, Apply(l, op))
  {
  }

  lemma StaysIndexed(l: Ledger, used: set<string>, op: Op)
    requires NamesUsed(l, used) && Indexed(l) && Fresh(op, used)
    ensures Indexed(Apply(l, op))
  {
    if op.DoGenerateKey? {
      NewKeyIndexed(l, op);
    } else if op.DoDeleteKey? {
      DeletedKeyUnindexed(l, op.id);
    } else {
      hide Apply;
      IdentitiesKept(l, op);
    }
  }

  lemma NewKeyIndexed(l: Ledger, op: Op)
    requires Indexed(l) && op.DoGenerateKey? && op.id !in l.keys && op.hash !in l.hashIndex
    ensures Indexed(Apply(l, op))
  {
  }

  lemma DeletedKeyUnindexed(l: Ledger, id: string)
    requires Indexed(l)
    ensures Indexed(DeleteKey(l, id).0)
  {
  }

  lemma StaysBalanced(l: Ledger, used: set<string>, op: Op)
    requires Inv(l, used) && Fresh(op, used)
    ensures KeysBalanced(Apply(l, op))
  {
    hide Sum;
    if op.DoGenerateKey? {
      SumOfNoMatch(l.log, OfKey(op.id));
    } else if op.DoRecordUsage? && op.id in l.keys {
      forall id | id in l.keys
        ensures Apply(l, op).keys[id].lifetime == Sum(Apply(l, op).log, OfKey(id))
      {
        SumSnoc(l.log, RecordOf(op.id, l.keys[op.id].teamId, op.usage), OfKey(id));
      }
    }
  }

  lemma TeamsStayBalanced(l: Ledger, used: set<string>, op: Op)
    requires Inv(l, used) && Fresh(op, used)
    ensures TeamsBalanced(Apply(l, op))
  {
    hide Sum;
    if op.DoCreateTeam? {
      SumOfNoMatch(l.log, OfTeam(op.id));
    } else if op.DoRecordUsage? && op.id in l.keys {
      forall id | id in l.teams
        ensures Apply(l, op).teams[id].id == id
        ensures Apply(l, op).teams[id].budgetSpent == Sum(Apply(l, op).log, OfTeam(id)).spend
      {
        SumSnoc(l.log, RecordOf(op.id, l.keys[op.id].teamId, op.usage), OfTeam(id));
      }
    }
  }

  lemma {:induction false} RunsKeepInv(ops: seq<Op>)
    requires FreshRun(ops)
    ensures Inv(Run(ops), Used(ops))
  {
    hide Apply, Fresh, NamesIn, NamesUsed, Indexed, KeysBalanced, TeamsBalanced;
    if |ops| == 0 {
      EmptyBalanced();
    } else {
      var init, op := ops[..|ops| - 1], ops[|ops| - 1];
      RunsKeepInv(init);
      NamesStayUsed(Run(init), Used(init), op);
      StaysIndexed(Run(init), Used(init), op);
      StaysBalanced(Run(init), Used(init), op);
      TeamsStayBalanced(Run(init), Used(init), op);
    }
  }

  lemma EmptyBalanced()
    ensures Inv(EMPTY, {})
  {
  }

  /** Over every run, each key's lifetime counters are the count and sums of its spend records, and
      each team's spend is the sum of the records tagged with it. */
  lemma Conservation(ops: seq<Op>)
    requires FreshRun(ops)
    ensures var l := Run(ops);
      && (forall id | id in l.keys :: l.keys[id].lifetime == Sum(l.log, OfKey(id)))
      && (forall id | id in l.teams :: l.teams[id].budgetSpent == Sum(l.log, OfTeam(id)).spend)
  {
    RunsKeepInv(ops);
  }

  /** A lookup through the index returns exactly the key a scan for that hash finds. */
  lemma IndexAgreesWithScan(ops: seq<Op>, hash: string, key: VirtualKey)
    requires FreshRun(ops)
    ensures KeyByHash(Run(ops), hash) == Some(key) <==>
            exists id | id in Run(ops).keys :: Run(ops).keys[id] == key && key.keyHash == hash
    ensures KeyByHash(Run(ops), hash) == None <==>
            forall id | id in Run(ops).keys :: Run(ops).keys[id].keyHash != hash
  {
    RunsKeepInv(ops);
  }
}
