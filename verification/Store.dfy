/** The in-memory store, the calls on top of it, and the spend report. */
module Store {
  import opened Text
  import opened AdminLedger
  import Costs

  /** What a spend report groups by. */
  datatype Dimension = ByModel | ByProvider | ByKey

  function NameOf(dim: Dimension, r: SpendRecord): string {
    match dim
    case ByModel => r.model
    case ByProvider => r.provider
    case ByKey => r.keyId
  }

  function GroupFilter(dim: Dimension, name: string): Filter {
    match dim
    case ByModel => OfModel(name)
    case ByProvider => OfProvider(name)
    case ByKey => OfKey(name)
  }

  datatype SpendReport = SpendReport(
    total: Totals, byModel: map<string, Totals>, byProvider: map<string, Totals>, byKey: map<string, Totals>)

  function GroupsOf(report: SpendReport, dim: Dimension): map<string, Totals> {
    match dim
    case ByModel => report.byModel
    case ByProvider => report.byProvider
    case ByKey => report.byKey
  }

  /** The records a report is about. */
  function Selected(log: seq<SpendRecord>, keyId: Option<string>): seq<SpendRecord> {
    if |log| == 0 then []
    else
      var rest, last := Selected(log[..|log| - 1], keyId), log[|log| - 1];
      if keyId.None? || last.keyId == keyId.value then rest + [last] else rest
  }

  function Names(records: seq<SpendRecord>, dim: Dimension): set<string> {
    set i | 0 <= i < |records| :: NameOf(dim, records[i])
  }

  /** One group for each name that occurs, holding the totals of the records with that name. */
  predicate Grouped(groups: map<string, Totals>, records: seq<SpendRecord>, dim: Dimension) {
    && groups.Keys == Names(records, dim)
    && forall name | name in groups :: groups[name] == Sum(records, GroupFilter(dim, name))
  }

  function AddTo(groups: map<string, Totals>, name: string, r: SpendRecord): map<string, Totals> {
    groups[name := Add(if name in groups then groups[name] else NOTHING, r)]
  }

  lemma GroupStep(groups: map<string, Totals>, records: seq<SpendRecord>, r: SpendRecord, dim: Dimension)
    requires Grouped(groups, records, dim)
    ensures Grouped(AddTo(groups, NameOf(dim, r), r), records + [r], dim)
  {
    hide Sum;
    var name := NameOf(dim, r);
    var next, all := AddTo(groups, name, r), records + [r];
    NamesSnoc(records, r, dim);
    if name !in groups {
      forall i | 0 <= i < |records| ensures !Matches(GroupFilter(dim, name), records[i]) {
        assert NameOf(dim, records[i]) in Names(records, dim);
      }
      SumOfNoMatch(records, GroupFilter(dim, name));
    }
    forall n | n in next ensures next[n] == Sum(all, GroupFilter(dim, n)) {
      SumSnoc(records, r, GroupFilter(dim, n));
    }
  }

  lemma NamesSnoc(records: seq<SpendRecord>, r: SpendRecord, dim: Dimension)
    ensures Names(records + [r], dim) == Names(records, dim) + {NameOf(dim, r)}
  {
    var all := records + [r];
    forall n | n in Names(records, dim) + {NameOf(dim, r)} ensures n in Names(all, dim) {
      if n == NameOf(dim, r) {
        assert all[|records|] == r;
      } else {
        var i :| 0 <= i < |records| && NameOf(dim, records[i]) == n;
        assert all[i] == records[i];
      }
    }
  }

  predicate Summarises(report: SpendReport, records: seq<SpendRecord>) {
    && report.total == Sum(records, AnyRecord)
    && Grouped(report.byModel, records, ByModel)
    && Grouped(report.byProvider, records, ByProvider)
    && Grouped(report.byKey, records, ByKey)
  }

  class InMemoryStore {
    var keys: map<string, VirtualKey>
    var hashIndex: map<string, string>
    var teams: map<string, Team>
    var spendLogs: seq<SpendRecord>

    ghost function State(): Ledger
      reads this
    {
      Ledger(keys, hashIndex, teams, spendLogs)
    }

    /** Every key is stored under its own identifier. */
    predicate Valid()
      reads this
    {
      && (forall id | id in keys :: keys[id].id == id)
      && (forall id | id in teams :: teams[id].id == id)
    }

    constructor ()
      ensures Valid() && State() == EMPTY
    {
      keys, hashIndex, teams, spendLogs := map[], map[], map[], [];
    }

    method CreateKey(key: VirtualKey) returns (r: Result<(), StoreError>)
      requires Valid()
      modifies this
      ensures Valid() && (State(), r) == AdminLedger.CreateKey(old(State()), key)
    {
      if key.id in keys {
        return Err(Duplicate);
      }
      hashIndex := hashIndex[key.keyHash := key.id];
      keys := keys[key.id := key];
      return Ok(());
    }

    method GetKeyById(id: string) returns (r: Option<VirtualKey>)
      ensures r == KeyById(State(), id)
    {
      r := if id in keys then Some(keys[id]) else None;
    }

    method GetKeyByHash(hash: string) returns (r: Option<VirtualKey>)
      ensures r == KeyByHash(State(), hash)
    {
      if hash !in hashIndex {
        return None;
      }
      r := GetKeyById(hashIndex[hash]);
    }

    /** All keys, each once, in no particular order. */
    method ListKeys() returns (all: seq<VirtualKey>)
      requires Valid()
      ensures Lists(all, keys)
    {
      all := [];
      var left := keys.Keys;
      while |left| > 0
        invariant left <= keys.Keys
        invariant Lists(all, keys - left)
      {
        var id :| id in left;
        OneMoreListed(all, keys, left, id);
        left := left - {id};
        all := all + [keys[id]];
      }
      assert keys - left == keys;
    }

    method UpdateKey(key: VirtualKey) returns (r: Result<(), StoreError>)
      requires Valid()
      modifies this
      ensures Valid() && (State(), r) == AdminLedger.UpdateKey(old(State()), key)
    {
      if key.id !in keys {
        return Err(NotFound);
      }
      keys := keys[key.id := key];
      return Ok(());
    }

    method DeleteKey(id: string) returns (r: bool)
      requires Valid()
      modifies this
      ensures Valid() && (State(), r) == AdminLedger.DeleteKey(old(State()), id)
    {
      r := id in keys;
      if r {
        var hash := keys[id].keyHash;
        keys := keys - {id};
        hashIndex := hashIndex - {hash};
      }
    }

    method CreateTeam(team: Team) returns (r: Result<(), StoreError>)
      requires Valid()
      modifies this
      ensures Valid() && (State(), r) == StoreTeam(old(State()), team)
    {
      if team.id in teams {
        return Err(Duplicate);
      }
      teams := teams[team.id := team];
      return Ok(());
    }

    method GetTeam(id: string) returns (r: Option<Team>)
      ensures r == if id in teams then Some(teams[id]) else None
    {
      r := if id in teams then Some(teams[id]) else None;
    }

    method UpdateTeam(team: Team) returns (r: Result<(), StoreError>)
      requires Valid()
      modifies this
      ensures Valid() && (State(), r) == AdminLedger.UpdateTeam(old(State()), team)
    {
      if team.id !in teams {
        return Err(NotFound);
      }
      teams := teams[team.id := team];
      return Ok(());
    }

    method DeleteTeam(id: string) returns (r: bool)
      requires Valid()
      modifies this
      ensures Valid() && (State(), r) == AdminLedger.DeleteTeam(old(State()), id)
    {
      r := id in teams;
      teams := teams - {id};
    }

    method RecordSpend(record: SpendRecord)
      requires Valid()
      modifies this`spendLogs
      ensures Valid() && spendLogs == old(spendLogs) + [record]
    {
      spendLogs := spendLogs + [record];
    }

    method GetSpendSummary(keyId: Option<string>) returns (report: SpendReport)
      ensures Summarises(report, Selected(spendLogs, keyId))
    {
      hide Sum, Grouped, NameOf, AddTo, Selected;
      var records := Selected(spendLogs, keyId);
      var total, byModel, byProvider, byKey := NOTHING, map[], map[], map[];
      NothingGrouped();
      for i := 0 to |records|
        invariant Summarises(SpendReport(total, byModel, byProvider, byKey), records[..i])
      {
        var r := records[i];
        assert records[..i + 1] == records[..i] + [r];
        GroupStep(byModel, records[..i], r, ByModel);
        GroupStep(byProvider, records[..i], r, ByProvider);
        GroupStep(byKey, records[..i], r, ByKey);
        SumSnoc(records[..i], r, AnyRecord);
        total := Add(total, r);
        byModel := AddTo(byModel, NameOf(ByModel, r), r);
        byProvider := AddTo(byProvider, NameOf(ByProvider, r), r);
        byKey := AddTo(byKey, NameOf(ByKey, r), r);
      }
      assert records[..|records|] == records;
      report := SpendReport(total, byModel, byProvider, byKey);
    }
  }

  lemma NothingGrouped()
    ensures forall dim :: Grouped(map[], [], dim)
    ensures Sum([], AnyRecord) == NOTHING
  {
  }

  predicate Lists(all: seq<VirtualKey>, keys: map<string, VirtualKey>) {
    && (forall i | 0 <= i < |all| :: all[i].id in keys && keys[all[i].id] == all[i])
    && (forall id | id in keys :: keys[id] in all)
    && (forall i, j | 0 <= i < j < |all| :: all[i].id != all[j].id)
  }

  lemma OneMoreListed(all: seq<VirtualKey>, keys: map<string, VirtualKey>, left: set<string>, id: string)
    requires left <= keys.Keys && id in left && keys[id].id == id && Lists(all, keys - left)
    ensures Lists(all + [keys[id]], keys - (left - {id}))
  {
    var more, rest := all + [keys[id]], keys - (left - {id});
    forall k | k in rest ensures rest[k] in more {
      if k == id {
        assert more[|all|] == keys[id];
      } else {
        assert k in keys - left;
      }
    }
  }

  // ---- Keys, teams and budgets on a store ------------------------------------------------------------

  method GenerateKey(store: InMemoryStore, id: string, hash: string, request: KeyRequest, now: int)
    returns (r: Result<(), StoreError>)
    requires store.Valid()
    modifies store
    ensures store.Valid() && (store.State(), r) == AdminLedger.GenerateKey(old(store.State()), id, hash, request, now)
  {
    var expiresAt := if request.expiresInDays.Some? then Some(now + request.expiresInDays.value * DAY) else None;
    var resetAt := if request.resetDays.Some? then Some(now + request.resetDays.value * DAY) else None;
    var key := VirtualKey(id, hash, request.teamId, request.maxBudget, request.resetDays, 0.0, resetAt, expiresAt,
                          None, true, NOTHING);
    r := store.CreateKey(key);
  }

  method ValidateKey(store: InMemoryStore, hash: string, now: int) returns (r: Result<Option<VirtualKey>, KeyError>)
    ensures r == Validate(store.State(), hash, now)
  {
    var found := store.GetKeyByHash(hash);
    if found.None? {
      return Ok(None);
    }
    var key := found.value;
    if !key.isActive {
      return Err(Revoked);
    }
    if key.expiresAt.Some? {
      if now > key.expiresAt.value {
        return Err(Expired);
      }
    }
    if key.maxBudget.Some? {
      if key.budgetSpent >= key.maxBudget.value {
        return Err(BudgetExceeded);
      }
    }
    return Ok(Some(key));
  }

  method RevokeKey(store: InMemoryStore, id: string) returns (r: bool)
    requires store.Valid()
    modifies store
    ensures store.Valid() && (store.State(), r) == AdminLedger.RevokeKey(old(store.State()), id)
  {
    var found := store.GetKeyById(id);
    if found.None? {
      return false;
    }
    var _ := store.UpdateKey(found.value.(isActive := false));
    return true;
  }

  method CreateTeam(store: InMemoryStore, id: string, maxBudget: Option<real>) returns (r: Result<(), StoreError>)
    requires store.Valid()
    modifies store
    ensures store.Valid() && (store.State(), r) == AdminLedger.CreateTeam(old(store.State()), id, maxBudget)
  {
    r := store.CreateTeam(Team(id, maxBudget, 0.0, []));
  }

  method AddMember(store: InMemoryStore, teamId: string, keyId: string) returns (r: Result<(), TeamError>)
    requires store.Valid()
    modifies store
    ensures store.Valid() && (store.State(), r) == AdminLedger.AddMember(old(store.State()), teamId, keyId)
  {
    var key := store.GetKeyById(keyId);
    if key.None? {
      return Err(KeyNotFound);
    }
    var team := store.GetTeam(teamId);
    if team.None? {
      return Err(TeamNotFound);
    }
    if keyId in team.value.members {
      return Err(AlreadyMember);
    }
    var _ := store.UpdateTeam(team.value.(members := team.value.members + [keyId]));
    var _ := store.UpdateKey(key.value.(teamId := Some(teamId)));
    return Ok(());
  }

  method RemoveMember(store: InMemoryStore, teamId: string, keyId: string) returns (r: Result<(), TeamError>)
    requires store.Valid()
    modifies store
    ensures store.Valid() && (store.State(), r) == AdminLedger.RemoveMember(old(store.State()), teamId, keyId)
  {
    var team := store.GetTeam(teamId);
    if team.None? {
      return Err(TeamNotFound);
    }
    var members := Without(team.value.members, keyId);
    if |members| == |team.value.members| {
      return Err(KeyNotFound);
    }
    var _ := store.UpdateTeam(team.value.(members := members));
    var key := store.GetKeyById(keyId);
    if key.Some? {
      var _ := store.UpdateKey(key.value.(teamId := None));
    }
    return Ok(());
  }

  method CheckBudget(store: InMemoryStore, key: VirtualKey) returns (r: Result<(), BudgetError>)
    ensures r == AdminLedger.CheckBudget(store.State(), key)
  {
    if key.maxBudget.Some? {
      if key.budgetSpent >= key.maxBudget.value {
        return Err(KeyBudgetExceeded(key.budgetSpent, key.maxBudget.value));
      }
    }
    if key.teamId.Some? {
      var team := store.GetTeam(key.teamId.value);
      if team.Some? && team.value.maxBudget.Some? {
        if team.value.budgetSpent >= team.value.maxBudget.value {
          return Err(TeamBudgetExceeded(team.value.budgetSpent, team.value.maxBudget.value));
        }
      }
    }
    return Ok(());
  }

  /** The cost is what the cost calculator says for the model and the tokens. */
  method RecordUsage(store: InMemoryStore, calculator: Costs.CostCalculator, keyId: string,
                     model: string, provider: string, tokensIn: nat, tokensOut: nat, now: int)
    returns (r: Result<real, BudgetError>)
    requires store.Valid() && calculator.Valid()
    modifies store
    ensures store.Valid()
    ensures exists cost ::
      && Costs.IsCost(calculator.costs, model, tokensIn, tokensOut, cost)
      && (store.State(), r) ==
         AdminLedger.RecordUsage(old(store.State()), keyId, Usage(model, provider, tokensIn, tokensOut, cost), now)
  {
    hide Costs.IsCost;
    var cost := calculator.CalculateCost(model, tokensIn, tokensOut);
    var found := store.GetKeyById(keyId);
    if found.None? {
      return Err(NoSuchKey);
    }
    var key, counters := found.value, found.value.lifetime;
    counters := counters.(requests := counters.requests + 1);
    counters := counters.(tokensIn := counters.tokensIn + tokensIn);
    counters := counters.(tokensOut := counters.tokensOut + tokensOut);
    counters := counters.(spend := counters.spend + cost);
    key := key.(lifetime := counters, budgetSpent := key.budgetSpent + cost, lastUsedAt := Some(now));
    var teamId := key.teamId;
    var _ := store.UpdateKey(key);
    if teamId.Some? {
      var team := store.GetTeam(teamId.value);
      if team.Some? {
        var _ := store.UpdateTeam(team.value.(budgetSpent := team.value.budgetSpent + cost));
      }
    }
    store.RecordSpend(SpendRecord(keyId, teamId, model, provider, tokensIn, tokensOut, cost));
    return Ok(cost);
  }

  /** The keys with those in `seen` already reset if their window is over. */
  function PartlyReset(keys: map<string, VirtualKey>, seen: set<string>, now: int): map<string, VirtualKey> {
    map id | id in keys :: if id in seen then ResetKey(keys[id], now) else keys[id]
  }

  function Ids(all: seq<VirtualKey>): set<string> {
    if |all| == 0 then {} else Ids(all[..|all| - 1]) + {all[|all| - 1].id}
  }

  /** Identifiers of the keys whose window is over. */
  function OverIds(all: seq<VirtualKey>, now: int): set<string> {
    if |all| == 0 then {}
    else OverIds(all[..|all| - 1], now) + (if WindowOver(all[|all| - 1], now) then {all[|all| - 1].id} else {})
  }

  method ResetExpiredBudgets(store: InMemoryStore, now: int) returns (count: nat)
    requires store.Valid()
    modifies store
    ensures store.Valid() && store.State() == ResetExpired(old(store.State()), now)
    ensures count == |set id | id in old(store.keys) && WindowOver(old(store.keys)[id], now)|
  {
    hide PartlyReset, Lists, Ids, OverIds, WindowOver, ResetKey;
    IdsOfNothing(now);
    var all := store.ListKeys();
    ghost var before := store.keys;
    count := 0;
    NoneReset(before, now);
    assert all[..0] == [];
    for i := 0 to |all|
      invariant store.Valid()
      invariant store.State() == old(store.State()).(keys := PartlyReset(before, Ids(all[..i]), now))
      invariant count == |OverIds(all[..i], now)|
    {
      var key := all[i];
      Unseen(all, before, i, now);
      OneMoreReset(before, Ids(all[..i]), key.id, now);
      OneMoreId(all, i, now);
      var reset := ResetOne(store, key, now);
      if reset {
        count := count + 1;
      }
    }
    assert all[..|all|] == all;
    AllReset(all, before, now);
  }

  /** The body of the loop: resets the key if its window is over. */
  method ResetOne(store: InMemoryStore, key: VirtualKey, now: int) returns (reset: bool)
    requires store.Valid() && key.id in store.keys && store.keys[key.id] == key
    modifies store
    ensures store.Valid()
    ensures store.State() == old(store.State()).(keys := old(store.keys)[key.id := ResetKey(key, now)])
    ensures reset == WindowOver(key, now)
  {
    reset := false;
    if key.resetAt.Some? && key.resetDays.Some? {
      if now >= key.resetAt.value {
        var _ := store.UpdateKey(key.(budgetSpent := 0.0, resetAt := Some(now + key.resetDays.value * DAY)));
        reset := true;
      }
    }
    assert !reset ==> store.keys == store.keys[key.id := key];
  }

  lemma IdsOfNothing(now: int)
    ensures Ids([]) == {} && OverIds([], now) == {}
  {
  }

  lemma OneMoreId(all: seq<VirtualKey>, i: nat, now: int)
    requires i < |all| && all[i].id !in OverIds(all[..i], now)
    ensures Ids(all[..i + 1]) == Ids(all[..i]) + {all[i].id}
    ensures |OverIds(all[..i + 1], now)| == |OverIds(all[..i], now)| + (if WindowOver(all[i], now) then 1 else 0)
  {
    assert all[..i + 1][..i] == all[..i];
  }

  lemma NoneReset(keys: map<string, VirtualKey>, now: int)
    ensures PartlyReset(keys, {}, now) == keys
  {
  }

  lemma {:induction false} IdsAre(all: seq<VirtualKey>, now: int, id: string)
    ensures id in Ids(all) <==> exists i :: 0 <= i < |all| && all[i].id == id
    ensures id in OverIds(all, now) <==> exists i :: 0 <= i < |all| && all[i].id == id && WindowOver(all[i], now)
  {
    hide WindowOver;
    if |all| > 0 {
      var init := all[..|all| - 1];
      IdsAre(init, now, id);
      assert forall i | 0 <= i < |init| :: init[i] == all[i];
      assert all[|all| - 1].id == id || (forall i | 0 <= i < |all| && all[i].id == id :: init[i] == all[i]);
    }
  }

  lemma Unseen(all: seq<VirtualKey>, keys: map<string, VirtualKey>, i: nat, now: int)
    requires Lists(all, keys) && i < |all|
    ensures all[i].id !in Ids(all[..i]) && all[i].id !in OverIds(all[..i], now)
    ensures all[i].id in keys && keys[all[i].id] == all[i]
  {
    IdsAre(all[..i], now, all[i].id);
  }

  lemma AllReset(all: seq<VirtualKey>, keys: map<string, VirtualKey>, now: int)
    requires Lists(all, keys) && forall id | id in keys :: keys[id].id == id
    ensures PartlyReset(keys, Ids(all), now) == map id | id in keys :: ResetKey(keys[id], now)
    ensures OverIds(all, now) == set id | id in keys && WindowOver(keys[id], now)
  {
    hide WindowOver, ResetKey;
    forall id ensures id in Ids(all) <==> id in keys
              ensures id in OverIds(all, now) <==> id in keys && WindowOver(keys[id], now)
    {
      IdsAre(all, now, id);
    }
  }

  lemma OneMoreReset(keys: map<string, VirtualKey>, seen: set<string>, id: string, now: int)
    requires id in keys
    ensures PartlyReset(keys, seen + {id}, now) == PartlyReset(keys, seen, now)[id := ResetKey(keys[id], now)]
    ensures id in PartlyReset(keys, seen, now)
    ensures id !in seen ==> PartlyReset(keys, seen, now)[id] == keys[id]
  {
  }

  // ---- The groups of a report partition its total ----------------------------------------------------

  function SumOver(names: seq<string>, groups: map<string, Totals>): Totals
    requires forall i | 0 <= i < |names| :: names[i] in groups
  {
    if |names| == 0 then NOTHING else Plus(SumOver(names[..|names| - 1], groups), groups[names[|names| - 1]])
  }

  function SumOfGroups(names: seq<string>, records: seq<SpendRecord>, dim: Dimension): Totals {
    if |names| == 0 then NOTHING
    else Plus(SumOfGroups(names[..|names| - 1], records, dim), Sum(records, GroupFilter(dim, names[|names| - 1])))
  }

  /** One more record is added to the group of its name and to no other. */
  lemma {:induction false} OneGroupGrows(names: seq<string>, records: seq<SpendRecord>, r: SpendRecord, dim: Dimension)
    requires Distinct(names)
    ensures SumOfGroups(names, records + [r], dim) ==
            if NameOf(dim, r) in names then Add(SumOfGroups(names, records, dim), r) else SumOfGroups(names, records, dim)
  {
    hide Sum;
    if |names| > 0 {
      var init, last := names[..|names| - 1], names[|names| - 1];
      assert names == init + [last];
      OneGroupGrows(init, records, r, dim);
      SumSnoc(records, r, GroupFilter(dim, last));
    }
  }

  lemma GroupsSnoc(names: seq<string>, name: string, records: seq<SpendRecord>, dim: Dimension)
    ensures SumOfGroups(names + [name], records, dim) ==
            Plus(SumOfGroups(names, records, dim), Sum(records, GroupFilter(dim, name)))
  {
    hide Sum, GroupFilter;
    assert (names + [name])[..|names|] == names;
  }

  lemma PlusNothing(t: Totals)
    ensures Plus(t, NOTHING) == t
  {
  }

  lemma NoNameNoGroup(names: seq<string>, records: seq<SpendRecord>, dim: Dimension)
    requires |names| == 0
    ensures SumOfGroups(names, records, dim) == NOTHING
  {
  }

  lemma {:induction false} NoRecordNoGroup(names: seq<string>, records: seq<SpendRecord>, dim: Dimension)
    requires |records| == 0
    ensures SumOfGroups(names, records, dim) == NOTHING
    decreases |names|
  {
    hide Sum, GroupFilter, SumOfGroups, Plus;
    PlusNothing(NOTHING);
    if |names| == 0 {
      NoNameNoGroup(names, records, dim);
    } else {
      var init, last := names[..|names| - 1], names[|names| - 1];
      assert names == init + [last];
      NoRecordNoGroup(init, records, dim);
      GroupsSnoc(init, last, records, dim);
      SumOfNoMatch(records, GroupFilter(dim, last));
    }
  }

  lemma {:induction false} GroupsCoverTotal(names: seq<string>, records: seq<SpendRecord>, dim: Dimension)
    requires Distinct(names)
    requires forall i | 0 <= i < |records| :: NameOf(dim, records[i]) in names
    ensures SumOfGroups(names, records, dim) == Sum(records, AnyRecord)
    decreases |records|
  {
    hide SumOfGroups;
    if |records| == 0 {
      NoRecordNoGroup(names, records, dim);
    } else {
      var init, last := records[..|records| - 1], records[|records| - 1];
      assert records == init + [last];
      assert NameOf(dim, records[|records| - 1]) in names;
      GroupsCoverTotal(names, init, dim);
      OneGroupGrows(names, init, last, dim);
      SumSnoc(init, last, AnyRecord);
    }
  }

  lemma {:induction false} SumOverIsSumOfGroups(
    names: seq<string>, groups: map<string, Totals>, records: seq<SpendRecord>, dim: Dimension)
    requires Grouped(groups, records, dim) && forall i | 0 <= i < |names| :: names[i] in groups
    ensures SumOver(names, groups) == SumOfGroups(names, records, dim)
  {
    hide Sum;
    if |names| > 0 {
      SumOverIsSumOfGroups(names[..|names| - 1], groups, records, dim);
      assert names[|names| - 1] in groups;
    }
  }

  /** However the groups of a dimension are listed, they add up to the report's total. */
  lemma GroupsPartition(report: SpendReport, records: seq<SpendRecord>, dim: Dimension, names: seq<string>)
    requires Summarises(report, records)
    requires Distinct(names) && forall name :: name in names <==> name in GroupsOf(report, dim)
    ensures SumOver(names, GroupsOf(report, dim)) == report.total
  {
    hide Sum;
    var groups := GroupsOf(report, dim);
    forall i | 0 <= i < |records| ensures NameOf(dim, records[i]) in names {
      assert NameOf(dim, records[i]) in Names(records, dim);
    }
    SumOverIsSumOfGroups(names, groups, records, dim);
    GroupsCoverTotal(names, records, dim);
  }

  /** A record of this key, model and provider, as far as they are given. */
  predicate IsOf(r: SpendRecord, keyId: Option<string>, model: Option<string>, provider: Option<string>) {
    && (keyId == None || r.keyId == keyId.value)
    && (model == None || r.model == model.value)
    && (provider == None || r.provider == provider.value)
  }

  /** Count and sums of such records. */
  function Totalled(
    records: seq<SpendRecord>, keyId: Option<string>, model: Option<string>, provider: Option<string>): Totals
  {
    if |records| == 0 then Totals(0, 0, 0, 0.0)
    else
      var t, r := Totalled(records[..|records| - 1], keyId, model, provider), records[|records| - 1];
      if IsOf(r, keyId, model, provider)
      then Totals(t.requests + 1, t.tokensIn + r.tokensIn, t.tokensOut + r.tokensOut, t.spend + r.cost)
      else t
  }

  lemma {:induction false} SelectedTotalled(
    log: seq<SpendRecord>, selected: Option<string>, f: Filter,
    keyId: Option<string>, model: Option<string>, provider: Option<string>)
    requires forall r: SpendRecord ::
      IsOf(r, keyId, model, provider) <==> (selected == None || r.keyId == selected.value) && Matches(f, r)
    ensures Sum(Selected(log, selected), f) == Totalled(log, keyId, model, provider)
  {
    if |log| > 0 {
      hide Sum, Matches, IsOf;
      var init, last := log[..|log| - 1], log[|log| - 1];
      SelectedTotalled(init, selected, f, keyId, model, provider);
      SumSnoc(Selected(init, selected), last, f);
    }
  }

  lemma {:induction false} SelectedAre(log: seq<SpendRecord>, keyId: Option<string>)
    ensures forall r :: r in Selected(log, keyId) <==> r in log && (keyId == None || r.keyId == keyId.value)
  {
    if |log| > 0 {
      SelectedAre(log[..|log| - 1], keyId);
      assert log == log[..|log| - 1] + [log[|log| - 1]];
    }
  }

  /** What a report says of the log, for one key or for all: the totals of its records, and for each model,
      provider and key that occurs in them, and for no other, the totals of the records of that name. */
  lemma ReportSays(log: seq<SpendRecord>, keyId: Option<string>, report: SpendReport, name: string)
    requires Summarises(report, Selected(log, keyId))
    ensures report.total == Totalled(log, keyId, None, None)
    ensures name in report.byModel <==>
            exists r | r in log :: r.model == name && (keyId == None || r.keyId == keyId.value)
    ensures name in report.byProvider <==>
            exists r | r in log :: r.provider == name && (keyId == None || r.keyId == keyId.value)
    ensures name in report.byKey <==> exists r | r in log :: r.keyId == name && (keyId == None || name == keyId.value)
    ensures name in report.byModel ==> report.byModel[name] == Totalled(log, keyId, Some(name), None)
    ensures name in report.byProvider ==> report.byProvider[name] == Totalled(log, keyId, None, Some(name))
    ensures name in report.byKey ==> report.byKey[name] == Totalled(log, Some(name), None, None)
  {
    hide Sum, Selected, Totalled;
    var records := Selected(log, keyId);
    SelectedAre(log, keyId);
    SelectedTotalled(log, keyId, AnyRecord, keyId, None, None);
    SelectedTotalled(log, keyId, OfModel(name), keyId, Some(name), None);
    SelectedTotalled(log, keyId, OfProvider(name), keyId, None, Some(name));
    if keyId == None || keyId == Some(name) {
      SelectedTotalled(log, keyId, OfKey(name), Some(name), None, None);
    }
    NamesOccur(records, ByModel, name);
    NamesOccur(records, ByProvider, name);
    NamesOccur(records, ByKey, name);
  }

  lemma NamesOccur(records: seq<SpendRecord>, dim: Dimension, name: string)
    ensures name in Names(records, dim) <==> exists r | r in records :: NameOf(dim, r) == name
  {
  }

  lemma {:induction false} SelectedAll(log: seq<SpendRecord>)
    ensures Selected(log, None) == log
  {
    if |log| > 0 {
      SelectedAll(log[..|log| - 1]);
      assert log == log[..|log| - 1] + [log[|log| - 1]];
    }
  }

  lemma {:induction false} SelectedSum(log: seq<SpendRecord>, id: string)
    ensures Sum(Selected(log, Some(id)), AnyRecord) == Sum(log, OfKey(id))
  {
    if |log| > 0 {
      hide Sum;
      var init, last := log[..|log| - 1], log[|log| - 1];
      assert log == init + [last];
      SelectedSum(init, id);
      SumSnoc(Selected(init, Some(id)), last, AnyRecord);
      SumSnoc(init, last, OfKey(id));
    }
  }

  /** Over every run, the report agrees with the counters kept on the keys: the whole report group by
      group, and a single key's report in its total. */
  lemma ReportAgreesWithCounters(ops: seq<Op>, id: string, whole: SpendReport, single: SpendReport)
    requires FreshRun(ops) && id in Run(ops).keys
    requires Summarises(whole, Selected(Run(ops).log, None))
    requires Summarises(single, Selected(Run(ops).log, Some(id)))
    ensures single.total == Run(ops).keys[id].lifetime
    ensures (if id in whole.byKey then whole.byKey[id] else NOTHING) == Run(ops).keys[id].lifetime
  {
    hide Run, FreshRun, Sum;
    var log := Run(ops).log;
    Conservation(ops);
    SelectedAll(log);
    SelectedSum(log, id);
    if id !in whole.byKey {
      forall i | 0 <= i < |log| ensures !Matches(OfKey(id), log[i]) {
        assert NameOf(ByKey, log[i]) in Names(log, ByKey);
      }
      SumOfNoMatch(log, OfKey(id));
    }
  }
}
