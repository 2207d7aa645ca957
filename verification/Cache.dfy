/** The bounded response cache: a map and the order in which its keys were inserted. */
module Cache {
  import opened Text

  datatype Entry<V> = Entry(value: V, cachedAt: nat, ttl: nat)

  predicate Expired<V>(e: Entry<V>, now: nat) {
    now - e.cachedAt > e.ttl
  }

  datatype Contents<V> = Contents(entries: map<string, Entry<V>>, order: seq<string>, max: nat)

  /** The order lists the keys of the map, each once, and the cache is within its size. */
  ghost predicate Inv<V>(c: Contents<V>) {
    && Distinct(c.order)
    && (forall k :: k in c.order <==> k in c.entries)
    && |c.order| == |c.entries|
    && |c.order| <= (if c.max > 1 then c.max else 1)
  }

  /** Keys of `m` that occur in `keys`. */
  function Keep<V>(m: map<string, Entry<V>>, keys: seq<string>): map<string, Entry<V>> {
    map k | k in m && k in keys :: m[k]
  }

  /** A lookup forgets an expired entry; it does not touch the order otherwise. */
  function AfterGet<V>(c: Contents<V>, key: string, now: nat): Contents<V> {
    if key in c.entries && Expired(c.entries[key], now)
    then c.(entries := c.entries - {key}, order := Without(c.order, key)) else c
  }

  function Lookup<V>(c: Contents<V>, key: string, now: nat): Option<Entry<V>> {
    if key in c.entries && !Expired(c.entries[key], now) then Some(c.entries[key]) else None
  }

  /** The keys other than `key` that stay when `key` is inserted: all of them, or all but the oldest
      if the cache was full, counting an entry about to be replaced. */
  function Survivors<V>(c: Contents<V>, key: string): seq<string> {
    var others := Without(c.order, key);
    if |c.entries| >= c.max && |others| > 0 then others[1..] else others
  }

  function AfterInsert<V>(c: Contents<V>, key: string, e: Entry<V>): Contents<V> {
    var stay := Survivors(c, key);
    Contents(Keep(c.entries, stay)[key := e], stay + [key], c.max)
  }

  // ---- One insertion -------------------------------------------------------------------------------

  lemma OthersAre<V>(c: Contents<V>, key: string)
    requires Inv(c)
    ensures var others := Without(c.order, key);
      && Distinct(others) && (forall k :: k in others <==> k in c.entries && k != key)
      && |others| == (if key in c.entries then |c.order| - 1 else |c.order|)
  {
    hide Distinct, Without;
    WithoutKeepsDistinct(c.order, key);
    forall k ensures k in Without(c.order, key) <==> k in c.order && k != key {
      WithoutHas(c.order, key, k);
    }
  }

  lemma {:induction false} SizeOfOrder<V>(m: map<string, Entry<V>>, order: seq<string>)
    requires Distinct(order) && forall k :: k in order <==> k in m
    ensures |m| == |order|
    decreases |order|
  {
    if |order| == 0 {
      assert m == map[];
    } else {
      var init, last := order[..|order| - 1], order[|order| - 1];
      var rest := m - {last};
      assert order == init + [last];
      assert m == rest[last := m[last]];
      SizeOfOrder(rest, init);
    }
  }

  class BoundedCache<V> {
    var entries: map<string, Entry<V>>
    var insertionOrder: seq<string>
    const maxEntries: nat

    ghost function State(): Contents<V>
      reads this
    {
      Contents(entries, insertionOrder, maxEntries)
    }

    constructor (maxEntries: nat)
      ensures Inv(State()) && entries == map[] && this.maxEntries == maxEntries
    {
      this.maxEntries := maxEntries;
      entries, insertionOrder := map[], [];
    }

    method Get(key: string, now: nat) returns (r: Option<Entry<V>>)
      requires Inv(State())
      modifies this
      ensures Inv(State())
      ensures State() == AfterGet(old(State()), key, now) && r == Lookup(old(State()), key, now)
    {
      if key in entries {
        if Expired(entries[key], now) {
          OthersAre(State(), key);
          entries := entries - {key};
          insertionOrder := Without(insertionOrder, key);
          SizeOfOrder(entries, insertionOrder);
          return None;
        }
      }
      r := if key in entries then Some(entries[key]) else None;
    }

    /** The eviction loop drops at most one key, the oldest. */
    method Insert(key: string, entry: Entry<V>)
      requires Inv(State())
      modifies this
      ensures Inv(State()) && State() == AfterInsert(old(State()), key, entry)
    {
      hide Distinct;
      ghost var c := State();
      OthersAre(c, key);
      if key in entries {
        insertionOrder := Without(insertionOrder, key);
      } else {
        WithoutAbsent(insertionOrder, key);
      }
      ghost var others := insertionOrder;
      ghost var dropped := 0;
      while |entries| >= maxEntries && |insertionOrder| > 0
        invariant 0 <= dropped <= 1 && dropped <= |others|
        invariant insertionOrder == others[dropped..]
        invariant entries == if dropped == 0 then c.entries else c.entries - {others[0]}
        invariant |entries| == |c.entries| - dropped
        invariant dropped == 1 ==> |c.entries| >= c.max
        decreases |insertionOrder|
      {
        assert dropped == 0;
        var oldest := insertionOrder[0];
        insertionOrder := insertionOrder[1..];
        entries := entries - {oldest};
        dropped := 1;
      }
      assert insertionOrder == Survivors(c, key);
      InsertKeeps(c, key, entry);
      KeptAre(c, key, entry, others, dropped);
      insertionOrder := insertionOrder + [key];
      entries := entries[key := entry];
    }
  }

  lemma KeptAre<V>(c: Contents<V>, key: string, e: Entry<V>, others: seq<string>, dropped: nat)
    requires Inv(c) && others == Without(c.order, key) && dropped <= 1 && dropped <= |others|
    requires Survivors(c, key) == others[dropped..]
    ensures (if dropped == 0 then c.entries else c.entries - {others[0]})[key := e] ==
            Keep(c.entries, others[dropped..])[key := e]
  {
    hide Distinct, Without, Inv;
    OthersAre(c, key);
    if dropped == 0 {
      assert others[0..] == others;
    } else {
      HeadAndTail(others);
    }
  }

  lemma HeadAndTail(xs: seq<string>)
    requires Distinct(xs) && |xs| > 0
    ensures forall k :: k in xs[1..] <==> k in xs && k != xs[0]
    ensures Distinct(xs[1..])
  {
    assert xs == [xs[0]] + xs[1..];
  }

  /** Inserting keeps the order a listing of the keys, within the size. */
  lemma InsertKeeps<V>(c: Contents<V>, key: string, e: Entry<V>)
    requires Inv(c)
    ensures Inv(AfterInsert(c, key, e))
  {
    hide Without;
    OthersAre(c, key);
    var stay, next := Survivors(c, key), AfterInsert(c, key, e);
    if |Without(c.order, key)| > 0 {
      HeadAndTail(Without(c.order, key));
    }
    SizeOfOrder(next.entries, next.order);
  }

  // ---- Whole runs ------------------------------------------------------------------------------------

  datatype Call<V> = DoGet(key: string, now: nat) | DoInsert(key: string, entry: Entry<V>)

  function After<V>(c: Contents<V>, call: Call<V>): Contents<V> {
    match call
    case DoGet(key, now) => AfterGet(c, key, now)
    case DoInsert(key, entry) => AfterInsert(c, key, entry)
  }

  function Run<V>(c: Contents<V>, calls: seq<Call<V>>): Contents<V> {
    if |calls| == 0 then c else After(Run(c, calls[..|calls| - 1]), calls[|calls| - 1])
  }

  function Empty<V>(max: nat): Contents<V> {
    Contents(map[], [], max)
  }

  lemma GetKeeps<V>(c: Contents<V>, key: string, now: nat)
    requires Inv(c)
    ensures Inv(AfterGet(c, key, now))
  {
    hide Distinct;
    OthersAre(c, key);
    if key in c.entries {
      SizeOfOrder(c.entries - {key}, Without(c.order, key));
    }
  }

  /** After any calls, the order is the duplicate-free listing of the keys and the size is bounded. */
  lemma {:induction false} RunsKeepInv<V>(c: Contents<V>, calls: seq<Call<V>>)
    requires Inv(c)
    ensures Inv(Run(c, calls)) && Run(c, calls).max == c.max
  {
    if |calls| > 0 {
      hide Inv;
      var init, call := calls[..|calls| - 1], calls[|calls| - 1];
      RunsKeepInv(c, init);
      if call.DoGet? {
        GetKeeps(Run(c, init), call.key, call.now);
      } else {
        InsertKeeps(Run(c, init), call.key, call.entry);
      }
    }
  }

  function LastInserted<V>(calls: seq<Call<V>>, key: string): Option<Entry<V>> {
    if |calls| == 0 then None
    else
      var last := calls[|calls| - 1];
      if last.DoInsert? && last.key == key then Some(last.entry) else LastInserted(calls[..|calls| - 1], key)
  }

  lemma {:induction false} HoldsLatest<V>(max: nat, calls: seq<Call<V>>, key: string)
    ensures var c := Run(Empty(max), calls);
      key in c.entries ==> LastInserted(calls, key) == Some(c.entries[key])
  {
    if |calls| > 0 {
      hide Without, Survivors, Expired;
      HoldsLatest(max, calls[..|calls| - 1], key);
    }
  }

  /** Every hit is the most recently inserted value for its key, and at most its time to live old. */
  lemma HitIsLatest<V>(max: nat, calls: seq<Call<V>>, key: string, now: nat)
    ensures var hit := Lookup(Run(Empty(max), calls), key, now);
      hit.Some? ==> LastInserted(calls, key) == hit && now <= hit.value.cachedAt + hit.value.ttl
  {
    hide Run;
    HoldsLatest(max, calls, key);
  }

  /** What a lookup finds and forgets: an entry older than its time to live is no hit and is gone from then
      on; otherwise the cache is as it was. */
  lemma LookupSays<V>(c: Contents<V>, key: string, now: nat)
    requires Inv(c)
    ensures
      if key in c.entries && now <= c.entries[key].cachedAt + c.entries[key].ttl then
        Lookup(c, key, now) == Some(c.entries[key]) && AfterGet(c, key, now) == c
      else
        && Lookup(c, key, now) == None && AfterGet(c, key, now).entries == c.entries - {key}
        && forall k :: k in AfterGet(c, key, now).order <==> k in c.order && k != key
  {
    hide Distinct, Without;
    OthersAre(c, key);
  }

  /** First in, first out: inserting `other` evicts `key` if and only if the cache is full, counting an
      entry about to be replaced, and `key` is the oldest besides `other`; lookups play no part. */
  lemma EvictsIff<V>(c: Contents<V>, other: string, e: Entry<V>, key: string)
    requires Inv(c) && key in c.entries && key != other
    ensures key !in AfterInsert(c, other, e).entries <==>
            |c.entries| >= c.max && Without(c.order, other)[..1] == [key]
  {
    hide Without, Distinct;
    var others := Without(c.order, other);
    OthersAre(c, other);
    assert key in others;
    HeadAndTail(others);
    assert others[..1] == [others[0]];
  }

  // ---- Survival --------------------------------------------------------------------------------------

  /** `key` holds `e`, and at most `behind` entries are newer. */
  ghost predicate Kept<V>(c: Contents<V>, key: string, e: Entry<V>, behind: nat) {
    key in c.entries && c.entries[key] == e && NearEnd(c.order, key, behind)
  }

  ghost predicate NearEnd(order: seq<string>, key: string, behind: nat) {
    exists p :: 0 <= p < |order| && order[p] == key && |order| - 1 - p <= behind
  }

  lemma NearEndWithout(order: seq<string>, other: string, key: string, behind: nat)
    requires Distinct(order) && other != key && NearEnd(order, key, behind)
    ensures NearEnd(Without(order, other), key, behind)
  {
    hide Without;
    if other in order {
      var p :| 0 <= p < |order| && order[p] == key && |order| - 1 - p <= behind;
      var i :| 0 <= i < |order| && order[i] == other;
      WithoutIsRemoveAt(order, i);
      assert RemoveAt(order, i)[if p < i then p else p - 1] == key;
    } else {
      WithoutAbsent(order, other);
    }
  }

  lemma NearEndSnoc(order: seq<string>, other: string, key: string, behind: nat)
    requires NearEnd(order, key, behind)
    ensures NearEnd(order + [other], key, behind + 1)
  {
    var p :| 0 <= p < |order| && order[p] == key && |order| - 1 - p <= behind;
    assert (order + [other])[p] == key;
  }

  lemma NearEndTail(order: seq<string>, key: string, behind: nat)
    requires NearEnd(order, key, behind) && behind + 1 < |order|
    ensures NearEnd(order[1..], key, behind)
  {
    var p :| 0 <= p < |order| && order[p] == key && |order| - 1 - p <= behind;
    assert order[1..][p - 1] == key;
  }

  lemma JustInserted<V>(c: Contents<V>, key: string, e: Entry<V>)
    ensures Kept(AfterInsert(c, key, e), key, e, 0)
  {
    var stay := Survivors(c, key);
    assert (stay + [key])[|stay|] == key;
  }

  /** An entry with few enough newer ones is not evicted by another key. */
  lemma OtherInserted<V>(c: Contents<V>, other: string, e2: Entry<V>, key: string, e: Entry<V>, behind: nat)
    requires Inv(c) && Kept(c, key, e, behind) && other != key
    requires behind + 2 < c.max || (behind + 1 < c.max && other !in c.entries)
    ensures Kept(AfterInsert(c, other, e2), key, e, behind + 1)
  {
    hide Without, NearEnd, Distinct;
    var others, stay := Without(c.order, other), Survivors(c, other);
    OthersAre(c, other);
    NearEndWithout(c.order, other, key, behind);
    if |c.entries| >= c.max && |others| > 0 {
      NearEndTail(others, key, behind);
    }
    NearEndSnoc(stay, other, key, behind);
  }

  lemma LookedUp<V>(c: Contents<V>, other: string, now: nat, key: string, e: Entry<V>, behind: nat)
    requires Inv(c) && Kept(c, key, e, behind) && (other == key ==> !Expired(e, now))
    ensures Kept(AfterGet(c, other, now), key, e, behind)
  {
    hide Without, NearEnd, Distinct;
    if other != key {
      NearEndWithout(c.order, other, key, behind);
    }
  }

  function Inserts<V>(calls: seq<Call<V>>): nat {
    if |calls| == 0 then 0 else Inserts(calls[..|calls| - 1]) + (if calls[|calls| - 1].DoInsert? then 1 else 0)
  }

  /** Every key inserted is absent at that moment. */
  predicate OnlyAbsent<V>(c: Contents<V>, calls: seq<Call<V>>) {
    |calls| == 0 ||
    (var init, last := calls[..|calls| - 1], calls[|calls| - 1];
     OnlyAbsent(c, init) && (last.DoInsert? ==> last.key !in Run(c, init).entries))
  }

  /** Calls that do not replace `key` and look it up no later than `now`. */
  predicate LeavesAlone<V>(calls: seq<Call<V>>, key: string, now: nat) {
    forall i | 0 <= i < |calls| :: calls[i].key == key ==> calls[i].DoGet? && calls[i].now <= now
  }

  lemma {:induction false} StaysKept<V>(c: Contents<V>, key: string, e: Entry<V>, more: seq<Call<V>>, now: nat)
    requires Inv(c) && Kept(c, key, e, 0) && LeavesAlone(more, key, now) && !Expired(e, now)
    requires Inserts(more) + 1 < c.max || (Inserts(more) < c.max && OnlyAbsent(c, more))
    ensures Kept(Run(c, more), key, e, Inserts(more))
  {
    if |more| > 0 {
      hide Inv, Kept, After;
      var init, call := more[..|more| - 1], more[|more| - 1];
      StaysKept(c, key, e, init, now);
      RunsKeepInv(c, init);
      OneMoreCall(Run(c, init), call, key, e, Inserts(init), now);
    }
  }

  lemma OneMoreCall<V>(c: Contents<V>, call: Call<V>, key: string, e: Entry<V>, behind: nat, now: nat)
    requires Inv(c) && Kept(c, key, e, behind) && !Expired(e, now)
    requires call.key == key ==> call.DoGet? && call.now <= now
    requires call.DoInsert? ==> behind + 2 < c.max || (behind + 1 < c.max && call.key !in c.entries)
    ensures Kept(After(c, call), key, e, if call.DoInsert? then behind + 1 else behind)
  {
    hide Inv, Kept;
    match call
    case DoGet(k, t) => LookedUp(c, k, t, key, e, behind);
    case DoInsert(k, e2) => OtherInserted(c, k, e2, key, e, behind);
  }

  /** With room for at least two entries, an entry at most its time to live old survives any `max - 2` later insertions of
      other keys, and `max - 1` if each of those keys is absent when it is inserted. */
  lemma Survives<V>(c: Contents<V>, key: string, e: Entry<V>, more: seq<Call<V>>, now: nat)
    requires Inv(c) && LeavesAlone(more, key, now) && now <= e.cachedAt + e.ttl
    requires Inserts(more) + 1 < c.max || (Inserts(more) < c.max && OnlyAbsent(AfterInsert(c, key, e), more))
    ensures Lookup(Run(AfterInsert(c, key, e), more), key, now) == Some(e)
  {
    hide AfterInsert, Run, OnlyAbsent, LeavesAlone, Inserts, Inv;
    InsertKeeps(c, key, e);
    SameMax(c, key, e);
    JustInserted(c, key, e);
    StaysKept(AfterInsert(c, key, e), key, e, more, now);
  }

  lemma SameMax<V>(c: Contents<V>, key: string, e: Entry<V>)
    ensures AfterInsert(c, key, e).max == c.max
  {
  }
}
