/** Model prices: glob patterns, the exact-name index, and the search for a price. */
module Costs {
  import opened Text

  // ---- Patterns --------------------------------------------------------------------------------------

  /** `glob_match_inner`: `*` stands for any characters, `?` for one. */
  predicate GlobMatch(pat: string, txt: string)
    decreases |pat| + |txt|
  {
    if |pat| == 0 then |txt| == 0
    else if pat[0] == '*' then GlobMatch(pat[1..], txt) || (|txt| > 0 && GlobMatch(pat, txt[1..]))
    else |txt| > 0 && (pat[0] == '?' || pat[0] == txt[0]) && GlobMatch(pat[1..], txt[1..])
  }

  /** A text one pattern character may stand for. */
  predicate StandsFor(c: char, piece: string) {
    match c
    case '*' => true
    case '?' => |piece| == 1
    case _ => piece == [c]
  }

  /** One piece of text for each pattern character. */
  predicate Pieces(pat: string, pieces: seq<string>) {
    |pieces| == |pat| && forall i | 0 <= i < |pat| :: StandsFor(pat[i], pieces[i])
  }

  /** The language of a pattern, declaratively. */
  ghost predicate InLanguage(pat: string, txt: string) {
    exists pieces :: Pieces(pat, pieces) && Concat(pieces) == txt
  }

  lemma {:induction false} MatchHasPieces(pat: string, txt: string) returns (pieces: seq<string>)
    requires GlobMatch(pat, txt)
    ensures Pieces(pat, pieces) && Concat(pieces) == txt
    decreases |pat| + |txt|
  {
    if |pat| == 0 {
      return [];
    }
    if pat[0] == '*' && !GlobMatch(pat[1..], txt) {
      var rest := MatchHasPieces(pat, txt[1..]);
      pieces := [[txt[0]] + rest[0]] + rest[1..];
      assert rest == [rest[0]] + rest[1..];
      assert Concat(pieces) == [txt[0]] + (rest[0] + Concat(rest[1..]));
    } else if pat[0] == '*' {
      var rest := MatchHasPieces(pat[1..], txt);
      pieces := [[]] + rest;
    } else {
      var rest := MatchHasPieces(pat[1..], txt[1..]);
      pieces := [[txt[0]]] + rest;
    }
  }

  lemma {:induction false} PiecesMatch(pat: string, pieces: seq<string>)
    requires Pieces(pat, pieces)
    ensures GlobMatch(pat, Concat(pieces))
    decreases |pat|
  {
    if |pat| > 0 {
      PiecesMatch(pat[1..], pieces[1..]);
      if pat[0] == '*' {
        StarAbsorbs(pat, pieces[0], Concat(pieces[1..]));
      } else {
        assert (pieces[0] + Concat(pieces[1..]))[1..] == Concat(pieces[1..]);
      }
    }
  }

  lemma {:induction false} StarAbsorbs(pat: string, skipped: string, txt: string)
    requires |pat| > 0 && pat[0] == '*' && GlobMatch(pat[1..], txt)
    ensures GlobMatch(pat, skipped + txt)
    decreases |skipped|
  {
    if |skipped| == 0 {
      assert skipped + txt == txt;
    } else {
      StarAbsorbs(pat, skipped[1..], txt);
      assert (skipped + txt)[1..] == skipped[1..] + txt;
    }
  }

  /** The matcher decides exactly the language of the pattern. */
  lemma GlobDecidesLanguage(pat: string, txt: string)
    ensures GlobMatch(pat, txt) <==> InLanguage(pat, txt)
  {
    hide GlobMatch;
    if GlobMatch(pat, txt) {
      var pieces := MatchHasPieces(pat, txt);
    }
    if InLanguage(pat, txt) {
      var pieces :| Pieces(pat, pieces) && Concat(pieces) == txt;
      PiecesMatch(pat, pieces);
    }
  }

  lemma PiecesOfParts(p: string, q: string, first: seq<string>, second: seq<string>)
    requires |first| == |p| && |second| == |q|
    ensures Pieces(p + q, first + second) <==> Pieces(p, first) && Pieces(q, second)
  {
    hide StandsFor;
    var pat, pieces := p + q, first + second;
    if Pieces(pat, pieces) {
      forall i | 0 <= i < |p| ensures StandsFor(p[i], first[i]) {
        assert pat[i] == p[i] && pieces[i] == first[i];
      }
      forall i | 0 <= i < |q| ensures StandsFor(q[i], second[i]) {
        assert pat[|p| + i] == q[i] && pieces[|p| + i] == second[i];
      }
    }
  }

  /** A concatenated pattern matches exactly the texts that split into a match of each part. */
  lemma GlobSplits(p: string, q: string, txt: string)
    ensures GlobMatch(p + q, txt) <==>
            exists i :: 0 <= i <= |txt| && GlobMatch(p, txt[..i]) && GlobMatch(q, txt[i..])
  {
    hide GlobMatch, Pieces;
    if GlobMatch(p + q, txt) {
      var i := SplitMatch(p, q, txt);
    }
    if i :| 0 <= i <= |txt| && GlobMatch(p, txt[..i]) && GlobMatch(q, txt[i..]) {
      JoinMatches(p, q, txt[..i], txt[i..]);
      assert txt == txt[..i] + txt[i..];
    }
  }

  lemma SplitMatch(p: string, q: string, txt: string) returns (i: nat)
    requires GlobMatch(p + q, txt)
    ensures i <= |txt| && GlobMatch(p, txt[..i]) && GlobMatch(q, txt[i..])
  {
    hide GlobMatch, StandsFor;
    var pieces := MatchHasPieces(p + q, txt);
    var first, second := pieces[..|p|], pieces[|p|..];
    assert pieces == first + second;
    PiecesOfParts(p, q, first, second);
    ConcatAppend(first, second);
    PiecesMatch(p, first);
    PiecesMatch(q, second);
    i := |Concat(first)|;
    assert txt[..i] == Concat(first) && txt[i..] == Concat(second);
  }

  lemma JoinMatches(p: string, q: string, a: string, b: string)
    requires GlobMatch(p, a) && GlobMatch(q, b)
    ensures GlobMatch(p + q, a + b)
  {
    hide GlobMatch, StandsFor;
    var first := MatchHasPieces(p, a);
    var second := MatchHasPieces(q, b);
    PiecesOfParts(p, q, first, second);
    ConcatAppend(first, second);
    PiecesMatch(p + q, first + second);
  }

  predicate HasWildcard(pat: string) {
    '*' in pat || '?' in pat
  }

  /** Without wildcards a pattern matches only itself. */
  lemma {:induction false} PlainMatchesItself(pat: string, txt: string)
    requires !HasWildcard(pat)
    ensures GlobMatch(pat, txt) <==> pat == txt
    decreases |pat|
  {
    if |pat| > 0 {
      assert pat == [pat[0]] + pat[1..];
      if |txt| > 0 {
        assert txt == [txt[0]] + txt[1..];
        PlainMatchesItself(pat[1..], txt[1..]);
      }
    }
  }

  // ---- The calculator --------------------------------------------------------------------------------

  datatype ModelCost = ModelCost(pattern: string, inputPer1m: real, outputPer1m: real)

  /** Entry `i` names exactly `model`. */
  predicate Names(cost: ModelCost, model: string) {
    !HasWildcard(cost.pattern) && cost.pattern == model
  }

  predicate Covers(cost: ModelCost, model: string) {
    HasWildcard(cost.pattern) && GlobMatch(cost.pattern, model)
  }

  /** The index holds, for each wildcard-free name, the last entry of that name. */
  predicate IndexOf(exact: map<string, nat>, costs: seq<ModelCost>) {
    && (forall model | model in exact ::
         exact[model] < |costs| && Names(costs[exact[model]], model) &&
         forall j | exact[model] < j < |costs| :: !Names(costs[j], model))
    && (forall j | 0 <= j < |costs| :: !HasWildcard(costs[j].pattern) ==> costs[j].pattern in exact)
  }

  /** The price of a model: the last entry with exactly its name, or else the first pattern that matches. */
  predicate PriceOf(costs: seq<ModelCost>, model: string, r: Option<ModelCost>) {
    if exists i :: 0 <= i < |costs| && Names(costs[i], model) then
      exists i :: 0 <= i < |costs| && Names(costs[i], model) && r == Some(costs[i]) &&
        forall j | i < j < |costs| :: !Names(costs[j], model)
    else if exists i :: 0 <= i < |costs| && Covers(costs[i], model) then
      exists i :: 0 <= i < |costs| && Covers(costs[i], model) && r == Some(costs[i]) &&
        forall j | 0 <= j < i :: !Covers(costs[j], model)
    else r == None
  }

  const MILLION: real := 1000000.0

  /** What a request costs at a price; nothing if there is none. */
  function Charge(price: Option<ModelCost>, tokensIn: nat, tokensOut: nat): real {
    if price.None? then 0.0
    else tokensIn as real / MILLION * price.value.inputPer1m + tokensOut as real / MILLION * price.value.outputPer1m
  }

  /** The cost of a request under a list of entries. */
  ghost predicate IsCost(costs: seq<ModelCost>, model: string, tokensIn: nat, tokensOut: nat, cost: real) {
    exists price :: PriceOf(costs, model, price) && cost == Charge(price, tokensIn, tokensOut)
  }

  method BuildExactIndex(costs: seq<ModelCost>) returns (exact: map<string, nat>)
    ensures IndexOf(exact, costs)
  {
    hide HasWildcard;
    exact := map[];
    for i := 0 to |costs|
      invariant IndexOf(exact, costs[..i])
    {
      var cost := costs[i];
      assert costs[..i + 1] == costs[..i] + [cost];
      if !HasWildcard(cost.pattern) {
        exact := exact[cost.pattern := i];
      }
    }
    assert costs[..|costs|] == costs;
  }

  class CostCalculator {
    var costs: seq<ModelCost>
    var exact: map<string, nat>

    ghost predicate Valid()
      reads this
    {
      IndexOf(exact, costs)
    }

    constructor (costs: seq<ModelCost>)
      ensures Valid() && this.costs == costs
    {
      var index := BuildExactIndex(costs);
      this.costs, exact := costs, index;
    }

    method AddCost(cost: ModelCost)
      requires Valid()
      modifies this
      ensures Valid() && costs == old(costs) + [cost]
    {
      hide HasWildcard;
      if !HasWildcard(cost.pattern) {
        exact := exact[cost.pattern := |costs|];
      }
      costs := costs + [cost];
    }

    method CalculateCost(model: string, tokensIn: nat, tokensOut: nat) returns (cost: real)
      requires Valid()
      ensures IsCost(costs, model, tokensIn, tokensOut, cost)
    {
      hide PriceOf;
      var price := FindCost(model);
      if price.Some? {
        var input := tokensIn as real / MILLION * price.value.inputPer1m;
        var output := tokensOut as real / MILLION * price.value.outputPer1m;
        cost := input + output;
      } else {
        cost := 0.0;
      }
      assert cost == Charge(price, tokensIn, tokensOut);
    }

    method FindCost(model: string) returns (r: Option<ModelCost>)
      requires Valid()
      ensures PriceOf(costs, model, r)
    {
      hide HasWildcard, GlobMatch;
      if model in exact {
        return Some(costs[exact[model]]);
      }
      for i := 0 to |costs|
        invariant forall j | 0 <= j < i :: !Covers(costs[j], model)
      {
        if HasWildcard(costs[i].pattern) && GlobMatch(costs[i].pattern, model) {
          return Some(costs[i]);
        }
      }
      return None;
    }
  }

  lemma ScaleNotNegative(tokens: nat, per1m: real)
    requires per1m >= 0.0
    ensures tokens as real / MILLION * per1m >= 0.0
  {
    assert tokens as real / MILLION >= 0.0;
  }

  /** Without negative prices, no request has a negative cost; and tokens can be charged together or
      apart. */
  lemma CostsAddUp(costs: seq<ModelCost>, model: string, in1: nat, out1: nat, in2: nat, out2: nat,
                   c1: real, c2: real, both: real)
    requires forall i | 0 <= i < |costs| :: costs[i].inputPer1m >= 0.0 && costs[i].outputPer1m >= 0.0
    requires IsCost(costs, model, in1, out1, c1) && IsCost(costs, model, in2, out2, c2)
    requires IsCost(costs, model, in1 + in2, out1 + out2, both)
    ensures c1 >= 0.0 && both == c1 + c2
  {
    hide PriceOf, Charge;
    var p1 :| PriceOf(costs, model, p1) && c1 == Charge(p1, in1, out1);
    var p2 :| PriceOf(costs, model, p2) && c2 == Charge(p2, in2, out2);
    var p :| PriceOf(costs, model, p) && both == Charge(p, in1 + in2, out1 + out2);
    PriceIsUnique(costs, model, p1, p2);
    PriceIsUnique(costs, model, p1, p);
    if p.Some? {
      PriceIsAnEntry(costs, model, p);
    }
    ChargesAdd(p, in1, out1, in2, out2);
  }

  lemma ChargesAdd(price: Option<ModelCost>, in1: nat, out1: nat, in2: nat, out2: nat)
    requires price.Some? ==> price.value.inputPer1m >= 0.0 && price.value.outputPer1m >= 0.0
    ensures Charge(price, in1, out1) >= 0.0
    ensures Charge(price, in1 + in2, out1 + out2) == Charge(price, in1, out1) + Charge(price, in2, out2)
  {
    if price.Some? {
      ScaleNotNegative(in1, price.value.inputPer1m);
      ScaleNotNegative(out1, price.value.outputPer1m);
      ScaleAdds(in1, in2, price.value.inputPer1m);
      ScaleAdds(out1, out2, price.value.outputPer1m);
    }
  }

  lemma ScaleAdds(a: nat, b: nat, per1m: real)
    ensures (a + b) as real / MILLION * per1m == a as real / MILLION * per1m + b as real / MILLION * per1m
  {
    assert (a + b) as real / MILLION == a as real / MILLION + b as real / MILLION;
  }

  lemma PriceIsAnEntry(costs: seq<ModelCost>, model: string, price: Option<ModelCost>)
    requires PriceOf(costs, model, price) && price.Some?
    ensures price.value in costs
  {
  }

  /** There is exactly one price, so the answer depends only on the entries in the order they were added. */
  lemma PriceIsUnique(costs: seq<ModelCost>, model: string, a: Option<ModelCost>, b: Option<ModelCost>)
    requires PriceOf(costs, model, a) && PriceOf(costs, model, b)
    ensures a == b
  {
    hide Names, Covers;
  }

  /** What the prices of an entry are for: a million tokens in cost the one, a million tokens out the other,
      and without an entry nothing costs anything. */
  lemma PricesSay(costs: seq<ModelCost>, model: string, price: Option<ModelCost>, input: real, output: real, any: real,
                  tokensIn: nat, tokensOut: nat)
    requires PriceOf(costs, model, price)
    requires IsCost(costs, model, 1000000, 0, input) && IsCost(costs, model, 0, 1000000, output)
    requires IsCost(costs, model, tokensIn, tokensOut, any)
    ensures price.Some? ==> input == price.value.inputPer1m && output == price.value.outputPer1m
    ensures price == None ==> any == 0.0
  {
    hide PriceOf;
    var p1 :| PriceOf(costs, model, p1) && input == Charge(p1, 1000000, 0);
    var p2 :| PriceOf(costs, model, p2) && output == Charge(p2, 0, 1000000);
    var p3 :| PriceOf(costs, model, p3) && any == Charge(p3, tokensIn, tokensOut);
    PriceIsUnique(costs, model, price, p1);
    PriceIsUnique(costs, model, price, p2);
    PriceIsUnique(costs, model, price, p3);
    assert 1000000 as real / MILLION == 1.0 && 0 as real / MILLION == 0.0;
  }

  lemma NamesAndCovers(cost: ModelCost, model: string)
    ensures Names(cost, model) <==> cost.pattern == model && '*' !in model && '?' !in model
    ensures Covers(cost, model) <==> ('*' in cost.pattern || '?' in cost.pattern) && InLanguage(cost.pattern, model)
  {
    hide InLanguage;
    GlobDecidesLanguage(cost.pattern, model);
  }

  /** An entry added for a wildcard-free name takes effect at once and touches no other name; a pattern
      added last never changes the price of a name that already has one. */
  lemma AddingCosts(
    costs: seq<ModelCost>, cost: ModelCost, model: string, before: Option<ModelCost>, now: Option<ModelCost>)
    requires PriceOf(costs, model, before) && PriceOf(costs + [cost], model, now)
    ensures
      now ==
      if (cost.pattern == model && '*' !in model && '?' !in model) ||
         (before == None && ('*' in cost.pattern || '?' in cost.pattern) && InLanguage(cost.pattern, model))
      then Some(cost) else before
  {
    hide Names, Covers, InLanguage;
    NamesAndCovers(cost, model);
    var all := costs + [cost];
    assert all[|costs|] == cost;
    assert forall i | 0 <= i < |costs| :: all[i] == costs[i];
  }
}
