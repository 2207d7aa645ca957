/** The guardrail engine: which checks run on a request or a response, and what they do to it. */
module Guardrail {
  import opened Text

  datatype Verdict =
    | Pass
    | Block(guardrail: string, reason: string)
    | Modify(guardrail: string, content: string, reason: string)
    | Log(guardrail: string, findings: seq<string>)

  datatype Mode = PreCall | PostCall | Both

  datatype Action = BlockAction | RedactAction | LogOnlyAction

  /** What a check sees beside the content. */
  datatype Context = Context(model: string, clientId: Option<string>)

  type Check = (string, Context) -> Verdict

  datatype Entry = Entry(
    name: string, checkInput: Check, checkOutput: Check, mode: Mode, defaultOn: bool, action: Action)

  datatype Phase = Before | Answer

  function CheckWith(e: Entry, phase: Phase, content: string, ctx: Context): Verdict {
    if phase == Before then e.checkInput(content, ctx) else e.checkOutput(content, ctx)
  }

  predicate InPhase(m: Mode, phase: Phase) {
    m == Both || m == (if phase == Before then PreCall else PostCall)
  }

  /** A route that names guardrails, if only one, admits those alone. */
  predicate InScope(e: Entry, route: Option<seq<string>>) {
    route.Some? && |route.value| > 0 ==> e.name in route.value
  }

  predicate Selected(e: Entry, requested: Option<seq<string>>, route: Option<seq<string>>, phase: Phase) {
    && InPhase(e.mode, phase) && InScope(e, route)
    && (e.defaultOn || (requested.Some? && e.name in requested.value))
  }

  /** `active_entries`: those selected, in configuration order. */
  function Active(
    entries: seq<Entry>, requested: Option<seq<string>>, route: Option<seq<string>>, phase: Phase): seq<Entry>
  {
    if |entries| == 0 then []
    else
      var rest, last := Active(entries[..|entries| - 1], requested, route, phase), entries[|entries| - 1];
      if Selected(last, requested, route, phase) then rest + [last] else rest
  }

  /** Where a walk over the active entries stands. */
  datatype Walk = Walk(blocked: Option<Verdict>, content: string, applied: seq<string>)

  function Step(w: Walk, e: Entry, phase: Phase, ctx: Context): Walk {
    if w.blocked.Some? then w
    else
      var v := CheckWith(e, phase, w.content, ctx);
      if v.Block? && e.action == BlockAction then Walk(Some(v), w.content, w.applied + [e.name])
      else Walk(None, if v.Modify? then v.content else w.content, w.applied + [e.name])
  }

  function WalkOver(active: seq<Entry>, phase: Phase, content: string, ctx: Context): Walk {
    if |active| == 0 then Walk(None, content, [])
    else Step(WalkOver(active[..|active| - 1], phase, content, ctx), active[|active| - 1], phase, ctx)
  }

  function Reason(phase: Phase): string {
    if phase == Before then "content redacted by guardrails" else "output redacted by guardrails"
  }

  /** The engine's own verdict when nothing blocks. */
  function Summary(original: string, final: string, phase: Phase): Verdict {
    if final != original then Modify("engine", final, Reason(phase)) else Pass
  }

  function Run(
    entries: seq<Entry>, phase: Phase, content: string, ctx: Context,
    requested: Option<seq<string>>, route: Option<seq<string>>): (Verdict, seq<string>)
  {
    var w := WalkOver(Active(entries, requested, route, phase), phase, content, ctx);
    (if w.blocked.Some? then w.blocked.value else Summary(content, w.content, phase), w.applied)
  }

  method RunPreCall(
    entries: seq<Entry>, content: string, ctx: Context, requested: Option<seq<string>>, route: Option<seq<string>>)
    returns (verdict: Verdict, applied: seq<string>)
    ensures (verdict, applied) == Run(entries, Before, content, ctx, requested, route)
  {
    hide Selected;
    var active := Active(entries, requested, route, Before);
    applied := [];
    var current := content;
    for i := 0 to |active|
      invariant WalkOver(active[..i], Before, content, ctx) == Walk(None, current, applied)
    {
      assert active[..i + 1][..i] == active[..i];
      var entry := active[i];
      applied := applied + [entry.name];
      var v := entry.checkInput(current, ctx);
      match (v, entry.action) {
        case (Block(_, _), BlockAction) =>
          WalkStops(active, i + 1, Before, content, ctx);
          return v, applied;
        case (Block(_, _), RedactAction) =>
        case (Block(_, _), LogOnlyAction) =>
        case (Modify(_, redacted, _), _) =>
          current := redacted;
        case (Log(_, _), _) =>
        case (Pass, _) =>
      }
    }
    assert active[..|active|] == active;
    if current != content {
      return Modify("engine", current, "content redacted by guardrails"), applied;
    }
    return Pass, applied;
  }

  method RunPostCall(
    entries: seq<Entry>, content: string, ctx: Context, requested: Option<seq<string>>, route: Option<seq<string>>)
    returns (verdict: Verdict, applied: seq<string>)
    ensures (verdict, applied) == Run(entries, Answer, content, ctx, requested, route)
  {
    hide Selected;
    var active := Active(entries, requested, route, Answer);
    applied := [];
    var current := content;
    for i := 0 to |active|
      invariant WalkOver(active[..i], Answer, content, ctx) == Walk(None, current, applied)
    {
      assert active[..i + 1][..i] == active[..i];
      var entry := active[i];
      applied := applied + [entry.name];
      var v := entry.checkOutput(current, ctx);
      match (v, entry.action) {
        case (Block(_, _), BlockAction) =>
          WalkStops(active, i + 1, Answer, content, ctx);
          return v, applied;
        case (Block(_, _), LogOnlyAction) =>
        case (Modify(_, redacted, _), _) =>
          current := redacted;
        case (Log(_, _), _) =>
        case _ =>
      }
    }
    assert active[..|active|] == active;
    if current != content {
      return Modify("engine", current, "output redacted by guardrails"), applied;
    }
    return Pass, applied;
  }

  /** Nothing happens after a block. */
  lemma {:induction false} WalkStops(active: seq<Entry>, i: nat, phase: Phase, content: string, ctx: Context)
    requires i <= |active| && WalkOver(active[..i], phase, content, ctx).blocked.Some?
    ensures WalkOver(active, phase, content, ctx) == WalkOver(active[..i], phase, content, ctx)
    decreases |active|
  {
    if i == |active| {
      assert active[..i] == active;
    } else {
      var init := active[..|active| - 1];
      assert init[..i] == active[..i];
      WalkStops(init, i, phase, content, ctx);
    }
  }

  // ---- Composition -----------------------------------------------------------------------------------

  lemma {:induction false} ActiveAppend(
    a: seq<Entry>, b: seq<Entry>, requested: Option<seq<string>>, route: Option<seq<string>>, phase: Phase)
    ensures Active(a + b, requested, route, phase) ==
            Active(a, requested, route, phase) + Active(b, requested, route, phase)
    decreases |b|
  {
    hide Selected;
    if |b| == 0 {
      assert a + b == a;
    } else {
      assert (a + b)[..|a + b| - 1] == a + b[..|b| - 1];
      ActiveAppend(a, b[..|b| - 1], requested, route, phase);
    }
  }

  lemma {:induction false} WalkAppend(a: seq<Entry>, b: seq<Entry>, phase: Phase, content: string, ctx: Context)
    ensures
      var first := WalkOver(a, phase, content, ctx);
      var second := WalkOver(b, phase, first.content, ctx);
      WalkOver(a + b, phase, content, ctx) ==
      if first.blocked.Some? then first else second.(applied := first.applied + second.applied)
    decreases |b|
  {
    hide CheckWith;
    if |b| == 0 {
      assert a + b == a;
    } else {
      assert (a + b)[..|a + b| - 1] == a + b[..|b| - 1];
      WalkAppend(a, b[..|b| - 1], phase, content, ctx);
    }
  }

  /** What goes on after a verdict that does not block. */
  function ContentAfter(v: Verdict, content: string): string {
    if v.Modify? then v.content else content
  }

  /** Running two lists of guardrails in one engine is running the first and, unless it blocks, the
      second on what the first made of the content. */
  lemma RunComposes(
    a: seq<Entry>, b: seq<Entry>, phase: Phase, content: string, ctx: Context,
    requested: Option<seq<string>>, route: Option<seq<string>>)
    ensures
      var (v1, applied1) := Run(a, phase, content, ctx, requested, route);
      var between := ContentAfter(v1, content);
      var (v2, applied2) := Run(b, phase, between, ctx, requested, route);
      Run(a + b, phase, content, ctx, requested, route) ==
      if v1.Block? then (v1, applied1)
      else (if v2.Block? then v2 else Summary(content, ContentAfter(v2, between), phase), applied1 + applied2)
  {
    hide Active, WalkOver;
    var first, second := Active(a, requested, route, phase), Active(b, requested, route, phase);
    ActiveAppend(a, b, requested, route, phase);
    WalkAppend(first, second, phase, content, ctx);
    BlockedByBlock(first, phase, content, ctx);
    BlockedByBlock(second, phase, WalkOver(first, phase, content, ctx).content, ctx);
  }

  lemma {:induction false} BlockedByBlock(active: seq<Entry>, phase: Phase, content: string, ctx: Context)
    ensures var w := WalkOver(active, phase, content, ctx);
      w.blocked.Some? ==> w.blocked.value.Block?
  {
    if |active| > 0 {
      BlockedByBlock(active[..|active| - 1], phase, content, ctx);
    }
  }

  // ---- A run by its checks -----------------------------------------------------------------------------

  /** `chosen` are the positions, in configuration order, of the guardrails of the phase and within the
      route's scope, if it has one, that are on by default or asked for. */
  ghost predicate AreChosen(
    chosen: seq<nat>, entries: seq<Entry>, phase: Phase, requested: Option<seq<string>>, route: Option<seq<string>>)
  {
    && (forall k | 0 <= k < |chosen| :: chosen[k] < |entries|)
    && (forall j, k | 0 <= j < k < |chosen| :: chosen[j] < chosen[k])
    && forall i: nat | i < |entries| ::
         var e := entries[i];
         i in chosen <==>
         && (e.mode == Both || (phase == Before && e.mode == PreCall) || (phase == Answer && e.mode == PostCall))
         && (route == None || route == Some([]) || e.name in route.value)
         && (e.defaultOn || (requested.Some? && e.name in requested.value))
  }

  /** A check gets `content`, does not block, and makes `next` of it. */
  predicate LetsPass(check: Check, action: Action, content: string, next: string, ctx: Context) {
    var v := check(content, ctx);
    && !(v.Block? && action == BlockAction)
    && next == if v.Modify? then v.content else content
  }

  /** The chosen guardrails handle `contents` one after the other: the first gets the first, and each of
      those passed gives the next what it made of it, and does not block. */
  ghost predicate Handle(
    chosen: seq<nat>, contents: seq<string>, entries: seq<Entry>, phase: Phase, content: string, ctx: Context)
    requires forall k | 0 <= k < |chosen| :: chosen[k] < |entries|
  {
    && 0 < |contents| <= |chosen| + 1 && contents[0] == content
    && forall k | 0 <= k < |contents| - 1 ::
         var e := entries[chosen[k]];
         LetsPass(if phase == Before then e.checkInput else e.checkOutput, e.action, contents[k], contents[k + 1], ctx)
  }

  /** What a run says and does, by its checks alone: either all chosen guardrails let the content pass, and
      the verdict is what they made of it; or one of them blocks, and its verdict is the answer. */
  lemma RunSays(
    entries: seq<Entry>, phase: Phase, content: string, ctx: Context,
    requested: Option<seq<string>>, route: Option<seq<string>>) returns (chosen: seq<nat>, contents: seq<string>)
    ensures AreChosen(chosen, entries, phase, requested, route)
    ensures Handle(chosen, contents, entries, phase, content, ctx)
    ensures
      var (verdict, applied) := Run(entries, phase, content, ctx, requested, route);
      var n := |contents| - 1;
      && (forall k | 0 <= k < |applied| :: k < |chosen| && applied[k] == entries[chosen[k]].name)
      && if n == |chosen| then
           && |applied| == n
           && verdict == (if contents[n] == content then Pass
                          else if phase == Before then Modify("engine", contents[n], "content redacted by guardrails")
                          else Modify("engine", contents[n], "output redacted by guardrails"))
         else
           var e := entries[chosen[n]];
           && |applied| == n + 1 && verdict.Block? && e.action == BlockAction
           && verdict == if phase == Before then e.checkInput(contents[n], ctx) else e.checkOutput(contents[n], ctx)
  {
    hide Active, WalkOver, AreChosen, Positions, LetsPass;
    var active := Active(entries, requested, route, phase);
    chosen := ChosenOf(entries, requested, route, phase);
    contents := ContentsOf(active, phase, content, ctx);
    PositionsAreChosen(chosen, entries, phase, requested, route);
    assert forall k | 0 <= k < |active| :: active[k] == entries[chosen[k]];
  }

  ghost predicate Positions(
    chosen: seq<nat>, entries: seq<Entry>, requested: Option<seq<string>>, route: Option<seq<string>>, phase: Phase)
  {
    && (forall k | 0 <= k < |chosen| :: chosen[k] < |entries|)
    && (forall j, k | 0 <= j < k < |chosen| :: chosen[j] < chosen[k])
    && forall i: nat | i < |entries| :: i in chosen <==> Selected(entries[i], requested, route, phase)
  }

  /** The entries at these positions. */
  function At(entries: seq<Entry>, chosen: seq<nat>): seq<Entry>
    requires forall k | 0 <= k < |chosen| :: chosen[k] < |entries|
  {
    seq(|chosen|, k requires 0 <= k < |chosen| => entries[chosen[k]])
  }

  lemma {:induction false} ChosenOf(
    entries: seq<Entry>, requested: Option<seq<string>>, route: Option<seq<string>>, phase: Phase)
    returns (chosen: seq<nat>)
    ensures Positions(chosen, entries, requested, route, phase)
    ensures forall k | 0 <= k < |chosen| :: chosen[k] < |entries|
    ensures Active(entries, requested, route, phase) == At(entries, chosen)
  {
    hide Active, Selected, Positions;
    if |entries| == 0 {
      assert entries == [];
      ActiveNothing(requested, route, phase);
      chosen := NoPositions(requested, route, phase);
    } else {
      var init, last := entries[..|entries| - 1], entries[|entries| - 1];
      var before := ChosenOf(init, requested, route, phase);
      assert entries == init + [last];
      ActiveAppend(init, [last], requested, route, phase);
      ActiveOne(last, requested, route, phase);
      chosen := More(before, |init|, Selected(last, requested, route, phase));
      MorePositions(before, init, last, requested, route, phase);
      AtMore(before, init, last, Selected(last, requested, route, phase));
    }
  }

  lemma NoPositions(requested: Option<seq<string>>, route: Option<seq<string>>, phase: Phase)
    returns (chosen: seq<nat>)
    ensures Positions(chosen, [], requested, route, phase) && chosen == []
  {
    chosen := [];
  }

  function More(chosen: seq<nat>, n: nat, selected: bool): seq<nat> {
    if selected then chosen + [n] else chosen
  }

  lemma MorePositions(chosen: seq<nat>, init: seq<Entry>, last: Entry,
                      requested: Option<seq<string>>, route: Option<seq<string>>, phase: Phase)
    requires Positions(chosen, init, requested, route, phase)
    ensures Positions(More(chosen, |init|, Selected(last, requested, route, phase)), init + [last],
                      requested, route, phase)
  {
    hide Selected;
    var more, all := More(chosen, |init|, Selected(last, requested, route, phase)), init + [last];
    forall i: nat | i < |all|
      ensures i in more <==> Selected(all[i], requested, route, phase)
    {
      if i < |init| {
        assert all[i] == init[i];
      }
    }
  }

  lemma AtMore(chosen: seq<nat>, init: seq<Entry>, last: Entry, selected: bool)
    requires forall k | 0 <= k < |chosen| :: chosen[k] < |init|
    ensures forall k | 0 <= k < |More(chosen, |init|, selected)| :: More(chosen, |init|, selected)[k] < |init + [last]|
    ensures At(init + [last], More(chosen, |init|, selected)) == At(init, chosen) + if selected then [last] else []
  {
  }

  lemma PositionsAreChosen(
    chosen: seq<nat>, entries: seq<Entry>, phase: Phase, requested: Option<seq<string>>, route: Option<seq<string>>)
    requires Positions(chosen, entries, requested, route, phase)
    ensures AreChosen(chosen, entries, phase, requested, route)
  {
  }

  function CheckOf(e: Entry, phase: Phase): Check {
    if phase == Before then e.checkInput else e.checkOutput
  }

  /** The same for the active entries. */
  ghost predicate Passed(active: seq<Entry>, contents: seq<string>, phase: Phase, content: string, ctx: Context) {
    && 0 < |contents| <= |active| + 1 && contents[0] == content
    && forall k | 0 <= k < |contents| - 1 ::
         LetsPass(CheckOf(active[k], phase), active[k].action, contents[k], contents[k + 1], ctx)
  }

  lemma {:induction false} ContentsOf(active: seq<Entry>, phase: Phase, content: string, ctx: Context)
    returns (contents: seq<string>)
    ensures Passed(active, contents, phase, content, ctx)
    ensures
      var w, n := WalkOver(active, phase, content, ctx), |contents| - 1;
      && (forall k | 0 <= k < |w.applied| :: k < |active| && w.applied[k] == active[k].name)
      && if n == |active| then w.blocked == None && w.content == contents[n] && |w.applied| == n
         else
           var v := CheckWith(active[n], phase, contents[n], ctx);
           w.blocked == Some(v) && v.Block? && active[n].action == BlockAction && |w.applied| == n + 1
  {
    hide WalkOver, Passed;
    contents := [content];
    FirstContent(active, phase, content, ctx);
    if |active| == 0 {
      assert active == [];
      NothingBlocks(phase, content, ctx);
    } else {
      var init, last := active[..|active| - 1], active[|active| - 1];
      contents := ContentsOf(init, phase, content, ctx);
      assert active == init + [last];
      WalkSnoc(init, last, phase, content, ctx);
      var w := WalkOver(init, phase, content, ctx);
      ghost var before := contents;
      if w.blocked.None? {
        var v := CheckWith(last, phase, w.content, ctx);
        if !(v.Block? && last.action == BlockAction) {
          contents := contents + [if v.Modify? then v.content else w.content];
        }
      }
      PassedOn(init, last, before, contents, phase, content, ctx);
    }
  }

  lemma FirstContent(active: seq<Entry>, phase: Phase, content: string, ctx: Context)
    ensures Passed(active, [content], phase, content, ctx)
  {
  }

  lemma PassedOn(init: seq<Entry>, last: Entry, before: seq<string>, contents: seq<string>,
                 phase: Phase, content: string, ctx: Context)
    requires Passed(init, before, phase, content, ctx)
    requires
      || contents == before
      || (|before| == |init| + 1 &&
          var c := before[|init|];
          |contents| == |before| + 1 && contents[..|before|] == before &&
          LetsPass(CheckOf(last, phase), last.action, c, contents[|before|], ctx))
    ensures Passed(init + [last], contents, phase, content, ctx)
  {
    hide LetsPass;
    var all := init + [last];
    forall k | 0 <= k < |contents| - 1
      ensures LetsPass(CheckOf(all[k], phase), all[k].action, contents[k], contents[k + 1], ctx)
    {
      if k < |before| - 1 {
        assert contents[k] == before[k] && contents[k + 1] == before[k + 1] && all[k] == init[k];
      }
    }
  }

  // ---- What is applied -------------------------------------------------------------------------------

  function NamesOf(entries: seq<Entry>): seq<string> {
    seq(|entries|, i requires 0 <= i < |entries| => entries[i].name)
  }

  /** The guardrails applied are a prefix of the active ones, in configuration order: all of them,
      unless the last one applied blocks. */
  lemma {:induction false} AppliedIsPrefix(active: seq<Entry>, phase: Phase, content: string, ctx: Context)
    ensures
      var w := WalkOver(active, phase, content, ctx);
      && w.applied <= NamesOf(active)
      && (w.blocked.None? ==> w.applied == NamesOf(active))
      && (w.blocked.Some? ==> |w.applied| > 0 && active[|w.applied| - 1].action == BlockAction)
  {
    hide CheckWith;
    if |active| > 0 {
      AppliedIsPrefix(active[..|active| - 1], phase, content, ctx);
    }
  }

  /** How many active entries stand before entry `i`. */
  function Position(
    entries: seq<Entry>, i: nat, requested: Option<seq<string>>, route: Option<seq<string>>, phase: Phase): nat
    requires i < |entries|
  {
    |Active(entries[..i], requested, route, phase)|
  }

  lemma SelectedIsActive(
    entries: seq<Entry>, i: nat, requested: Option<seq<string>>, route: Option<seq<string>>, phase: Phase)
    requires i < |entries| && Selected(entries[i], requested, route, phase)
    ensures
      var active, k := Active(entries, requested, route, phase), Position(entries, i, requested, route, phase);
      k < |active| && active[k] == entries[i]
  {
    hide Active, Selected;
    var before, e, after := entries[..i], entries[i], entries[i + 1..];
    assert entries == before + ([e] + after);
    ActiveAppend(before, [e] + after, requested, route, phase);
    ActiveAppend([e], after, requested, route, phase);
    ActiveOne(e, requested, route, phase);
  }

  lemma ActiveOne(e: Entry, requested: Option<seq<string>>, route: Option<seq<string>>, phase: Phase)
    ensures Active([e], requested, route, phase) == if Selected(e, requested, route, phase) then [e] else []
  {
    hide Selected;
    assert [e][..0] == [];
  }

  /** No request list keeps a guardrail that is on by default from running within the route's scope,
      unless one before it blocks. */
  lemma DefaultOnRuns(
    entries: seq<Entry>, i: nat, phase: Phase, content: string, ctx: Context,
    requested: Option<seq<string>>, route: Option<seq<string>>)
    requires i < |entries| && entries[i].defaultOn && InPhase(entries[i].mode, phase) && InScope(entries[i], route)
    ensures
      var (verdict, applied) := Run(entries, phase, content, ctx, requested, route);
      var active, k := Active(entries, requested, route, phase), Position(entries, i, requested, route, phase);
      && k < |active| && active[k] == entries[i]
      && (if k < |applied| then applied[k] == entries[i].name
          else verdict.Block? && 0 < |applied| <= k && active[|applied| - 1].action == BlockAction)
  {
    hide Active, WalkOver, NamesOf, Position;
    var active := Active(entries, requested, route, phase);
    SelectedIsActive(entries, i, requested, route, phase);
    AppliedIsPrefix(active, phase, content, ctx);
    BlockedByBlock(active, phase, content, ctx);
    NamesAre(active, Position(entries, i, requested, route, phase));
  }

  lemma NamesAre(entries: seq<Entry>, k: nat)
    requires k < |entries|
    ensures |NamesOf(entries)| == |entries| && NamesOf(entries)[k] == entries[k].name
  {
  }

  lemma {:induction false} ActiveAreSelected(
    entries: seq<Entry>, requested: Option<seq<string>>, route: Option<seq<string>>, phase: Phase, name: string)
    requires name in NamesOf(Active(entries, requested, route, phase))
    ensures exists i :: 0 <= i < |entries| && entries[i].name == name && Selected(entries[i], requested, route, phase)
  {
    hide Selected;
    var init, last, active := entries[..|entries| - 1], entries[|entries| - 1], Active(entries, requested, route, phase);
    var j :| 0 <= j < |active| && NamesOf(active)[j] == name;
    if Selected(last, requested, route, phase) && j == |active| - 1 {
      assert entries[|entries| - 1].name == name;
    } else {
      assert NamesOf(Active(init, requested, route, phase))[j] == name;
      ActiveAreSelected(init, requested, route, phase, name);
      var i :| 0 <= i < |init| && init[i].name == name && Selected(init[i], requested, route, phase);
      assert entries[i] == init[i];
    }
  }

  /** Only guardrails of the phase and within the route's scope run, and of those only the ones on by
      default or asked for. */
  lemma OnlySelectedRun(
    entries: seq<Entry>, phase: Phase, content: string, ctx: Context,
    requested: Option<seq<string>>, route: Option<seq<string>>, name: string)
    requires name in Run(entries, phase, content, ctx, requested, route).1
    ensures route.Some? && |route.value| > 0 ==> name in route.value
    ensures
      exists i :: 0 <= i < |entries| && entries[i].name == name && InPhase(entries[i].mode, phase) &&
                  (entries[i].defaultOn || (requested.Some? && name in requested.value))
  {
    hide Active, WalkOver, NamesOf;
    var active := Active(entries, requested, route, phase);
    AppliedIsPrefix(active, phase, content, ctx);
    ActiveAreSelected(entries, requested, route, phase, name);
  }

  // ---- Requests and blocking -------------------------------------------------------------------------

  ghost predicate NoneModifies(entries: seq<Entry>, phase: Phase, ctx: Context) {
    forall i, c | 0 <= i < |entries| :: !CheckWith(entries[i], phase, c, ctx).Modify?
  }

  predicate Blocks(e: Entry, phase: Phase, content: string, ctx: Context) {
    e.action == BlockAction && CheckWith(e, phase, content, ctx).Block?
  }

  lemma {:induction false} WalkBlocksIff(
    entries: seq<Entry>, phase: Phase, content: string, ctx: Context,
    requested: Option<seq<string>>, route: Option<seq<string>>)
    requires NoneModifies(entries, phase, ctx)
    ensures
      var w := WalkOver(Active(entries, requested, route, phase), phase, content, ctx);
      && (w.blocked.Some? <==> exists i :: 0 <= i < |entries| && Selected(entries[i], requested, route, phase) &&
                                           Blocks(entries[i], phase, content, ctx))
      && w.content == content
  {
    hide Selected, CheckWith;
    if |entries| > 0 {
      var init, last := entries[..|entries| - 1], entries[|entries| - 1];
      assert forall i | 0 <= i < |init| :: init[i] == entries[i];
      WalkBlocksIff(init, phase, content, ctx, requested, route);
      var before, active := Active(init, requested, route, phase), Active(entries, requested, route, phase);
      if Selected(last, requested, route, phase) {
        assert active[..|active| - 1] == before;
      }
    }
  }

  /** When no guardrail rewrites content, a run blocks exactly when some selected guardrail blocks; so a
      run that blocks without client requests blocks with any. */
  lemma RequestsOnlyAddBlocks(
    entries: seq<Entry>, phase: Phase, content: string, ctx: Context,
    requested: Option<seq<string>>, route: Option<seq<string>>)
    requires NoneModifies(entries, phase, ctx)
    ensures
      Run(entries, phase, content, ctx, requested, route).0.Block? <==>
      exists i :: 0 <= i < |entries| && Selected(entries[i], requested, route, phase) &&
                  Blocks(entries[i], phase, content, ctx)
    ensures
      Run(entries, phase, content, ctx, None, route).0.Block? ==>
      Run(entries, phase, content, ctx, requested, route).0.Block?
  {
    hide Active, WalkOver, CheckWith;
    WalkBlocksIff(entries, phase, content, ctx, requested, route);
    WalkBlocksIff(entries, phase, content, ctx, None, route);
    BlockedByBlock(Active(entries, requested, route, phase), phase, content, ctx);
    BlockedByBlock(Active(entries, None, route, phase), phase, content, ctx);
  }

  // ---- When requests can unblock -----------------------------------------------------------------------

  predicate Eligible(e: Entry, route: Option<seq<string>>, phase: Phase) {
    InPhase(e.mode, phase) && InScope(e, route)
  }

  predicate OnRequest(e: Entry, route: Option<seq<string>>, phase: Phase) {
    Eligible(e, route, phase) && !e.defaultOn
  }

  predicate Blocker(e: Entry, route: Option<seq<string>>, phase: Phase) {
    Eligible(e, route, phase) && e.defaultOn && e.action == BlockAction
  }

  /** A guardrail that runs only on request stands before one that is on by default and may block. */
  predicate Exposed(entries: seq<Entry>, route: Option<seq<string>>, phase: Phase) {
    exists i, j :: 0 <= i < j < |entries| && OnRequest(entries[i], route, phase) && Blocker(entries[j], route, phase)
  }

  /** The same configuration, whatever its checks compute. */
  ghost predicate SameConfiguration(a: seq<Entry>, b: seq<Entry>) {
    && |a| == |b|
    && forall i | 0 <= i < |a| :: b[i] == a[i].(checkInput := b[i].checkInput, checkOutput := b[i].checkOutput)
  }

  /** Whatever the checks compute, a run that blocks without client requests blocks with any. */
  ghost predicate NeverUnblocks(entries: seq<Entry>, route: Option<seq<string>>, phase: Phase) {
    forall es, content, ctx, requested ::
      SameConfiguration(entries, es) && Run(es, phase, content, ctx, None, route).0.Block? ==>
      Run(es, phase, content, ctx, requested, route).0.Block?
  }

  /** Requests never unblock if and only if, within the phase and the route's scope, no guardrail that
      runs only on request stands before one that is on by default and may block. */
  lemma NeverUnblocksIff(entries: seq<Entry>, route: Option<seq<string>>, phase: Phase)
    ensures NeverUnblocks(entries, route, phase) <==> !Exposed(entries, route, phase)
  {
    hide Run, Exposed, SameConfiguration;
    if Exposed(entries, route, phase) {
      var es, content, ctx, requested := RequestedRedactionUnblocks(entries, route, phase);
    } else {
      forall es, content, ctx, requested |
        SameConfiguration(entries, es) && Run(es, phase, content, ctx, None, route).0.Block?
        ensures Run(es, phase, content, ctx, requested, route).0.Block?
      {
        SameExposure(entries, es, route, phase);
        StaysBlocked(es, phase, content, ctx, requested, route);
      }
    }
  }

  lemma SameExposure(a: seq<Entry>, b: seq<Entry>, route: Option<seq<string>>, phase: Phase)
    requires SameConfiguration(a, b)
    ensures Exposed(b, route, phase) ==> Exposed(a, route, phase)
  {
    if Exposed(b, route, phase) {
      var i, j :| 0 <= i < j < |b| && OnRequest(b[i], route, phase) && Blocker(b[j], route, phase);
      assert OnRequest(a[i], route, phase) && Blocker(a[j], route, phase);
    }
  }

  predicate NoneOnRequest(entries: seq<Entry>, route: Option<seq<string>>, phase: Phase) {
    forall i | 0 <= i < |entries| :: !OnRequest(entries[i], route, phase)
  }

  /** Where nothing that runs only on request is eligible, requests change nothing. */
  lemma {:induction false} SameActive(
    entries: seq<Entry>, requested: Option<seq<string>>, route: Option<seq<string>>, phase: Phase)
    requires NoneOnRequest(entries, route, phase)
    ensures Active(entries, requested, route, phase) == Active(entries, None, route, phase)
  {
    hide InPhase, InScope;
    if |entries| > 0 {
      SameActive(entries[..|entries| - 1], requested, route, phase);
    }
  }

  lemma {:induction false} WalkStaysBlocked(
    entries: seq<Entry>, phase: Phase, content: string, ctx: Context,
    requested: Option<seq<string>>, route: Option<seq<string>>)
    requires !Exposed(entries, route, phase)
    requires WalkOver(Active(entries, None, route, phase), phase, content, ctx).blocked.Some?
    ensures WalkOver(Active(entries, requested, route, phase), phase, content, ctx).blocked.Some?
  {
    hide CheckWith, InPhase, InScope, WalkOver, Active, Exposed, NoneOnRequest;
    ActiveNothing(requested, route, phase);
    ActiveNothing(None, route, phase);
    NothingBlocks(phase, content, ctx);
    if |entries| > 0 {
      var init, last := entries[..|entries| - 1], entries[|entries| - 1];
      assert entries == init + [last];
      ExposureGrows(init, last, route, phase);
      ActiveAppend(init, [last], None, route, phase);
      ActiveAppend(init, [last], requested, route, phase);
      ActiveOne(last, None, route, phase);
      ActiveOne(last, requested, route, phase);
      var plain, asked := Active(init, None, route, phase), Active(init, requested, route, phase);
      if WalkOver(plain, phase, content, ctx).blocked.Some? {
        WalkStaysBlocked(init, phase, content, ctx, requested, route);
      } else {
        WalkSnoc(plain, last, phase, content, ctx);
        SameActive(init, requested, route, phase);
      }
      WalkSnoc(asked, last, phase, content, ctx);
    }
  }

  lemma ActiveNothing(requested: Option<seq<string>>, route: Option<seq<string>>, phase: Phase)
    ensures Active([], requested, route, phase) == []
  {
  }

  lemma NothingBlocks(phase: Phase, content: string, ctx: Context)
    ensures WalkOver([], phase, content, ctx) == Walk(None, content, [])
  {
  }

  lemma WalkSnoc(active: seq<Entry>, e: Entry, phase: Phase, content: string, ctx: Context)
    ensures WalkOver(active + [e], phase, content, ctx) == Step(WalkOver(active, phase, content, ctx), e, phase, ctx)
    ensures active + [] == active
  {
    hide Step;
    assert (active + [e])[..|active|] == active;
  }

  lemma ExposureGrows(init: seq<Entry>, last: Entry, route: Option<seq<string>>, phase: Phase)
    ensures Exposed(init, route, phase) ==> Exposed(init + [last], route, phase)
    ensures Blocker(last, route, phase) && !NoneOnRequest(init, route, phase) ==> Exposed(init + [last], route, phase)
  {
    hide OnRequest, Blocker;
    var all := init + [last];
    if Exposed(init, route, phase) {
      var i, j :| 0 <= i < j < |init| && OnRequest(init[i], route, phase) && Blocker(init[j], route, phase);
      assert OnRequest(all[i], route, phase) && Blocker(all[j], route, phase);
    }
    if Blocker(last, route, phase) && !NoneOnRequest(init, route, phase) {
      var i :| 0 <= i < |init| && OnRequest(init[i], route, phase);
      assert OnRequest(all[i], route, phase) && Blocker(all[|init|], route, phase);
    }
  }

  lemma StaysBlocked(
    entries: seq<Entry>, phase: Phase, content: string, ctx: Context,
    requested: Option<seq<string>>, route: Option<seq<string>>)
    requires !Exposed(entries, route, phase) && Run(entries, phase, content, ctx, None, route).0.Block?
    ensures Run(entries, phase, content, ctx, requested, route).0.Block?
  {
    hide Active, WalkOver, Exposed;
    WalkStaysBlocked(entries, phase, content, ctx, requested, route);
    BlockedByBlock(Active(entries, requested, route, phase), phase, content, ctx);
  }

  // A configuration that is exposed can be unblocked.

  const SECRET := "x"

  function Passes(): Check {
    (content, ctx) => Pass
  }

  function Redacts(): Check {
    (content, ctx) => Modify("", "", "all of it")
  }

  function Refuses(): Check {
    (content, ctx) => if content == "" then Pass else Block("", "")
  }

  function WithCheck(e: Entry, check: Check): Entry {
    e.(checkInput := check, checkOutput := check)
  }

  /** The configuration with entry `i` redacting everything, entry `j` refusing what is not empty, and
      the others letting everything pass. */
  function Staged(entries: seq<Entry>, i: nat, j: nat): seq<Entry> {
    seq(|entries|, k requires 0 <= k < |entries| =>
      WithCheck(entries[k], if k == i then Redacts() else if k == j then Refuses() else Passes()))
  }

  /** The walk over the active entries of two lists: after a first that does not block, the second. */
  lemma ThenWalk(
    a: seq<Entry>, b: seq<Entry>, phase: Phase, content: string, ctx: Context,
    requested: Option<seq<string>>, route: Option<seq<string>>)
    ensures
      var first := WalkOver(Active(a, requested, route, phase), phase, content, ctx);
      var second := WalkOver(Active(b, requested, route, phase), phase, first.content, ctx);
      var both := WalkOver(Active(a + b, requested, route, phase), phase, content, ctx);
      if first.blocked.Some? then both.blocked.Some?
      else both.blocked == second.blocked && both.content == second.content
  {
    hide Active, WalkOver;
    ActiveAppend(a, b, requested, route, phase);
    WalkAppend(Active(a, requested, route, phase), Active(b, requested, route, phase), phase, content, ctx);
  }

  lemma WalkOne(
    e: Entry, phase: Phase, content: string, ctx: Context,
    requested: Option<seq<string>>, route: Option<seq<string>>)
    ensures
      WalkOver(Active([e], requested, route, phase), phase, content, ctx) ==
      if Selected(e, requested, route, phase) then Step(Walk(None, content, []), e, phase, ctx)
      else Walk(None, content, [])
  {
    hide Active, Selected, CheckWith;
    ActiveOne(e, requested, route, phase);
    assert [e][..0] == [];
  }

  ghost predicate AllPass(entries: seq<Entry>, phase: Phase, ctx: Context) {
    forall k, c | 0 <= k < |entries| :: CheckWith(entries[k], phase, c, ctx).Pass?
  }

  /** A stretch of entries that all let pass changes nothing, whatever is requested. */
  lemma {:induction false} PassingStretch(
    entries: seq<Entry>, phase: Phase, content: string, ctx: Context,
    requested: Option<seq<string>>, route: Option<seq<string>>)
    requires AllPass(entries, phase, ctx)
    ensures
      var w := WalkOver(Active(entries, requested, route, phase), phase, content, ctx);
      w.blocked.None? && w.content == content
  {
    hide Selected, CheckWith, Active, WalkOver;
    if |entries| == 0 {
      ActiveNothing(requested, route, phase);
      NothingBlocks(phase, content, ctx);
      assert entries == [];
    } else {
      var init, last := entries[..|entries| - 1], entries[|entries| - 1];
      assert entries == init + [last];
      PassingStretch(init, phase, content, ctx, requested, route);
      ThenWalk(init, [last], phase, content, ctx, requested, route);
      WalkOne(last, phase, content, ctx, requested, route);
    }
  }

  /** The five stretches of the staged configuration. */
  lemma StagedParts(entries: seq<Entry>, i: nat, j: nat) returns (a: seq<Entry>, b: seq<Entry>, c: seq<Entry>)
    requires i < j < |entries|
    ensures Staged(entries, i, j) ==
            a + ([WithCheck(entries[i], Redacts())] + (b + ([WithCheck(entries[j], Refuses())] + c)))
    ensures AllHave(a, Passes()) && AllHave(b, Passes()) && AllHave(c, Passes())
  {
    var es := Staged(entries, i, j);
    a, b, c := es[..i], es[i + 1..j], es[j + 1..];
  }

  ghost predicate AllHave(entries: seq<Entry>, check: Check) {
    forall k | 0 <= k < |entries| :: entries[k].checkInput == check && entries[k].checkOutput == check
  }

  lemma PassingPass(entries: seq<Entry>, phase: Phase, ctx: Context)
    requires AllHave(entries, Passes())
    ensures AllPass(entries, phase, ctx)
  {
  }

  lemma SameEligibility(e: Entry, check: Check, route: Option<seq<string>>, phase: Phase)
    ensures OnRequest(WithCheck(e, check), route, phase) == OnRequest(e, route, phase)
    ensures Blocker(WithCheck(e, check), route, phase) == Blocker(e, route, phase)
  {
  }

  /** In an exposed configuration the checks can be such that asking for one guardrail that redacts gets
      past one that is on by default and would have blocked. */
  lemma RequestedRedactionUnblocks(entries: seq<Entry>, route: Option<seq<string>>, phase: Phase)
    returns (es: seq<Entry>, content: string, ctx: Context, requested: Option<seq<string>>)
    requires Exposed(entries, route, phase)
    ensures SameConfiguration(entries, es)
    ensures Run(es, phase, content, ctx, None, route).0.Block?
    ensures !Run(es, phase, content, ctx, requested, route).0.Block?
  {
    hide Active, WalkOver, OnRequest, Blocker, AllPass, AllHave;
    var i, j :| 0 <= i < j < |entries| && OnRequest(entries[i], route, phase) && Blocker(entries[j], route, phase);
    es, content, ctx, requested := Staged(entries, i, j), SECRET, Context("", None), Some([entries[i].name]);
    var a, b, c := StagedParts(entries, i, j);
    var ei, ej := WithCheck(entries[i], Redacts()), WithCheck(entries[j], Refuses());
    PassingPass(a, phase, ctx);
    PassingPass(b, phase, ctx);
    PassingPass(c, phase, ctx);
    SameEligibility(entries[i], Redacts(), route, phase);
    SameEligibility(entries[j], Refuses(), route, phase);
    StagedBlocks(a, ei, b, ej, c, phase, ctx, route);
    StagedPasses(a, ei, b, ej, c, phase, ctx, requested, route);
    BlockedByBlock(Active(es, None, route, phase), phase, content, ctx);
  }

  lemma StagedBlocks(
    a: seq<Entry>, ei: Entry, b: seq<Entry>, ej: Entry, c: seq<Entry>, phase: Phase, ctx: Context,
    route: Option<seq<string>>)
    requires AllPass(a, phase, ctx) && AllPass(b, phase, ctx)
    requires OnRequest(ei, route, phase) && Blocker(ej, route, phase)
    requires ej.checkInput == ej.checkOutput == Refuses()
    ensures WalkOver(Active(a + ([ei] + (b + ([ej] + c))), None, route, phase), phase, SECRET, ctx).blocked.Some?
  {
    hide Active, WalkOver, InPhase, InScope;
    PassingStretch(a, phase, SECRET, ctx, None, route);
    PassingStretch(b, phase, SECRET, ctx, None, route);
    WalkOne(ei, phase, SECRET, ctx, None, route);
    WalkOne(ej, phase, SECRET, ctx, None, route);
    ThenWalk([ej], c, phase, SECRET, ctx, None, route);
    ThenWalk(b, [ej] + c, phase, SECRET, ctx, None, route);
    ThenWalk([ei], b + ([ej] + c), phase, SECRET, ctx, None, route);
    ThenWalk(a, [ei] + (b + ([ej] + c)), phase, SECRET, ctx, None, route);
  }

  lemma StagedPasses(
    a: seq<Entry>, ei: Entry, b: seq<Entry>, ej: Entry, c: seq<Entry>, phase: Phase, ctx: Context,
    requested: Option<seq<string>>, route: Option<seq<string>>)
    requires AllPass(a, phase, ctx) && AllPass(b, phase, ctx) && AllPass(c, phase, ctx)
    requires OnRequest(ei, route, phase) && requested == Some([ei.name]) && Blocker(ej, route, phase)
    requires ei.checkInput == ei.checkOutput == Redacts()
    requires ej.checkInput == ej.checkOutput == Refuses()
    ensures WalkOver(Active(a + ([ei] + (b + ([ej] + c))), requested, route, phase), phase, SECRET, ctx).blocked.None?
  {
    hide Active, WalkOver, InPhase, InScope;
    assert [ei.name][0] == ei.name;
    PassingStretch(a, phase, SECRET, ctx, requested, route);
    PassingStretch(b, phase, "", ctx, requested, route);
    PassingStretch(c, phase, "", ctx, requested, route);
    WalkOne(ei, phase, SECRET, ctx, requested, route);
    WalkOne(ej, phase, "", ctx, requested, route);
    ThenWalk([ej], c, phase, "", ctx, requested, route);
    ThenWalk(b, [ej] + c, phase, "", ctx, requested, route);
    ThenWalk([ei], b + ([ej] + c), phase, SECRET, ctx, requested, route);
    ThenWalk(a, [ei] + (b + ([ej] + c)), phase, SECRET, ctx, requested, route);
  }
}
