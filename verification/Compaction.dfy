/** Auto-compaction of the messages of a request body. */
module Compaction {
  import opened Text

  // In these, `rest` and `json` stand for the JSON that nothing here reads, so that a value is all there is.

  /** A part of a content, with its `text` field if it has one. */
  datatype Part = Part(text: Option<Bytes>, rest: string)

  datatype Content = Missing | Plain(text: Bytes) | Parts(parts: seq<Part>) | OtherContent(json: string)

  datatype Message = Message(role: Option<string>, content: Content, rest: string)

  /** Tokens of a text: its length in bytes divided by four, rounded up. */
  function TextTokens(text: Bytes): nat {
    (|text| + 3) / 4
  }

  function PartTokens(parts: seq<Part>): nat {
    if |parts| == 0 then 0
    else
      var before, last := PartTokens(parts[..|parts| - 1]), parts[|parts| - 1];
      if last.text.Some? then before + TextTokens(last.text.value) else before
  }

  function MessageTokens(m: Message): nat {
    4 + match m.content
        case Plain(text) => TextTokens(text)
        case Parts(parts) => PartTokens(parts)
        case _ => 0
  }

  function Tokens(msgs: seq<Message>): nat {
    if |msgs| == 0 then 0 else Tokens(msgs[..|msgs| - 1]) + MessageTokens(msgs[|msgs| - 1])
  }

  lemma {:induction false} TokensAppend(a: seq<Message>, b: seq<Message>)
    ensures Tokens(a + b) == Tokens(a) + Tokens(b)
    decreases |b|
  {
    hide MessageTokens;
    if |b| == 0 {
      assert a + b == a;
    } else {
      assert (a + b)[..|a + b| - 1] == a + b[..|b| - 1];
      TokensAppend(a, b[..|b| - 1]);
    }
  }

  predicate IsSystem(m: Message) {
    m.role == Some("system")
  }

  /** System messages, if they are to be preserved; then they are set apart. */
  function Systems(msgs: seq<Message>, preserve: bool): seq<Message> {
    if |msgs| == 0 || !preserve then []
    else
      var rest, last := Systems(msgs[..|msgs| - 1], preserve), msgs[|msgs| - 1];
      if IsSystem(last) then rest + [last] else rest
  }

  function Others(msgs: seq<Message>, preserve: bool): seq<Message> {
    if |msgs| == 0 then []
    else
      var rest, last := Others(msgs[..|msgs| - 1], preserve), msgs[|msgs| - 1];
      if preserve && IsSystem(last) then rest else rest + [last]
  }

  method Separate(msgs: seq<Message>, preserve: bool) returns (system: seq<Message>, others: seq<Message>)
    ensures system == Systems(msgs, preserve) && others == Others(msgs, preserve)
  {
    if !preserve {
      NothingPreserved(msgs);
      return [], msgs;
    }
    system, others := [], [];
    for i := 0 to |msgs|
      invariant system == Systems(msgs[..i], preserve) && others == Others(msgs[..i], preserve)
    {
      assert msgs[..i + 1][..i] == msgs[..i];
      if IsSystem(msgs[i]) {
        system := system + [msgs[i]];
      } else {
        others := others + [msgs[i]];
      }
    }
    assert msgs[..|msgs|] == msgs;
  }

  lemma {:induction false} NothingPreserved(msgs: seq<Message>)
    ensures Others(msgs, false) == msgs && Systems(msgs, false) == []
  {
    if |msgs| > 0 {
      NothingPreserved(msgs[..|msgs| - 1]);
      assert msgs == msgs[..|msgs| - 1] + [msgs[|msgs| - 1]];
    }
  }

  /** Newest first: a message is kept if it fits on top of what is kept already, or if fewer than
      `min` are kept. The walk goes on past a message that does not fit. */
  function Greedy(msgs: seq<Message>, tokens: nat, count: nat, threshold: nat, min: nat): seq<Message> {
    if |msgs| == 0 then []
    else
      var last, rest := msgs[|msgs| - 1], msgs[..|msgs| - 1];
      if tokens + MessageTokens(last) <= threshold || count < min then
        Greedy(rest, tokens + MessageTokens(last), count + 1, threshold, min) + [last]
      else
        Greedy(rest, tokens, count, threshold, min)
  }

  function Reversed(msgs: seq<Message>): seq<Message> {
    if |msgs| == 0 then [] else [msgs[|msgs| - 1]] + Reversed(msgs[..|msgs| - 1])
  }

  method KeepNewest(msgs: seq<Message>, systemTokens: nat, threshold: nat, min: nat) returns (kept: seq<Message>)
    ensures kept == Greedy(msgs, systemTokens, 0, threshold, min)
  {
    hide MessageTokens;
    kept := [];
    var tokens: nat := systemTokens;
    var i: nat := |msgs|;
    assert msgs[..i] == msgs;
    while i > 0
      invariant 0 <= i <= |msgs|
      invariant Greedy(msgs[..i], tokens, |kept|, threshold, min) + Reversed(kept) ==
                Greedy(msgs, systemTokens, 0, threshold, min)
    {
      i := i - 1;
      var msg := msgs[i];
      assert msgs[..i + 1][..i] == msgs[..i];
      if tokens + MessageTokens(msg) <= threshold || |kept| < min {
        assert (kept + [msg])[..|kept|] == kept;
        assert Greedy(msgs[..i], tokens + MessageTokens(msg), |kept| + 1, threshold, min) + [msg] + Reversed(kept) ==
               Greedy(msgs[..i], tokens + MessageTokens(msg), |kept| + 1, threshold, min) + ([msg] + Reversed(kept));
        tokens := tokens + MessageTokens(msg);
        kept := kept + [msg];
      }
    }
    assert [] + Reversed(kept) == Reversed(kept);
    kept := Reversed(kept);
  }

  datatype Params = Params(
    strategy: string, threshold: nat, windowSize: nat, preserveSystem: bool, minMessages: nat,
    llmProvider: Option<string>, llmModel: Option<string>)

  datatype LlmData = LlmData(
    provider: string, model: string, summaryText: string, system: seq<Message>, toKeep: seq<Message>)

  datatype Result = NoOp | Compacted | NeedsLlm(data: LlmData)

  /** Result and messages after `compact_messages`. */
  datatype Outcome = Outcome(result: Result, messages: Option<seq<Message>>)

  function Truncate(msgs: seq<Message>, p: Params): Outcome {
    if Tokens(msgs) <= p.threshold then Outcome(NoOp, Some(msgs))
    else
      var system, others := Systems(msgs, p.preserveSystem), Others(msgs, p.preserveSystem);
      var kept := Greedy(others, Tokens(system), 0, p.threshold, p.minMessages);
      if |kept| == |others| then Outcome(NoOp, Some(msgs)) else Outcome(Compacted, Some(system + kept))
  }

  function SlidingWindow(msgs: seq<Message>, p: Params): Outcome {
    var others := Others(msgs, p.preserveSystem);
    if |msgs| <= p.windowSize || |others| <= p.windowSize then Outcome(NoOp, Some(msgs))
    else Outcome(Compacted, Some(Systems(msgs, p.preserveSystem) + others[|others| - p.windowSize..]))
  }

  function Max(a: nat, b: nat): nat {
    if a < b then b else a
  }

  function KeepCount(n: nat, min: nat): nat {
    Max(n / 2, min)
  }

  function SummaryLines(msgs: seq<Message>): seq<string> {
    if |msgs| == 0 then []
    else
      var rest, m := SummaryLines(msgs[..|msgs| - 1]), msgs[|msgs| - 1];
      if m.content.Plain? && |m.content.text| > 0
      then rest + [m.role.GetOr("unknown") + ": " + m.content.text] else rest
  }

  function Join(lines: seq<string>): string {
    if |lines| == 0 then "" else if |lines| == 1 then lines[0] else lines[0] + "\n" + Join(lines[1..])
  }

  function Llm(msgs: seq<Message>, p: Params): Outcome {
    var others := Others(msgs, p.preserveSystem);
    if Tokens(msgs) <= p.threshold || p.llmProvider.None? || p.llmModel.None? || |others| <= p.minMessages then
      Outcome(NoOp, Some(msgs))
    else
      var cut := |others| - KeepCount(|others|, p.minMessages);
      Outcome(NeedsLlm(LlmData(p.llmProvider.value, p.llmModel.value, Join(SummaryLines(others[..cut])),
                               Systems(msgs, p.preserveSystem), others[cut..])),
              Some(msgs))
  }

  function Compact(messages: Option<seq<Message>>, p: Params): Outcome {
    match messages
    case None => Outcome(NoOp, None)
    case Some(msgs) =>
      if p.strategy == "truncate" then Truncate(msgs, p)
      else if p.strategy == "sliding_window" then SlidingWindow(msgs, p)
      else if p.strategy == "llm" then Llm(msgs, p)
      else Outcome(NoOp, messages)
  }

  class Body {
    var messages: Option<seq<Message>>

    constructor (messages: Option<seq<Message>>)
      ensures this.messages == messages
    {
      this.messages := messages;
    }

    /** `compact_messages`: rewrites the message array in place. */
    method CompactMessages(p: Params) returns (result: Result)
      modifies this
      ensures Outcome(result, messages) == Compact(old(messages), p)
    {
      hide Tokens, Greedy, Systems, Others, Join, SummaryLines;
      if messages.None? {
        return NoOp;
      }
      var msgs := messages.value;
      if p.strategy == "truncate" {
        if Tokens(msgs) <= p.threshold {
          return NoOp;
        }
        var system, others := Separate(msgs, p.preserveSystem);
        var kept := KeepNewest(others, Tokens(system), p.threshold, p.minMessages);
        if |others| - |kept| == 0 {
          return NoOp;
        }
        messages := Some(system + kept);
        return Compacted;
      }
      if p.strategy == "sliding_window" {
        if |msgs| <= p.windowSize {
          return NoOp;
        }
        var system, others := Separate(msgs, p.preserveSystem);
        if |others| <= p.windowSize {
          return NoOp;
        }
        var dropped := |others| - p.windowSize;
        messages := Some(system + others[dropped..]);
        return Compacted;
      }
      if p.strategy == "llm" {
        if Tokens(msgs) <= p.threshold {
          return NoOp;
        }
        if p.llmProvider.None? {
          return NoOp;
        }
        if p.llmModel.None? {
          return NoOp;
        }
        var system, others := Separate(msgs, p.preserveSystem);
        if |others| <= p.minMessages {
          return NoOp;
        }
        var keepCount := Max(|others| / 2, p.minMessages);
        var toSummarize := others[..|others| - keepCount];
        var toKeep := others[|others| - keepCount..];
        return NeedsLlm(LlmData(p.llmProvider.value, p.llmModel.value, Join(SummaryLines(toSummarize)),
                                system, toKeep));
      }
      return NoOp;
    }
  }

  // ---- The truncation contract -----------------------------------------------------------------

  /** `a` is `b` with some messages left out, order kept. */
  predicate Subsequence(a: seq<Message>, b: seq<Message>)
    decreases |b|
  {
    || |a| == 0
    || (|b| > 0 && a[|a| - 1] == b[|b| - 1] && Subsequence(a[..|a| - 1], b[..|b| - 1]))
    || (|b| > 0 && Subsequence(a, b[..|b| - 1]))
  }

  lemma {:induction false} GreedyIsSubsequence(msgs: seq<Message>, tokens: nat, count: nat, threshold: nat, min: nat)
    ensures Subsequence(Greedy(msgs, tokens, count, threshold, min), msgs)
    ensures |Greedy(msgs, tokens, count, threshold, min)| <= |msgs|
    decreases |msgs|
  {
    hide MessageTokens;
    if |msgs| > 0 {
      var last, rest := msgs[|msgs| - 1], msgs[..|msgs| - 1];
      var g := Greedy(msgs, tokens, count, threshold, min);
      if tokens + MessageTokens(last) <= threshold || count < min {
        GreedyIsSubsequence(rest, tokens + MessageTokens(last), count + 1, threshold, min);
        assert g[..|g| - 1] == Greedy(rest, tokens + MessageTokens(last), count + 1, threshold, min);
      } else {
        GreedyIsSubsequence(rest, tokens, count, threshold, min);
      }
    }
  }

  /** The walk over the newer messages decides independently of the older ones. */
  lemma {:induction false} GreedySplits(msgs: seq<Message>, i: nat, tokens: nat, count: nat, threshold: nat, min: nat)
    requires i <= |msgs|
    ensures
      var newer := Greedy(msgs[i..], tokens, count, threshold, min);
      Greedy(msgs, tokens, count, threshold, min) ==
      Greedy(msgs[..i], tokens + Tokens(newer), count + |newer|, threshold, min) + newer
    decreases |msgs|
  {
    hide MessageTokens, Greedy, Tokens;
    if i == |msgs| {
      assert msgs[..i] == msgs && msgs[i..] == [];
      GreedyOfNothing(tokens, count, threshold, min);
      TokensOfNothing();
      var g := Greedy(msgs, tokens, count, threshold, min);
      assert g + [] == g;
    } else {
      var last, rest := msgs[|msgs| - 1], msgs[..|msgs| - 1];
      assert msgs == rest + [last] && msgs[i..] == rest[i..] + [last] && msgs[..i] == rest[..i];
      GreedyStep(rest, last, tokens, count, threshold, min);
      GreedyStep(rest[i..], last, tokens, count, threshold, min);
      if tokens + MessageTokens(last) <= threshold || count < min {
        GreedySplits(rest, i, tokens + MessageTokens(last), count + 1, threshold, min);
        var newer := Greedy(rest[i..], tokens + MessageTokens(last), count + 1, threshold, min);
        TokensSnoc(newer, last);
        var older := Greedy(rest[..i], tokens + Tokens(newer + [last]), count + |newer + [last]|, threshold, min);
        assert older + newer + [last] == older + (newer + [last]);
      } else {
        GreedySplits(rest, i, tokens, count, threshold, min);
      }
    }
  }

  lemma GreedyOfNothing(tokens: nat, count: nat, threshold: nat, min: nat)
    ensures Greedy([], tokens, count, threshold, min) == []
  {
  }

  /** Exactly which messages are kept: message `i` stays if and only if it fits on top of the system
      messages and the newer messages kept, or fewer than `min` newer messages are kept. */
  lemma KeptIffFits(msgs: seq<Message>, i: nat, tokens: nat, threshold: nat, min: nat)
    requires i < |msgs|
    ensures
      var newer := Greedy(msgs[i + 1..], tokens, 0, threshold, min);
      Greedy(msgs[i..], tokens, 0, threshold, min) ==
      (if tokens + Tokens(newer) + MessageTokens(msgs[i]) <= threshold || |newer| < min then [msgs[i]] else []) + newer
  {
    hide MessageTokens;
    GreedySplits(msgs[i..], 1, tokens, 0, threshold, min);
    assert msgs[i..][1..] == msgs[i + 1..] && msgs[i..][..1] == [msgs[i]];
    assert [msgs[i]][..0] == [];
    var newer := Greedy(msgs[i + 1..], tokens, 0, threshold, min);
  }

  function Min(a: nat, b: nat): nat {
    if a < b then a else b
  }

  /** Both end with the same `m` messages. */
  predicate SameNewest(a: seq<Message>, b: seq<Message>, m: nat) {
    m <= |a| && m <= |b| && a[|a| - m..] == b[|b| - m..]
  }

  lemma GreedyStep(rest: seq<Message>, last: Message, tokens: nat, count: nat, threshold: nat, min: nat)
    ensures
      Greedy(rest + [last], tokens, count, threshold, min) ==
      if tokens + MessageTokens(last) <= threshold || count < min then
        Greedy(rest, tokens + MessageTokens(last), count + 1, threshold, min) + [last]
      else Greedy(rest, tokens, count, threshold, min)
  {
    hide MessageTokens;
    assert (rest + [last])[..|rest|] == rest;
  }

  lemma SameNewestSnoc(a: seq<Message>, b: seq<Message>, last: Message, m: nat)
    requires SameNewest(a, b, m)
    ensures SameNewest(a + [last], b + [last], m + 1)
  {
  }

  /** The newest messages, up to the minimum, are all kept. */
  lemma {:induction false} NewestAreKept(msgs: seq<Message>, tokens: nat, count: nat, threshold: nat, min: nat)
    requires count <= min
    ensures SameNewest(Greedy(msgs, tokens, count, threshold, min), msgs, Min(|msgs|, min - count))
    decreases |msgs|
  {
    hide MessageTokens, Greedy, SameNewest;
    if |msgs| == 0 || count == min {
      SameNewestOfNothing(Greedy(msgs, tokens, count, threshold, min), msgs);
    } else {
      var last, rest := msgs[|msgs| - 1], msgs[..|msgs| - 1];
      assert msgs == rest + [last];
      NewestAreKept(rest, tokens + MessageTokens(last), count + 1, threshold, min);
      GreedyStep(rest, last, tokens, count, threshold, min);
      SameNewestSnoc(Greedy(rest, tokens + MessageTokens(last), count + 1, threshold, min), rest, last,
                     Min(|rest|, min - count - 1));
    }
  }

  lemma SameNewestOfNothing(a: seq<Message>, b: seq<Message>)
    ensures SameNewest(a, b, 0)
  {
  }

  /** Either everything kept fits the threshold, or no more than the minimum is kept. */
  lemma {:induction false} FitsOrMinimum(msgs: seq<Message>, tokens: nat, count: nat, threshold: nat, min: nat)
    ensures
      var kept := Greedy(msgs, tokens, count, threshold, min);
      || tokens + Tokens(kept) <= threshold
      || count + |kept| <= min
      || kept == []
    decreases |msgs|
  {
    hide MessageTokens;
    if |msgs| > 0 {
      var last, rest := msgs[|msgs| - 1], msgs[..|msgs| - 1];
      if tokens + MessageTokens(last) <= threshold || count < min {
        FitsOrMinimum(rest, tokens + MessageTokens(last), count + 1, threshold, min);
        var k := Greedy(rest, tokens + MessageTokens(last), count + 1, threshold, min);
        assert (k + [last])[..|k|] == k;
      } else {
        FitsOrMinimum(rest, tokens, count, threshold, min);
      }
    }
  }

  /** Separating keeps the order of both parts. */
  lemma {:induction false} PartsInOrder(msgs: seq<Message>, preserve: bool)
    ensures Subsequence(Systems(msgs, preserve), msgs) && Subsequence(Others(msgs, preserve), msgs)
  {
    hide IsSystem;
    if |msgs| > 0 {
      var init, last := msgs[..|msgs| - 1], msgs[|msgs| - 1];
      PartsInOrder(init, preserve);
      var s, o := Systems(init, preserve), Others(init, preserve);
      assert (s + [last])[..|s|] == s && (o + [last])[..|o|] == o;
    }
  }

  /** Separating loses no message and no token. */
  lemma {:induction false} PartsOfMessages(msgs: seq<Message>, preserve: bool)
    ensures |Systems(msgs, preserve)| + |Others(msgs, preserve)| == |msgs|
    ensures Tokens(Systems(msgs, preserve)) + Tokens(Others(msgs, preserve)) == Tokens(msgs)
  {
    hide MessageTokens, Tokens, IsSystem;
    if |msgs| > 0 {
      var init, last := msgs[..|msgs| - 1], msgs[|msgs| - 1];
      PartsOfMessages(init, preserve);
      assert msgs == init + [last];
      TokensSnoc(init, last);
      TokensSnoc(Systems(init, preserve), last);
      TokensSnoc(Others(init, preserve), last);
    } else {
      TokensOfNothing();
    }
  }

  lemma TokensSnoc(msgs: seq<Message>, last: Message)
    ensures Tokens(msgs + [last]) == Tokens(msgs) + MessageTokens(last)
  {
    assert (msgs + [last])[..|msgs|] == msgs;
  }

  lemma TokensOfNothing()
    ensures Tokens([]) == 0
  {
  }

  /** What truncation leaves behind. */
  lemma TruncationContract(msgs: seq<Message>, p: Params)
    requires Truncate(msgs, p).result == Compacted
    ensures
      var system, others := Systems(msgs, p.preserveSystem), Others(msgs, p.preserveSystem);
      var kept := Greedy(others, Tokens(system), 0, p.threshold, p.minMessages);
      var newest := Min(|others|, p.minMessages);
      && Truncate(msgs, p).messages == Some(system + kept)
      && Subsequence(kept, others)
      && |system + kept| < |msgs|
      && SameNewest(kept, others, newest)
      && (Tokens(system + kept) <= p.threshold || |kept| <= p.minMessages)
  {
    hide Tokens, Greedy, Systems, Others, Subsequence, SameNewest;
    var system, others := Systems(msgs, p.preserveSystem), Others(msgs, p.preserveSystem);
    GreedyIsSubsequence(others, Tokens(system), 0, p.threshold, p.minMessages);
    NewestAreKept(others, Tokens(system), 0, p.threshold, p.minMessages);
    FitsOrMinimum(others, Tokens(system), 0, p.threshold, p.minMessages);
    PartsOfMessages(msgs, p.preserveSystem);
    TokensAppend(system, Greedy(others, Tokens(system), 0, p.threshold, p.minMessages));
  }

  /** What truncation does, and when: it shortens the messages if and only if their estimate exceeds the
      threshold and more than the minimum of them may be dropped. */
  lemma TruncatesIff(msgs: seq<Message>, p: Params)
    requires p.strategy == "truncate"
    ensures
      Compact(Some(msgs), p).result ==
      if Tokens(msgs) > p.threshold && |Others(msgs, p.preserveSystem)| > p.minMessages then Compacted else NoOp
    ensures Compact(Some(msgs), p).result == NoOp ==> Compact(Some(msgs), p).messages == Some(msgs)
  {
    hide Tokens, Greedy, Systems, Others;
    var system, others := Systems(msgs, p.preserveSystem), Others(msgs, p.preserveSystem);
    var kept := Greedy(others, Tokens(system), 0, p.threshold, p.minMessages);
    GreedyIsSubsequence(others, Tokens(system), 0, p.threshold, p.minMessages);
    FitsOrMinimum(others, Tokens(system), 0, p.threshold, p.minMessages);
    NewestAreKept(others, Tokens(system), 0, p.threshold, p.minMessages);
    PartsOfMessages(msgs, p.preserveSystem);
    if |kept| == |others| {
      AllKept(others, Tokens(system), 0, p.threshold, p.minMessages);
    }
  }

  lemma AllKept(msgs: seq<Message>, tokens: nat, count: nat, threshold: nat, min: nat)
    requires |Greedy(msgs, tokens, count, threshold, min)| == |msgs|
    ensures Greedy(msgs, tokens, count, threshold, min) == msgs
  {
    hide Greedy;
    GreedyIsSubsequence(msgs, tokens, count, threshold, min);
    WholeSubsequence(Greedy(msgs, tokens, count, threshold, min), msgs);
  }

  lemma {:induction false} WholeSubsequence(a: seq<Message>, b: seq<Message>)
    requires Subsequence(a, b)
    ensures |a| <= |b| && (|a| == |b| ==> a == b)
    decreases |b|
  {
    if |a| > 0 {
      var init := b[..|b| - 1];
      if a[|a| - 1] == b[|b| - 1] && Subsequence(a[..|a| - 1], init) {
        WholeSubsequence(a[..|a| - 1], init);
        assert a == a[..|a| - 1] + [a[|a| - 1]] && b == init + [b[|b| - 1]];
      } else {
        WholeSubsequence(a, init);
      }
    }
  }

  /** What the sliding window leaves behind, and when: if and only if more than `windowSize` messages
      could be dropped, the messages are those preserved and exactly the newest `windowSize` others. */
  lemma WindowContract(msgs: seq<Message>, p: Params)
    requires p.strategy == "sliding_window"
    ensures
      var o, others := Compact(Some(msgs), p), Others(msgs, p.preserveSystem);
      if |others| > p.windowSize then
        && o.result == Compacted && o.messages.Some?
        && |Systems(msgs, p.preserveSystem)| <= |o.messages.value|
        && (var kept := o.messages.value[|Systems(msgs, p.preserveSystem)|..];
            && o.messages.value == Systems(msgs, p.preserveSystem) + kept
            && |kept| == p.windowSize && SameNewest(kept, others, p.windowSize))
      else o == Outcome(NoOp, Some(msgs))
  {
    hide Tokens, Systems, Others;
    PartsOfMessages(msgs, p.preserveSystem);
  }

  /** When another model is asked for a summary, and of what: the older part of the messages that are not
      preserved, the newer half or at least the minimum staying as they are. */
  lemma SummarisesIff(msgs: seq<Message>, p: Params)
    requires p.strategy == "llm"
    ensures
      var o, others := Compact(Some(msgs), p), Others(msgs, p.preserveSystem);
      && o.messages == Some(msgs)
      && (if Tokens(msgs) > p.threshold && p.llmProvider.Some? && p.llmModel.Some? && |others| > p.minMessages then
            && o.result.NeedsLlm?
            && o.result.data.provider == p.llmProvider.value && o.result.data.model == p.llmModel.value
            && o.result.data.system == Systems(msgs, p.preserveSystem)
            && (var kept := if |others| / 2 < p.minMessages then p.minMessages else |others| / 2;
                && kept < |others| && o.result.data.toKeep == others[|others| - kept..]
                && o.result.data.summaryText == Join(SummaryLines(others[..|others| - kept])))
          else o.result == NoOp)
  {
    hide Tokens, Systems, Others, Join, SummaryLines;
  }

  /** Other strategies, and bodies without messages, are left alone. */
  lemma OthersDoNothing(messages: Option<seq<Message>>, p: Params)
    requires messages == None || p.strategy !in {"truncate", "sliding_window", "llm"}
    ensures Compact(messages, p) == Outcome(NoOp, messages)
  {
  }

  // ---- What is counted, and what is summarised ---------------------------------------------------

  /** The estimate of a message: four, and a quarter of the bytes of each text in it, rounded up. */
  lemma EstimateSays(role: Option<string>, text: Bytes, parts: seq<Part>, part: Part, json: string, rest: string)
    ensures
      var quarter := MessageTokens(Message(role, Plain(text), rest)) - 4;
      0 <= quarter && |text| <= 4 * quarter < |text| + 4
    ensures MessageTokens(Message(role, Missing, rest)) == MessageTokens(Message(role, OtherContent(json), rest)) == 4
    ensures MessageTokens(Message(role, Parts([]), rest)) == 4
    ensures
      var before := MessageTokens(Message(role, Parts(parts), rest));
      MessageTokens(Message(role, Parts(parts + [part]), rest)) ==
      match part.text
      case Some(t) => before + MessageTokens(Message(role, Plain(t), rest)) - 4
      case None => before
  {
    hide TextTokens;
    QuarterUp(text);
    assert (parts + [part])[..|parts|] == parts;
  }

  lemma QuarterUp(text: Bytes)
    ensures |text| <= 4 * TextTokens(text) < |text| + 4
  {
  }

  /** The text to summarise: a line `role: text` for each message that is a non-empty text. */
  lemma SummarySays(msgs: seq<Message>, m: Message)
    ensures Join(SummaryLines([])) == ""
    ensures
      var before, after := Join(SummaryLines(msgs)), Join(SummaryLines(msgs + [m]));
      match m.content
      case Plain(text) =>
        if text == "" then after == before
        else
          var line := (if m.role.Some? then m.role.value else "unknown") + ": " + text;
          after == if SummaryLines(msgs) == [] then line else before + "\n" + line
      case _ => after == before
  {
    assert (msgs + [m])[..|msgs|] == msgs;
    if m.content.Plain? && m.content.text != "" {
      JoinSnoc(SummaryLines(msgs), m.role.GetOr("unknown") + ": " + m.content.text);
    }
  }

  lemma {:induction false} JoinSnoc(lines: seq<string>, line: string)
    ensures Join(lines + [line]) == if |lines| == 0 then line else Join(lines) + "\n" + line
  {
    if |lines| > 0 {
      JoinSnoc(lines[1..], line);
      assert (lines + [line])[1..] == lines[1..] + [line];
      if |lines| > 1 {
        assert lines[0] + "\n" + (Join(lines[1..]) + "\n" + line) == lines[0] + "\n" + Join(lines[1..]) + "\n" + line;
      }
    }
  }

  // ---- Idempotence -------------------------------------------------------------------------------

  /** The walk over what it kept keeps it all: every decision falls the same way again. */
  lemma {:induction false} GreedyIsFixed(msgs: seq<Message>, tokens: nat, count: nat, threshold: nat, min: nat)
    ensures
      var kept := Greedy(msgs, tokens, count, threshold, min);
      Greedy(kept, tokens, count, threshold, min) == kept
    decreases |msgs|
  {
    hide MessageTokens, Greedy;
    if |msgs| == 0 {
      assert msgs == [];
      GreedyOfNothing(tokens, count, threshold, min);
    } else {
      var last, rest := msgs[|msgs| - 1], msgs[..|msgs| - 1];
      assert msgs == rest + [last];
      GreedyStep(rest, last, tokens, count, threshold, min);
      if tokens + MessageTokens(last) <= threshold || count < min {
        GreedyIsFixed(rest, tokens + MessageTokens(last), count + 1, threshold, min);
        GreedyStep(Greedy(rest, tokens + MessageTokens(last), count + 1, threshold, min), last, tokens, count,
                   threshold, min);
      } else {
        GreedyIsFixed(rest, tokens, count, threshold, min);
      }
    }
  }

  predicate AllSystem(msgs: seq<Message>) {
    forall i | 0 <= i < |msgs| :: IsSystem(msgs[i])
  }

  predicate NoSystem(msgs: seq<Message>) {
    forall i | 0 <= i < |msgs| :: !IsSystem(msgs[i])
  }

  /** With system messages preserved, one part holds only system messages and the other none. */
  lemma {:induction false} SeparatedKinds(msgs: seq<Message>)
    ensures AllSystem(Systems(msgs, true)) && NoSystem(Others(msgs, true))
    ensures forall i | 0 <= i < |Systems(msgs, true)| :: Systems(msgs, true)[i].role == Some("system")
    ensures forall i | 0 <= i < |Others(msgs, true)| :: Others(msgs, true)[i].role != Some("system")
  {
    if |msgs| > 0 {
      SeparatedKinds(msgs[..|msgs| - 1]);
    }
  }

  lemma {:induction false} GreedyNoSystem(msgs: seq<Message>, tokens: nat, count: nat, threshold: nat, min: nat)
    requires NoSystem(msgs)
    ensures NoSystem(Greedy(msgs, tokens, count, threshold, min))
    decreases |msgs|
  {
    hide MessageTokens, IsSystem;
    if |msgs| > 0 {
      var last, rest := msgs[|msgs| - 1], msgs[..|msgs| - 1];
      GreedyNoSystem(rest, tokens + MessageTokens(last), count + 1, threshold, min);
      GreedyNoSystem(rest, tokens, count, threshold, min);
    }
  }

  /** Separating system messages put in front of others gives both back. */
  lemma {:induction false} SeparateAgain(system: seq<Message>, others: seq<Message>)
    requires AllSystem(system) && NoSystem(others)
    ensures Systems(system + others, true) == system && Others(system + others, true) == others
    decreases |system| + |others|
  {
    hide IsSystem;
    var all := system + others;
    if |others| > 0 {
      assert all[..|all| - 1] == system + others[..|others| - 1];
      SeparateAgain(system, others[..|others| - 1]);
      assert others == others[..|others| - 1] + [others[|others| - 1]];
    } else if |system| > 0 {
      assert all == system && all[..|all| - 1] == system[..|system| - 1] + [];
      SeparateAgain(system[..|system| - 1], []);
      assert system == system[..|system| - 1] + [system[|system| - 1]];
    }
  }

  /** Running truncation or the sliding window again with the same parameters does nothing. */
  lemma CompactIsIdempotent(messages: Option<seq<Message>>, p: Params)
    requires p.strategy == "truncate" || p.strategy == "sliding_window"
    ensures
      var once := Compact(messages, p).messages;
      Compact(once, p) == Outcome(NoOp, once)
  {
    hide Tokens, Greedy, Systems, Others;
    if messages.Some? {
      var msgs := messages.value;
      var system, others := Systems(msgs, p.preserveSystem), Others(msgs, p.preserveSystem);
      if p.strategy == "truncate" {
        var kept := Greedy(others, Tokens(system), 0, p.threshold, p.minMessages);
        GreedyIsFixed(others, Tokens(system), 0, p.threshold, p.minMessages);
        if p.preserveSystem {
          SeparatedKinds(msgs);
          GreedyNoSystem(others, Tokens(system), 0, p.threshold, p.minMessages);
        }
        SeparateKept(msgs, p.preserveSystem, kept);
      } else if |others| > p.windowSize {
        var kept := others[|others| - p.windowSize..];
        if p.preserveSystem {
          SeparatedKinds(msgs);
        }
        SeparateKept(msgs, p.preserveSystem, kept);
      }
    }
  }

  lemma SeparateKept(msgs: seq<Message>, preserve: bool, kept: seq<Message>)
    requires preserve ==> NoSystem(kept)
    ensures
      var again := Systems(msgs, preserve) + kept;
      Systems(again, preserve) == Systems(msgs, preserve) && Others(again, preserve) == kept
  {
    hide Systems, Others;
    if preserve {
      SeparatedKinds(msgs);
      SeparateAgain(Systems(msgs, preserve), kept);
    } else {
      NothingPreserved(msgs);
      NothingPreserved(kept);
      assert [] + kept == kept;
    }
  }

  // ---- The LLM split -----------------------------------------------------------------------------

  /** The summarised and the kept messages are a partition of the non-system ones, the summarised part
      is never empty, and at least the minimum is kept; so replacing the summarised part by one
      summary never makes the conversation longer. */
  lemma LlmPartition(msgs: seq<Message>, p: Params, summary: Message)
    requires Llm(msgs, p).result.NeedsLlm?
    ensures
      var d, others := Llm(msgs, p).result.data, Others(msgs, p.preserveSystem);
      var cut := |others| - |d.toKeep|;
      && 0 < cut && others == others[..cut] + d.toKeep
      && d.summaryText == Join(SummaryLines(others[..cut]))
      && |d.toKeep| >= p.minMessages
      && |d.system + [summary] + d.toKeep| <= |msgs|
  {
    hide Tokens, Systems, Others, Join, SummaryLines;
    var others := Others(msgs, p.preserveSystem);
    PartsOfMessages(msgs, p.preserveSystem);
  }
}
