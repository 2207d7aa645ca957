/** The non-streaming Gemini translator, and exactly when the stream translator gives a client the
    same message. */
module Gemini {
  import opened Text
  import Json
  import opened OpenAi
  import opened GeminiStream

  // ---- The whole-response translation ----------------------------------------------------

  datatype FunctionCall = FunctionCall(name: string, args: Json.Value)
  datatype ReplyPart = ReplyPart(text: Option<string>, call: Option<FunctionCall>)
  datatype Reply = Reply(content: Option<seq<ReplyPart>>, finishReason: Option<string>)

  function PartTexts(parts: seq<ReplyPart>): seq<string> {
    if |parts| == 0 then []
    else
      var rest, p := PartTexts(parts[..|parts| - 1]), parts[|parts| - 1];
      if p.text.Some? then rest + [p.text.value] else rest
  }

  function PartCalls(parts: seq<ReplyPart>): seq<FunctionCall> {
    if |parts| == 0 then []
    else
      var rest, p := PartCalls(parts[..|parts| - 1]), parts[|parts| - 1];
      if p.call.Some? then rest + [p.call.value] else rest
  }

  function Texts(replies: seq<Reply>): seq<string> {
    if |replies| == 0 then []
    else Texts(replies[..|replies| - 1]) + PartTexts(replies[|replies| - 1].content.GetOr([]))
  }

  function Calls(replies: seq<Reply>): seq<FunctionCall> {
    if |replies| == 0 then []
    else Calls(replies[..|replies| - 1]) + PartCalls(replies[|replies| - 1].content.GetOr([]))
  }

  /** The calls as the client sees them, numbered from `start`. */
  function Numbered(codec: Json.Codec, start: nat, calls: seq<FunctionCall>): seq<ToolCall> {
    seq(|calls|, i requires 0 <= i < |calls| =>
      ToolCall(CallId(start + i), calls[i].name, codec.show(calls[i].args)))
  }

  /** The finish reasons under their OpenAI names: the table of the whole-response translator. */
  function WholeFinishReason(reason: string): string {
    match reason
    case "STOP" => "stop"
    case "MAX_TOKENS" => "length"
    case "SAFETY" => "content_filter"
    case "RECITATION" => "content_filter"
    case _ => reason
  }

  function MapWhole(reason: Option<string>): Option<string> {
    if reason.Some? then Some(WholeFinishReason(reason.value)) else None
  }

  function LastFinish(replies: seq<Reply>): Option<string> {
    if |replies| == 0 then None else MapWhole(replies[|replies| - 1].finishReason)
  }

  function ToOpenAi(codec: Json.Codec, created: nat, candidates: Option<seq<Reply>>, usage: Option<Counts>): Response {
    var replies := candidates.GetOr([]);
    var texts, calls := Texts(replies), Numbered(codec, 0, Calls(replies));
    Response("chatcmpl-gemini-" + Decimal(created), created, "gemini",
             if |texts| == 0 then None else Some(Concat(texts)),
             if |calls| == 0 then None else Some(calls),
             LastFinish(replies), UsageOf(usage))
  }

  lemma NumberedSnoc(codec: Json.Codec, start: nat, calls: seq<FunctionCall>, c: FunctionCall)
    ensures Numbered(codec, start, calls + [c]) ==
            Numbered(codec, start, calls) + [ToolCall(CallId(start + |calls|), c.name, codec.show(c.args))]
  {
  }

  /** `gemini_to_openai_response`. */
  method TranslateResponse(codec: Json.Codec, created: nat, candidates: Option<seq<Reply>>, usage: Option<Counts>)
    returns (r: Response)
    ensures r == ToOpenAi(codec, created, candidates, usage)
  {
    hide CallId, Numbered, Decimal, WholeFinishReason;
    var textParts: seq<string>, toolCalls: seq<ToolCall> := [], [];
    var finishReason: Option<string>, tcIndex: nat := None, 0;
    assert Numbered(codec, 0, []) == [] by { NumberedLength(codec, 0, []); }
    var replies := candidates.GetOr([]);
    for i := 0 to |replies|
      invariant textParts == Texts(replies[..i])
      invariant toolCalls == Numbered(codec, 0, Calls(replies[..i]))
      invariant tcIndex == |Calls(replies[..i])|
      invariant finishReason == LastFinish(replies[..i])
    {
      assert replies[..i + 1][..i] == replies[..i];
      var candidate := replies[i];
      ghost var texts, calls := textParts, Calls(replies[..i]);
      assert texts + [] == texts && calls + [] == calls;
      if candidate.content.Some? {
        var parts := candidate.content.value;
        for j := 0 to |parts|
          invariant textParts == texts + PartTexts(parts[..j])
          invariant toolCalls == Numbered(codec, 0, calls + PartCalls(parts[..j]))
          invariant tcIndex == |calls + PartCalls(parts[..j])|
        {
          assert parts[..j + 1][..j] == parts[..j];
          var part := parts[j];
          if part.text.Some? {
            var text := part.text.value;
            assert texts + (PartTexts(parts[..j]) + [text]) == texts + PartTexts(parts[..j]) + [text];
            textParts := textParts + [text];
          }
          if part.call.Some? {
            var fc := part.call.value;
            NumberedSnoc(codec, 0, calls + PartCalls(parts[..j]), fc);
            assert calls + (PartCalls(parts[..j]) + [fc]) == calls + PartCalls(parts[..j]) + [fc];
            toolCalls := toolCalls + [ToolCall(CallId(tcIndex), fc.name, codec.show(fc.args))];
            tcIndex := tcIndex + 1;
          }
        }
        assert parts[..|parts|] == parts;
      }
      finishReason := MapWhole(candidate.finishReason);
    }
    assert replies[..|replies|] == replies;
    var tokens: Option<Usage> := None;
    if usage.Some? {
      var prompt, completion := usage.value.input.GetOr(0), usage.value.output.GetOr(0);
      tokens := Some(Usage(prompt, completion, prompt + completion));
    }
    r := Response("chatcmpl-gemini-" + Decimal(created), created, "gemini",
                  if textParts == [] then None else Some(Concat(textParts)),
                  if toolCalls == [] then None else Some(toolCalls),
                  finishReason, tokens);
  }

  lemma NumberedLength(codec: Json.Codec, start: nat, calls: seq<FunctionCall>)
    ensures |Numbered(codec, start, calls)| == |calls|
  {
  }

  /** No two calls of a response get the same id. */
  lemma CallIdsDistinct(codec: Json.Codec, calls: seq<FunctionCall>, i: nat, j: nat)
    requires i < j < |calls|
    ensures Numbered(codec, 0, calls)[i].id != Numbered(codec, 0, calls)[j].id
  {
    if CallId(i) == CallId(j) {
      assert CallId(i)[5..] == Decimal(i) && CallId(j)[5..] == Decimal(j);
      DecimalInjective(i, j);
    }
  }

  // ---- The same message as a stream ------------------------------------------------------

  function WirePart(p: ReplyPart): Part {
    Part(p.text, if p.call.Some? then Some(CallPart(Some(p.call.value.name), Some(p.call.value.args))) else None)
  }

  function WireParts(parts: seq<ReplyPart>): seq<Part> {
    seq(|parts|, i requires 0 <= i < |parts| => WirePart(parts[i]))
  }

  function WireReply(r: Reply): Candidate {
    Candidate(if r.content.Some? then Some(WireParts(r.content.value)) else None, r.finishReason)
  }

  function WireReplies(replies: seq<Reply>): seq<Candidate> {
    seq(|replies|, i requires 0 <= i < |replies| => WireReply(replies[i]))
  }

  predicate Complete(replies: seq<Reply>) {
    forall i | 0 <= i < |replies| :: replies[i].content.Some?
  }

  /** Machine and client together. `Tied` relates them: chunks restate one header, and the tool
      calls the client holds are numbered without a gap up to the machine's index. */
  datatype Progress = Progress(state: State, client: Assembled)

  predicate Tied(p: Progress) {
    IndicesBelow(p.client.tools, p.state.toolCallIndex)
  }

  function Indexed(start: nat, calls: seq<ToolCall>): seq<(nat, ToolCall)> {
    seq(|calls|, i requires 0 <= i < |calls| => (start + i, calls[i]))
  }

  /** The client has gained these texts and calls; header and roles are not compared. */
  predicate Gained(codec: Json.Codec, p: Progress, q: Progress, texts: seq<string>, calls: seq<FunctionCall>) {
    && q.state.toolCallIndex == p.state.toolCallIndex + |calls|
    && q.client.content == p.client.content + Concat(texts)
    && q.client.tools == p.client.tools +
                         Indexed(p.state.toolCallIndex, Numbered(codec, p.state.toolCallIndex, calls))
    && q.client.dones == p.client.dones
    && q.state.chunkId == p.state.chunkId && q.state.created == p.state.created
  }

  lemma TextGained(p: Progress, text: Option<string>)
    ensures
      var r := TextStep(p.state, text);
      var c := Assemble(p.client, r.output);
      && c.content == p.client.content + text.GetOr("")
      && c.tools == p.client.tools && c.finishReason == p.client.finishReason && c.dones == p.client.dones
      && r.state.toolCallIndex == p.state.toolCallIndex
      && r.state.chunkId == p.state.chunkId && r.state.created == p.state.created
  {
    if text.Some? {
      AssembleOne(p.client, TextStep(p.state, text).output[0]);
    } else {
      assert p.client.content + "" == p.client.content;
    }
  }

  lemma CallGained(codec: Json.Codec, p: Progress, call: FunctionCall)
    requires Tied(p)
    ensures
      var r := CallStep(codec, p.state, Some(CallPart(Some(call.name), Some(call.args))));
      var n := p.state.toolCallIndex;
      Assemble(p.client, r.output) ==
      p.client.(id := p.state.chunkId, model := "gemini", created := p.state.created,
                tools := p.client.tools + [(n, ToolCall(CallId(n), call.name, codec.show(call.args)))])
  {
    hide CallId;
    var n := p.state.toolCallIndex;
    var d := ToolDelta(n, Some(CallId(n)), Some(call.name), codec.show(call.args));
    AssembleOne(p.client, p.state.Chunk(Delta(None, None, [d]), None));
    AddOneTool(p.client.tools, d);
    AddNewTool(p.client.tools, d);
    assert p.client.content + "" == p.client.content;
  }

  function AfterParts(codec: Json.Codec, p: Progress, parts: seq<ReplyPart>): Progress {
    var r := Parts(codec, p.state, WireParts(parts));
    Progress(r.state, Assemble(p.client, r.output))
  }

  lemma PartGained(codec: Json.Codec, p: Progress, part: ReplyPart)
    requires Tied(p)
    ensures
      var r := PartStep(codec, p.state, WirePart(part));
      var c := Assemble(p.client, r.output);
      && c.content == p.client.content + part.text.GetOr("")
      && c.tools == p.client.tools +
                    (if part.call.Some? then
                       [(p.state.toolCallIndex, ToolCall(CallId(p.state.toolCallIndex), part.call.value.name,
                                                         codec.show(part.call.value.args)))]
                     else [])
      && r.state.toolCallIndex == p.state.toolCallIndex + (if part.call.Some? then 1 else 0)
      && c.finishReason == p.client.finishReason && c.dones == p.client.dones
      && r.state.chunkId == p.state.chunkId && r.state.created == p.state.created
  {
    hide CallId, IndicesBelow;
    var t := TextStep(p.state, part.text);
    TextGained(p, part.text);
    var q := Progress(t.state, Assemble(p.client, t.output));
    var u := CallStep(codec, t.state, WirePart(part).call);
    AssembleAppend(p.client, t.output, u.output);
    if part.call.Some? {
      CallGained(codec, q, part.call.value);
    } else {
      assert p.client.tools + [] == p.client.tools;
    }
  }

  lemma ConcatSnoc(texts: seq<string>, t: string)
    ensures Concat(texts + [t]) == Concat(texts) + t
  {
    ConcatAppend(texts, [t]);
    assert [t][1..] == [] && t + [] == t;
    assert Concat([t]) == t;
  }

  lemma {:induction false} PartsGained(codec: Json.Codec, p: Progress, parts: seq<ReplyPart>)
    requires Tied(p)
    ensures Gained(codec, p, AfterParts(codec, p, parts), PartTexts(parts), PartCalls(parts))
    ensures AfterParts(codec, p, parts).client.finishReason == p.client.finishReason
    ensures Tied(AfterParts(codec, p, parts))
  {
    hide PartStep, CallId, Concat;
    if |parts| == 0 {
      GainedNothing(codec, p);
    } else {
      var init, last := parts[..|parts| - 1], parts[|parts| - 1];
      PartsGained(codec, p, init);
      var q := AfterParts(codec, p, init);
      assert WireParts(parts)[..|init|] == WireParts(init);
      var r := Parts(codec, p.state, WireParts(init));
      AssembleAppend(p.client, r.output, PartStep(codec, q.state, WirePart(last)).output);
      PartGained(codec, q, last);
      var texts, calls, n := PartTexts(init), PartCalls(init), p.state.toolCallIndex;
      if last.text.Some? {
        ConcatSnoc(texts, last.text.value);
      }
      if last.call.Some? {
        NumberedSnoc(codec, n, calls, last.call.value);
      }
    }
  }

  lemma GainedNothing(codec: Json.Codec, p: Progress)
    ensures Gained(codec, p, p, [], [])
  {
    assert p.client.content + Concat<char>([]) == p.client.content;
    assert Indexed(p.state.toolCallIndex, Numbered(codec, p.state.toolCallIndex, [])) == [];
  }

  function AfterReplies(codec: Json.Codec, p: Progress, replies: seq<Reply>): Progress {
    var v := Candidates(codec, p.state, WireReplies(replies));
    Progress(v.state, Assemble(p.client, v.output))
  }

  /** The last finish reason that is not missing; `d` if all are. */
  function LastGiven(replies: seq<Reply>, d: Option<string>): Option<string> {
    if |replies| == 0 then d
    else
      var last := MapFinish(replies[|replies| - 1].finishReason);
      if last.Some? then last else LastGiven(replies[..|replies| - 1], d)
  }

  lemma GainedTwice(codec: Json.Codec, p: Progress, q: Progress, r: Progress,
                    t1: seq<string>, c1: seq<FunctionCall>, t2: seq<string>, c2: seq<FunctionCall>)
    requires Gained(codec, p, q, t1, c1) && Gained(codec, q, r, t2, c2)
    ensures Gained(codec, p, r, t1 + t2, c1 + c2)
  {
    hide Concat, CallId;
    ConcatAppend(t1, t2);
    Associative(p.client.content, Concat(t1), Concat(t2));
    var n := p.state.toolCallIndex;
    assert Indexed(n, Numbered(codec, n, c1 + c2)) ==
           Indexed(n, Numbered(codec, n, c1)) + Indexed(n + |c1|, Numbered(codec, n + |c1|, c2));
    assert p.client.tools + Indexed(n, Numbered(codec, n, c1)) + Indexed(n + |c1|, Numbered(codec, n + |c1|, c2)) ==
           p.client.tools + (Indexed(n, Numbered(codec, n, c1)) + Indexed(n + |c1|, Numbered(codec, n + |c1|, c2)));
  }

  /** One event, or several in a row taken as one: texts and calls of its candidates in order. */
  lemma {:induction false} RepliesGained(codec: Json.Codec, p: Progress, replies: seq<Reply>)
    requires Tied(p) && Complete(replies)
    ensures !Candidates(codec, p.state, WireReplies(replies)).aborted
    ensures Gained(codec, p, AfterReplies(codec, p, replies), Texts(replies), Calls(replies))
    ensures AfterReplies(codec, p, replies).client.finishReason == LastGiven(replies, p.client.finishReason)
    ensures Tied(AfterReplies(codec, p, replies))
  {
    hide Gained, PartTexts, PartCalls, FinishReason, Parts;
    if |replies| == 0 {
      GainedNothing(codec, p);
    } else {
      var init, last := replies[..|replies| - 1], replies[|replies| - 1];
      RepliesGained(codec, p, init);
      var q := AfterReplies(codec, p, init);
      assert WireReplies(replies)[..|init|] == WireReplies(init);
      var v := Candidates(codec, p.state, WireReplies(init));
      var r := Parts(codec, v.state, WireParts(last.content.value));
      PartsGained(codec, q, last.content.value);
      var mid := AfterParts(codec, q, last.content.value);
      AssembleAppend(p.client, v.output, r.output);
      AssembleAppend(p.client, v.output + r.output, FinishFrames(r.state, last.finishReason));
      GainedTwice(codec, p, q, mid, Texts(init), Calls(init),
                  PartTexts(last.content.value), PartCalls(last.content.value));
      GainedIgnoresFinish(codec, p, mid, AfterReplies(codec, p, replies), Texts(replies), Calls(replies));
    }
  }

  lemma GainedIgnoresFinish(codec: Json.Codec, p: Progress, q: Progress, r: Progress,
                            texts: seq<string>, calls: seq<FunctionCall>)
    requires Gained(codec, p, q, texts, calls) && r.state == q.state
    requires r.client.content == q.client.content && r.client.tools == q.client.tools
    requires r.client.dones == q.client.dones
    ensures Gained(codec, p, r, texts, calls)
  {
  }

  /** One event. One with a candidate that lacks parts emits nothing, but moves the machine on. */
  function AfterEvent(codec: Json.Codec, p: Progress, replies: seq<Reply>): Progress {
    var v := Candidates(codec, p.state, WireReplies(replies));
    Progress(v.state, if v.aborted then p.client else Assemble(p.client, v.output))
  }

  /** Several events, one after the other. */
  function AfterEvents(codec: Json.Codec, p: Progress, events: seq<seq<Reply>>): Progress
    decreases |events|
  {
    if |events| == 0 then p else AfterEvents(codec, AfterEvent(codec, p, events[0]), events[1..])
  }

  predicate AllComplete(events: seq<seq<Reply>>) {
    forall i | 0 <= i < |events| :: Complete(events[i])
  }

  /** The candidates of the events whose candidates all have parts. */
  function Delivered(events: seq<seq<Reply>>): seq<Reply>
    decreases |events|
  {
    if |events| == 0 then []
    else if Complete(events[0]) then events[0] + Delivered(events[1..]) else Delivered(events[1..])
  }

  /** Events with a candidate that lacks parts carry only empty texts. */
  predicate TextsKept(events: seq<seq<Reply>>) {
    forall i | 0 <= i < |events| && !Complete(events[i]) :: Concat(Texts(events[i])) == ""
  }

  /** Events with a candidate that lacks parts carry no calls. */
  predicate CallsKept(events: seq<seq<Reply>>) {
    forall i | 0 <= i < |events| && !Complete(events[i]) :: Calls(events[i]) == []
  }

  lemma WireLacksParts(replies: seq<Reply>)
    ensures LacksParts(WireReplies(replies)) <==> !Complete(replies)
  {
    var cands := WireReplies(replies);
    if !Complete(replies) {
      var i :| 0 <= i < |replies| && replies[i].content.None?;
      assert cands[i].parts.None?;
    }
  }

  // What an aborted event does to the machine.

  lemma {:induction false} PartsAdvance(codec: Json.Codec, s: State, parts: seq<ReplyPart>)
    ensures var r := Parts(codec, s, WireParts(parts)).state;
      && r.toolCallIndex == s.toolCallIndex + |PartCalls(parts)|
      && r.chunkId == s.chunkId && r.created == s.created
  {
    if |parts| > 0 {
      var init := parts[..|parts| - 1];
      PartsAdvance(codec, s, init);
      assert WireParts(parts)[..|init|] == WireParts(init);
    }
  }

  lemma {:induction false} CandidatesAdvance(codec: Json.Codec, s: State, replies: seq<Reply>)
    ensures var r := Candidates(codec, s, WireReplies(replies)).state;
      && s.toolCallIndex <= r.toolCallIndex <= s.toolCallIndex + |Calls(replies)|
      && r.chunkId == s.chunkId && r.created == s.created
  {
    hide Parts, PartCalls;
    if |replies| > 0 {
      var init, last := replies[..|replies| - 1], replies[|replies| - 1];
      CandidatesAdvance(codec, s, init);
      assert WireReplies(replies)[..|init|] == WireReplies(init);
      var v := Candidates(codec, s, WireReplies(init));
      if last.content.Some? {
        PartsAdvance(codec, v.state, last.content.value);
      }
    }
  }

  /** The client has gained these texts, and these calls in order under some indices. */
  predicate GainedLoosely(codec: Json.Codec, p: Progress, q: Progress, texts: seq<string>, calls: seq<FunctionCall>) {
    && q.client.content == p.client.content + Concat(texts)
    && |q.client.tools| == |p.client.tools| + |calls|
    && q.client.tools[..|p.client.tools|] == p.client.tools
    && (forall i | 0 <= i < |calls| ::
          var t := q.client.tools[|p.client.tools| + i].1;
          t.name == calls[i].name && t.arguments == codec.show(calls[i].args))
    && q.client.dones == p.client.dones
  }

  lemma GainedIsLoose(codec: Json.Codec, p: Progress, q: Progress, texts: seq<string>, calls: seq<FunctionCall>)
    requires Gained(codec, p, q, texts, calls)
    ensures GainedLoosely(codec, p, q, texts, calls)
  {
    hide Concat, CallId;
    NumberedLength(codec, p.state.toolCallIndex, calls);
  }

  lemma GainedLooselyTwice(codec: Json.Codec, p: Progress, q: Progress, r: Progress,
                           t1: seq<string>, c1: seq<FunctionCall>, t2: seq<string>, c2: seq<FunctionCall>)
    requires GainedLoosely(codec, p, q, t1, c1) && GainedLoosely(codec, q, r, t2, c2)
    ensures GainedLoosely(codec, p, r, t1 + t2, c1 + c2)
  {
    hide Concat;
    ConcatAppend(t1, t2);
    Associative(p.client.content, Concat(t1), Concat(t2));
    var n := |p.client.tools|;
    assert r.client.tools[..n] == r.client.tools[..|q.client.tools|][..n];
    forall i | 0 <= i < |c1 + c2|
      ensures
        var t := r.client.tools[n + i].1;
        t.name == (c1 + c2)[i].name && t.arguments == codec.show((c1 + c2)[i].args)
    {
      if i < |c1| {
        assert r.client.tools[n + i] == r.client.tools[..|q.client.tools|][n + i];
      } else {
        assert r.client.tools[n + i] == r.client.tools[|q.client.tools| + (i - |c1|)];
      }
    }
  }

  /** What one event gives the client: all of it, or nothing. */
  lemma EventGained(codec: Json.Codec, p: Progress, replies: seq<Reply>)
    requires Tied(p)
    ensures
      var q := AfterEvent(codec, p, replies);
      && Tied(q)
      && (if Complete(replies) then
            && Gained(codec, p, q, Texts(replies), Calls(replies))
            && q.client.finishReason == LastGiven(replies, p.client.finishReason)
          else
            && q.client == p.client && (Calls(replies) == [] ==> Gained(codec, p, q, [], [])))
  {
    hide Candidates, Texts, Calls, LastGiven, Complete, LacksParts;
    WireLacksParts(replies);
    AbortedIff(codec, p.state, WireReplies(replies));
    if Complete(replies) {
      RepliesGained(codec, p, replies);
    } else {
      CandidatesAdvance(codec, p.state, replies);
      GainedNothing(codec, p);
    }
  }

  /** Whatever the events are, the client gains exactly the texts, calls and last finish reason of the
      delivered ones; and the calls are numbered without a gap if no call is lost. */
  lemma {:induction false} EventsGained(codec: Json.Codec, p: Progress, events: seq<seq<Reply>>)
    requires Tied(p)
    ensures
      var q, sent := AfterEvents(codec, p, events), Delivered(events);
      && GainedLoosely(codec, p, q, Texts(sent), Calls(sent))
      && q.client.finishReason == LastGiven(sent, p.client.finishReason)
      && (CallsKept(events) ==> Gained(codec, p, q, Texts(sent), Calls(sent)))
    decreases |events|
  {
    hide Gained, GainedLoosely, AfterEvent, LastGiven, Texts, Calls, Complete, Tied, CallsKept;
    if |events| == 0 {
      GainedNothing(codec, p);
      GainedIsLoose(codec, p, p, [], []);
      TextsOfNothing(p.client.finishReason);
    } else {
      var e, q, rest := events[0], AfterEvent(codec, p, events[0]), Delivered(events[1..]);
      var r := AfterEvents(codec, q, events[1..]);
      EventGained(codec, p, e);
      EventsGained(codec, q, events[1..]);
      CallsKeptFirst(events);
      if Complete(e) {
        GainedIsLoose(codec, p, q, Texts(e), Calls(e));
        GainedLooselyTwice(codec, p, q, r, Texts(e), Calls(e), Texts(rest), Calls(rest));
        if CallsKept(events) {
          GainedTwice(codec, p, q, r, Texts(e), Calls(e), Texts(rest), Calls(rest));
        }
        RepliesAppend(e, rest, p.client.finishReason);
      } else {
        SameClient(codec, p, q, r, Texts(rest), Calls(rest));
        if CallsKept(events) {
          GainedTwice(codec, p, q, r, [], [], Texts(rest), Calls(rest));
          assert [] + Texts(rest) == Texts(rest) && [] + Calls(rest) == Calls(rest);
        }
      }
    }
  }

  lemma SameClient(codec: Json.Codec, p: Progress, q: Progress, r: Progress,
                   texts: seq<string>, calls: seq<FunctionCall>)
    requires p.client == q.client && GainedLoosely(codec, q, r, texts, calls)
    ensures GainedLoosely(codec, p, r, texts, calls)
  {
  }

  lemma CallsKeptFirst(events: seq<seq<Reply>>)
    requires |events| > 0
    ensures CallsKept(events) <==> (Complete(events[0]) || Calls(events[0]) == []) && CallsKept(events[1..])
  {
    hide Complete, Calls;
    assert events == [events[0]] + events[1..];
  }

  lemma TextsKeptFirst(events: seq<seq<Reply>>)
    requires |events| > 0
    ensures TextsKept(events) <==> (Complete(events[0]) || Concat(Texts(events[0])) == "") && TextsKept(events[1..])
  {
    hide Complete, Texts, Concat;
    assert events == [events[0]] + events[1..];
  }

  /** What the whole response holds beyond the delivered candidates is nothing, if and only if the events
      that are not delivered hold nothing. */
  lemma {:induction false} DeliveredAgainstAll(events: seq<seq<Reply>>)
    ensures var all, sent := Concat(events), Delivered(events);
      && |Concat(Texts(sent))| <= |Concat(Texts(all))| && |Calls(sent)| <= |Calls(all)|
      && (Concat(Texts(sent)) == Concat(Texts(all)) <==> TextsKept(events))
      && (|Concat(Texts(sent))| == |Concat(Texts(all))| <==> TextsKept(events))
      && (Calls(sent) == Calls(all) <==> CallsKept(events))
      && (|Calls(sent)| == |Calls(all)| <==> CallsKept(events))
    decreases |events|
  {
    hide Texts, Calls, Complete, LastGiven, TextsKept, CallsKept;
    if |events| == 0 {
      NothingLost(events);
    } else {
      var e, all, sent := events[0], Concat(events[1..]), Delivered(events[1..]);
      DeliveredAgainstAll(events[1..]);
      CallsKeptFirst(events);
      TextsKeptFirst(events);
      RepliesAppend(e, all, None);
      RepliesAppend(e, sent, None);
      ConcatAppend(Texts(e), Texts(all));
      ConcatAppend(Texts(e), Texts(sent));
      SamePrefix(Concat(Texts(e)), Concat(Texts(sent)), Concat(Texts(all)));
      SamePrefix(Calls(e), Calls(sent), Calls(all));
    }
  }

  lemma NothingLost(events: seq<seq<Reply>>)
    requires |events| == 0
    ensures TextsKept(events) && CallsKept(events) && Delivered(events) == Concat(events)
  {
  }

  /** Putting `x` in front of either or both of two lists, the second at least as long. */
  lemma SamePrefix<T>(x: seq<T>, a: seq<T>, b: seq<T>)
    ensures x + a == x + b <==> a == b
    ensures |a| <= |b| ==> (a == x + b <==> x == [] && a == b)
  {
    if x + a == x + b {
      assert a == (x + a)[|x|..] && b == (x + b)[|x|..];
    }
    if |x| == 0 {
      assert x + b == b;
    }
  }

  lemma TextsOfNothing(d: Option<string>)
    ensures Texts([]) == [] && Calls([]) == [] && LastGiven([], d) == d
  {
  }

  lemma {:induction false} RepliesAppend(a: seq<Reply>, b: seq<Reply>, d: Option<string>)
    ensures Texts(a + b) == Texts(a) + Texts(b) && Calls(a + b) == Calls(a) + Calls(b)
    ensures LastGiven(a + b, d) == LastGiven(b, LastGiven(a, d))
    decreases |b|
  {
    hide PartTexts, PartCalls, MapFinish;
    if |b| == 0 {
      assert a + b == a;
    } else {
      var init, last := b[..|b| - 1], b[|b| - 1];
      assert (a + b)[..|a + b| - 1] == a + init;
      RepliesAppend(a, init, d);
      var t, c := PartTexts(last.content.GetOr([])), PartCalls(last.content.GetOr([]));
      assert Texts(a) + (Texts(init) + t) == Texts(a) + Texts(init) + t;
      assert Calls(a) + (Calls(init) + c) == Calls(a) + Calls(init) + c;
    }
  }

  predicate NoneGiven(replies: seq<Reply>) {
    forall i | 0 <= i < |replies| :: replies[i].finishReason.None?
  }

  lemma SameTable(reason: Option<string>)
    ensures MapWhole(reason) == MapFinish(reason)
  {
  }

  lemma {:induction false} LastGivenIsLast(replies: seq<Reply>)
    ensures LastGiven(replies, None) == LastFinish(replies) <==>
            |replies| == 0 || replies[|replies| - 1].finishReason.Some? || NoneGiven(replies)
    ensures LastGiven(replies, None) == None <==> NoneGiven(replies)
  {
    hide FinishReason, WholeFinishReason;
    if |replies| > 0 {
      SameTable(replies[|replies| - 1].finishReason);
      LastGivenIsLast(replies[..|replies| - 1]);
      assert replies == replies[..|replies| - 1] + [replies[|replies| - 1]];
    }
  }

  /** Candidate `i` is the last that gives a finish reason. */
  predicate GivesLast(replies: seq<Reply>, i: nat) {
    && i < |replies| && replies[i].finishReason.Some?
    && forall j | i < j < |replies| :: replies[j].finishReason.None?
  }

  lemma {:induction false} LastGivenAt(replies: seq<Reply>) returns (i: nat)
    ensures if NoneGiven(replies) then forall j: nat :: !GivesLast(replies, j)
            else GivesLast(replies, i) && LastGiven(replies, None) == MapFinish(replies[i].finishReason)
    ensures forall j: nat | GivesLast(replies, j) :: j == i
  {
    hide FinishReason;
    i := 0;
    if |replies| > 0 {
      var init, last := replies[..|replies| - 1], replies[|replies| - 1];
      i := LastGivenAt(init);
      assert replies == init + [last];
      forall j: nat | GivesLast(replies, j) && last.finishReason.None?
        ensures GivesLast(init, j)
      {
      }
      if last.finishReason.Some? {
        i := |init|;
      }
    }
  }

  lemma {:induction false} DeliveredWhole(events: seq<seq<Reply>>)
    requires AllComplete(events)
    ensures Delivered(events) == Concat(events) && TextsKept(events) && CallsKept(events)
    decreases |events|
  {
    hide Texts, Calls, Complete;
    if |events| > 0 {
      DeliveredWhole(events[1..]);
    }
  }

  /** Streaming against the whole-response translation of the concatenated candidates, for any events.
      The texts agree if and only if every event with a candidate that lacks parts carries only empty
      texts; the calls, with the ids `call_0`, `call_1`, ... running on across events, if and only if
      every such event carries no calls. The finish reasons agree, if the last candidate gives one, if and
      only if the last delivered candidate that gives one gives one of the same OpenAI name; and otherwise
      if and only if no delivered candidate gives one. */
  lemma StreamingAgainstWhole(codec: Json.Codec, created: nat, events: seq<seq<Reply>>, usage: Option<Counts>)
    ensures
      var all, sent := Concat(events), Delivered(events);
      var got := AfterEvents(codec, Progress(Start(created), NOTHING), events).client;
      var want := ToOpenAi(codec, created, Some(all), usage);
      && (got.content == want.content.GetOr("") <==> TextsKept(events))
      && (got.tools == Indexed(0, want.toolCalls.GetOr([])) <==> CallsKept(events))
      && (got.finishReason == want.finishReason <==>
          if |all| == 0 || all[|all| - 1].finishReason.None? then NoneGiven(sent)
          else
            exists i: nat :: GivesLast(sent, i) &&
              FinishReason(sent[i].finishReason.value) == FinishReason(all[|all| - 1].finishReason.value))
  {
    hide AfterEvents, Texts, Calls, NoneGiven, TextsKept, CallsKept, Concat, Delivered, CallId, Decimal;
    var p := Progress(Start(created), NOTHING);
    var all, sent := Concat(events), Delivered(events);
    EventsGained(codec, p, events);
    DeliveredAgainstAll(events);
    LastGivenIsLast(sent);
    var i := LastGivenAt(sent);
    ConcatOfNothing<char>();
    assert "" + Concat(Texts(sent)) == Concat(Texts(sent));
    NumberedLength(codec, 0, Calls(all));
  }

  /** Streaming refines the whole-response translation when every candidate has parts: same text, same
      calls, and the same finish reason exactly when the last candidate has one or none has. */
  lemma StreamingRefinesWhole(codec: Json.Codec, created: nat, events: seq<seq<Reply>>, usage: Option<Counts>)
    requires AllComplete(events)
    ensures
      var all := Concat(events);
      var got := AfterEvents(codec, Progress(Start(created), NOTHING), events).client;
      var want := ToOpenAi(codec, created, Some(all), usage);
      && got.content == want.content.GetOr("")
      && got.tools == Indexed(0, want.toolCalls.GetOr([]))
      && (got.finishReason == want.finishReason <==>
          |all| == 0 || all[|all| - 1].finishReason.Some? || NoneGiven(all))
  {
    hide AfterEvents, Texts, Calls, LastGiven, NoneGiven, TextsKept, CallsKept, Concat, Delivered, AllComplete;
    StreamingAgainstWhole(codec, created, events, usage);
    DeliveredWhole(events);
    LastGivenIsLast(Concat(events));
  }

  /** The finish reason a client gets from a stream: that of the last delivered candidate that gives one. */
  lemma StreamFinish(codec: Json.Codec, created: nat, events: seq<seq<Reply>>)
    ensures
      var sent := Delivered(events);
      var r := AfterEvents(codec, Progress(Start(created), NOTHING), events).client.finishReason;
      && (r == None <==> NoneGiven(sent))
      && (r.Some? ==>
           exists i: nat :: GivesLast(sent, i) &&
             var reason := sent[i].finishReason.value;
             && (r == Some("stop") <==> reason in {"STOP", "stop"})
             && (r == Some("length") <==> reason in {"MAX_TOKENS", "length"})
             && (r == Some("content_filter") <==> reason in {"SAFETY", "RECITATION", "content_filter"})
             && (r in {Some("stop"), Some("length"), Some("content_filter")} || r == Some(reason)))
  {
    hide AfterEvents, Texts, Calls, NoneGiven, CallsKept, Delivered, CallId, Decimal, LastGiven;
    EventsGained(codec, Progress(Start(created), NOTHING), events);
    LastGivenIsLast(Delivered(events));
    var i := LastGivenAt(Delivered(events));
  }

  /** The fields of the whole response that are not the text itself. */
  lemma WholeResponseSays(codec: Json.Codec, created: nat, candidates: Option<seq<Reply>>, usage: Option<Counts>)
    ensures
      var w, replies := ToOpenAi(codec, created, candidates, usage), candidates.GetOr([]);
      var r := w.finishReason;
      && w.id == "chatcmpl-gemini-" + Decimal(created) && w.model == "gemini" && w.created == created
      && (w.content == None <==> Texts(replies) == []) && (w.toolCalls == None <==> Calls(replies) == [])
      && |w.toolCalls.GetOr([])| == |Calls(replies)|
      && (forall i | 0 <= i < |Calls(replies)| ::
           w.toolCalls.GetOr([])[i] ==
           ToolCall("call_" + Decimal(i), Calls(replies)[i].name, codec.show(Calls(replies)[i].args)))
      && (r == None <==> |replies| == 0 || replies[|replies| - 1].finishReason == None)
      && (r.Some? ==>
           var reason := replies[|replies| - 1].finishReason.value;
           && (r == Some("stop") <==> reason in {"STOP", "stop"})
           && (r == Some("length") <==> reason in {"MAX_TOKENS", "length"})
           && (r == Some("content_filter") <==> reason in {"SAFETY", "RECITATION", "content_filter"})
           && (r in {Some("stop"), Some("length"), Some("content_filter")} || r == Some(reason)))
      && (w.usage == None <==> usage == None)
      && (usage.Some? ==>
           var input, output := usage.value.input.GetOr(0), usage.value.output.GetOr(0);
           && w.usage.value.promptTokens == input && w.usage.value.completionTokens == output
           && w.usage.value.totalTokens == input + output)
  {
    hide Texts, Calls, Concat, Decimal;
  }

  /** Every chunk restates the same id, model and creation time. */
  predicate SameHeader(s: State, frames: seq<Frame>) {
    forall f | f in frames :: f.Chunk? && f.id == s.chunkId && f.created == s.created && f.model == "gemini"
  }

  lemma {:induction false} PartsHeader(codec: Json.Codec, s: State, parts: seq<Part>)
    ensures
      var r := Parts(codec, s, parts);
      SameHeader(s, r.output) && r.state.chunkId == s.chunkId && r.state.created == s.created
  {
    if |parts| > 0 {
      PartsHeader(codec, s, parts[..|parts| - 1]);
    }
  }

  lemma {:induction false} ConstantHeader(codec: Json.Codec, s: State, cands: seq<Candidate>)
    ensures
      var v := Candidates(codec, s, cands);
      SameHeader(s, v.output) && v.state.chunkId == s.chunkId && v.state.created == s.created
  {
    hide Parts;
    if |cands| > 0 {
      var init, c := cands[..|cands| - 1], cands[|cands| - 1];
      ConstantHeader(codec, s, init);
      if c.parts.Some? {
        PartsHeader(codec, Candidates(codec, s, init).state, c.parts.value);
      }
    }
  }
}
