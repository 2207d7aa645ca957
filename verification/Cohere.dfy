/** The non-streaming Cohere translator, and how far the stream translator agrees with it. */
module Cohere {
  import opened Text
  import opened SseFraming
  import opened OpenAi
  import opened Delivery
  import opened CohereStream

  datatype TextBlock = TextBlock(kind: string, text: Option<string>)

  datatype Message = Message(
    id: Option<string>, model: Option<string>, content: Option<seq<TextBlock>>,
    toolCalls: Option<seq<ToolCall>>, finishReason: Option<string>, usage: Option<Counts>)

  function WholeFinishReason(reason: Option<string>): Option<string> {
    if reason.None? then None
    else if reason.value == "COMPLETE" then Some("stop")
    else if reason.value == "MAX_TOKENS" then Some("length")
    else if reason.value == "TOOL_CALL" then Some("tool_calls")
    else if reason.value == "ERROR" then Some("stop")
    else reason
  }

  function Texts(blocks: seq<TextBlock>): seq<string> {
    if |blocks| == 0 then []
    else
      (if blocks[0].kind == "text" && blocks[0].text.Some? then [blocks[0].text.value] else [])
      + Texts(blocks[1..])
  }

  /** `cohere_to_openai_response`. */
  function ToOpenAi(m: Message, created: nat): Response {
    var texts := if m.content.Some? then Texts(m.content.value) else [];
    Response(m.id.GetOr(DefaultId(created)), created, m.model.GetOr("command-r-plus"),
             if |texts| == 0 then None else Some(Concat(texts)),
             if m.toolCalls.Some? && |m.toolCalls.value| > 0 then m.toolCalls else None,
             WholeFinishReason(m.finishReason), UsageOf(m.usage))
  }

  // ---- The same message as a stream ------------------------------------------------------

  type Event = NamedEvent<Payload>

  datatype SentCall = SentCall(id: string, name: string, pieces: seq<string>)

  // The events the machine reacts to, with the fields it reads and no others.

  function MessageStart(id: Option<string>, model: Option<string>): Event {
    Event("message-start", NO_PAYLOAD.(id := id, model := model))
  }

  function ContentDelta(text: string): Event {
    Event("content-delta", NO_PAYLOAD.(text := Some(text)))
  }

  function CallStart(k: nat, id: string, name: string): Event {
    Event("tool-call-start", NO_PAYLOAD.(index := Some(k), call := Some(CallInfo(Some(id), Some(name)))))
  }

  function CallDelta(k: nat, arguments: string): Event {
    Event("tool-call-delta", NO_PAYLOAD.(index := Some(k), arguments := Some(arguments)))
  }

  function MessageEnd(reason: Option<string>): Event {
    Event("message-end", NO_PAYLOAD.(finishReason := reason))
  }

  /** What the machine sees in an event: the fields it reads, its defaults filled in; nothing if the event
      is one it ignores. */
  function Seen(name: string, input: Input): Option<Event> {
    var p := if input.Parsed? then input.payload else NO_PAYLOAD;
    if name == "message-start" && !input.NotJson? then Some(MessageStart(p.id, p.model))
    else if name == "content-delta" && input.Parsed? then Some(ContentDelta(p.text.GetOr("")))
    else if name == "tool-call-start" && p.call.Some? then
      Some(CallStart(p.index.GetOr(0), p.call.value.id.GetOr(""), p.call.value.name.GetOr("")))
    else if name == "tool-call-delta" && input.Parsed? then Some(CallDelta(p.index.GetOr(0), p.arguments.GetOr("")))
    else if name == "message-end" && !input.NotJson? then Some(MessageEnd(p.finishReason))
    else None
  }

  /** The machine handles an event as what it sees in it. */
  lemma HandlesWhatItSees(s: State, name: string, input: Input)
    ensures
      var e := Seen(name, input);
      Handle(s, name, input) == if e.Some? then Handle(s, e.value.name, Parsed(e.value.payload)) else Ran(s, [])
  {
  }

  function ContentEvents(pieces: seq<string>): seq<Event> {
    seq(|pieces|, i requires 0 <= i < |pieces| => ContentDelta(pieces[i]))
  }

  function ArgumentEvents(k: nat, pieces: seq<string>): seq<Event> {
    seq(|pieces|, i requires 0 <= i < |pieces| => CallDelta(k, pieces[i]))
  }

  function OneCall(k: nat, c: SentCall): seq<Event> {
    [CallStart(k, c.id, c.name)] + ArgumentEvents(k, c.pieces)
  }

  function CallEvents(calls: seq<SentCall>): seq<Event> {
    if |calls| == 0 then []
    else CallEvents(calls[..|calls| - 1]) + OneCall(|calls| - 1, calls[|calls| - 1])
  }

  /** What is seen of a whole message: start, content, calls, end. */
  function MessageEvents(id: Option<string>, model: Option<string>, pieces: seq<string>,
                         calls: seq<SentCall>, reason: Option<string>): seq<Event> {
    [MessageStart(id, model)] + ContentEvents(pieces) + CallEvents(calls) + [MessageEnd(reason)]
  }

  function After(p: Progress<State>, e: Event): Progress<State> {
    var r := Handle(p.state, e.name, Parsed(e.payload));
    Progress(r.state, Assemble(p.client, r.output))
  }

  predicate InStep(p: Progress<State>) {
    p.client.id == p.state.chunkId && p.client.model == p.state.model && p.client.created == p.state.created
  }

  lemma {:induction false} AfterContent(p: Progress<State>, pieces: seq<string>)
    requires InStep(p)
    ensures Fold(After, p, ContentEvents(pieces)) ==
            p.(client := p.client.(content := p.client.content + Concat(pieces)))
    decreases |pieces|
  {
    hide After;
    if |pieces| == 0 {
      assert p.client.content + "" == p.client.content;
    } else {
      var events := ContentEvents(pieces);
      assert events[1..] == ContentEvents(pieces[1..]);
      AfterContentDelta(p, pieces[0]);
      AfterContent(After(p, events[0]), pieces[1..]);
      Associative(p.client.content, pieces[0], Concat(pieces[1..]));
    }
  }

  lemma AfterContentDelta(p: Progress<State>, piece: string)
    requires InStep(p)
    ensures After(p, ContentDelta(piece)) == p.(client := p.client.(content := p.client.content + piece))
  {
    AssembleOne(p.client, p.state.Chunk(Delta(None, Some(piece), []), None));
  }

  /** The newest call, with the argument text received so far. */
  function Grown(p: Progress<State>, k: nat, c: SentCall, said: string): Progress<State> {
    p.(client := p.client.(tools := p.client.tools + [(k, ToolCall(c.id, c.name, said))]))
  }

  lemma AfterCallStart(p: Progress<State>, k: nat, c: SentCall)
    requires InStep(p) && IndicesBelow(p.client.tools, k)
    ensures After(p, CallStart(k, c.id, c.name)) == Grown(p, k, c, "")
  {
    var d := ToolDelta(k, Some(c.id), Some(c.name), "");
    AssembleOne(p.client, p.state.Chunk(Delta(None, None, [d]), None));
    AddOneTool(p.client.tools, d);
    AddNewTool(p.client.tools, d);
    assert p.client.content + "" == p.client.content;
  }

  lemma AfterArgument(p: Progress<State>, k: nat, c: SentCall, said: string, piece: string)
    requires InStep(p) && IndicesBelow(p.client.tools, k)
    ensures After(Grown(p, k, c, said), CallDelta(k, piece)) == Grown(p, k, c, said + piece)
  {
    var g, d := Grown(p, k, c, said), ToolDelta(k, None, None, piece);
    AssembleOne(g.client, g.state.Chunk(Delta(None, None, [d]), None));
    AddOneTool(g.client.tools, d);
    ExtendLastTool(p.client.tools, k, ToolCall(c.id, c.name, said), piece);
    assert g.client.content + "" == g.client.content;
  }

  lemma {:induction false} AfterArguments(p: Progress<State>, k: nat, c: SentCall, said: string, pieces: seq<string>)
    requires InStep(p) && IndicesBelow(p.client.tools, k)
    ensures Fold(After, Grown(p, k, c, said), ArgumentEvents(k, pieces)) == Grown(p, k, c, said + Concat(pieces))
    decreases |pieces|
  {
    hide After, Grown, InStep, IndicesBelow;
    if |pieces| == 0 {
      assert said + "" == said;
    } else {
      var events := ArgumentEvents(k, pieces);
      assert events[1..] == ArgumentEvents(k, pieces[1..]);
      AfterArgument(p, k, c, said, pieces[0]);
      AfterArguments(p, k, c, said + pieces[0], pieces[1..]);
      Associative(said, pieces[0], Concat(pieces[1..]));
    }
  }

  function SentTools(calls: seq<SentCall>): seq<(nat, ToolCall)> {
    seq(|calls|, i requires 0 <= i < |calls| => (i, ToolCall(calls[i].id, calls[i].name, Concat(calls[i].pieces))))
  }

  lemma {:induction false} AfterCalls(p: Progress<State>, calls: seq<SentCall>)
    requires InStep(p) && p.client.tools == []
    ensures Fold(After, p, CallEvents(calls)) == p.(client := p.client.(tools := SentTools(calls)))
  {
    hide After, Concat, OneCall;
    if |calls| > 0 {
      var k, c := |calls| - 1, calls[|calls| - 1];
      var earlier := CallEvents(calls[..k]);
      AfterCalls(p, calls[..k]);
      var q := Fold(After, p, earlier);
      assert IndicesBelow(q.client.tools, k);
      AfterOneCall(q, k, c);
      FoldAppend(After, p, earlier, OneCall(k, c));
    }
  }

  lemma AfterOneCall(p: Progress<State>, k: nat, c: SentCall)
    requires InStep(p) && IndicesBelow(p.client.tools, k)
    ensures Fold(After, p, OneCall(k, c)) == Grown(p, k, c, Concat(c.pieces))
  {
    hide Fold, Handle, ArgumentEvents, Concat, IndicesBelow;
    var start := CallStart(k, c.id, c.name);
    AfterCallStart(p, k, c);
    AfterArguments(p, k, c, "", c.pieces);
    assert "" + Concat(c.pieces) == Concat(c.pieces);
    FoldOne(After, p, start);
    FoldAppend(After, p, [start], ArgumentEvents(k, c.pieces));
  }

  lemma AfterMessageStart(id: Option<string>, model: Option<string>, created: nat)
    ensures
      var p := After(Progress(State(DefaultId(created), "", false, created), NOTHING), MessageStart(id, model));
      var name, kind := id.GetOr(DefaultId(created)), model.GetOr("");
      p == Progress(State(name, kind, true, created), Assembled(name, kind, created, 1, "", [], None, 0))
  {
    var s := State(id.GetOr(DefaultId(created)), model.GetOr(""), true, created);
    AssembleOne(NOTHING, s.Chunk(Delta(Some("assistant"), Some(""), []), None));
    assert "" + "" == "";
  }

  lemma AfterMessageEnd(p: Progress<State>, reason: Option<string>)
    requires InStep(p)
    ensures After(p, MessageEnd(reason)) ==
            p.(client := p.client.(finishReason := Some(FinishReason(reason)), dones := p.client.dones + 1))
  {
    var last := p.state.Chunk(EMPTY_DELTA, Some(FinishReason(reason)));
    assert [last, Done] == [last] + [Done];
    AssembleAppend(p.client, [last], [Done]);
    AssembleOne(p.client, last);
    AssembleOne(AddFrame(p.client, last), Done);
    assert p.client.content + "" == p.client.content;
  }

  /** What a client holds after the whole stream. */
  function Received(id: Option<string>, model: Option<string>, created: nat, pieces: seq<string>,
                    calls: seq<SentCall>, reason: Option<string>): Assembled {
    Assembled(id.GetOr(DefaultId(created)), model.GetOr(""), created, 1, Concat(pieces), SentTools(calls),
              Some(FinishReason(reason)), 1)
  }

  /** The machine, fed the events of a message, hands the client that message. */
  lemma MessageReceived(id: Option<string>, model: Option<string>, created: nat, pieces: seq<string>,
                        calls: seq<SentCall>, reason: Option<string>)
    ensures
      Fold(After, Progress(State(DefaultId(created), "", false, created), NOTHING),
               MessageEvents(id, model, pieces, calls, reason)) ==
      Progress(State(id.GetOr(DefaultId(created)), model.GetOr(""), true, created),
               Received(id, model, created, pieces, calls, reason))
  {
    hide After, Fold, ContentEvents, CallEvents, Concat, SentTools, FinishReason, DefaultId;
    var p := Progress(State(DefaultId(created), "", false, created), NOTHING);
    var start, content, tools := MessageStart(id, model), ContentEvents(pieces), CallEvents(calls);
    AfterMessageStart(id, model, created);
    FoldOne(After, p, start);
    var q := After(p, start);
    AfterContent(q, pieces);
    assert "" + Concat(pieces) == Concat(pieces);
    var r := Fold(After, q, content);
    AfterCalls(r, calls);
    var s := Fold(After, r, tools);
    AfterMessageEnd(s, reason);
    FoldOne(After, s, MessageEnd(reason));
    FoldAppend(After, p, [start], content);
    FoldAppend(After, p, [start] + content, tools);
    FoldAppend(After, p, [start] + content + tools, [MessageEnd(reason)]);
  }

  /** Streaming against the whole response: text, tool calls and id always agree. The model agrees
      exactly when the provider names it, because the defaults differ; and the finish reason exactly
      when the provider gives one other than `ERROR`, because only the whole-response translation
      maps `ERROR` and only it leaves a missing reason missing. */
  lemma StreamingAgainstWhole(m: Message, created: nat, pieces: seq<string>, calls: seq<SentCall>)
    requires Concat(pieces) == (if m.content.Some? then Concat(Texts(m.content.value)) else "")
    requires SentTools(calls) == seq(|m.toolCalls.GetOr([])|, i requires 0 <= i < |m.toolCalls.GetOr([])| =>
                                      (i, m.toolCalls.GetOr([])[i]))
    ensures
      var got := Fold(After, Progress(State(DefaultId(created), "", false, created), NOTHING),
                          MessageEvents(m.id, m.model, pieces, calls, m.finishReason)).client;
      var want := ToOpenAi(m, created);
      && got.id == want.id && got.roles == 1 && got.dones == 1
      && got.content == want.content.GetOr("")
      && |got.tools| == |want.toolCalls.GetOr([])|
      && (forall i | 0 <= i < |got.tools| :: got.tools[i] == (i, want.toolCalls.GetOr([])[i]))
      && (got.model == want.model <==> m.model.Some?)
      && (got.finishReason == want.finishReason <==> m.finishReason.Some? && m.finishReason.value != "ERROR")
  {
    hide Fold, MessageEvents, Concat, SentTools, Texts, DefaultId;
    MessageReceived(m.id, m.model, created, pieces, calls, m.finishReason);
    ConcatOfNothing<char>();
  }

  /** The finish reason a client gets from a stream. */
  lemma StreamFinish(id: Option<string>, model: Option<string>, created: nat, pieces: seq<string>,
                     calls: seq<SentCall>, reason: Option<string>)
    ensures
      var r := Received(id, model, created, pieces, calls, reason).finishReason;
      && (r == Some("stop") <==> reason in {None, Some("COMPLETE"), Some("stop")})
      && (r == Some("length") <==> reason in {Some("MAX_TOKENS"), Some("length")})
      && (r == Some("tool_calls") <==> reason in {Some("TOOL_CALL"), Some("tool_calls")})
      && (r in {Some("tool_calls"), Some("length"), Some("stop")} || r == reason)
  {
    hide Concat, SentTools, DefaultId;
  }

  /** The fields of the whole response that are not the text itself. */
  lemma WholeResponseSays(m: Message, created: nat)
    ensures
      var w, reason := ToOpenAi(m, created), m.finishReason;
      var r := w.finishReason;
      && w.id == m.id.GetOr("chatcmpl-cohere-" + Decimal(created)) && w.created == created
      && w.model == m.model.GetOr("command-r-plus")
      && (w.content == None <==>
           forall i | 0 <= i < |m.content.GetOr([])| ::
             m.content.GetOr([])[i].kind == "text" ==> m.content.GetOr([])[i].text == None)
      && (w.toolCalls == None <==> m.toolCalls.GetOr([]) == []) && w.toolCalls.GetOr([]) == m.toolCalls.GetOr([])
      && (r == Some("stop") <==> reason in {Some("COMPLETE"), Some("ERROR"), Some("stop")})
      && (r == Some("length") <==> reason in {Some("MAX_TOKENS"), Some("length")})
      && (r == Some("tool_calls") <==> reason in {Some("TOOL_CALL"), Some("tool_calls")})
      && (r in {Some("tool_calls"), Some("length"), Some("stop")} || r == reason)
      && (r == None <==> reason == None)
      && (w.usage == None <==> m.usage == None)
      && (m.usage.Some? ==>
           var input, output := m.usage.value.input.GetOr(0), m.usage.value.output.GetOr(0);
           && w.usage.value.promptTokens == input && w.usage.value.completionTokens == output
           && w.usage.value.totalTokens == input + output)
  {
    hide Texts, Concat, Decimal;
    NoTexts(m.content.GetOr([]));
  }

  /** The texts of the whole response, in the order of its blocks, those of text blocks that have one. */
  lemma {:induction false} TextsInOrder(a: seq<TextBlock>, b: seq<TextBlock>, block: TextBlock)
    ensures Texts(a + b) == Texts(a) + Texts(b)
    ensures Texts([block]) == if block.kind == "text" && block.text.Some? then [block.text.value] else []
    decreases |a|
  {
    assert [block][1..] == [] && Texts([]) == [];
    if |a| == 0 {
      assert a + b == b;
    } else {
      assert (a + b)[1..] == a[1..] + b;
      TextsInOrder(a[1..], b, block);
    }
  }

  lemma {:induction false} NoTexts(blocks: seq<TextBlock>)
    ensures |Texts(blocks)| == 0 <==> forall i | 0 <= i < |blocks| :: blocks[i].kind == "text" ==> blocks[i].text == None
  {
    if |blocks| > 0 {
      NoTexts(blocks[1..]);
      assert blocks == [blocks[0]] + blocks[1..];
    }
  }
}
