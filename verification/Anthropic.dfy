/** The non-streaming Anthropic translator, and the proof that the stream translator gives a
    client the same message. */
module Anthropic {
  import opened Text
  import Json
  import opened SseFraming
  import opened OpenAi
  import opened Delivery
  import opened AnthropicStream

  // ---- The whole-response translation ----------------------------------------------------

  datatype Block = Block(
    kind: string, text: Option<string>, id: Option<string>, name: Option<string>, input: Option<Json.Value>)

  datatype Tokens = Tokens(input: nat, output: nat)

  datatype Message = Message(
    id: string, model: string, content: seq<Block>, stopReason: Option<string>, usage: Option<Tokens>)

  function Arguments(codec: Json.Codec, b: Block): string {
    if b.input.Some? then codec.show(b.input.value) else "{}"
  }

  function ToolCallOf(codec: Json.Codec, b: Block): ToolCall {
    ToolCall(b.id.GetOr(""), b.name.GetOr(""), Arguments(codec, b))
  }

  /** The texts of the text blocks, in order. */
  function Texts(blocks: seq<Block>): seq<string> {
    if |blocks| == 0 then []
    else
      var rest := Texts(blocks[..|blocks| - 1]);
      var b := blocks[|blocks| - 1];
      if b.kind == "text" && b.text.Some? then rest + [b.text.value] else rest
  }

  /** The calls of the tool-use blocks, in order. */
  function Calls(codec: Json.Codec, blocks: seq<Block>): seq<ToolCall> {
    if |blocks| == 0 then []
    else
      var rest := Calls(codec, blocks[..|blocks| - 1]);
      var b := blocks[|blocks| - 1];
      if b.kind == "tool_use" then rest + [ToolCallOf(codec, b)] else rest
  }

  /** The stop reasons under their OpenAI names: the table of the whole-response translator. */
  function WholeFinishReason(stopReason: string): string {
    match stopReason
    case "end_turn" => "stop"
    case "max_tokens" => "length"
    case "pause_turn" | "tool_use" => "tool_calls"
    case "stop_sequence" => "stop"
    case other => other
  }

  function MapWhole(stopReason: Option<string>): Option<string> {
    if stopReason.Some? then Some(WholeFinishReason(stopReason.value)) else None
  }

  function CountsOf(t: Option<Tokens>): Option<Counts> {
    if t.None? then None else Some(Counts(Some(t.value.input), Some(t.value.output)))
  }

  function ToOpenAi(codec: Json.Codec, created: nat, m: Message): Response {
    var texts, calls := Texts(m.content), Calls(codec, m.content);
    Response(m.id, created, m.model,
             if |texts| == 0 then None else Some(Concat(texts)),
             if |calls| == 0 then None else Some(calls),
             MapWhole(m.stopReason), UsageOf(CountsOf(m.usage)))
  }

  /** `anthropic_to_openai_response`. */
  method TranslateResponse(codec: Json.Codec, created: nat, m: Message) returns (r: Response)
    ensures r == ToOpenAi(codec, created, m)
  {
    var textParts: seq<string>, toolCalls: seq<ToolCall> := [], [];
    for i := 0 to |m.content|
      invariant textParts == Texts(m.content[..i])
      invariant toolCalls == Calls(codec, m.content[..i])
    {
      assert m.content[..i + 1][..i] == m.content[..i];
      var block := m.content[i];
      if block.kind == "text" {
        if block.text.Some? {
          textParts := textParts + [block.text.value];
        }
      } else if block.kind == "tool_use" {
        toolCalls := toolCalls + [ToolCallOf(codec, block)];
      }
    }
    assert m.content[..|m.content|] == m.content;
    var usage: Option<Usage> := None;
    if m.usage.Some? {
      var u := m.usage.value;
      usage := Some(Usage(u.input, u.output, u.input + u.output));
    }
    r := Response(m.id, created, m.model,
                  if textParts == [] then None else Some(Concat(textParts)),
                  if toolCalls == [] then None else Some(toolCalls),
                  MapWhole(m.stopReason), usage);
  }

  // ---- The same message as a stream ------------------------------------------------------

  /** A block and the deltas it is sent in. */
  datatype Sent = Sent(block: Block, pieces: seq<string>)

  type Event = NamedEvent<Payload>

  // The events the machine reacts to, with the fields it reads and no others.

  function MessageStart(id: string, model: string): Event {
    Event("message_start", NO_PAYLOAD.(message := Some(MessageInfo(Some(id), Some(model)))))
  }

  function ToolStart(k: nat, id: string, name: string): Event {
    Event("content_block_start",
          NO_PAYLOAD.(contentBlock := Some(BlockInfo(Some("tool_use"), Some(id), Some(name))), index := Some(k)))
  }

  function TextDelta(text: string): Event {
    Event("content_block_delta", NO_PAYLOAD.(delta := Some(DeltaInfo(Some("text_delta"), Some(text), None, None))))
  }

  function ArgumentDelta(k: nat, json: string): Event {
    Event("content_block_delta",
          NO_PAYLOAD.(delta := Some(DeltaInfo(Some("input_json_delta"), None, Some(json), None)), index := Some(k)))
  }

  function MessageDelta(reason: Option<string>): Event {
    Event("message_delta", NO_PAYLOAD.(delta := Some(DeltaInfo(None, None, None, reason))))
  }

  const MESSAGE_STOP: Event := Event("message_stop", NO_PAYLOAD)

  /** What the machine sees in an event: the fields it reads, its defaults filled in; nothing if the event
      is one it ignores. */
  function Seen(name: string, parsed: Option<Payload>): Option<Event> {
    var p := parsed.GetOr(NO_PAYLOAD);
    if name == "message_start" && p.message.Some? then
      Some(MessageStart(p.message.value.id.GetOr("chatcmpl-stream"), p.message.value.model.GetOr("")))
    else if name == "content_block_start" && p.contentBlock.Some? && p.contentBlock.value.kind == Some("tool_use") then
      Some(ToolStart(p.index.GetOr(0), p.contentBlock.value.id.GetOr(""), p.contentBlock.value.name.GetOr("")))
    else if name == "content_block_delta" && p.delta.Some? && p.delta.value.kind == Some("text_delta") then
      Some(TextDelta(p.delta.value.text.GetOr("")))
    else if name == "content_block_delta" && p.delta.Some? && p.delta.value.kind == Some("input_json_delta") then
      Some(ArgumentDelta(p.index.GetOr(0), p.delta.value.partialJson.GetOr("")))
    else if name == "message_delta" && p.delta.Some? then Some(MessageDelta(p.delta.value.stopReason))
    else if name == "message_stop" then Some(MESSAGE_STOP)
    else None
  }

  /** The machine handles an event as what it sees in it. */
  lemma HandlesWhatItSees(s: State, name: string, parsed: Option<Payload>)
    ensures
      var e := Seen(name, parsed);
      Handle(s, name, parsed) == if e.Some? then Handle(s, e.value.name, Some(e.value.payload)) else Ran(s, [])
  {
  }

  function PieceEvents(k: nat, b: Block, pieces: seq<string>): seq<Event> {
    seq(|pieces|, i requires 0 <= i < |pieces| =>
      if b.kind == "text" then TextDelta(pieces[i]) else ArgumentDelta(k, pieces[i]))
  }

  /** What is seen of a block at position `k`; of blocks other than text and tool use, nothing is. */
  function BlockEvents(k: nat, sent: Sent): seq<Event> {
    var b := sent.block;
    if b.kind == "text" then PieceEvents(k, b, sent.pieces)
    else if b.kind == "tool_use" then
      [ToolStart(k, b.id.GetOr(""), b.name.GetOr(""))] + PieceEvents(k, b, sent.pieces)
    else []
  }

  function AllBlockEvents(sents: seq<Sent>): seq<Event> {
    if |sents| == 0 then []
    else AllBlockEvents(sents[..|sents| - 1]) + BlockEvents(|sents| - 1, sents[|sents| - 1])
  }

  function ReasonEvents(reasons: seq<Option<string>>): seq<Event> {
    seq(|reasons|, i requires 0 <= i < |reasons| => MessageDelta(reasons[i]))
  }

  /** The stop reason of a stream is the last one given. */
  function LastReason(reasons: seq<Option<string>>): Option<string> {
    if |reasons| == 0 then None
    else if reasons[|reasons| - 1].Some? then reasons[|reasons| - 1]
    else LastReason(reasons[..|reasons| - 1])
  }

  /** What is seen of a whole message: start, the blocks in order, the stop reasons, stop. */
  function MessageEvents(id: string, model: string, sents: seq<Sent>, reasons: seq<Option<string>>): seq<Event> {
    [MessageStart(id, model)] + AllBlockEvents(sents) + ReasonEvents(reasons) + [MESSAGE_STOP]
  }

  function Blocks(sents: seq<Sent>): seq<Block> {
    if |sents| == 0 then [] else Blocks(sents[..|sents| - 1]) + [sents[|sents| - 1].block]
  }

  /** The deltas of every text block spell its text. */
  predicate TextsSpelled(sents: seq<Sent>) {
    forall s | s in sents && s.block.kind == "text" :: Concat(s.pieces) == s.block.text.GetOr("")
  }

  /** The deltas of every tool-use block spell the arguments the whole response prints. */
  predicate ArgumentsSpelled(codec: Json.Codec, sents: seq<Sent>) {
    forall s | s in sents && s.block.kind == "tool_use" :: Concat(s.pieces) == Arguments(codec, s.block)
  }

  function After(p: Progress<State>, e: Event): Progress<State> {
    var r := Handle(p.state, e.name, Some(e.payload));
    Progress(r.state, Assemble(p.client, r.output))
  }

  /** Every chunk restates the same id, model and creation time. */
  predicate Named(p: Progress<State>) {
    p.client.id == p.state.msgId && p.client.model == p.state.model && p.client.created == p.state.created
  }

  // One event at a time.

  lemma AfterStart(p: Progress<State>, k: nat, b: Block)
    requires Named(p) && IndicesBelow(p.client.tools, k) && b.kind == "tool_use"
    ensures After(p, ToolStart(k, b.id.GetOr(""), b.name.GetOr(""))) == Grown(p, k, b, "")
  {
    var d := ToolDelta(k, Some(b.id.GetOr("")), Some(b.name.GetOr("")), "");
    AssembleOne(p.client, p.state.Chunk(Delta(None, None, [d]), None));
    AddOneTool(p.client.tools, d);
    AddNewTool(p.client.tools, d);
    assert p.client.content + "" == p.client.content;
  }

  /** What the deltas of a block have added to the client so far. */
  function Grown(p: Progress<State>, k: nat, b: Block, said: string): Progress<State> {
    if b.kind == "text" then
      p.(client := p.client.(content := p.client.content + said))
    else if b.kind == "tool_use" then
      p.(client := p.client.(tools := p.client.tools + [(k, ToolCall(b.id.GetOr(""), b.name.GetOr(""), said))]))
    else p
  }

  lemma AfterPiece(p: Progress<State>, k: nat, b: Block, said: string, piece: string)
    requires Named(p) && IndicesBelow(p.client.tools, k) && (b.kind == "text" || b.kind == "tool_use")
    ensures After(Grown(p, k, b, said), PieceEvents(k, b, [piece])[0]) == Grown(p, k, b, said + piece)
  {
    var g := Grown(p, k, b, said);
    if b.kind == "text" {
      AssembleOne(g.client, g.state.Chunk(Delta(None, Some(piece), []), None));
      assert p.client.content + said + piece == p.client.content + (said + piece);
    } else {
      var d := ToolDelta(k, None, None, piece);
      AssembleOne(g.client, g.state.Chunk(Delta(None, None, [d]), None));
      AddOneTool(g.client.tools, d);
      ExtendLastTool(p.client.tools, k, ToolCall(b.id.GetOr(""), b.name.GetOr(""), said), piece);
      assert g.client.content + "" == g.client.content;
    }
  }

  lemma {:induction false} AfterPieces(p: Progress<State>, k: nat, b: Block, said: string, pieces: seq<string>)
    requires Named(p) && IndicesBelow(p.client.tools, k) && (b.kind == "text" || b.kind == "tool_use")
    ensures Fold(After, Grown(p, k, b, said), PieceEvents(k, b, pieces)) == Grown(p, k, b, said + Concat(pieces))
    decreases |pieces|
  {
    hide After, Grown, Named, IndicesBelow;
    if |pieces| == 0 {
      assert said + "" == said;
    } else {
      var events := PieceEvents(k, b, pieces);
      assert events[0] == PieceEvents(k, b, [pieces[0]])[0] && events[1..] == PieceEvents(k, b, pieces[1..]);
      AfterPiece(p, k, b, said, pieces[0]);
      AfterPieces(p, k, b, said + pieces[0], pieces[1..]);
      Associative(said, pieces[0], Concat(pieces[1..]));
    }
  }

  lemma AfterBlock(p: Progress<State>, k: nat, sent: Sent)
    requires Named(p) && IndicesBelow(p.client.tools, k)
    ensures Fold(After, p, BlockEvents(k, sent)) == Grown(p, k, sent.block, Concat(sent.pieces))
  {
    hide After, IndicesBelow, PieceEvents, Concat;
    var b, pieces := sent.block, PieceEvents(k, sent.block, sent.pieces);
    if b.kind == "text" || b.kind == "tool_use" {
      AfterPieces(p, k, b, "", sent.pieces);
      assert "" + Concat(sent.pieces) == Concat(sent.pieces);
    }
    if b.kind == "text" {
      assert p.client.content + "" == p.client.content;
    } else if b.kind == "tool_use" {
      var start := ToolStart(k, b.id.GetOr(""), b.name.GetOr(""));
      AfterStart(p, k, b);
      FoldOne(After, p, start);
      FoldAppend(After, p, [start], pieces);
    }
  }

  /** The tool calls a client holds after the blocks: index `k` is the position of the block. */
  function SentTools(sents: seq<Sent>): seq<(nat, ToolCall)> {
    if |sents| == 0 then []
    else
      var k := |sents| - 1;
      var b := sents[k].block;
      var rest := SentTools(sents[..k]);
      if b.kind == "tool_use" then rest + [(k, ToolCall(b.id.GetOr(""), b.name.GetOr(""), Concat(sents[k].pieces)))]
      else rest
  }

  function SentText(sents: seq<Sent>): string {
    if |sents| == 0 then ""
    else
      var last := sents[|sents| - 1];
      var rest := SentText(sents[..|sents| - 1]);
      if last.block.kind == "text" then rest + Concat(last.pieces) else rest
  }

  lemma {:induction false} SentToolsBelow(sents: seq<Sent>)
    ensures IndicesBelow(SentTools(sents), |sents|)
  {
    if |sents| > 0 {
      SentToolsBelow(sents[..|sents| - 1]);
    }
  }

  lemma {:induction false} AfterBlocks(p: Progress<State>, sents: seq<Sent>)
    requires Named(p) && p.client.tools == []
    ensures
      Fold(After, p, AllBlockEvents(sents)) ==
      p.(client := p.client.(content := p.client.content + SentText(sents), tools := SentTools(sents)))
  {
    hide After, IndicesBelow, BlockEvents, Concat;
    if |sents| == 0 {
      assert p.client.content + "" == p.client.content;
    } else {
      var k := |sents| - 1;
      AfterBlocks(p, sents[..k]);
      FoldAppend(After, p, AllBlockEvents(sents[..k]), BlockEvents(k, sents[k]));
      SentToolsBelow(sents[..k]);
      AfterBlock(Fold(After, p, AllBlockEvents(sents[..k])), k, sents[k]);
      Associative(p.client.content, SentText(sents[..k]), Concat(sents[k].pieces));
    }
  }

  /** What a client holds after the whole stream. */
  function Received(id: string, model: string, created: nat, sents: seq<Sent>, stop: Option<string>): Assembled {
    Assembled(id, model, created, 1, SentText(sents), SentTools(sents), MapFinish(stop), 1)
  }

  lemma AfterMessageStart(id: string, model: string, created: nat)
    ensures
      var p := After(Progress(State("", "", false, created), NOTHING), MessageStart(id, model));
      p == Progress(State(id, model, true, created), Assembled(id, model, created, 1, "", [], None, 0))
  {
    var s := State(id, model, true, created);
    AssembleOne(NOTHING, s.Chunk(Delta(Some("assistant"), Some(""), []), None));
    assert "" + "" == "";
  }

  lemma {:induction false} AfterReasons(p: Progress<State>, reasons: seq<Option<string>>)
    requires Named(p) && p.client.finishReason == None
    ensures Fold(After, p, ReasonEvents(reasons)) ==
            p.(client := p.client.(finishReason := MapFinish(LastReason(reasons))))
  {
    hide Handle, FinishReason;
    if |reasons| > 0 {
      var init, last := reasons[..|reasons| - 1], reasons[|reasons| - 1];
      AfterReasons(p, init);
      assert ReasonEvents(reasons) == ReasonEvents(init) + [MessageDelta(last)];
      FoldAppend(After, p, ReasonEvents(init), [MessageDelta(last)]);
      var q := Fold(After, p, ReasonEvents(init));
      FoldOne(After, q, MessageDelta(last));
      AfterReason(q, last);
    }
  }

  lemma AfterReason(p: Progress<State>, reason: Option<string>)
    requires Named(p)
    ensures After(p, MessageDelta(reason)) ==
            if reason.Some? then p.(client := p.client.(finishReason := MapFinish(reason))) else p
  {
    AssembleOne(p.client, p.state.Chunk(EMPTY_DELTA, MapFinish(reason)));
    assert p.client.content + "" == p.client.content;
  }

  lemma AfterStop(p: Progress<State>)
    ensures After(p, MESSAGE_STOP) == p.(client := p.client.(dones := p.client.dones + 1))
  {
    AssembleOne(p.client, Done);
  }

  /** The machine, fed the events of a message, hands the client that message. */
  lemma MessageReceived(id: string, model: string, created: nat, sents: seq<Sent>, reasons: seq<Option<string>>)
    ensures
      Fold(After, Progress(State("", "", false, created), NOTHING), MessageEvents(id, model, sents, reasons)) ==
      Progress(State(id, model, true, created), Received(id, model, created, sents, LastReason(reasons)))
  {
    hide After, Fold, AllBlockEvents, SentText, SentTools, ReasonEvents, LastReason;
    var p := Progress(State("", "", false, created), NOTHING);
    var start, blocks, ends := MessageStart(id, model), AllBlockEvents(sents), ReasonEvents(reasons);
    AfterMessageStart(id, model, created);
    FoldOne(After, p, start);
    var q := After(p, start);
    AfterBlocks(q, sents);
    assert "" + SentText(sents) == SentText(sents);
    var r := Fold(After, q, blocks);
    AfterReasons(r, reasons);
    var t := Fold(After, r, ends);
    FoldOne(After, t, MESSAGE_STOP);
    AfterStop(t);
    FoldAppend(After, p, [start], blocks);
    FoldAppend(After, p, [start] + blocks, ends);
    FoldAppend(After, p, [start] + blocks + ends, [MESSAGE_STOP]);
  }

  // ---- Agreement with the whole response --------------------------------------------------

  function Values(tools: seq<(nat, ToolCall)>): seq<ToolCall> {
    seq(|tools|, i requires 0 <= i < |tools| => tools[i].1)
  }

  lemma {:induction false} TextAgrees(sents: seq<Sent>)
    requires TextsSpelled(sents)
    ensures SentText(sents) == Concat(Texts(Blocks(sents)))
  {
    if |sents| > 0 {
      var k := |sents| - 1;
      var b, rest := sents[k].block, Blocks(sents[..k]);
      TextAgrees(sents[..k]);
      assert (rest + [b])[..|rest|] == rest;
      assert sents[k] in sents;
      if b.kind == "text" && b.text.Some? {
        ConcatAppend(Texts(rest), [b.text.value]);
        assert [b.text.value][1..] == [] && b.text.value + [] == b.text.value;
        assert Concat([b.text.value]) == b.text.value;
      }
    }
  }

  /** The same calls, arguments aside. */
  predicate SameButArguments(tools: seq<(nat, ToolCall)>, calls: seq<ToolCall>) {
    |tools| == |calls| && forall i | 0 <= i < |tools| :: tools[i].1.(arguments := "") == calls[i].(arguments := "")
  }

  lemma SentToolsStep(sents: seq<Sent>)
    requires |sents| > 0
    ensures
      var k := |sents| - 1;
      var b, rest := sents[k].block, SentTools(sents[..k]);
      SentTools(sents) ==
      if b.kind == "tool_use" then rest + [(k, ToolCall(b.id.GetOr(""), b.name.GetOr(""), Concat(sents[k].pieces)))]
      else rest
  {
    hide Concat;
  }

  lemma CallsStep(codec: Json.Codec, sents: seq<Sent>)
    requires |sents| > 0
    ensures
      var k := |sents| - 1;
      var b, rest := sents[k].block, Calls(codec, Blocks(sents[..k]));
      Calls(codec, Blocks(sents)) == if b.kind == "tool_use" then rest + [ToolCallOf(codec, b)] else rest
  {
    hide ToolCallOf;
    var rest, b := Blocks(sents[..|sents| - 1]), sents[|sents| - 1].block;
    assert (rest + [b])[..|rest|] == rest;
  }

  lemma {:induction false} ToolsAgree(codec: Json.Codec, sents: seq<Sent>)
    ensures SameButArguments(SentTools(sents), Calls(codec, Blocks(sents)))
    ensures Values(SentTools(sents)) == Calls(codec, Blocks(sents)) <==> ArgumentsSpelled(codec, sents)
  {
    hide ArgumentsSpelled, Values, SentTools, Calls, Blocks, Concat, Arguments;
    if |sents| == 0 {
      NoToolsAgree(codec, sents);
    } else {
      var k := |sents| - 1;
      var b, rest := sents[k].block, sents[..k];
      ToolsAgree(codec, rest);
      SentToolsStep(sents);
      CallsStep(codec, sents);
      ArgumentsSpelledSnoc(codec, sents);
      if b.kind == "tool_use" {
        var call := ToolCall(b.id.GetOr(""), b.name.GetOr(""), Concat(sents[k].pieces));
        ValuesSnoc(SentTools(rest), (k, call));
        SnocEqual(Values(SentTools(rest)), call, Calls(codec, Blocks(rest)), ToolCallOf(codec, b));
      }
    }
  }

  lemma NoToolsAgree(codec: Json.Codec, sents: seq<Sent>)
    requires |sents| == 0
    ensures ArgumentsSpelled(codec, sents) && SentTools(sents) == [] && Calls(codec, Blocks(sents)) == []
    ensures Values(SentTools(sents)) == []
  {
  }

  lemma ArgumentsSpelledSnoc(codec: Json.Codec, sents: seq<Sent>)
    requires |sents| > 0
    ensures
      var k := |sents| - 1;
      ArgumentsSpelled(codec, sents) <==>
      ArgumentsSpelled(codec, sents[..k]) &&
      (sents[k].block.kind == "tool_use" ==> Concat(sents[k].pieces) == Arguments(codec, sents[k].block))
  {
    hide Concat, Arguments;
    assert sents == sents[..|sents| - 1] + [sents[|sents| - 1]];
  }

  lemma ValuesSnoc(tools: seq<(nat, ToolCall)>, t: (nat, ToolCall))
    ensures Values(tools + [t]) == Values(tools) + [t.1]
  {
  }

  lemma SnocEqual(a: seq<ToolCall>, x: ToolCall, b: seq<ToolCall>, y: ToolCall)
    ensures a + [x] == b + [y] <==> a == b && x == y
  {
    if a + [x] == b + [y] {
      assert (a + [x])[..|a|] == a && (b + [y])[..|b|] == b;
      assert (a + [x])[|a|] == x && (b + [y])[|b|] == y;
    }
  }

  /** Streaming refines the whole-response translation. The client ends up with the same id, model,
      text, tool names and ids in order, and finish reason, one role and one end marker; and with
      the same argument text exactly when the argument deltas spell what the whole response prints. */
  lemma StreamingRefinesWhole(codec: Json.Codec, id: string, model: string, created: nat,
                              sents: seq<Sent>, reasons: seq<Option<string>>, usage: Option<Tokens>)
    requires TextsSpelled(sents)
    ensures
      var got := Fold(After, Progress(State("", "", false, created), NOTHING),
                          MessageEvents(id, model, sents, reasons)).client;
      var want := ToOpenAi(codec, created, Message(id, model, Blocks(sents), LastReason(reasons), usage));
      && got.id == want.id && got.model == want.model && got.roles == 1 && got.dones == 1
      && got.content == want.content.GetOr("")
      && got.finishReason == want.finishReason
      && |got.tools| == |want.toolCalls.GetOr([])|
      && (forall i | 0 <= i < |got.tools| ::
            got.tools[i].1.(arguments := "") == want.toolCalls.GetOr([])[i].(arguments := ""))
      && (Values(got.tools) == want.toolCalls.GetOr([]) <==> ArgumentsSpelled(codec, sents))
  {
    hide Fold, MessageEvents, SentText, SentTools, Texts, Calls, Concat;
    MessageReceived(id, model, created, sents, reasons);
    TextAgrees(sents);
    ToolsAgree(codec, sents);
    ConcatOfNothing<char>();
  }

  /** The finish reason a client gets from a stream, by the last stop reason sent. */
  lemma StreamFinish(id: string, model: string, created: nat, sents: seq<Sent>, stop: Option<string>)
    ensures
      var r := Received(id, model, created, sents, stop).finishReason;
      && (r == Some("tool_calls") <==> stop in {Some("tool_use"), Some("pause_turn"), Some("tool_calls")})
      && (r == Some("length") <==> stop in {Some("max_tokens"), Some("length")})
      && (r == Some("stop") <==> stop in {Some("end_turn"), Some("stop_sequence"), Some("stop")})
      && (r in {Some("tool_calls"), Some("length"), Some("stop")} || r == stop)
      && (r == None <==> stop == None)
  {
    hide SentText, SentTools;
  }

  /** The fields of the whole response that are not the text and the calls themselves. */
  lemma WholeResponseSays(codec: Json.Codec, created: nat, m: Message)
    ensures
      var w, stop := ToOpenAi(codec, created, m), m.stopReason;
      var r := w.finishReason;
      && w.id == m.id && w.model == m.model && w.created == created
      && (w.content == None <==>
           forall i | 0 <= i < |m.content| :: m.content[i].kind == "text" ==> m.content[i].text == None)
      && (w.toolCalls == None <==> forall i | 0 <= i < |m.content| :: m.content[i].kind != "tool_use")
      && (r == Some("tool_calls") <==> stop in {Some("tool_use"), Some("pause_turn"), Some("tool_calls")})
      && (r == Some("length") <==> stop in {Some("max_tokens"), Some("length")})
      && (r == Some("stop") <==> stop in {Some("end_turn"), Some("stop_sequence"), Some("stop")})
      && (r in {Some("tool_calls"), Some("length"), Some("stop")} || r == stop)
      && (r == None <==> stop == None)
      && (w.usage == None <==> m.usage == None)
      && (m.usage.Some? ==>
           && w.usage.value.promptTokens == m.usage.value.input
           && w.usage.value.completionTokens == m.usage.value.output
           && w.usage.value.totalTokens == m.usage.value.input + m.usage.value.output)
  {
    hide Texts, Calls, Concat;
    TextsAndCalls(codec, m.content);
  }

  /** The calls of the whole response, one block more. */
  lemma CallsSay(codec: Json.Codec, blocks: seq<Block>, b: Block)
    ensures Calls(codec, blocks + [b]) ==
            Calls(codec, blocks) +
            if b.kind != "tool_use" then []
            else [ToolCall(if b.id.Some? then b.id.value else "", if b.name.Some? then b.name.value else "",
                           if b.input.Some? then codec.show(b.input.value) else "{}")]
  {
    assert (blocks + [b])[..|blocks|] == blocks;
  }

  lemma {:induction false} TextsAndCalls(codec: Json.Codec, blocks: seq<Block>)
    ensures |Texts(blocks)| == 0 <==> forall i | 0 <= i < |blocks| :: blocks[i].kind == "text" ==> blocks[i].text == None
    ensures |Calls(codec, blocks)| == 0 <==> forall i | 0 <= i < |blocks| :: blocks[i].kind != "tool_use"
  {
    hide ToolCallOf;
    if |blocks| > 0 {
      var init, last := blocks[..|blocks| - 1], blocks[|blocks| - 1];
      TextsAndCalls(codec, init);
      assert blocks == init + [last];
    }
  }

  /** A tool called without arguments is streamed with empty argument text but printed as the
      empty object, so there the two translations differ. */
  lemma EmptyArgumentsDiffer(codec: Json.Codec, b: Block, pieces: seq<string>)
    requires b.kind == "tool_use" && b.input == Some(Json.EMPTY_OBJECT) && codec.show(Json.EMPTY_OBJECT) == "{}"
    requires Concat(pieces) == ""
    ensures !ArgumentsSpelled(codec, [Sent(b, pieces)])
  {
    var s := Sent(b, pieces);
    assert s in [s] && Concat(s.pieces) == "";
  }
}
