/** Sending an assistant turn back to Anthropic as conversation history. */
module AnthropicHistory {
  import opened Text
  import Json
  import opened OpenAi
  import opened Anthropic

  datatype ContentBlock =
    | TextBlock(text: string)
    | ToolUse(id: string, name: string, input: Json.Value)
    | ToolResult(toolUseId: string, text: string)

  datatype Content = Plain(value: Json.Value) | Blocks(blocks: seq<ContentBlock>)

  datatype RequestMessage = RequestMessage(role: string, content: Content)

  function ToolUseOf(codec: Json.Codec, tc: ToolCall): ContentBlock {
    ToolUse(tc.id, tc.name, codec.read(tc.arguments).GetOr(Json.EMPTY_OBJECT))
  }

  function ToolUsesOf(codec: Json.Codec, calls: seq<ToolCall>): seq<ContentBlock> {
    seq(|calls|, i requires 0 <= i < |calls| => ToolUseOf(codec, calls[i]))
  }

  /** One message that is not a system message. */
  function RequestMessageOf(codec: Json.Codec, msg: ChatMessage): RequestMessage {
    if msg.role == "tool" then
      RequestMessage("user", Blocks([ToolResult(msg.toolCallId.GetOr(""), AsStr(msg.content).GetOr(""))]))
    else if msg.role == "assistant" && msg.toolCalls.Some? then
      var text := AsStr(msg.content).GetOr("");
      var lead := if text == "" then [] else [TextBlock(text)];
      RequestMessage("assistant", Blocks(lead + ToolUsesOf(codec, msg.toolCalls.value)))
    else
      RequestMessage(msg.role, Plain(msg.content.GetOr(Json.Str(""))))
  }

  method AssistantBlocks(codec: Json.Codec, content: Option<string>, calls: seq<ToolCall>)
    returns (blocks: seq<ContentBlock>)
    ensures blocks ==
            (if content.GetOr("") == "" then [] else [TextBlock(content.value)]) + ToolUsesOf(codec, calls)
  {
    blocks := [];
    if content.Some? && content.value != "" {
      blocks := blocks + [TextBlock(content.value)];
    }
    ghost var lead := blocks;
    for j := 0 to |calls|
      invariant blocks == lead + ToolUsesOf(codec, calls[..j])
    {
      assert ToolUsesOf(codec, calls[..j + 1]) == ToolUsesOf(codec, calls[..j]) + [ToolUseOf(codec, calls[j])];
      blocks := blocks + [ToolUseOf(codec, calls[j])];
    }
    assert calls[..|calls|] == calls;
  }

  function Messages(codec: Json.Codec, msgs: seq<ChatMessage>): seq<RequestMessage> {
    if |msgs| == 0 then []
    else
      var rest, last := Messages(codec, msgs[..|msgs| - 1]), msgs[|msgs| - 1];
      if last.role == "system" then rest else rest + [RequestMessageOf(codec, last)]
  }

  /** The content of the last system message that has content. */
  function System(msgs: seq<ChatMessage>): Option<Json.Value> {
    if |msgs| == 0 then None
    else
      var last := msgs[|msgs| - 1];
      if last.role == "system" && last.content.Some? then last.content else System(msgs[..|msgs| - 1])
  }

  /** The message part of `openai_to_anthropic_request`. */
  method TranslateMessages(codec: Json.Codec, msgs: seq<ChatMessage>)
    returns (system: Option<Json.Value>, messages: seq<RequestMessage>)
    ensures system == System(msgs)
    ensures messages == Messages(codec, msgs)
  {
    system, messages := None, [];
    for i := 0 to |msgs|
      invariant system == System(msgs[..i])
      invariant messages == Messages(codec, msgs[..i])
    {
      assert msgs[..i + 1][..i] == msgs[..i];
      var msg := msgs[i];
      if msg.role == "system" {
        if msg.content.Some? {
          system := msg.content;
        }
        continue;
      }
      if msg.role == "tool" {
        messages := messages + [RequestMessage("user", Blocks(
          [ToolResult(msg.toolCallId.GetOr(""), AsStr(msg.content).GetOr(""))]))];
        continue;
      }
      if msg.role == "assistant" && msg.toolCalls.Some? {
        var blocks := AssistantBlocks(codec, AsStr(msg.content), msg.toolCalls.value);
        messages := messages + [RequestMessage("assistant", Blocks(blocks))];
        continue;
      }
      messages := messages + [RequestMessage(msg.role, Plain(msg.content.GetOr(Json.Str(""))))];
    }
    assert msgs[..|msgs|] == msgs;
  }

  // ---- The conversation --------------------------------------------------------------------

  /** The conversation keeps its order, however it is cut in two; and the later part's system message, if
      it has one with content, is the one that counts. */
  lemma {:induction false} ConversationInOrder(codec: Json.Codec, a: seq<ChatMessage>, b: seq<ChatMessage>)
    ensures Messages(codec, a + b) == Messages(codec, a) + Messages(codec, b)
    ensures System(a + b) == if System(b) == None then System(a) else System(b)
    decreases |b|
  {
    hide RequestMessageOf;
    if |b| == 0 {
      assert a + b == a;
    } else {
      assert (a + b)[..|a + b| - 1] == a + b[..|b| - 1];
      ConversationInOrder(codec, a, b[..|b| - 1]);
    }
  }

  /** What becomes of one message: a system message is set apart; a tool result answers the call it names;
      an assistant's calls follow its text, if that is not empty, each with its id, name and arguments; any
      other message keeps its role and content. */
  lemma MessageSays(codec: Json.Codec, m: ChatMessage)
    ensures System([m]) == if m.role == "system" then m.content else None
    ensures
      var out := Messages(codec, [m]);
      if m.role == "system" then out == []
      else if m.role == "tool" then
        out == [RequestMessage("user", Blocks([ToolResult(
          if m.toolCallId.Some? then m.toolCallId.value else "",
          if m.content.Some? && m.content.value.Str? then m.content.value.s else "")]))]
      else if m.role == "assistant" && m.toolCalls.Some? then
        && |out| == 1 && out[0].role == "assistant" && out[0].content.Blocks?
        && var blocks, calls := out[0].content.blocks, m.toolCalls.value;
           var lead := if m.content.Some? && m.content.value.Str? && m.content.value.s != ""
                       then [TextBlock(m.content.value.s)] else [];
           && |blocks| == |lead| + |calls| && lead <= blocks
           && forall k | 0 <= k < |calls| ::
                blocks[|lead| + k] ==
                ToolUse(calls[k].id, calls[k].name,
                        match codec.read(calls[k].arguments) case Some(v) => v case None => Json.Obj([]))
      else
        out == [RequestMessage(m.role, Plain(if m.content.Some? then m.content.value else Json.Str("")))]
  {
    hide Messages, System;
    OneMessage(codec, m);
  }

  lemma OneMessage(codec: Json.Codec, m: ChatMessage)
    ensures Messages(codec, [m]) == if m.role == "system" then [] else [RequestMessageOf(codec, m)]
    ensures System([m]) == if m.role == "system" then m.content else None
  {
    hide RequestMessageOf;
    assert [m][..0] == [];
    assert Messages(codec, []) == [] && System([]) == None;
  }

  // ---- The assistant turn round trip ------------------------------------------------------

  function TextIn(c: Content): string {
    match c
    case Plain(v) => if v.Str? then v.s else ""
    case Blocks(blocks) => BlockText(blocks)
  }

  function BlockText(blocks: seq<ContentBlock>): string {
    if |blocks| == 0 then ""
    else (if blocks[0].TextBlock? then blocks[0].text else "") + BlockText(blocks[1..])
  }

  function ToolUsesIn(c: Content): seq<ContentBlock> {
    match c
    case Plain(_) => []
    case Blocks(blocks) => OnlyToolUses(blocks)
  }

  function OnlyToolUses(blocks: seq<ContentBlock>): seq<ContentBlock> {
    if |blocks| == 0 then []
    else (if blocks[0].ToolUse? then [blocks[0]] else []) + OnlyToolUses(blocks[1..])
  }

  /** The tool uses of the provider's own message: id, name and input of each, in order. */
  function OriginalToolUses(blocks: seq<Block>): seq<ContentBlock> {
    if |blocks| == 0 then []
    else
      var rest, b := OriginalToolUses(blocks[..|blocks| - 1]), blocks[|blocks| - 1];
      if b.kind == "tool_use" then
        rest + [ToolUse(b.id.GetOr(""), b.name.GetOr(""), b.input.GetOr(Json.EMPTY_OBJECT))]
      else rest
  }

  /** The codec keeps the inputs of the tool uses; an input that is missing is printed as `{}`. */
  predicate KeepsInputs(codec: Json.Codec, blocks: seq<Block>) {
    forall i | 0 <= i < |blocks| && blocks[i].kind == "tool_use" ::
      if blocks[i].input.Some? then codec.Keeps(blocks[i].input.value)
      else codec.read("{}") == Some(Json.EMPTY_OBJECT)
  }

  lemma {:induction false} ToolUsesSurvive(codec: Json.Codec, blocks: seq<Block>)
    requires KeepsInputs(codec, blocks)
    ensures ToolUsesOf(codec, Calls(codec, blocks)) == OriginalToolUses(blocks)
  {
    if |blocks| > 0 {
      var init, b := blocks[..|blocks| - 1], blocks[|blocks| - 1];
      ToolUsesSurvive(codec, init);
      if b.kind == "tool_use" {
        var calls := Calls(codec, init);
        assert codec.read(Arguments(codec, b)) == Some(b.input.GetOr(Json.EMPTY_OBJECT));
        assert ToolUsesOf(codec, calls + [ToolCallOf(codec, b)]) ==
               ToolUsesOf(codec, calls) + [ToolUseOf(codec, ToolCallOf(codec, b))];
      }
    }
  }

  lemma {:induction false} AllToolUses(blocks: seq<ContentBlock>)
    requires forall i | 0 <= i < |blocks| :: blocks[i].ToolUse?
    ensures OnlyToolUses(blocks) == blocks && BlockText(blocks) == ""
  {
    if |blocks| > 0 {
      AllToolUses(blocks[1..]);
      assert blocks == [blocks[0]] + blocks[1..];
    }
  }

  lemma LeadingText(text: string, uses: seq<ContentBlock>)
    requires forall i | 0 <= i < |uses| :: uses[i].ToolUse?
    ensures OnlyToolUses([TextBlock(text)] + uses) == uses && BlockText([TextBlock(text)] + uses) == text
  {
    var blocks := [TextBlock(text)] + uses;
    assert blocks[1..] == uses;
    AllToolUses(uses);
    assert [] + uses == uses && text + "" == text;
  }

  /** A response translated for the client and sent back as history keeps its text and, if the codec
      keeps the inputs in it, its tool uses: ids, names and inputs, in order. */
  lemma AssistantTurnRoundTrip(codec: Json.Codec, created: nat, m: Message)
    ensures
      var back := RequestMessageOf(codec, Turn(ToOpenAi(codec, created, m)));
      && back.role == "assistant"
      && TextIn(back.content) == Concat(Texts(m.content))
      && (KeepsInputs(codec, m.content) ==> ToolUsesIn(back.content) == OriginalToolUses(m.content))
  {
    hide Texts, Calls, OriginalToolUses, Concat, KeepsInputs;
    var calls := Calls(codec, m.content);
    if KeepsInputs(codec, m.content) {
      ToolUsesSurvive(codec, m.content);
    }
    ConcatOfNothing<char>();
    var text := Concat(Texts(m.content));
    var uses := ToolUsesOf(codec, calls);
    AllToolUses(uses);
    LeadingText(text, uses);
    assert [] + uses == uses;
  }
}
