/** Sending an assistant turn back to Gemini as conversation history. */
module GeminiHistory {
  import opened Text
  import Json
  import opened OpenAi
  import opened Gemini

  datatype RequestPart =
    | TextPart(text: string)
    | CallPart(call: FunctionCall)
    | ResponsePart(name: string, response: Json.Value)

  datatype Content = Content(role: string, parts: seq<RequestPart>)

  function ContentToText(codec: Json.Codec, content: Option<Json.Value>): string {
    match content
    case None => ""
    case Some(v) => if v.Str? then v.s else codec.show(v)
  }

  function CallPartOf(codec: Json.Codec, tc: ToolCall): RequestPart {
    CallPart(FunctionCall(tc.name, codec.read(tc.arguments).GetOr(Json.EMPTY_OBJECT)))
  }

  function CallPartsOf(codec: Json.Codec, calls: seq<ToolCall>): seq<RequestPart> {
    seq(|calls|, i requires 0 <= i < |calls| => CallPartOf(codec, calls[i]))
  }

  /** One message that is not a system message. */
  function ContentOf(codec: Json.Codec, msg: ChatMessage): Content {
    if msg.role == "tool" then
      var text := ContentToText(codec, msg.content);
      Content("user", [ResponsePart(msg.name.GetOr("unknown"), codec.read(text).GetOr(Json.Str(text)))])
    else
      var role := if msg.role == "assistant" then "model" else msg.role;
      if msg.toolCalls.Some? then
        var text := AsStr(msg.content).GetOr("");
        Content(role, (if text == "" then [] else [TextPart(text)]) + CallPartsOf(codec, msg.toolCalls.value))
      else
        Content(role, [TextPart(ContentToText(codec, msg.content))])
  }

  function Contents(codec: Json.Codec, msgs: seq<ChatMessage>): seq<Content> {
    if |msgs| == 0 then []
    else
      var rest, last := Contents(codec, msgs[..|msgs| - 1]), msgs[|msgs| - 1];
      if last.role == "system" then rest else rest + [ContentOf(codec, last)]
  }

  /** The text of the last system message, with or without content. */
  function SystemInstruction(codec: Json.Codec, msgs: seq<ChatMessage>): Option<Content> {
    if |msgs| == 0 then None
    else
      var last := msgs[|msgs| - 1];
      if last.role == "system" then Some(Content("user", [TextPart(ContentToText(codec, last.content))]))
      else SystemInstruction(codec, msgs[..|msgs| - 1])
  }

  method ToolCallParts(codec: Json.Codec, content: Option<string>, calls: seq<ToolCall>)
    returns (parts: seq<RequestPart>)
    ensures parts == (if content.GetOr("") == "" then [] else [TextPart(content.value)]) + CallPartsOf(codec, calls)
  {
    parts := [];
    if content.Some? && content.value != "" {
      parts := parts + [TextPart(content.value)];
    }
    ghost var lead := parts;
    for j := 0 to |calls|
      invariant parts == lead + CallPartsOf(codec, calls[..j])
    {
      assert CallPartsOf(codec, calls[..j + 1]) == CallPartsOf(codec, calls[..j]) + [CallPartOf(codec, calls[j])];
      parts := parts + [CallPartOf(codec, calls[j])];
    }
    assert calls[..|calls|] == calls;
  }

  /** The message part of `openai_to_gemini`. */
  method TranslateMessages(codec: Json.Codec, msgs: seq<ChatMessage>)
    returns (systemInstruction: Option<Content>, contents: seq<Content>)
    ensures systemInstruction == SystemInstruction(codec, msgs)
    ensures contents == Contents(codec, msgs)
  {
    systemInstruction, contents := None, [];
    for i := 0 to |msgs|
      invariant systemInstruction == SystemInstruction(codec, msgs[..i])
      invariant contents == Contents(codec, msgs[..i])
    {
      assert msgs[..i + 1][..i] == msgs[..i];
      var msg := msgs[i];
      if msg.role == "system" {
        systemInstruction := Some(Content("user", [TextPart(ContentToText(codec, msg.content))]));
        continue;
      }
      if msg.role == "tool" {
        var text := ContentToText(codec, msg.content);
        contents := contents +
          [Content("user", [ResponsePart(msg.name.GetOr("unknown"), codec.read(text).GetOr(Json.Str(text)))])];
        continue;
      }
      var role := if msg.role == "assistant" then "model" else msg.role;
      if msg.toolCalls.Some? {
        var parts := ToolCallParts(codec, AsStr(msg.content), msg.toolCalls.value);
        contents := contents + [Content(role, parts)];
        continue;
      }
      contents := contents + [Content(role, [TextPart(ContentToText(codec, msg.content))])];
    }
    assert msgs[..|msgs|] == msgs;
  }

  // ---- The conversation --------------------------------------------------------------------

  /** The conversation keeps its order, however it is cut in two; and the later part's system message, if
      it has one, is the one that counts. */
  lemma {:induction false} ConversationInOrder(codec: Json.Codec, a: seq<ChatMessage>, b: seq<ChatMessage>)
    ensures Contents(codec, a + b) == Contents(codec, a) + Contents(codec, b)
    ensures SystemInstruction(codec, a + b) ==
            if SystemInstruction(codec, b) == None then SystemInstruction(codec, a) else SystemInstruction(codec, b)
    decreases |b|
  {
    hide ContentOf, ContentToText;
    if |b| == 0 {
      assert a + b == a;
    } else {
      assert (a + b)[..|a + b| - 1] == a + b[..|b| - 1];
      ConversationInOrder(codec, a, b[..|b| - 1]);
    }
  }

  /** What becomes of one message: a system message is set apart; a tool result goes to the function it
      names, as JSON if it is; calls follow the text, if that is not empty, each with its name and
      arguments; any other message is its text; and an assistant is called a model. */
  lemma MessageSays(codec: Json.Codec, m: ChatMessage)
    ensures
      var out, apart := Contents(codec, [m]), SystemInstruction(codec, [m]);
      var text := if m.content == None then ""
                  else if m.content.value.Str? then m.content.value.s else codec.show(m.content.value);
      var role := if m.role == "assistant" then "model" else m.role;
      && (apart == if m.role == "system" then Some(Content("user", [TextPart(text)])) else None)
      && if m.role == "system" then out == []
         else if m.role == "tool" then
           out == [Content("user", [ResponsePart(
             if m.name.Some? then m.name.value else "unknown",
             match codec.read(text) case Some(v) => v case None => Json.Str(text))])]
         else if m.toolCalls.Some? then
           && |out| == 1 && out[0].role == role
           && var parts, calls := out[0].parts, m.toolCalls.value;
              var lead := if m.content.Some? && m.content.value.Str? && m.content.value.s != ""
                          then [TextPart(m.content.value.s)] else [];
              && |parts| == |lead| + |calls| && lead <= parts
              && forall k | 0 <= k < |calls| ::
                   parts[|lead| + k] ==
                   CallPart(FunctionCall(
                     calls[k].name,
                     match codec.read(calls[k].arguments) case Some(v) => v case None => Json.Obj([])))
         else out == [Content(role, [TextPart(text)])]
  {
    assert [m][..0] == [];
    assert Contents(codec, []) == [] && SystemInstruction(codec, []) == None;
  }

  // ---- The assistant turn round trip ------------------------------------------------------

  function TextIn(parts: seq<RequestPart>): string {
    if |parts| == 0 then ""
    else (if parts[0].TextPart? then parts[0].text else "") + TextIn(parts[1..])
  }

  function CallsIn(parts: seq<RequestPart>): seq<FunctionCall> {
    if |parts| == 0 then []
    else (if parts[0].CallPart? then [parts[0].call] else []) + CallsIn(parts[1..])
  }

  function CallParts(calls: seq<FunctionCall>): seq<RequestPart> {
    seq(|calls|, i requires 0 <= i < |calls| => CallPart(calls[i]))
  }

  lemma {:induction false} OnlyCalls(calls: seq<FunctionCall>)
    ensures CallsIn(CallParts(calls)) == calls && TextIn(CallParts(calls)) == ""
    decreases |calls|
  {
    if |calls| > 0 {
      OnlyCalls(calls[1..]);
      assert CallParts(calls)[1..] == CallParts(calls[1..]);
      assert calls == [calls[0]] + calls[1..];
    }
  }

  lemma LeadingText(text: string, calls: seq<FunctionCall>)
    ensures
      var parts := [TextPart(text)] + CallParts(calls);
      CallsIn(parts) == calls && TextIn(parts) == text
  {
    var parts := [TextPart(text)] + CallParts(calls);
    assert parts[1..] == CallParts(calls);
    OnlyCalls(calls);
    assert [] + calls == calls && text + "" == text;
  }

  /** The codec keeps the arguments of the calls. */
  predicate KeepsArguments(codec: Json.Codec, calls: seq<FunctionCall>) {
    forall i | 0 <= i < |calls| :: codec.Keeps(calls[i].args)
  }

  /** The calls that come back: all of them, and unchanged if the codec keeps their arguments. */
  lemma CallsSurvive(codec: Json.Codec, calls: seq<FunctionCall>) returns (back: seq<FunctionCall>)
    ensures CallPartsOf(codec, Numbered(codec, 0, calls)) == CallParts(back) && |back| == |calls|
    ensures KeepsArguments(codec, calls) ==> back == calls
  {
    back := seq(|calls|, i requires 0 <= i < |calls| =>
                  FunctionCall(calls[i].name, codec.read(codec.show(calls[i].args)).GetOr(Json.EMPTY_OBJECT)));
    assert CallPartsOf(codec, Numbered(codec, 0, calls)) == CallParts(back);
    if KeepsArguments(codec, calls) {
      forall i | 0 <= i < |calls| ensures back[i] == calls[i] {
        assert codec.Keeps(calls[i].args);
      }
      assert back == calls;
    }
  }

  /** A response translated for the client and sent back as history keeps its text and, if the codec
      keeps the arguments in it, its function calls: names and arguments, in order. */
  lemma AssistantTurnRoundTrip(
    codec: Json.Codec, created: nat, replies: seq<Reply>, usage: Option<Counts>)
    ensures
      var back := ContentOf(codec, Turn(ToOpenAi(codec, created, Some(replies), usage)));
      && back.role == "model"
      && TextIn(back.parts) == Concat(Texts(replies))
      && (KeepsArguments(codec, Calls(replies)) ==> CallsIn(back.parts) == Calls(replies))
  {
    hide Texts, Calls, Concat, Numbered, CallParts, CallPartsOf, KeepsArguments;
    var calls, text := Calls(replies), Concat(Texts(replies));
    var kept := CallsSurvive(codec, calls);
    NumberedLength(codec, 0, calls);
    ConcatOfNothing<char>();
    OnlyCalls(kept);
    LeadingText(text, kept);
    LeadingText(text, []);
    assert [] + CallParts(kept) == CallParts(kept);
    assert [TextPart(text)] + [] == [TextPart(text)];
  }
}
