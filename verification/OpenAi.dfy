/** The OpenAI side of the translators: stream chunks, whole responses, and the message a client
    assembles from a stream. */
module OpenAi {
  import opened Text
  import Json

  /** A message of the conversation a client sends. `name` is the extra field of a tool result. */
  datatype ChatMessage = ChatMessage(
    role: string, content: Option<Json.Value>, toolCalls: Option<seq<ToolCall>>,
    toolCallId: Option<string>, name: Option<string>)

  function AsStr(v: Option<Json.Value>): Option<string> {
    if v.Some? && v.value.Str? then Some(v.value.s) else None
  }

  /** The message a client keeps from a response. */
  function Turn(r: Response): ChatMessage {
    ChatMessage("assistant", if r.content.Some? then Some(Json.Str(r.content.value)) else None, r.toolCalls,
                None, None)
  }

  /** One entry of `delta.tool_calls`. A start entry carries id and name; a continuation only
      more argument text. */
  datatype ToolDelta = ToolDelta(index: nat, id: Option<string>, name: Option<string>, arguments: string)

  datatype Delta = Delta(role: Option<string>, content: Option<string>, toolCalls: seq<ToolDelta>)

  const EMPTY_DELTA: Delta := Delta(None, None, [])

  /** A `data:` line of the outgoing stream: a chunk object, or the end marker `[DONE]`. */
  datatype Frame =
    | Done
    | Chunk(id: string, created: nat, model: string, delta: Delta, finishReason: Option<string>)

  datatype ToolCall = ToolCall(id: string, name: string, arguments: string)

  datatype Usage = Usage(promptTokens: nat, completionTokens: nat, totalTokens: nat)

  /** What a provider counted; a count may be missing. */
  datatype Counts = Counts(input: Option<nat>, output: Option<nat>)

  function UsageOf(c: Option<Counts>): Option<Usage> {
    if c.None? then None
    else
      var input, output := c.value.input.GetOr(0), c.value.output.GetOr(0);
      Some(Usage(input, output, input + output))
  }

  /** The fields of a non-streaming response that a translator fills from the provider's answer. */
  datatype Response = Response(
    id: string, created: nat, model: string,
    content: Option<string>, toolCalls: Option<seq<ToolCall>>, finishReason: Option<string>, usage: Option<Usage>)

  /** What a client has assembled so far: tool calls are keyed by their index, in arrival order. */
  datatype Assembled = Assembled(
    id: string, model: string, created: nat, roles: nat,
    content: string, tools: seq<(nat, ToolCall)>, finishReason: Option<string>, dones: nat)

  const NOTHING: Assembled := Assembled("", "", 0, 0, "", [], None, 0)

  function AddTool(tools: seq<(nat, ToolCall)>, d: ToolDelta): seq<(nat, ToolCall)> {
    if |tools| == 0 then
      [(d.index, ToolCall(d.id.GetOr(""), d.name.GetOr(""), d.arguments))]
    else if tools[0].0 == d.index then
      var t := tools[0].1;
      [(d.index, ToolCall(d.id.GetOr(t.id), d.name.GetOr(t.name), t.arguments + d.arguments))] + tools[1..]
    else
      [tools[0]] + AddTool(tools[1..], d)
  }

  function AddTools(tools: seq<(nat, ToolCall)>, ds: seq<ToolDelta>): seq<(nat, ToolCall)>
    decreases |ds|
  {
    if |ds| == 0 then tools else AddTools(AddTool(tools, ds[0]), ds[1..])
  }

  function AddFrame(a: Assembled, f: Frame): Assembled {
    match f
    case Done => a.(dones := a.dones + 1)
    case Chunk(id, created, model, delta, finish) =>
      Assembled(
        id, model, created,
        a.roles + (if delta.role == Some("assistant") then 1 else 0),
        a.content + delta.content.GetOr(""),
        AddTools(a.tools, delta.toolCalls),
        if finish.Some? then finish else a.finishReason,
        a.dones)
  }

  function Assemble(a: Assembled, frames: seq<Frame>): Assembled
    decreases |frames|
  {
    if |frames| == 0 then a else Assemble(AddFrame(a, frames[0]), frames[1..])
  }

  lemma AssembleOne(a: Assembled, f: Frame)
    ensures Assemble(a, [f]) == AddFrame(a, f)
  {
    assert [f][1..] == [];
  }

  lemma AddOneTool(tools: seq<(nat, ToolCall)>, d: ToolDelta)
    ensures AddTools(tools, [d]) == AddTool(tools, d)
  {
    assert [d][1..] == [];
  }

  lemma {:induction false} AssembleAppend(a: Assembled, f: seq<Frame>, g: seq<Frame>)
    ensures Assemble(a, f + g) == Assemble(Assemble(a, f), g)
    decreases |f|
  {
    if |f| == 0 {
      assert f + g == g;
    } else {
      assert (f + g)[1..] == f[1..] + g;
      AssembleAppend(AddFrame(a, f[0]), f[1..], g);
    }
  }

  predicate IndicesBelow(tools: seq<(nat, ToolCall)>, k: nat) {
    forall i | 0 <= i < |tools| :: tools[i].0 < k
  }

  /** An index not seen before starts a new call at the end. */
  lemma {:induction false} AddNewTool(tools: seq<(nat, ToolCall)>, d: ToolDelta)
    requires IndicesBelow(tools, d.index)
    ensures AddTool(tools, d) == tools + [(d.index, ToolCall(d.id.GetOr(""), d.name.GetOr(""), d.arguments))]
  {
    if |tools| > 0 {
      AddNewTool(tools[1..], d);
      assert tools == [tools[0]] + tools[1..];
    }
  }

  /** A continuation of the newest call extends that call and no other. */
  lemma {:induction false} ExtendLastTool(tools: seq<(nat, ToolCall)>, k: nat, t: ToolCall, more: string)
    requires IndicesBelow(tools, k)
    ensures AddTool(tools + [(k, t)], ToolDelta(k, None, None, more)) ==
            tools + [(k, ToolCall(t.id, t.name, t.arguments + more))]
  {
    var all := tools + [(k, t)];
    if |tools| > 0 {
      assert all[1..] == tools[1..] + [(k, t)];
      ExtendLastTool(tools[1..], k, t, more);
      assert tools == [tools[0]] + tools[1..];
    }
  }

  /** Number of chunks that carry a role. */
  function Roles(frames: seq<Frame>): nat {
    if |frames| == 0 then 0
    else (if frames[0].Chunk? && frames[0].delta.role == Some("assistant") then 1 else 0) + Roles(frames[1..])
  }

  /** A client counts the chunks with a role. */
  lemma {:induction false} AssembleRoles(a: Assembled, frames: seq<Frame>)
    ensures Assemble(a, frames).roles == a.roles + Roles(frames)
    decreases |frames|
  {
    hide AddTools;
    if |frames| > 0 {
      AssembleRoles(AddFrame(a, frames[0]), frames[1..]);
    }
  }

  lemma {:induction false} RolesAppend(f: seq<Frame>, g: seq<Frame>)
    ensures Roles(f + g) == Roles(f) + Roles(g)
  {
    if |f| == 0 {
      assert f + g == g;
    } else {
      assert (f + g)[1..] == f[1..] + g;
      RolesAppend(f[1..], g);
    }
  }
}
