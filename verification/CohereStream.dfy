/** The Cohere-to-OpenAI stream translator: the same framing loop with its own event machine. */
module CohereStream {
  import opened Text
  import opened Utf8
  import opened SseFraming
  import opened SseFields
  import opened OpenAi

  datatype CallInfo = CallInfo(id: Option<string>, name: Option<string>)

  /** What the machine reads of an event's JSON. `text`, `call` and `arguments` are the paths under
      `delta.message`; `model` is `delta.message.model`. */
  datatype Payload = Payload(
    id: Option<string>, model: Option<string>, text: Option<string>, call: Option<CallInfo>,
    arguments: Option<string>, index: Option<nat>, finishReason: Option<string>)

  const NO_PAYLOAD: Payload := Payload(None, None, None, None, None, None, None)

  /** The data line of an event: absent, not JSON, or parsed. */
  datatype Input = NoData | NotJson | Parsed(payload: Payload)

  datatype State = State(chunkId: string, model: string, sentRole: bool, created: nat) {
    function Chunk(delta: Delta, finishReason: Option<string>): Frame {
      Frame.Chunk(chunkId, created, model, delta, finishReason)
    }
  }

  function FinishReason(reason: Option<string>): string {
    if reason.None? then "stop"
    else if reason.value == "COMPLETE" then "stop"
    else if reason.value == "MAX_TOKENS" then "length"
    else if reason.value == "TOOL_CALL" then "tool_calls"
    else reason.value
  }

  function Named(s: State, p: Payload): State {
    s.(chunkId := p.id.GetOr(s.chunkId), model := p.model.GetOr(s.model))
  }

  function Handle(s: State, eventType: string, input: Input): Ran<State, Frame> {
    if eventType == "message-start" then
      if input.NotJson? then Ran(s, [])
      else
        var named := if input.Parsed? then Named(s, input.payload) else s;
        if s.sentRole then Ran(named, [])
        else Ran(named.(sentRole := true), [named.Chunk(Delta(Some("assistant"), Some(""), []), None)])
    else if eventType == "content-delta" then
      if !input.Parsed? then Ran(s, [])
      else Ran(s, [s.Chunk(Delta(None, Some(input.payload.text.GetOr("")), []), None)])
    else if eventType == "tool-call-start" then
      if !input.Parsed? || input.payload.call.None? then Ran(s, [])
      else
        var c := input.payload.call.value;
        var start := ToolDelta(input.payload.index.GetOr(0), Some(c.id.GetOr("")), Some(c.name.GetOr("")), "");
        Ran(s, [s.Chunk(Delta(None, None, [start]), None)])
    else if eventType == "tool-call-delta" then
      if !input.Parsed? then Ran(s, [])
      else
        var more := ToolDelta(input.payload.index.GetOr(0), None, None, input.payload.arguments.GetOr(""));
        Ran(s, [s.Chunk(Delta(None, None, [more]), None)])
    else if eventType == "message-end" then
      if input.NotJson? then Ran(s, [])
      else
        var reason := if input.Parsed? then input.payload.finishReason else None;
        Ran(s, [s.Chunk(EMPTY_DELTA, Some(FinishReason(reason))), Done])
    else Ran(s, [])
  }

  type Parser = Bytes -> Option<Payload>

  function InputOf(parse: Parser, data: Bytes): Input {
    if data == "" then NoData
    else
      match parse(data)
      case Some(p) => Parsed(p)
      case None => NotJson
  }

  /** `translate_event`. */
  function Translate(parse: Parser, s: State, raw: Bytes): Ran<State, Frame> {
    Handle(s, EventType(raw), InputOf(parse, Data(raw)))
  }

  function EngineOf(parse: Parser): (en: Engine<State, Frame>)
    ensures en.Ok() && en.delimiter == BLANK_LINE
  {
    Engine(BLANK_LINE, (s, raw) => Translate(parse, s, raw))
  }

  function DefaultId(created: nat): string {
    "chatcmpl-cohere-" + Decimal(created)
  }

  class CohereToOpenAIStream {
    var buffer: Bytes
    var chunkId: string
    var model: string
    var sentRole: bool
    const created: nat
    const parse: Parser

    constructor (parse: Parser, created: nat)
      ensures this.parse == parse
      ensures Now() == Translator([], State(DefaultId(created), "", false, created))
    {
      this.parse, this.created := parse, created;
      buffer, chunkId, model, sentRole := [], DefaultId(created), "", false;
    }

    function Machine(): State
      reads this
    {
      State(chunkId, model, sentRole, created)
    }

    function Now(): Translator<State>
      reads this
    {
      Translator(buffer, Machine())
    }

    method TranslateEvent(raw: Bytes) returns (out: seq<Frame>)
      modifies this`chunkId, this`model, this`sentRole
      ensures Ran(Machine(), out) == Translate(parse, old(Machine()), raw)
    {
      hide EventType, Data;
      out := [];
      var eventType, dataLine := ReadFields(raw);
      var input := InputOf(parse, dataLine);
      if eventType == "message-start" {
        if input.NotJson? {
          return;
        }
        if input.Parsed? {
          if input.payload.id.Some? {
            chunkId := input.payload.id.value;
          }
          if input.payload.model.Some? {
            model := input.payload.model.value;
          }
        }
        if !sentRole {
          sentRole := true;
          out := [Frame.Chunk(chunkId, created, model, Delta(Some("assistant"), Some(""), []), None)];
        }
      } else if eventType == "content-delta" {
        if input.Parsed? {
          out := [Frame.Chunk(chunkId, created, model,
                              Delta(None, Some(input.payload.text.GetOr("")), []), None)];
        }
      } else if eventType == "tool-call-start" {
        if input.Parsed? && input.payload.call.Some? {
          var c := input.payload.call.value;
          var start := ToolDelta(input.payload.index.GetOr(0), Some(c.id.GetOr("")), Some(c.name.GetOr("")), "");
          out := [Frame.Chunk(chunkId, created, model, Delta(None, None, [start]), None)];
        }
      } else if eventType == "tool-call-delta" {
        if input.Parsed? {
          var more := ToolDelta(input.payload.index.GetOr(0), None, None, input.payload.arguments.GetOr(""));
          out := [Frame.Chunk(chunkId, created, model, Delta(None, None, [more]), None)];
        }
      } else if eventType == "message-end" {
        if input.NotJson? {
          return;
        }
        var reason := if input.Parsed? then input.payload.finishReason else None;
        out := [Frame.Chunk(chunkId, created, model, EMPTY_DELTA, Some(FinishReason(reason)))] + [Done];
      }
    }

    /** `ok` is false when a slice index lies outside the buffer, where the code panics. */
    method ProcessChunk(data: Bytes, endOfStream: bool) returns (ok: bool, output: seq<Frame>)
      modifies this
      ensures
        match SseFraming.ProcessChunk(EngineOf(parse), old(Now()), data, endOfStream)
        case Panic => !ok
        case Fed(next, out) => ok && Now() == next && output == out
    {
      hide Lossy, Find, Translate, Drain, Run, SseFraming.ProcessChunk;
      var en := EngineOf(parse);
      buffer := buffer + data;
      output := [];
      ghost var all := Drain(BLANK_LINE, buffer);
      ghost var done: seq<Bytes> := [];
      RunOfNothing(en, Machine());
      assert [] + all.events == all.events;
      while true
        invariant all == Drained(done + Drain(BLANK_LINE, buffer).events,
                                 Drain(BLANK_LINE, buffer).rest, Drain(BLANK_LINE, buffer).ok)
        invariant Run(en, old(Machine()), done) == Ran(Machine(), output)
        decreases |buffer|
      {
        DrainTurn(BLANK_LINE, buffer, done);
        var text := Lossy(buffer);
        var boundary := Find(BLANK_LINE, text);
        if boundary.Nowhere? {
          break;
        }
        var pos := boundary.index;
        if pos + 2 > |buffer| {
          ChunkPanics(en, old(Now()), data, endOfStream);
          return false, [];
        }
        var event := text[..pos];
        buffer := buffer[pos + 2..];
        var translated := TranslateEvent(event);
        output := output + translated;
        RunOneMore(en, old(Machine()), done, event);
        done := done + [event];
      }
      ChunkFed(en, old(Now()), data, endOfStream, buffer, Ran(Machine(), output));
      if endOfStream && buffer != [] {
        var remaining := Lossy(buffer);
        var translated := TranslateEvent(remaining);
        output := output + translated;
        buffer := [];
      }
      ok := true;
    }
  }

  // ---- At most one role ------------------------------------------------------------------

  lemma HandleRoles(s: State, eventType: string, input: Input)
    ensures
      var r := Handle(s, eventType, input);
      && Roles(r.output) == (if !s.sentRole && r.state.sentRole then 1 else 0)
      && (s.sentRole ==> r.state.sentRole)
  {
    var r := Handle(s, eventType, input);
    if |r.output| == 2 {
      assert r.output[1..] == [Done] && [Done][1..] == [];
      assert Roles([Done]) == 0;
    }
  }

  /** However often `message-start` repeats, at most one chunk carries the role. */
  lemma {:induction false} AtMostOneRole(parse: Parser, s: State, events: seq<Bytes>)
    ensures
      var r := Run(EngineOf(parse), s, events);
      && Roles(r.output) == (if !s.sentRole && r.state.sentRole then 1 else 0)
      && (s.sentRole ==> r.state.sentRole)
    decreases |events|
  {
    hide Handle, EventType, Data;
    if |events| > 0 {
      var en, raw := EngineOf(parse), events[0];
      var first := en.step(s, raw);
      HandleRoles(s, EventType(raw), InputOf(parse, Data(raw)));
      AtMostOneRole(parse, first.state, events[1..]);
      RolesAppend(first.output, Run(en, first.state, events[1..]).output);
    }
  }
}
