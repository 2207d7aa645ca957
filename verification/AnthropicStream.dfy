/** The Anthropic-to-OpenAI stream translator: a byte buffer and a small event machine. */
module AnthropicStream {
  import opened Text
  import opened Utf8
  import opened SseFraming
  import opened SseFields
  import opened OpenAi

  // What the machine reads of an event's JSON: `None` stands for a field that is absent or does
  // not have the type the code asks for.
  datatype MessageInfo = MessageInfo(id: Option<string>, model: Option<string>)
  datatype BlockInfo = BlockInfo(kind: Option<string>, id: Option<string>, name: Option<string>)
  datatype DeltaInfo = DeltaInfo(
    kind: Option<string>, text: Option<string>, partialJson: Option<string>, stopReason: Option<string>)
  datatype Payload = Payload(
    message: Option<MessageInfo>, contentBlock: Option<BlockInfo>, delta: Option<DeltaInfo>, index: Option<nat>)

  const NO_PAYLOAD: Payload := Payload(None, None, None, None)

  datatype State = State(msgId: string, model: string, sentRole: bool, created: nat) {
    function Chunk(delta: Delta, finishReason: Option<string>): Frame {
      Frame.Chunk(msgId, created, model, delta, finishReason)
    }
  }

  /** Anthropic's stop reasons under their OpenAI names. */
  function FinishReason(stopReason: string): string {
    if stopReason == "end_turn" then "stop"
    else if stopReason == "max_tokens" then "length"
    else if stopReason == "pause_turn" || stopReason == "tool_use" then "tool_calls"
    else if stopReason == "stop_sequence" then "stop"
    else stopReason
  }

  function MapFinish(stopReason: Option<string>): Option<string> {
    if stopReason.Some? then Some(FinishReason(stopReason.value)) else None
  }

  /** What an event of the given type does, once its data line is parsed. */
  function Handle(s: State, eventType: string, parsed: Option<Payload>): Ran<State, Frame> {
    if eventType == "message_stop" then Ran(s, [Done])
    else if parsed.None? then Ran(s, [])
    else
      var p := parsed.value;
      if eventType == "message_start" then
        if p.message.None? then Ran(s, [])
        else
          var named := s.(msgId := p.message.value.id.GetOr("chatcmpl-stream"),
                          model := p.message.value.model.GetOr(""));
          if s.sentRole then Ran(named, [])
          else Ran(named.(sentRole := true), [named.Chunk(Delta(Some("assistant"), Some(""), []), None)])
      else if eventType == "content_block_start" then
        if p.contentBlock.Some? && p.contentBlock.value.kind == Some("tool_use") then
          var b := p.contentBlock.value;
          var start := ToolDelta(p.index.GetOr(0), Some(b.id.GetOr("")), Some(b.name.GetOr("")), "");
          Ran(s, [s.Chunk(Delta(None, None, [start]), None)])
        else Ran(s, [])
      else if eventType == "content_block_delta" then
        if p.delta.None? then Ran(s, [])
        else if p.delta.value.kind == Some("text_delta") then
          Ran(s, [s.Chunk(Delta(None, Some(p.delta.value.text.GetOr("")), []), None)])
        else if p.delta.value.kind == Some("input_json_delta") then
          var more := ToolDelta(p.index.GetOr(0), None, None, p.delta.value.partialJson.GetOr(""));
          Ran(s, [s.Chunk(Delta(None, None, [more]), None)])
        else Ran(s, [])
      else if eventType == "message_delta" then
        if p.delta.None? then Ran(s, [])
        else Ran(s, [s.Chunk(EMPTY_DELTA, MapFinish(p.delta.value.stopReason))])
      else Ran(s, [])
  }

  type Parser = Bytes -> Option<Payload>

  /** `translate_event`. */
  function Translate(parse: Parser, s: State, raw: Bytes): Ran<State, Frame> {
    if Data(raw) == "" && EventType(raw) != "message_stop" then Ran(s, [])
    else Handle(s, EventType(raw), parse(Data(raw)))
  }

  function EngineOf(parse: Parser): (en: Engine<State, Frame>)
    ensures en.Ok() && en.delimiter == BLANK_LINE
  {
    Engine(BLANK_LINE, (s, raw) => Translate(parse, s, raw))
  }

  class AnthropicToOpenAIStream {
    var buffer: Bytes
    var msgId: string
    var model: string
    var sentRole: bool
    const created: nat
    const parse: Parser

    constructor (parse: Parser, created: nat)
      ensures this.parse == parse
      ensures Now() == Translator([], State("", "", false, created))
    {
      this.parse, this.created := parse, created;
      buffer, msgId, model, sentRole := [], "", "", false;
    }

    function Machine(): State
      reads this
    {
      State(msgId, model, sentRole, created)
    }

    function Now(): Translator<State>
      reads this
    {
      Translator(buffer, Machine())
    }

    method TranslateEvent(raw: Bytes) returns (out: seq<Frame>)
      modifies this`msgId, this`model, this`sentRole
      ensures Ran(Machine(), out) == Translate(parse, old(Machine()), raw)
    {
      hide EventType, Data;
      out := [];
      var eventType, dataLine := ReadFields(raw);
      if dataLine == "" && eventType != "message_stop" {
        return;
      }
      if eventType == "message_stop" {
        return [Done];
      }
      var parsed := parse(dataLine);
      if parsed.None? {
        return;
      }
      var p := parsed.value;
      if eventType == "message_start" {
        if p.message.Some? {
          msgId := p.message.value.id.GetOr("chatcmpl-stream");
          model := p.message.value.model.GetOr("");
          if !sentRole {
            sentRole := true;
            out := [Frame.Chunk(msgId, created, model, Delta(Some("assistant"), Some(""), []), None)];
          }
        }
      } else if eventType == "content_block_start" {
        if p.contentBlock.Some? && p.contentBlock.value.kind == Some("tool_use") {
          var b := p.contentBlock.value;
          var start := ToolDelta(p.index.GetOr(0), Some(b.id.GetOr("")), Some(b.name.GetOr("")), "");
          out := [Frame.Chunk(msgId, created, model, Delta(None, None, [start]), None)];
        }
      } else if eventType == "content_block_delta" {
        if p.delta.Some? {
          var d := p.delta.value;
          if d.kind == Some("text_delta") {
            out := [Frame.Chunk(msgId, created, model, Delta(None, Some(d.text.GetOr("")), []), None)];
          } else if d.kind == Some("input_json_delta") {
            var more := ToolDelta(p.index.GetOr(0), None, None, d.partialJson.GetOr(""));
            out := [Frame.Chunk(msgId, created, model, Delta(None, None, [more]), None)];
          }
        }
      } else if eventType == "message_delta" {
        if p.delta.Some? {
          out := [Frame.Chunk(msgId, created, model, EMPTY_DELTA, MapFinish(p.delta.value.stopReason))];
        }
      }
    }

    /** `ok` is false when a slice index lies outside the buffer, where the code panics. */
    method ProcessChunk(data: Bytes, endOfStream: bool) returns (ok: bool, output: seq<Frame>)
      modifies this
      ensures
        match SseFraming.ProcessChunk(EngineOf(parse), old(Now()), data, endOfStream)
        case Panic => !ok
        case Fed(next, out) => ok && Now() == next && output == out
    {
      hide Lossy, Find, Translate, Drain, Run, SseFraming.ProcessChunk;
      var en := EngineOf(parse);
      buffer := buffer + data;
      output := [];
      ghost var all := Drain(BLANK_LINE, buffer);
      ghost var done: seq<Bytes> := [];
      RunOfNothing(en, Machine());
      assert [] + all.events == all.events;
      while true
        invariant all == Drained(done + Drain(BLANK_LINE, buffer).events,
                                 Drain(BLANK_LINE, buffer).rest, Drain(BLANK_LINE, buffer).ok)
        invariant Run(en, old(Machine()), done) == Ran(Machine(), output)
        decreases |buffer|
      {
        DrainTurn(BLANK_LINE, buffer, done);
        var text := Lossy(buffer);
        var boundary := Find(BLANK_LINE, text);
        if boundary.Nowhere? {
          break;
        }
        var pos := boundary.index;
        if pos + 2 > |buffer| {
          ChunkPanics(en, old(Now()), data, endOfStream);
          return false, [];
        }
        var event := text[..pos];
        buffer := buffer[pos + 2..];
        var translated := TranslateEvent(event);
        output := output + translated;
        RunOneMore(en, old(Machine()), done, event);
        done := done + [event];
      }
      ChunkFed(en, old(Now()), data, endOfStream, buffer, Ran(Machine(), output));
      if endOfStream && buffer != [] {
        var remaining := Lossy(buffer);
        var translated := TranslateEvent(remaining);
        output := output + translated;
        buffer := [];
      }
      ok := true;
    }
  }

  // ---- At most one role ------------------------------------------------------------------

  lemma HandleRoles(s: State, eventType: string, parsed: Option<Payload>)
    ensures
      var r := Handle(s, eventType, parsed);
      && Roles(r.output) == (if !s.sentRole && r.state.sentRole then 1 else 0)
      && (s.sentRole ==> r.state.sentRole)
      && (eventType == "message_start" && parsed.Some? && parsed.value.message.Some? ==> r.state.sentRole)
  {
  }

  /** However often `message_start` repeats, whatever the events are, at most one chunk carries the
      role; and it is sent exactly when the machine first learns of a message. */
  lemma {:induction false} AtMostOneRole(parse: Parser, s: State, events: seq<Bytes>)
    ensures
      var r := Run(EngineOf(parse), s, events);
      && Roles(r.output) == (if !s.sentRole && r.state.sentRole then 1 else 0)
      && (s.sentRole ==> r.state.sentRole)
    decreases |events|
  {
    hide Handle, EventType, Data;
    if |events| > 0 {
      var en := EngineOf(parse);
      var first := en.step(s, events[0]);
      var raw := events[0];
      HandleRoles(s, EventType(raw), parse(Data(raw)));
      AtMostOneRole(parse, first.state, events[1..]);
      RolesAppend(first.output, Run(en, first.state, events[1..]).output);
    }
  }
}
