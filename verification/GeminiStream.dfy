/** The Gemini-to-OpenAI stream translator: one JSON object per event, with a running tool-call
    index and a flag for the role. */
module GeminiStream {
  import opened Text
  import opened Utf8
  import Json
  import opened SseFraming
  import opened OpenAi
  import GF = GeminiFraming

  // What the machine reads of an event's JSON. `parts` is `None` when the candidate lacks
  // `content.parts`; a call's fields are `None` when absent.
  datatype CallPart = CallPart(name: Option<string>, args: Option<Json.Value>)
  datatype Part = Part(text: Option<string>, call: Option<CallPart>)
  datatype Candidate = Candidate(parts: Option<seq<Part>>, finishReason: Option<string>)

  /** The candidates of an event; `None` when it is not JSON or has no candidates array. */
  type Parser = Bytes -> Option<seq<Candidate>>

  const PREFIX: Bytes := "data: "

  datatype State = State(sentRole: bool, toolCallIndex: nat, chunkId: string, created: nat) {
    function Chunk(delta: Delta, finishReason: Option<string>): Frame {
      Frame.Chunk(chunkId, created, "gemini", delta, finishReason)
    }
  }

  function FinishReason(reason: string): string {
    if reason == "STOP" then "stop"
    else if reason == "MAX_TOKENS" then "length"
    else if reason == "SAFETY" || reason == "RECITATION" then "content_filter"
    else reason
  }

  function MapFinish(reason: Option<string>): Option<string> {
    if reason.Some? then Some(FinishReason(reason.value)) else None
  }

  function CallId(n: nat): string {
    "call_" + Decimal(n)
  }

  function TextStep(s: State, text: Option<string>): Ran<State, Frame> {
    if text.None? then Ran(s, [])
    else
      var role := if s.sentRole then None else Some("assistant");
      Ran(s.(sentRole := true), [s.Chunk(Delta(role, text, []), None)])
  }

  function CallStep(codec: Json.Codec, s: State, call: Option<CallPart>): Ran<State, Frame> {
    if call.None? then Ran(s, [])
    else
      var args := if call.value.args.Some? then codec.show(call.value.args.value) else "{}";
      var d := ToolDelta(s.toolCallIndex, Some(CallId(s.toolCallIndex)), Some(call.value.name.GetOr("")), args);
      Ran(s.(sentRole := true, toolCallIndex := s.toolCallIndex + 1), [s.Chunk(Delta(None, None, [d]), None)])
  }

  function PartStep(codec: Json.Codec, s: State, part: Part): Ran<State, Frame> {
    var t := TextStep(s, part.text);
    var c := CallStep(codec, t.state, part.call);
    Ran(c.state, t.output + c.output)
  }

  function Parts(codec: Json.Codec, s: State, parts: seq<Part>): Ran<State, Frame> {
    if |parts| == 0 then Ran(s, [])
    else
      var r := Parts(codec, s, parts[..|parts| - 1]);
      var last := PartStep(codec, r.state, parts[|parts| - 1]);
      Ran(last.state, r.output + last.output)
  }

  function FinishFrames(s: State, reason: Option<string>): seq<Frame> {
    if reason.Some? then [s.Chunk(EMPTY_DELTA, MapFinish(reason))] else []
  }

  /** Candidates handled so far; `aborted` once one of them lacks `content.parts`. */
  datatype Visit = Visit(state: State, output: seq<Frame>, aborted: bool)

  function Candidates(codec: Json.Codec, s: State, cands: seq<Candidate>): Visit {
    if |cands| == 0 then Visit(s, [], false)
    else
      var v := Candidates(codec, s, cands[..|cands| - 1]);
      var c := cands[|cands| - 1];
      if v.aborted then v
      else if c.parts.None? then v.(aborted := true)
      else
        var r := Parts(codec, v.state, c.parts.value);
        Visit(r.state, v.output + r.output + FinishFrames(r.state, c.finishReason), false)
  }

  /** `translate_data`: an aborted event emits nothing, but what it changed stays changed. */
  function Translate(codec: Json.Codec, parse: Parser, s: State, data: Bytes): Ran<State, Frame> {
    match parse(data)
    case None => Ran(s, [])
    case Some(cands) =>
      var v := Candidates(codec, s, cands);
      Ran(v.state, if v.aborted then [] else v.output)
  }

  function EngineOf(codec: Json.Codec, parse: Parser): (en: GF.GeminiEngine<State, Frame>)
    ensures en.Good() && en.prefix == PREFIX && en.events.delimiter == BLANK_LINE && en.ending == [Done]
  {
    GF.GeminiEngine(PREFIX, Engine(BLANK_LINE, (s, data) => Translate(codec, parse, s, data)), [Done])
  }

  /** What one part becomes: a chunk with its text, with the role if none was sent or missed before; then a
      chunk with its call, under the next index, name and arguments empty if they are missing. */
  lemma PartSays(codec: Json.Codec, s: State, part: Part)
    ensures
      var r := PartStep(codec, s, part);
      var text := if part.text == None then []
                  else [Frame.Chunk(s.chunkId, s.created, "gemini",
                                    Delta(if s.sentRole then None else Some("assistant"), part.text, []), None)];
      && (part.call == None ==>
           r == Ran(s.(sentRole := s.sentRole || part.text.Some?), text))
      && (part.call.Some? ==>
           var c, n := part.call.value, s.toolCallIndex;
           var d := ToolDelta(n, Some("call_" + Decimal(n)), Some(if c.name.Some? then c.name.value else ""),
                              if c.args.Some? then codec.show(c.args.value) else "{}");
           && r.state == s.(sentRole := true, toolCallIndex := n + 1)
           && r.output == text + [Frame.Chunk(s.chunkId, s.created, "gemini", Delta(None, None, [d]), None)])
  {
    hide Decimal;
  }

  lemma {:induction false} AbortSticks(codec: Json.Codec, s: State, cands: seq<Candidate>, n: nat)
    requires n <= |cands| && Candidates(codec, s, cands[..n]).aborted
    ensures Candidates(codec, s, cands) == Candidates(codec, s, cands[..n])
  {
    if n < |cands| {
      assert cands[..|cands| - 1][..n] == cands[..n];
      AbortSticks(codec, s, cands[..|cands| - 1], n);
    } else {
      assert cands[..n] == cands;
    }
  }

  class GeminiToOpenAIStream {
    var buffer: Bytes
    var sentRole: bool
    var toolCallIndex: nat
    const chunkId: string
    const created: nat
    const codec: Json.Codec
    const parse: Parser

    constructor (codec: Json.Codec, parse: Parser, created: nat)
      ensures this.codec == codec && this.parse == parse
      ensures Now() == Translator([], Start(created))
    {
      this.codec, this.parse, this.created := codec, parse, created;
      chunkId := "chatcmpl-gemini-" + Decimal(created);
      buffer, sentRole, toolCallIndex := [], false, 0;
    }

    function Machine(): State
      reads this
    {
      State(sentRole, toolCallIndex, chunkId, created)
    }

    function Now(): Translator<State>
      reads this
    {
      Translator(buffer, Machine())
    }

    method TranslatePart(part: Part) returns (output: seq<Frame>)
      modifies this`sentRole, this`toolCallIndex
      ensures Ran(Machine(), output) == PartStep(codec, old(Machine()), part)
    {
      output := [];
      if part.text.Some? {
        var role: Option<string> := None;
        if !sentRole {
          sentRole := true;
          role := Some("assistant");
        }
        output := output + [Frame.Chunk(chunkId, created, "gemini", Delta(role, part.text, []), None)];
      }
      if part.call.Some? {
        var args := if part.call.value.args.Some? then codec.show(part.call.value.args.value) else "{}";
        if !sentRole {
          sentRole := true;
        }
        var d := ToolDelta(toolCallIndex, Some(CallId(toolCallIndex)), Some(part.call.value.name.GetOr("")), args);
        output := output + [Frame.Chunk(chunkId, created, "gemini", Delta(None, None, [d]), None)];
        toolCallIndex := toolCallIndex + 1;
      }
    }

    method TranslateData(data: Bytes) returns (output: seq<Frame>)
      modifies this`sentRole, this`toolCallIndex
      ensures Ran(Machine(), output) == Translate(codec, parse, old(Machine()), data)
    {
      hide PartStep;
      output := [];
      var parsed := parse(data);
      if parsed.None? {
        return;
      }
      var cands := parsed.value;
      ghost var s := Machine();
      for i := 0 to |cands|
        invariant Candidates(codec, s, cands[..i]) == Visit(Machine(), output, false)
      {
        var c := cands[i];
        assert cands[..i + 1][..i] == cands[..i];
        if c.parts.None? {
          AbortSticks(codec, s, cands, i + 1);
          return [];
        }
        var parts := c.parts.value;
        ghost var s', before := Machine(), output;
        for j := 0 to |parts|
          invariant Parts(codec, s', parts[..j]).state == Machine()
          invariant output == before + Parts(codec, s', parts[..j]).output
        {
          assert parts[..j + 1][..j] == parts[..j];
          var emitted := TranslatePart(parts[j]);
          output := output + emitted;
        }
        assert parts[..|parts|] == parts;
        if c.finishReason.Some? {
          output := output + [Frame.Chunk(chunkId, created, "gemini", EMPTY_DELTA, MapFinish(c.finishReason))];
        }
      }
      assert cands[..|cands|] == cands;
    }

    /** The loop over the buffer. `ok` is false when a slice index lies outside the buffer, where
        the code panics. */
    method DrainEvents() returns (ok: bool, output: seq<Frame>)
      modifies this
      ensures
        var d := GF.Drain(PREFIX, BLANK_LINE, old(buffer));
        && ok == d.ok
        && (ok ==> buffer == d.rest &&
                   Run(EngineOf(codec, parse).events, old(Machine()), d.events) == Ran(Machine(), output))
    {
      hide Lossy, Find, Translate, LastIndexOf, Trim, OccursAt, GF.NextEvent, GF.Drain, GF.Cut, Run;
      var en := EngineOf(codec, parse).events;
      output := [];
      ghost var all := GF.Drain(PREFIX, BLANK_LINE, buffer);
      ghost var done: seq<Bytes> := [];
      RunOfNothing(en, Machine());
      assert done + all.events == all.events;
      while true
        invariant all == Drained(done + GF.Drain(PREFIX, BLANK_LINE, buffer).events,
                                 GF.Drain(PREFIX, BLANK_LINE, buffer).rest, GF.Drain(PREFIX, BLANK_LINE, buffer).ok)
        invariant Run(en, old(Machine()), done) == Ran(Machine(), output)
        decreases |buffer|
      {
        var text := Lossy(buffer);
        GF.NextEventCases(PREFIX, BLANK_LINE, text);
        GF.DrainIsCut(PREFIX, BLANK_LINE, buffer);
        GF.CutTurn(PREFIX, BLANK_LINE, buffer, text, done);
        var start := Find(PREFIX, text);
        if start.Nowhere? {
          var newline := LastIndexOf('\n', text);
          if newline.At? {
            if newline.index + 1 > |buffer| {
              return false, [];
            }
            buffer := buffer[newline.index + 1..];
          }
          return true, output;
        }
        var after := text[start.index + 6..];
        var end := Find(BLANK_LINE, after);
        if end.Nowhere? {
          return true, output;
        }
        var json := Trim(after[..end.index]);
        var consumeTo := start.index + 6 + end.index + 2;
        if consumeTo > |buffer| {
          return false, [];
        }
        buffer := buffer[consumeTo..];
        var translated := TranslateData(json);
        output := output + translated;
        RunOneMore(en, old(Machine()), done, json);
        done := done + [json];
      }
    }

    method ProcessChunk(data: Bytes, endOfStream: bool) returns (ok: bool, output: seq<Frame>)
      modifies this
      ensures
        match GF.ProcessChunk(EngineOf(codec, parse), old(Now()), data, endOfStream)
        case Panic => !ok
        case Fed(next, out) => ok && Now() == next && output == out
    {
      hide Lossy, Translate, Trim, GF.Drain, Run;
      buffer := buffer + data;
      ok, output := DrainEvents();
      if ok && endOfStream {
        ghost var en, m := EngineOf(codec, parse).events, Machine();
        RunOfNothing(en, m);
        LossyOfNothing();
        assert output + [] == output;
        if buffer != [] {
          var remaining := Lossy(buffer);
          var stripped := StripPrefix(PREFIX, remaining);
          if stripped.Some? {
            GF.RunSingle(en, m, Trim(stripped.value));
            var translated := TranslateData(Trim(stripped.value));
            output := output + translated;
          }
          buffer := [];
        }
        output := output + [Done];
      }
    }
  }

  function Start(created: nat): State {
    State(false, 0, "chatcmpl-gemini-" + Decimal(created), created)
  }

  // ---- When the role is sent -----------------------------------------------------------------

  /** Which of the two a reply begins with: a text, which can carry the role, or a call, which cannot. */
  datatype Opening = Nothing | Text | Call

  function OpeningOf(part: Part): Opening {
    if part.text.Some? then Text else if part.call.Some? then Call else Nothing
  }

  /** The first part that holds a text or a call. */
  function PartsOpening(parts: seq<Part>): Opening {
    if |parts| == 0 then Nothing
    else
      var before := PartsOpening(parts[..|parts| - 1]);
      if before.Nothing? then OpeningOf(parts[|parts| - 1]) else before
  }

  predicate LacksParts(cands: seq<Candidate>) {
    exists i :: 0 <= i < |cands| && cands[i].parts.None?
  }

  /** The same, over the candidates before the first that lacks parts. */
  function CandidatesOpening(cands: seq<Candidate>): Opening {
    if |cands| == 0 then Nothing
    else
      var init, c := cands[..|cands| - 1], cands[|cands| - 1];
      var before := CandidatesOpening(init);
      if !before.Nothing? || LacksParts(init) || c.parts.None? then before else PartsOpening(c.parts.value)
  }

  /** An event that is not JSON, or holds no candidates array, is like one without candidates. */
  function CandidatesIn(parse: Parser, data: Bytes): seq<Candidate> {
    parse(data).GetOr([])
  }

  /** The first event that opens the reply opens it with a text, and none of its candidates lacks parts. */
  predicate RoleIsSent(parse: Parser, events: seq<Bytes>)
    decreases |events|
  {
    |events| > 0 &&
    (var cands := CandidatesIn(parse, events[0]);
     if CandidatesOpening(cands).Nothing? then RoleIsSent(parse, events[1..])
     else CandidatesOpening(cands).Text? && !LacksParts(cands))
  }

  predicate IsOpened(parse: Parser, events: seq<Bytes>) {
    exists i :: 0 <= i < |events| && !CandidatesOpening(CandidatesIn(parse, events[i])).Nothing?
  }

  /** Roles emitted, and the flag afterwards, when something opens with `o`. */
  predicate SaysRole(s: State, r: Ran<State, Frame>, o: Opening) {
    && Roles(r.output) == (if !s.sentRole && o.Text? then 1 else 0)
    && (r.state.sentRole <==> s.sentRole || !o.Nothing?)
  }

  lemma PartRoles(codec: Json.Codec, s: State, part: Part)
    ensures SaysRole(s, PartStep(codec, s, part), OpeningOf(part))
  {
    var t := TextStep(s, part.text);
    RolesAppend(t.output, CallStep(codec, t.state, part.call).output);
  }

  lemma {:induction false} PartsRoles(codec: Json.Codec, s: State, parts: seq<Part>)
    ensures SaysRole(s, Parts(codec, s, parts), PartsOpening(parts))
  {
    hide PartStep, OpeningOf;
    if |parts| > 0 {
      var init := parts[..|parts| - 1];
      PartsRoles(codec, s, init);
      var r := Parts(codec, s, init);
      PartRoles(codec, r.state, parts[|parts| - 1]);
      RolesAppend(r.output, PartStep(codec, r.state, parts[|parts| - 1]).output);
    }
  }

  lemma LacksPartsSnoc(cands: seq<Candidate>)
    requires |cands| > 0
    ensures LacksParts(cands) <==> LacksParts(cands[..|cands| - 1]) || cands[|cands| - 1].parts.None?
  {
    var init, last := cands[..|cands| - 1], cands[|cands| - 1];
    assert cands == init + [last];
    if LacksParts(init) {
      var i :| 0 <= i < |init| && init[i].parts.None?;
      assert cands[i].parts.None?;
    }
    if last.parts.None? {
      assert cands[|cands| - 1].parts.None?;
    }
  }

  /** An event is aborted if and only if a candidate lacks parts. */
  lemma {:induction false} AbortedIff(codec: Json.Codec, s: State, cands: seq<Candidate>)
    ensures Candidates(codec, s, cands).aborted <==> LacksParts(cands)
  {
    hide Parts, LacksParts;
    if |cands| == 0 {
      NothingLacksParts(cands);
    } else {
      AbortedIff(codec, s, cands[..|cands| - 1]);
      LacksPartsSnoc(cands);
    }
  }

  lemma NothingLacksParts(cands: seq<Candidate>)
    requires |cands| == 0
    ensures !LacksParts(cands)
  {
  }

  lemma {:induction false} CandidatesRoles(codec: Json.Codec, s: State, cands: seq<Candidate>)
    ensures
      var v := Candidates(codec, s, cands);
      SaysRole(s, Ran(v.state, v.output), CandidatesOpening(cands))
  {
    hide Parts, PartsOpening, LacksParts;
    if |cands| > 0 {
      var init, c := cands[..|cands| - 1], cands[|cands| - 1];
      CandidatesRoles(codec, s, init);
      AbortedIff(codec, s, init);
      var v := Candidates(codec, s, init);
      if c.parts.Some? {
        PartsRoles(codec, v.state, c.parts.value);
        var r := Parts(codec, v.state, c.parts.value);
        RolesAppend(v.output, r.output);
        RolesAppend(v.output + r.output, FinishFrames(r.state, c.finishReason));
      }
    }
  }

  /** One event: what a candidate without parts takes away is the output, not the flag. */
  lemma EventRoles(codec: Json.Codec, parse: Parser, s: State, data: Bytes)
    ensures
      var cands, r := CandidatesIn(parse, data), Translate(codec, parse, s, data);
      && Roles(r.output) == (if !s.sentRole && CandidatesOpening(cands).Text? && !LacksParts(cands) then 1 else 0)
      && (r.state.sentRole <==> s.sentRole || !CandidatesOpening(cands).Nothing?)
      && (LacksParts(cands) ==> r.output == [])
  {
    hide LacksParts;
    var cands := CandidatesIn(parse, data);
    CandidatesRoles(codec, s, cands);
    AbortedIff(codec, s, cands);
  }

  /** Exactly when the role is sent: it is, once, if and only if it has not been sent before, the first
      event that opens the reply opens it with a text, and no candidate of that event lacks parts. So a
      reply that opens with a call, or in an event that is aborted, never gets its role. */
  lemma {:induction false} RoleIsSentIff(codec: Json.Codec, parse: Parser, s: State, events: seq<Bytes>)
    ensures
      var r := Run(EngineOf(codec, parse).events, s, events);
      && Roles(r.output) == (if !s.sentRole && RoleIsSent(parse, events) then 1 else 0)
      && (r.state.sentRole <==> s.sentRole || IsOpened(parse, events))
    decreases |events|
  {
    hide Translate, CandidatesOpening, CandidatesIn, LacksParts, IsOpened;
    var en := EngineOf(codec, parse).events;
    IsOpenedFirst(parse, events);
    if |events| > 0 {
      var first := en.step(s, events[0]);
      EventRoles(codec, parse, s, events[0]);
      RoleIsSentIff(codec, parse, first.state, events[1..]);
      RolesAppend(first.output, Run(en, first.state, events[1..]).output);
    }
  }

  lemma IsOpenedFirst(parse: Parser, events: seq<Bytes>)
    ensures IsOpened(parse, events) <==>
            |events| > 0 && (!CandidatesOpening(CandidatesIn(parse, events[0])).Nothing? || IsOpened(parse, events[1..]))
  {
    hide CandidatesOpening, CandidatesIn;
    if IsOpened(parse, events) {
      var i :| 0 <= i < |events| && !CandidatesOpening(CandidatesIn(parse, events[i])).Nothing?;
      assert i > 0 ==> events[1..][i - 1] == events[i];
    }
    if |events| > 0 && IsOpened(parse, events[1..]) {
      var i :| 0 <= i < |events| - 1 && !CandidatesOpening(CandidatesIn(parse, events[1..][i])).Nothing?;
      assert events[i + 1] == events[1..][i];
    }
  }

  /** Whatever the events are, at most one chunk carries the role. */
  lemma AtMostOneRole(codec: Json.Codec, parse: Parser, s: State, events: seq<Bytes>)
    ensures
      var r := Run(EngineOf(codec, parse).events, s, events);
      Roles(r.output) <= (if s.sentRole || !r.state.sentRole then 0 else 1) && (s.sentRole ==> r.state.sentRole)
  {
    hide Run, IsOpened;
    RoleIsSentIff(codec, parse, s, events);
    SentIsOpened(parse, events);
  }

  lemma {:induction false} SentIsOpened(parse: Parser, events: seq<Bytes>)
    ensures RoleIsSent(parse, events) ==> IsOpened(parse, events)
    decreases |events|
  {
    hide IsOpened, CandidatesOpening, CandidatesIn, LacksParts;
    IsOpenedFirst(parse, events);
    if |events| > 0 {
      SentIsOpened(parse, events[1..]);
    }
  }

  /** An event whose last candidate lacks parts loses its output but not its effect: the role is
      marked as sent although no chunk carried it, so no later chunk will. */
  lemma AbortedEventLosesRole(codec: Json.Codec, parse: Parser, s: State, data: Bytes, text: string)
    requires !s.sentRole
    requires parse(data) == Some([Candidate(Some([Part(Some(text), None)]), None), Candidate(None, None)])
    ensures Translate(codec, parse, s, data) == Ran(s.(sentRole := true), [])
  {
    var part := Part(Some(text), None);
    var c1, c2 := Candidate(Some([part]), None), Candidate(None, None);
    assert [c1, c2][..1] == [c1] && [c1][..0] == [] && [part][..0] == [];
    assert PartStep(codec, s, part).state == s.(sentRole := true);
    assert Parts(codec, s, []) == Ran(s, []);
    assert Parts(codec, s, [part]).state == s.(sentRole := true);
    assert Candidates(codec, s, []) == Visit(s, [], false);
    assert Candidates(codec, s, [c1]).state == s.(sentRole := true) && !Candidates(codec, s, [c1]).aborted;
  }

  /** Whatever follows it, a first event that opens with a call keeps the role from being sent, even
      when all its candidates are complete. */
  lemma LeadingCallLosesRole(codec: Json.Codec, parse: Parser, s: State, events: seq<Bytes>)
    requires |events| > 0 && CandidatesOpening(CandidatesIn(parse, events[0])).Call?
    ensures Roles(Run(EngineOf(codec, parse).events, s, events).output) == 0
  {
    hide Run, CandidatesOpening;
    RoleIsSentIff(codec, parse, s, events);
  }

  // ---- Exactly one end marker ------------------------------------------------------------------

  predicate NoDone(frames: seq<Frame>) {
    forall f | f in frames :: f.Chunk?
  }

  lemma {:induction false} PartsNoDone(codec: Json.Codec, s: State, parts: seq<Part>)
    ensures NoDone(Parts(codec, s, parts).output)
  {
    if |parts| > 0 {
      PartsNoDone(codec, s, parts[..|parts| - 1]);
    }
  }

  lemma {:induction false} CandidatesNoDone(codec: Json.Codec, s: State, cands: seq<Candidate>)
    ensures NoDone(Candidates(codec, s, cands).output)
  {
    hide Parts;
    if |cands| > 0 {
      var init, c := cands[..|cands| - 1], cands[|cands| - 1];
      CandidatesNoDone(codec, s, init);
      if c.parts.Some? {
        PartsNoDone(codec, Candidates(codec, s, init).state, c.parts.value);
      }
    }
  }

  lemma {:induction false} RunNoDone(codec: Json.Codec, parse: Parser, s: State, events: seq<Bytes>)
    ensures NoDone(Run(EngineOf(codec, parse).events, s, events).output)
    decreases |events|
  {
    hide Candidates;
    if |events| > 0 {
      var cands := parse(events[0]);
      if cands.Some? {
        CandidatesNoDone(codec, s, cands.value);
      }
      RunNoDone(codec, parse, EngineOf(codec, parse).events.step(s, events[0]).state, events[1..]);
    }
  }

  /** However a stream is cut, well-formed or not, the output ends with the only end marker. */
  lemma {:induction false} OneEndMarker(codec: Json.Codec, parse: Parser, t: Translator<State>, chunks: seq<Bytes>)
    requires |chunks| > 0
    ensures
      var fed := GF.Feed(EngineOf(codec, parse), t, chunks);
      fed.Fed? ==>
        && |fed.output| > 0 && fed.output[|fed.output| - 1] == Done
        && NoDone(fed.output[..|fed.output| - 1])
    decreases |chunks|
  {
    hide GF.Drain, Translate, Run, Lossy;
    var en := EngineOf(codec, parse);
    var d := GF.Drain(PREFIX, BLANK_LINE, t.buffer + chunks[0]);
    var r := Run(en.events, t.machine, d.events);
    RunNoDone(codec, parse, t.machine, d.events);
    if |chunks| == 1 {
      var flush := GF.Flush(PREFIX, Lossy(d.rest));
      RunNoDone(codec, parse, r.state, flush);
      var all := r.output + Run(en.events, r.state, flush).output;
      assert (all + [Done])[..|all|] == all;
    } else if d.ok {
      var rest := GF.Feed(en, Translator(d.rest, r.state), chunks[1..]);
      OneEndMarker(codec, parse, Translator(d.rest, r.state), chunks[1..]);
      if rest.Fed? {
        var n := |rest.output| - 1;
        assert (r.output + rest.output)[..|r.output| + n] == r.output + rest.output[..n];
      }
    }
  }
}
