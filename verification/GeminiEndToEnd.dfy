/** From Gemini's bytes, cut anywhere by the network, to the message the client holds. */
module GeminiEndToEnd {
  import opened Text
  import opened Utf8
  import Json
  import opened SseFraming
  import GF = GeminiFraming
  import opened OpenAi
  import opened GeminiStream
  import opened Gemini

  /** The bytes some JSON texts travel in. */
  function Wire(jsons: seq<Bytes>): Bytes {
    if |jsons| == 0 then [] else "data: " + jsons[0] + "\n\n" + Wire(jsons[1..])
  }

  predicate PlainLine(json: Bytes) {
    NoByte('\n', json) && Trimmed(json) && Valid(json)
  }

  /** Each text is one trimmed line of UTF-8 that carries the candidates of an event; one that is not JSON,
      or has none, carries an empty event. */
  predicate Carry(parse: Parser, jsons: seq<Bytes>, events: seq<seq<Reply>>) {
    && |jsons| == |events|
    && forall i | 0 <= i < |jsons| :: PlainLine(jsons[i]) && CandidatesIn(parse, jsons[i]) == WireReplies(events[i])
  }

  lemma FirstEvent(json: Bytes, rest: Bytes)
    requires PlainLine(json)
    ensures GF.NextEvent(PREFIX, BLANK_LINE, PREFIX + json + BLANK_LINE + rest) ==
            GF.Complete(json, |PREFIX + json + BLANK_LINE|)
  {
    hide Find, Trim, GF.NextEvent, Valid;
    var text := PREFIX + json + BLANK_LINE + rest;
    var after := json + BLANK_LINE + rest;
    assert text == PREFIX + after;
    assert text[..|PREFIX|] == PREFIX && text[|PREFIX|..] == after;
    GF.PrefixIsFoundFirst(PREFIX, text);
    FindDoubleAfter('\n', json, rest);
    assert after[..|json|] == json;
    TrimIsIdentity(json);
    GF.NextEventCases(PREFIX, BLANK_LINE, text);
  }

  lemma {:induction false} FramesOfWire(jsons: seq<Bytes>)
    requires forall i | 0 <= i < |jsons| :: PlainLine(jsons[i])
    ensures GF.Frames(PREFIX, BLANK_LINE, Wire(jsons)) == Framed(jsons, [])
    ensures Valid(Wire(jsons))
  {
    hide PlainLine, GF.NextEvent, Valid;
    if |jsons| == 0 {
      assert Ascii([]);
      AsciiIsValid([]);
    } else {
      var head, rest := PREFIX + jsons[0] + BLANK_LINE, Wire(jsons[1..]);
      FirstEvent(jsons[0], rest);
      assert (head + rest)[|head|..] == rest;
      FramesOfWire(jsons[1..]);
      ValidHead(jsons[0]);
      ValidConcat(head, rest);
    }
  }

  lemma ValidHead(json: Bytes)
    requires PlainLine(json)
    ensures Valid(PREFIX + json + BLANK_LINE)
  {
    hide Valid;
    AsciiIsValid(PREFIX);
    AsciiIsValid(BLANK_LINE);
    ValidConcat(PREFIX, json);
    ValidConcat(PREFIX + json, BLANK_LINE);
  }

  lemma {:induction false} RunJsons(codec: Json.Codec, parse: Parser, p: Progress, jsons: seq<Bytes>,
                                    events: seq<seq<Reply>>)
    requires Carry(parse, jsons, events)
    ensures
      var r := Run(EngineOf(codec, parse).events, p.state, jsons);
      Progress(r.state, Assemble(p.client, r.output)) == AfterEvents(codec, p, events)
    decreases |events|
  {
    hide Candidates, PlainLine;
    if |events| > 0 {
      var en := EngineOf(codec, parse).events;
      var first := en.step(p.state, jsons[0]);
      NothingToTranslate(codec, p.state);
      AssembleAppend(p.client, first.output, Run(en, first.state, jsons[1..]).output);
      RunJsons(codec, parse, AfterEvent(codec, p, events[0]), jsons[1..], events[1..]);
    }
  }

  lemma NothingToTranslate(codec: Json.Codec, s: State)
    ensures Candidates(codec, s, []) == Visit(s, [], false)
  {
  }

  /** Whatever events the provider streams, candidates without parts included, with whatever other fields,
      and wherever the network cuts the bytes: the translator never panics, ends with an empty buffer and
      one end marker, and the client holds what it holds after those events; with the role if and only if
      the first event that opens the reply opens it with a text and is delivered. */
  lemma StreamDeliversEvents(codec: Json.Codec, parse: Parser, created: nat, jsons: seq<Bytes>,
                             events: seq<seq<Reply>>, chunks: seq<Bytes>)
    requires Carry(parse, jsons, events)
    requires |chunks| > 0 && Concat(chunks) == Wire(jsons)
    ensures
      var start := State(false, 0, "chatcmpl-gemini-" + Decimal(created), created);
      var fed := GF.Feed(EngineOf(codec, parse), Translator([], start), chunks);
      var p := AfterEvents(codec, Progress(Start(created), NOTHING), events);
      && fed.Fed?
      && fed.next == Translator([], p.state)
      && Assemble(NOTHING, fed.output) == p.client.(dones := p.client.dones + 1)
      && p.client.roles == (if RoleIsSent(parse, jsons) then 1 else 0)
  {
    hide GF.Frames, GF.Feed, Run, AfterEvents, Wire, Concat, PlainLine, Valid, Assemble, Candidates;
    var en := EngineOf(codec, parse);
    FramesOfWire(jsons);
    var stream := Concat(chunks);
    GF.CuttingDoesNotMatter(en, Start(created), stream, chunks);
    assert [] + stream == stream;
    GF.LastCall(en, Translator([], Start(created)), stream);
    var r := Run(en.events, Start(created), jsons);
    RunOfNothing(en.events, r.state);
    RunJsons(codec, parse, Progress(Start(created), NOTHING), jsons, events);
    RoleIsSentIff(codec, parse, Start(created), jsons);
    AssembleRoles(NOTHING, r.output);
    assert r.output + [] + [Done] == r.output + [Done];
    AssembleAppend(NOTHING, r.output, [Done]);
    AssembleOne(Assemble(NOTHING, r.output), Done);
  }
}
