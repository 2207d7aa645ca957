/** From Cohere's bytes, cut anywhere by the network, to the message the client holds. */
module CohereEndToEnd {
  import opened Text
  import opened Utf8
  import opened SseFraming
  import opened SseFields
  import opened OpenAi
  import opened Delivery
  import opened CohereStream
  import opened Cohere

  /** What a data line holds: nothing, some JSON, or something else. */
  function ReadData(parse: Parser, data: Bytes): Input {
    if |data| == 0 then NoData
    else if parse(data).Some? then Parsed(parse(data).value)
    else NotJson
  }

  /** What the machine sees in a line. */
  function Reader(parse: Parser): Line -> Option<Event> {
    (l: Line) => Seen(l.name, ReadData(parse, l.data))
  }

  lemma SameInput(parse: Parser, data: Bytes)
    ensures InputOf(parse, data) == ReadData(parse, data)
  {
  }

  lemma LineSteps(parse: Parser, l: Line)
    requires Writable(l)
    ensures Steps(EngineOf(parse), After, Reader(parse), l)
  {
    hide Handle, Seen, InputOf, ReadData, Valid, EventType, Data;
    ReadWritten(l.name, l.data);
    SameInput(parse, l.data);
    var input := InputOf(parse, l.data);
    forall p: Progress<State>
      ensures
        var r := Handle(p.state, l.name, input);
        Progress(r.state, Assemble(p.client, r.output)) ==
        match Seen(l.name, input) case Some(e) => After(p, e) case None => p
    {
      HandlesWhatItSees(p.state, l.name, input);
    }
  }

  /** Whatever message the provider streams, in whatever deltas, among whatever other events and with
      whatever other fields, wherever the network cuts the bytes, and whether the last blank line comes or
      not: the translator never panics, ends with an empty buffer, and the client holds exactly that
      message. */
  lemma StreamDeliversMessage(parse: Parser, created: nat, lines: seq<Line>,
                              id: Option<string>, model: Option<string>, pieces: seq<string>,
                              calls: seq<SentCall>, reason: Option<string>, chunks: seq<Bytes>)
    requires forall i | 0 <= i < |lines| :: Writable(lines[i])
    requires Told(Reader(parse), lines) == MessageEvents(id, model, pieces, calls, reason)
    requires |chunks| > 0
    requires
      || Concat(chunks) == Glue("\n\n", Wire(lines))
      || (|lines| > 0 && Concat(chunks) + "\n\n" == Glue("\n\n", Wire(lines)))
    ensures
      var fed := Feed(EngineOf(parse), Translator([], State(DefaultId(created), "", false, created)), chunks);
      && fed.Fed?
      && fed.next == Translator([], State(id.GetOr(DefaultId(created)), model.GetOr(""), true, created))
      && Assemble(NOTHING, fed.output) == Received(id, model, created, pieces, calls, reason)
  {
    hide MessageEvents, Feed, Glue, Fold, Assemble, Told, Wire, Writable, Received, DefaultId;
    forall i | 0 <= i < |lines|
      ensures Steps(EngineOf(parse), After, Reader(parse), lines[i])
    {
      LineSteps(parse, lines[i]);
    }
    WireDelivers(EngineOf(parse), After, Reader(parse), State(DefaultId(created), "", false, created), lines, chunks);
    MessageReceived(id, model, created, pieces, calls, reason);
  }

  /** The repository's own test of a tool call is such a stream: the argument event names the call without
      id and name, as its JSON does. */
  lemma TestStreamTells(parse: Parser, start: Bytes, call: Bytes, arguments: Bytes, end: Bytes)
    requires |start| > 0 && |call| > 0 && |arguments| > 0 && |end| > 0
    requires parse(start) == Some(NO_PAYLOAD.(id := Some("c3"), model := Some("command-r-plus")))
    requires parse(call) == Some(NO_PAYLOAD.(index := Some(0), call := Some(CallInfo(Some("tc1"), Some("search")))))
    requires parse(arguments) ==
             Some(NO_PAYLOAD.(index := Some(0), call := Some(CallInfo(None, None)),
                              arguments := Some("{\"q\":\"hi\"}")))
    requires parse(end) == Some(NO_PAYLOAD.(finishReason := Some("TOOL_CALL")))
    ensures
      var lines := [Line("message-start", start), Line("tool-call-start", call),
                    Line("tool-call-delta", arguments), Line("message-end", end)];
      Told(Reader(parse), lines) ==
      MessageEvents(Some("c3"), Some("command-r-plus"), [], [SentCall("tc1", "search", ["{\"q\":\"hi\"}"])],
                    Some("TOOL_CALL"))
  {
    var lines := [Line("message-start", start), Line("tool-call-start", call),
                  Line("tool-call-delta", arguments), Line("message-end", end)];
    var sent := SentCall("tc1", "search", ["{\"q\":\"hi\"}"]);
    var reader := Reader(parse);
    var e := [MessageStart(Some("c3"), Some("command-r-plus")), CallStart(0, "tc1", "search"),
              CallDelta(0, sent.pieces[0]), MessageEnd(Some("TOOL_CALL"))];
    ToldNext(reader, lines[3], e[3], []);
    ToldNext(reader, lines[2], e[2], [lines[3]]);
    ToldNext(reader, lines[1], e[1], [lines[2], lines[3]]);
    ToldNext(reader, lines[0], e[0], [lines[1], lines[2], lines[3]]);
    assert lines == [lines[0]] + [lines[1], lines[2], lines[3]];
    assert Told(reader, lines) == e;
    assert [sent][..0] == [] && CallEvents([]) == [];
    assert CallEvents([sent]) == OneCall(0, sent);
  }
}
