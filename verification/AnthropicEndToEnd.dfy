/** From the provider's bytes, cut anywhere by the network, to the message the client holds. */
module AnthropicEndToEnd {
  import opened Text
  import opened Utf8
  import opened SseFraming
  import opened SseFields
  import opened OpenAi
  import opened Delivery
  import opened AnthropicStream
  import opened Anthropic

  /** What the machine sees in a line that carries some JSON, or something else. */
  function Reader(parse: Parser): Line -> Option<Event> {
    (l: Line) => Seen(l.name, if l.data == "" then None else parse(l.data))
  }

  lemma LineSteps(parse: Parser, l: Line)
    requires Writable(l)
    ensures Steps(EngineOf(parse), After, Reader(parse), l)
  {
    hide Handle, Seen, Valid, EventType, Data;
    ReadWritten(l.name, l.data);
    var parsed := if l.data == "" then None else parse(l.data);
    forall s: State
      ensures Translate(parse, s, Written(l.name, l.data)) == Handle(s, l.name, parsed)
    {
      WithoutJson(s, l.name, parse(l.data));
    }
    forall p: Progress<State>
      ensures
        var r := Handle(p.state, l.name, parsed);
        Progress(r.state, Assemble(p.client, r.output)) ==
        match Seen(l.name, parsed) case Some(e) => After(p, e) case None => p
    {
      HandlesWhatItSees(p.state, l.name, parsed);
    }
  }

  lemma WithoutJson(s: State, name: string, parsed: Option<Payload>)
    ensures Handle(s, name, None) == if name == "message_stop" then Handle(s, name, parsed) else Ran(s, [])
  {
  }

  /** Whatever message the provider streams, in whatever deltas, among whatever other events and with
      whatever other fields, wherever the network cuts the bytes, and whether the last blank line comes or
      not: the translator never panics, ends with an empty buffer, and the client holds exactly that
      message. */
  lemma StreamDeliversMessage(parse: Parser, created: nat, lines: seq<Line>,
                              id: string, model: string, sents: seq<Sent>, reasons: seq<Option<string>>,
                              chunks: seq<Bytes>)
    requires forall i | 0 <= i < |lines| :: Writable(lines[i])
    requires Told(Reader(parse), lines) == MessageEvents(id, model, sents, reasons)
    requires |chunks| > 0
    requires
      || Concat(chunks) == Glue("\n\n", Wire(lines))
      || (|lines| > 0 && Concat(chunks) + "\n\n" == Glue("\n\n", Wire(lines)))
    ensures
      var fed := Feed(EngineOf(parse), Translator([], State("", "", false, created)), chunks);
      && fed.Fed?
      && fed.next == Translator([], State(id, model, true, created))
      && Assemble(NOTHING, fed.output) == Received(id, model, created, sents, LastReason(reasons))
  {
    hide MessageEvents, Feed, Glue, Fold, Assemble, Told, Wire, Writable, Received, LastReason;
    forall i | 0 <= i < |lines|
      ensures Steps(EngineOf(parse), After, Reader(parse), lines[i])
    {
      LineSteps(parse, lines[i]);
    }
    WireDelivers(EngineOf(parse), After, Reader(parse), State("", "", false, created), lines, chunks);
    MessageReceived(id, model, created, sents, reasons);
  }

  /** The repository's own test stream is such a stream: no block is opened or closed, and each payload has
      the fields of its JSON and no others. */
  lemma TestStreamTells(parse: Parser, start: Bytes, hello: Bytes, delta: Bytes, stop: Bytes)
    requires |start| > 0 && |hello| > 0 && |delta| > 0
    requires parse(start) ==
             Some(NO_PAYLOAD.(message := Some(MessageInfo(Some("msg_01"), Some("claude-3-haiku-20240307")))))
    requires parse(hello) ==
             Some(Payload(None, None, Some(DeltaInfo(Some("text_delta"), Some("Hello"), None, None)), Some(0)))
    requires parse(delta) == Some(NO_PAYLOAD.(delta := Some(DeltaInfo(None, None, None, Some("end_turn")))))
    ensures
      var lines := [Line("message_start", start), Line("content_block_delta", hello),
                    Line("message_delta", delta), Line("message_stop", stop)];
      var text := Block("text", Some("Hello"), None, None, None);
      Told(Reader(parse), lines) ==
      MessageEvents("msg_01", "claude-3-haiku-20240307", [Sent(text, ["Hello"])], [Some("end_turn")])
  {
    var lines := [Line("message_start", start), Line("content_block_delta", hello),
                  Line("message_delta", delta), Line("message_stop", stop)];
    var sent := Sent(Block("text", Some("Hello"), None, None, None), ["Hello"]);
    var reader := Reader(parse);
    var e := [MessageStart("msg_01", "claude-3-haiku-20240307"), TextDelta("Hello"),
              MessageDelta(Some("end_turn")), MESSAGE_STOP];
    ToldNext(reader, lines[3], e[3], []);
    ToldNext(reader, lines[2], e[2], [lines[3]]);
    ToldNext(reader, lines[1], e[1], [lines[2], lines[3]]);
    ToldNext(reader, lines[0], e[0], [lines[1], lines[2], lines[3]]);
    assert lines == [lines[0]] + [lines[1], lines[2], lines[3]];
    assert Told(reader, lines) == e;
    assert [sent][..0] == [] && AllBlockEvents([]) == [];
    assert AllBlockEvents([sent]) == [TextDelta("Hello")];
    assert ReasonEvents([Some("end_turn")]) == [MessageDelta(Some("end_turn"))];
  }
}
