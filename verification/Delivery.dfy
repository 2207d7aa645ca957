/** What a client makes of events that reach the translator one after another, or as bytes cut anywhere. */
module Delivery {
  import opened Text
  import opened Utf8
  import opened SseFraming
  import opened SseFields
  import opened OpenAi

  /** An event by its name and its JSON. */
  datatype NamedEvent<P> = Event(name: string, payload: P)

  /** Machine and client after some events: a run of the machine, its output assembled. */
  datatype Progress<S> = Progress(state: S, client: Assembled)

  /** An event as the provider writes it: its name and its data line. */
  datatype Line = Line(name: Bytes, data: Bytes)

  /** Any well-formed one-line text may be the data, JSON or not; a name is ASCII without blanks around it. */
  predicate Writable(l: Line) {
    GoodName(l.name) && OneLine(l.data) && Valid(l.data)
  }

  function Wire(lines: seq<Line>): seq<Bytes> {
    seq(|lines|, i requires 0 <= i < |lines| => Written(lines[i].name, lines[i].data))
  }

  /** What a machine sees in lines, given what it sees in one: an event, or nothing. */
  function Told<P>(seen: Line -> Option<NamedEvent<P>>, lines: seq<Line>): seq<NamedEvent<P>> {
    if |lines| == 0 then []
    else
      (match seen(lines[0])
       case Some(e) => [e]
       case None => [])
      + Told(seen, lines[1..])
  }

  lemma ToldNext<P>(seen: Line -> Option<NamedEvent<P>>, l: Line, e: NamedEvent<P>, lines: seq<Line>)
    requires seen(l) == Some(e)
    ensures Told(seen, [l] + lines) == [e] + Told(seen, lines)
  {
    assert ([l] + lines)[1..] == lines;
  }

  /** Translating a written line does what the event seen in it does, or nothing. */
  ghost predicate Steps<S(!new), P>(en: Engine<S, Frame>, after: (Progress<S>, NamedEvent<P>) -> Progress<S>,
                                    seen: Line -> Option<NamedEvent<P>>, l: Line) {
    forall p: Progress<S> ::
      var r := en.step(p.state, Written(l.name, l.data));
      Progress(r.state, Assemble(p.client, r.output)) ==
      match seen(l)
      case Some(e) => after(p, e)
      case None => p
  }

  lemma {:induction false} RunWire<S(!new), P>(
      en: Engine<S, Frame>, after: (Progress<S>, NamedEvent<P>) -> Progress<S>,
      seen: Line -> Option<NamedEvent<P>>, p: Progress<S>, lines: seq<Line>)
    requires forall i | 0 <= i < |lines| :: Steps(en, after, seen, lines[i])
    ensures
      var r := Run(en, p.state, Wire(lines));
      Progress(r.state, Assemble(p.client, r.output)) == Fold(after, p, Told(seen, lines))
    decreases |lines|
  {
    if |lines| > 0 {
      var l, wire := lines[0], Wire(lines);
      assert wire[1..] == Wire(lines[1..]);
      assert Steps(en, after, seen, l);
      var first := en.step(p.state, wire[0]);
      var q := Progress(first.state, Assemble(p.client, first.output));
      AssembleAppend(p.client, first.output, Run(en, first.state, wire[1..]).output);
      RunWire(en, after, seen, q, lines[1..]);
      FoldTold(after, seen, p, lines);
    }
  }

  lemma FoldTold<S, P>(after: (S, NamedEvent<P>) -> S, seen: Line -> Option<NamedEvent<P>>, s: S, lines: seq<Line>)
    requires |lines| > 0
    ensures Fold(after, s, Told(seen, lines)) ==
            Fold(after, if seen(lines[0]).Some? then after(s, seen(lines[0]).value) else s, Told(seen, lines[1..]))
  {
    var rest := Told(seen, lines[1..]);
    match seen(lines[0])
    case Some(e) => assert ([e] + rest)[1..] == rest;
    case None => assert [] + rest == rest;
  }

  lemma WireIsWhole(lines: seq<Line>)
    requires forall i | 0 <= i < |lines| :: Writable(lines[i])
    ensures |Wire(lines)| == |lines|
    ensures forall e | e in Wire(lines) :: WholeEvent(BLANK_LINE, e) && Valid(e) && e != []
  {
    hide Valid, WholeEvent;
    forall i | 0 <= i < |lines|
      ensures WholeEvent(BLANK_LINE, Wire(lines)[i]) && Valid(Wire(lines)[i]) && Wire(lines)[i] != []
    {
      assert Writable(lines[i]);
      WrittenIsWhole(lines[i].name, lines[i].data);
    }
  }

  /** Lines written one after another and cut anywhere reach the client as the events seen in them do one
      by one: no call panics, and nothing is left in the buffer. The blank line that ends the last event may
      be missing. */
  lemma WireDelivers<S(!new), P>(
      en: Engine<S, Frame>, after: (Progress<S>, NamedEvent<P>) -> Progress<S>,
      seen: Line -> Option<NamedEvent<P>>, s: S, lines: seq<Line>, chunks: seq<Bytes>)
    requires en.Ok() && en.delimiter == BLANK_LINE
    requires forall i | 0 <= i < |lines| :: Writable(lines[i]) && Steps(en, after, seen, lines[i])
    requires |chunks| > 0
    requires
      || Concat(chunks) == Glue("\n\n", Wire(lines))
      || (|lines| > 0 && Concat(chunks) + "\n\n" == Glue("\n\n", Wire(lines)))
    ensures
      var fed, end := Feed(en, Translator([], s), chunks), Fold(after, Progress(s, NOTHING), Told(seen, lines));
      && fed.Fed? && fed.next == Translator([], end.state) && Assemble(NOTHING, fed.output) == end.client
  {
    hide Run, Feed, Glue, Fold, Assemble, Writable, Told, Find, Valid, WholeEvent, Wire;
    WireIsWhole(lines);
    RunWire(en, after, seen, Progress(s, NOTHING), lines);
    var wire, stream := Wire(lines), Concat(chunks);
    if stream == Glue(BLANK_LINE, wire) {
      NothingToFind();
      assert stream + [] == stream && wire + [] == wire;
      FeedGlued(en, s, wire, [], chunks);
    } else {
      var init, last := wire[..|wire| - 1], wire[|wire| - 1];
      assert wire == init + [last];
      GlueSnoc(BLANK_LINE, init, last);
      LastIsWhole(BLANK_LINE, last);
      assert stream + BLANK_LINE == Glue(BLANK_LINE, init) + last + BLANK_LINE;
      assert stream == (stream + BLANK_LINE)[..|stream|];
      assert (Glue(BLANK_LINE, init) + last + BLANK_LINE)[..|stream|] == Glue(BLANK_LINE, init) + last;
      FeedGlued(en, s, init, last, chunks);
    }
  }

  lemma NothingToFind()
    ensures Find(BLANK_LINE, []) == Nowhere && Valid([])
  {
  }

  lemma {:induction false} GlueSnoc(dl: Bytes, init: seq<Bytes>, last: Bytes)
    ensures Glue(dl, init + [last]) == Glue(dl, init) + last + dl
  {
    if |init| == 0 {
      assert init + [last] == [last] && [last][1..] == [];
      assert Glue(dl, []) == [];
    } else {
      assert (init + [last])[1..] == init[1..] + [last];
      GlueSnoc(dl, init[1..], last);
      assert init[0] + dl + (Glue(dl, init[1..]) + last + dl) == init[0] + dl + Glue(dl, init[1..]) + last + dl;
    }
  }

  /** A whole event holds no delimiter itself, and is not empty. */
  lemma LastIsWhole(dl: Bytes, e: Bytes)
    requires |dl| > 0 && WholeEvent(dl, e)
    ensures Find(dl, e) == Nowhere
  {
    hide Find, OccursAt;
    if Find(dl, e).At? {
      FindStable(dl, e, dl);
    }
  }
}
