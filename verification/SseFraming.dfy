/** The framing loop shared by the Anthropic and Cohere stream translators.

    `process_chunk` appends the chunk to a byte buffer, decodes the whole buffer lossily, searches
    the decoded text for the delimiter, and then slices the byte buffer with the offset it found in
    the text. `Drain` is that loop; `Frames` is what it should compute, on the bytes themselves.
    The delimiter `dl` is a parameter here; both translators pass `BLANK_LINE`. */
module SseFraming {
  import opened Text
  import opened Utf8

  /** What the boundary loop leaves behind. `ok` is false when a slice index lies outside the
      buffer, which makes the translator panic. */
  datatype Drained = Drained(events: seq<Bytes>, rest: Bytes, ok: bool)

  function Drain(dl: Bytes, buffer: Bytes): (d: Drained)
    requires |dl| > 0
    ensures |d.rest| <= |buffer| && (d.events != [] ==> |d.rest| + |dl| <= |buffer|)
    decreases |buffer|, 1
  {
    Cut(dl, buffer, Lossy(buffer))
  }

  /** One turn of the loop, with the decoded text of the buffer. */
  function Cut(dl: Bytes, buffer: Bytes, text: Bytes): (d: Drained)
    requires |dl| > 0
    ensures |d.rest| <= |buffer| && (d.events != [] ==> |d.rest| + |dl| <= |buffer|)
    decreases |buffer|, 0
  {
    match Find(dl, text)
    case Nowhere => Drained([], buffer, true)
    case At(pos) =>
      if pos + |dl| > |buffer| then
        Drained([], buffer, false)
      else
        var d := Drain(dl, buffer[pos + |dl|..]);
        Drained([text[..pos]] + d.events, d.rest, d.ok)
  }

  /** The events of a byte stream and the unterminated remainder. */
  datatype Framed = Framed(events: seq<Bytes>, rest: Bytes)

  function Prepend(e: Bytes, f: Framed): Framed {
    Framed([e] + f.events, f.rest)
  }

  function Frames(dl: Bytes, bytes: Bytes): (f: Framed)
    requires |dl| > 0
    ensures Find(dl, f.rest).Nowhere?
    decreases |bytes|
  {
    match Find(dl, bytes)
    case Nowhere => Framed([], bytes)
    case At(i) => Prepend(bytes[..i], Frames(dl, bytes[i + |dl|..]))
  }

  /** One turn of the loop, for every buffer: the text offset is the byte offset, and the event
      handed on is the bytes before it, exactly when those bytes are well-formed UTF-8. */
  lemma BoundaryExactIffValid(dl: Bytes, buffer: Bytes)
    requires |dl| > 0 && Ascii(dl) && Find(dl, buffer).At?
    ensures Find(dl, Lossy(buffer)).At?
    ensures
      var i, pos := Find(dl, buffer).index, Find(dl, Lossy(buffer)).index;
      && pos >= i
      && (pos == i && Lossy(buffer)[..pos] == buffer[..i] <==> Valid(buffer[..i]))
  {
    FindInLossy(dl, buffer);
    var i := Find(dl, buffer).index;
    LosslessIffValid(buffer[..i]);
    assert Lossy(buffer)[..|Lossy(buffer[..i])|] == Lossy(buffer[..i]);
  }

  /** One stray byte before a delimiter already makes the slice run past the buffer. */
  lemma InvalidByteMakesSlicePanic(dl: Bytes)
    requires |dl| > 0 && Ascii(dl)
    ensures !Drain(dl, [0xFF as char] + dl).ok
  {
    var b := [0xFF as char] + dl;
    assert UnitLen(b) == 1 && !WellFormedUnit(b) && b[1..] == dl;
    AsciiIsValid(dl);
    LosslessIffValid(dl);
    assert Lossy(b) == REPLACEMENT + dl;
    ReplacementThenDelimiter(dl);
  }

  lemma ReplacementThenDelimiter(dl: Bytes)
    requires |dl| > 0 && Ascii(dl)
    ensures Find(dl, REPLACEMENT + dl) == At(3)
  {
    var text := REPLACEMENT + dl;
    assert text[3..3 + |dl|] == dl;
    forall j: nat | j < 3
      ensures !OccursAt(dl, text, j)
    {
      assert text[j] == REPLACEMENT[j];
      if j + |dl| <= |text| {
        assert text[j..j + |dl|][0] == text[j];
      }
    }
    FindIs(dl, text, 3);
  }

  lemma DrainStep(dl: Bytes, buffer: Bytes, i: nat)
    requires |dl| > 0 && Ascii(dl) && Find(dl, buffer) == At(i) && Valid(buffer[..i])
    ensures
      var d := Drain(dl, buffer[i + |dl|..]);
      Drain(dl, buffer) == Drained([buffer[..i]] + d.events, d.rest, d.ok)
  {
    hide Lossy, Find, Valid, Cut;
    BoundaryExactIffValid(dl, buffer);
    CutAt(dl, buffer, Lossy(buffer), i);
  }

  lemma CutAt(dl: Bytes, buffer: Bytes, text: Bytes, i: nat)
    requires |dl| > 0 && Find(dl, text) == At(i) && i + |dl| <= |buffer| && text[..i] == buffer[..i]
    ensures
      var d := Drain(dl, buffer[i + |dl|..]);
      Cut(dl, buffer, text) == Drained([buffer[..i]] + d.events, d.rest, d.ok)
  {
    hide Find, Drain;
  }

  /** On every prefix of a well-formed stream, even one that ends inside a character, the loop
      over the decoded text computes the framing of the bytes and never slices out of range. */
  lemma {:induction false} DrainIsFrames(dl: Bytes, buffer: Bytes, later: Bytes)
    requires |dl| > 0 && Ascii(dl) && Valid(buffer + later)
    ensures Drain(dl, buffer) == Drained(Frames(dl, buffer).events, Frames(dl, buffer).rest, true)
    ensures Valid(Frames(dl, buffer).rest + later)
    decreases |buffer|
  {
    hide Lossy, Valid, Find;
    FindInLossy(dl, buffer);
    var r := Find(dl, buffer);
    if r.At? {
      var i := r.index;
      ValidAroundDelimiter(dl, buffer, later, i);
      DrainStep(dl, buffer, i);
      DrainIsFrames(dl, buffer[i + |dl|..], later);
    }
  }

  lemma ValidAroundDelimiter(dl: Bytes, buffer: Bytes, later: Bytes, i: nat)
    requires |dl| > 0 && Ascii(dl) && Valid(buffer + later) && OccursAt(dl, buffer, i)
    ensures Valid(buffer[..i]) && Valid(buffer[i + |dl|..] + later)
  {
    hide Valid;
    SlicesOfAppend(buffer, later, i, |dl|);
    ValidAroundAscii(buffer + later, i, |dl|);
  }

  predicate AllValid(events: seq<Bytes>) {
    forall i | 0 <= i < |events| :: Valid(events[i])
  }

  lemma AllValidCons(e: Bytes, events: seq<Bytes>)
    ensures AllValid([e] + events) <==> Valid(e) && AllValid(events)
  {
    hide Valid;
    var all := [e] + events;
    if AllValid(all) {
      assert all[0] == e;
      forall i | 0 <= i < |events| ensures Valid(events[i]) {
        assert all[i + 1] == events[i];
      }
    }
  }

  /** The whole loop, for every buffer: it computes the framing of the bytes, without a slice out of
      range, if and only if every event before a delimiter is well-formed UTF-8. */
  lemma {:induction false} DrainExactIffValid(dl: Bytes, buffer: Bytes)
    requires |dl| > 0 && Ascii(dl)
    ensures
      var f := Frames(dl, buffer);
      Drain(dl, buffer) == Drained(f.events, f.rest, true) <==> AllValid(f.events)
    decreases |buffer|
  {
    hide Lossy, Valid, Find, Drain, OccursAt, AllValid;
    FindInLossy(dl, buffer);
    DrainIsCut(dl, buffer);
    NothingInvalid();
    var r := Find(dl, buffer);
    if r.At? {
      var i := r.index;
      var event, rest := buffer[..i], Frames(dl, buffer[i + |dl|..]);
      BoundaryExactIffValid(dl, buffer);
      DrainExactIffValid(dl, buffer[i + |dl|..]);
      AllValidCons(event, rest.events);
      if Valid(event) {
        DrainStep(dl, buffer, i);
        SameCons(event, Drain(dl, buffer[i + |dl|..]).events, rest.events);
      } else {
        var d, text := Drain(dl, buffer), Lossy(buffer);
        assert d.ok ==> d.events[0] == text[..Find(dl, text).index];
        assert Frames(dl, buffer).events[0] == event;
      }
    }
  }

  lemma NothingInvalid()
    ensures AllValid([])
  {
  }

  lemma SameCons(e: Bytes, a: seq<Bytes>, b: seq<Bytes>)
    ensures [e] + a == [e] + b <==> a == b
  {
    assert ([e] + a)[1..] == a && ([e] + b)[1..] == b;
  }

  /** Framing that goes on with more bytes after `f`. */
  function Continue(dl: Bytes, f: Framed, more: Bytes): Framed
    requires |dl| > 0
  {
    var g := Frames(dl, f.rest + more);
    Framed(f.events + g.events, g.rest)
  }

  lemma PrependContinue(dl: Bytes, e: Bytes, f: Framed, more: Bytes)
    requires |dl| > 0
    ensures Continue(dl, Prepend(e, f), more) == Prepend(e, Continue(dl, f, more))
  {
    var g := Frames(dl, f.rest + more);
    assert [e] + f.events + g.events == [e] + (f.events + g.events);
  }

  /** Framing a stream in two parts: the second part continues the remainder of the first. */
  lemma {:induction false} FramesAppend(dl: Bytes, a: Bytes, b: Bytes)
    requires |dl| > 0
    ensures Frames(dl, a + b) == Continue(dl, Frames(dl, a), b)
    decreases |a|
  {
    hide Find, OccursAt;
    var r := Find(dl, a);
    if r.At? {
      var i := r.index;
      FindStable(dl, a, b);
      SlicesOfAppend(a, b, i, |dl|);
      FramesAppend(dl, a[i + |dl|..], b);
      PrependContinue(dl, a[..i], Frames(dl, a[i + |dl|..]), b);
    } else {
      var g := Frames(dl, a + b);
      assert [] + g.events == g.events;
    }
  }

  /** The wire form of a list of events: a delimiter after each. */
  function Glue(dl: Bytes, events: seq<Bytes>): Bytes {
    if |events| == 0 then [] else events[0] + dl + Glue(dl, events[1..])
  }

  /** Framing loses nothing: gluing the events back and appending the rest gives the stream. */
  lemma {:induction false} FramesRebuild(dl: Bytes, bytes: Bytes)
    requires |dl| > 0
    ensures Glue(dl, Frames(dl, bytes).events) + Frames(dl, bytes).rest == bytes
    decreases |bytes|
  {
    var r := Find(dl, bytes);
    if r.At? {
      var e, more := bytes[..r.index], bytes[r.index + |dl|..];
      FramesRebuild(dl, more);
      GlueCons(dl, e, Frames(dl, more).events);
      SplitAtOccurrence(dl, bytes, r.index);
    }
  }

  lemma GlueCons(dl: Bytes, e: Bytes, events: seq<Bytes>)
    ensures Glue(dl, [e] + events) == e + dl + Glue(dl, events)
  {
    assert ([e] + events)[1..] == events;
  }

  /** The delimiter after `e` is the first one. */
  predicate WholeEvent(dl: Bytes, e: Bytes) {
    Find(dl, e + dl) == At(|e|)
  }

  /** Framing inverts gluing. */
  lemma {:induction false} FramesOfGlue(dl: Bytes, events: seq<Bytes>)
    requires |dl| > 0
    requires forall e | e in events :: WholeEvent(dl, e)
    ensures Frames(dl, Glue(dl, events)) == Framed(events, [])
  {
    if events != [] {
      var e, more := events[0], Glue(dl, events[1..]);
      assert e in events;
      FindStable(dl, e + dl, more);
      var g := e + dl + more;
      assert g[..|e|] == e && g[|e| + |dl|..] == more;
      FramesOfGlue(dl, events[1..]);
    }
  }

  lemma {:induction false} ValidGlue(dl: Bytes, events: seq<Bytes>)
    requires Ascii(dl)
    requires forall e | e in events :: Valid(e)
    ensures Valid(Glue(dl, events))
  {
    if events != [] {
      AsciiIsValid(dl);
      ValidGlue(dl, events[1..]);
      ValidConcat(events[0], dl);
      ValidConcat(events[0] + dl, Glue(dl, events[1..]));
    }
  }

  // ---- Translating the framed events ---------------------------------------------------

  /** A machine's state after some events, and what it emitted. */
  datatype Ran<S, O> = Ran(state: S, output: seq<O>)

  /** What is fixed for a translator: the delimiter, and how one event is handled. */
  datatype Engine<!S, !O> = Engine(delimiter: Bytes, step: (S, Bytes) -> Ran<S, O>) {
    predicate Ok() {
      |delimiter| > 0 && Ascii(delimiter)
    }
  }

  function Run<S, O>(en: Engine<S, O>, s: S, events: seq<Bytes>): Ran<S, O> {
    if |events| == 0 then Ran(s, [])
    else
      var first := en.step(s, events[0]);
      var more := Run(en, first.state, events[1..]);
      Ran(more.state, first.output + more.output)
  }

  lemma {:induction false} RunAppend<S, O>(en: Engine<S, O>, s: S, a: seq<Bytes>, b: seq<Bytes>)
    ensures
      var ra := Run(en, s, a);
      var rb := Run(en, ra.state, b);
      Run(en, s, a + b) == Ran(rb.state, ra.output + rb.output)
  {
    if a == [] {
      assert a + b == b;
      assert [] + Run(en, s, b).output == Run(en, s, b).output;
    } else {
      assert (a + b)[1..] == a[1..] + b;
      var first := en.step(s, a[0]);
      RunAppend(en, first.state, a[1..], b);
      var ra := Run(en, first.state, a[1..]);
      var rb := Run(en, ra.state, b);
      assert first.output + (ra.output + rb.output) == first.output + ra.output + rb.output;
    }
  }

  lemma RunOfNothing<S, O>(en: Engine<S, O>, s: S)
    ensures Run(en, s, []) == Ran(s, [])
  {
  }

  lemma RunOneMore<S, O>(en: Engine<S, O>, s: S, done: seq<Bytes>, event: Bytes)
    ensures
      var r := Run(en, s, done);
      var last := en.step(r.state, event);
      Run(en, s, done + [event]) == Ran(last.state, r.output + last.output)
  {
    RunAppend(en, s, done, [event]);
    var r := Run(en, s, done);
    var last := en.step(r.state, event);
    assert [event][1..] == [] && last.output + [] == last.output;
    assert Run(en, r.state, [event]) == Ran(last.state, last.output);
  }

  /** One turn of the loop, with the events framed so far put in front. */
  lemma DrainTurn(dl: Bytes, buffer: Bytes, done: seq<Bytes>)
    requires |dl| > 0
    ensures
      var d, text := Drain(dl, buffer), Lossy(buffer);
      match Find(dl, text)
      case Nowhere => done + d.events == done && d.rest == buffer && d.ok
      case At(pos) =>
        if pos + |dl| > |buffer| then !d.ok
        else
          var more := Drain(dl, buffer[pos + |dl|..]);
          done + d.events == done + [text[..pos]] + more.events && d.rest == more.rest && d.ok == more.ok
  {
    hide Lossy, Find, Drain;
    DrainIsCut(dl, buffer);
    var d, text := Drain(dl, buffer), Lossy(buffer);
    if Find(dl, text).Nowhere? {
      assert done + [] == done;
    } else if Find(dl, text).index + |dl| <= |buffer| {
      var more := Drain(dl, buffer[Find(dl, text).index + |dl|..]);
      PutInFront(done, text[..Find(dl, text).index], more.events);
    }
  }

  lemma PutInFront(done: seq<Bytes>, event: Bytes, more: seq<Bytes>)
    ensures done + ([event] + more) == done + [event] + more
  {
  }

  lemma DrainIsCut(dl: Bytes, buffer: Bytes)
    requires |dl| > 0
    ensures Drain(dl, buffer) == Cut(dl, buffer, Lossy(buffer))
  {
    hide Lossy, Find;
  }

  /** A translator between two calls: its unframed bytes and its event-machine state. */
  datatype Translator<S> = Translator(buffer: Bytes, machine: S)

  datatype Fed<S, O> = Panic | Fed(next: Translator<S>, output: seq<O>)

  /** One call of `process_chunk`. */
  function ProcessChunk<S, O>(en: Engine<S, O>, t: Translator<S>, data: Bytes, endOfStream: bool): Fed<S, O>
    requires en.Ok()
  {
    var d := Drain(en.delimiter, t.buffer + data);
    if !d.ok then Panic
    else
      var r := Run(en, t.machine, d.events);
      if endOfStream && d.rest != [] then
        var last := en.step(r.state, Lossy(d.rest));
        Fed(Translator([], last.state), r.output + last.output)
      else
        Fed(Translator(d.rest, r.state), r.output)
  }

  lemma ChunkPanics<S, O>(en: Engine<S, O>, t: Translator<S>, data: Bytes, endOfStream: bool)
    requires en.Ok() && !Drain(en.delimiter, t.buffer + data).ok
    ensures ProcessChunk(en, t, data, endOfStream) == Panic
  {
  }

  /** What is left to do once the whole events are handled. */
  lemma ChunkFed<S, O>(en: Engine<S, O>, t: Translator<S>, data: Bytes, endOfStream: bool, rest: Bytes, r: Ran<S, O>)
    requires en.Ok()
    requires var d := Drain(en.delimiter, t.buffer + data);
      d.ok && d.rest == rest && Run(en, t.machine, d.events) == r
    ensures ProcessChunk(en, t, data, endOfStream) ==
            if endOfStream && rest != [] then
              var last := en.step(r.state, Lossy(rest));
              Fed(Translator([], last.state), r.output + last.output)
            else Fed(Translator(rest, r.state), r.output)
  {
    hide Drain, Run, Lossy;
  }

  /** Successive calls, one per network chunk, with end-of-stream on the last call only. */
  function Feed<S, O>(en: Engine<S, O>, t: Translator<S>, chunks: seq<Bytes>): Fed<S, O>
    requires en.Ok() && |chunks| > 0
    decreases |chunks|
  {
    var first := ProcessChunk(en, t, chunks[0], |chunks| == 1);
    if |chunks| == 1 || first.Panic? then first
    else
      var rest := Feed(en, first.next, chunks[1..]);
      if rest.Panic? then Panic else Fed(rest.next, first.output + rest.output)
  }

  /** The same call with the framing of the bytes in place of the lossy loop. */
  function Deliver<S, O>(en: Engine<S, O>, m: S, f: Framed, endOfStream: bool): Fed<S, O> {
    var r := Run(en, m, f.events);
    if endOfStream && f.rest != [] then
      var last := en.step(r.state, f.rest);
      Fed(Translator([], last.state), r.output + last.output)
    else
      Fed(Translator(f.rest, r.state), r.output)
  }

  /** A call whose bytes are a prefix of a well-formed stream delivers the events of the bytes. */
  lemma CallDelivers<S, O>(en: Engine<S, O>, t: Translator<S>, data: Bytes, later: Bytes)
    requires en.Ok() && Valid(t.buffer + data + later)
    ensures
      var f := Frames(en.delimiter, t.buffer + data);
      && ProcessChunk(en, t, data, false) == Deliver(en, t.machine, f, false)
      && Valid(f.rest + later)
  {
    DrainIsFrames(en.delimiter, t.buffer + data, later);
  }

  lemma LastCallDelivers<S, O>(en: Engine<S, O>, t: Translator<S>, data: Bytes)
    requires en.Ok() && Valid(t.buffer + data)
    ensures ProcessChunk(en, t, data, true) == Deliver(en, t.machine, Frames(en.delimiter, t.buffer + data), true)
  {
    var f := Frames(en.delimiter, t.buffer + data);
    assert t.buffer + data + [] == t.buffer + data && f.rest + [] == f.rest;
    DrainIsFrames(en.delimiter, t.buffer + data, []);
    LosslessIffValid(f.rest);
  }

  lemma DeliverAppend<S, O>(en: Engine<S, O>, m: S, f: Framed, g: Framed)
    ensures
      var first := Deliver(en, m, f, false);
      var second := Deliver(en, first.next.machine, g, true);
      Deliver(en, m, Framed(f.events + g.events, g.rest), true) == Fed(second.next, first.output + second.output)
  {
    hide Run;
    RunAppend(en, m, f.events, g.events);
    var r := Run(en, m, f.events);
    var r' := Run(en, r.state, g.events);
    if g.rest != [] {
      var last := en.step(r'.state, g.rest);
      assert r.output + r'.output + last.output == r.output + (r'.output + last.output);
    }
  }

  lemma DeliverTwice<S, O>(en: Engine<S, O>, m: S, s: Bytes, b: Bytes)
    requires en.Ok()
    ensures
      var first := Deliver(en, m, Frames(en.delimiter, s), false);
      var second := Deliver(en, first.next.machine, Frames(en.delimiter, first.next.buffer + b), true);
      Deliver(en, m, Frames(en.delimiter, s + b), true) == Fed(second.next, first.output + second.output)
  {
    FramesAppend(en.delimiter, s, b);
    var f := Frames(en.delimiter, s);
    DeliverAppend(en, m, f, Frames(en.delimiter, f.rest + b));
  }

  /** A call on a prefix of a well-formed stream, followed by one on the rest, is one call. */
  lemma TwoCallsAreOne<S, O>(en: Engine<S, O>, t: Translator<S>, a: Bytes, b: Bytes)
    requires en.Ok() && Valid(t.buffer + a + b)
    ensures
      var first := ProcessChunk(en, t, a, false);
      && first.Fed? && Valid(first.next.buffer + b)
      && ProcessChunk(en, first.next, b, true).Fed?
      && var second := ProcessChunk(en, first.next, b, true);
         ProcessChunk(en, t, a + b, true) == Fed(second.next, first.output + second.output)
  {
    hide Valid, Lossy, Drain, Cut, Frames, Run;
    CallDelivers(en, t, a, b);
    LastCallDelivers(en, Deliver(en, t.machine, Frames(en.delimiter, t.buffer + a), false).next, b);
    assert t.buffer + (a + b) == t.buffer + a + b;
    LastCallDelivers(en, t, a + b);
    DeliverTwice(en, t.machine, t.buffer + a, b);
  }

  /** Chunking invariance from any point between two calls. */
  lemma {:induction false} FeedIsOneCall<S, O>(en: Engine<S, O>, t: Translator<S>, chunks: seq<Bytes>)
    requires en.Ok() && |chunks| > 0
    requires Valid(t.buffer + Concat(chunks))
    ensures Feed(en, t, chunks).Fed?
    ensures Feed(en, t, chunks) == ProcessChunk(en, t, Concat(chunks), true)
    decreases |chunks|
  {
    var later := Concat(chunks[1..]);
    assert t.buffer + Concat(chunks) == t.buffer + chunks[0] + later;
    if |chunks| == 1 {
      assert Concat(chunks) == chunks[0] && later == [];
      DrainIsFrames(en.delimiter, t.buffer + chunks[0], []);
    } else {
      TwoCallsAreOne(en, t, chunks[0], later);
      FeedIsOneCall(en, ProcessChunk(en, t, chunks[0], false).next, chunks[1..]);
    }
  }

  /** The network may cut a well-formed stream anywhere, even inside a character or inside a
      delimiter: outputs and final state are those of one call on the whole stream. */
  lemma ChunkingInvariance<S, O>(en: Engine<S, O>, start: S, chunks: seq<Bytes>)
    requires en.Ok() && |chunks| > 0
    requires Valid(Concat(chunks))
    ensures Feed(en, Translator([], start), chunks).Fed?
    ensures Feed(en, Translator([], start), chunks) ==
            ProcessChunk(en, Translator([], start), Concat(chunks), true)
  {
    assert [] + Concat(chunks) == Concat(chunks);
    FeedIsOneCall(en, Translator([], start), chunks);
  }

  lemma FramesOfTail(dl: Bytes, events: seq<Bytes>, last: Bytes)
    requires |dl| > 0 && (forall e | e in events :: WholeEvent(dl, e)) && Find(dl, last) == Nowhere
    ensures Frames(dl, Glue(dl, events) + last) == Framed(events, last)
  {
    FramesOfGlue(dl, events);
    FramesAppend(dl, Glue(dl, events), last);
    assert [] + last == last && events + [] == events;
  }

  /** A glued list of events is translated as that list of events, however it is cut; and an event begun
      but not ended by a delimiter is translated too, when the stream ends. */
  lemma FeedGlued<S, O>(en: Engine<S, O>, start: S, events: seq<Bytes>, last: Bytes, chunks: seq<Bytes>)
    requires en.Ok() && |chunks| > 0 && Concat(chunks) == Glue(en.delimiter, events) + last
    requires (forall e | e in events :: WholeEvent(en.delimiter, e) && Valid(e))
    requires Find(en.delimiter, last) == Nowhere && Valid(last)
    ensures
      var r := Run(en, start, events + if last == [] then [] else [last]);
      Feed(en, Translator([], start), chunks) == Fed(Translator([], r.state), r.output)
  {
    hide Feed, Run, Glue, Frames, Valid, Find, WholeEvent;
    var whole := Concat(chunks);
    ValidGlue(en.delimiter, events);
    ValidConcat(Glue(en.delimiter, events), last);
    ChunkingInvariance(en, start, chunks);
    FramesOfTail(en.delimiter, events, last);
    assert [] + whole == whole;
    LastCallDelivers(en, Translator([], start), whole);
    if last == [] {
      assert events + [] == events;
    } else {
      RunOneMore(en, start, events, last);
    }
  }
}
