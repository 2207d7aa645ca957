/** The framing loop of the Gemini stream translator. It looks for a `data: ` prefix anywhere in
    the decoded buffer, takes the text up to the next blank line, and when no prefix is left drops
    everything up to the last newline. */
module GeminiFraming {
  import opened Text
  import opened Utf8
  import opened SseFraming

  /** What the search at the start of a text finds. `next` is the offset after the event. */
  datatype Search = NoPrefix | Unfinished | Complete(json: Bytes, next: nat)

  function NextEvent(pf: Bytes, dl: Bytes, text: Bytes): (r: Search)
    ensures r.Complete? ==> |dl| <= r.next <= |text| && OccursAt(dl, text, r.next - |dl|)
    ensures r.Complete? && |pf| > 0 ==> r.next > 0
  {
    match Find(pf, text)
    case Nowhere => NoPrefix
    case At(start) =>
      var after := text[start + |pf|..];
      match Find(dl, after)
      case Nowhere => Unfinished
      case At(end) =>
        assert OccursAt(dl, text, start + |pf| + end) by {
          assert text == text[..start + |pf|] + after;
          OccursInSuffix(dl, text[..start + |pf|], after, end);
        }
        Complete(Trim(after[..end]), start + |pf| + end + |dl|)
  }

  /** The loop of `process_chunk`, on the lossy text. */
  function Drain(pf: Bytes, dl: Bytes, buffer: Bytes): (d: Drained)
    requires |pf| > 0
    ensures |d.rest| <= |buffer|
    decreases |buffer|, 1
  {
    Cut(pf, dl, buffer, Lossy(buffer))
  }

  /** One turn of the loop, with the decoded text of the buffer. */
  function Cut(pf: Bytes, dl: Bytes, buffer: Bytes, text: Bytes): (d: Drained)
    requires |pf| > 0
    ensures |d.rest| <= |buffer|
    decreases |buffer|, 0
  {
    match NextEvent(pf, dl, text)
    case Unfinished => Drained([], buffer, true)
    case NoPrefix =>
      (match LastIndexOf('\n', text)
       case Nowhere => Drained([], buffer, true)
       case At(i) => if i + 1 > |buffer| then Drained([], buffer, false) else Drained([], buffer[i + 1..], true))
    case Complete(json, next) =>
      if next > |buffer| then Drained([], buffer, false)
      else
        var d := Drain(pf, dl, buffer[next..]);
        Drained([json] + d.events, d.rest, d.ok)
  }

  lemma NextEventCases(pf: Bytes, dl: Bytes, text: Bytes)
    ensures
      match Find(pf, text)
      case Nowhere => NextEvent(pf, dl, text) == NoPrefix
      case At(start) =>
        match Find(dl, text[start + |pf|..])
        case Nowhere => NextEvent(pf, dl, text) == Unfinished
        case At(end) =>
          NextEvent(pf, dl, text) == Complete(Trim(text[start + |pf|..][..end]), start + |pf| + end + |dl|)
  {
    hide Find, Trim, OccursAt;
  }

  /** One turn of the loop on the decoded text, with the events framed so far put in front. */
  lemma CutTurn(pf: Bytes, dl: Bytes, buffer: Bytes, text: Bytes, done: seq<Bytes>)
    requires |pf| > 0
    ensures
      var d, r, newline := Cut(pf, dl, buffer, text), NextEvent(pf, dl, text), LastIndexOf('\n', text);
      && (r.Unfinished? || (r.NoPrefix? && newline.Nowhere?) ==>
           Drained(done + d.events, d.rest, d.ok) == Drained(done, buffer, true))
      && (r.NoPrefix? && newline.At? ==>
           if newline.index + 1 > |buffer| then !d.ok
           else Drained(done + d.events, d.rest, d.ok) == Drained(done, buffer[newline.index + 1..], true))
      && (r.Complete? ==>
           if r.next > |buffer| then !d.ok
           else
             var more := Drain(pf, dl, buffer[r.next..]);
             Drained(done + d.events, d.rest, d.ok) == Drained(done + [r.json] + more.events, more.rest, more.ok))
  {
    hide NextEvent, LastIndexOf, Drain;
    assert done + [] == done;
    var r := NextEvent(pf, dl, text);
    if r.Complete? && r.next <= |buffer| {
      var more := Drain(pf, dl, buffer[r.next..]);
      assert done + ([r.json] + more.events) == done + [r.json] + more.events;
    }
  }

  lemma DrainIsCut(pf: Bytes, dl: Bytes, buffer: Bytes)
    requires |pf| > 0
    ensures Drain(pf, dl, buffer) == Cut(pf, dl, buffer, Lossy(buffer))
  {
    hide Lossy, NextEvent, LastIndexOf;
  }

  /** The events of a byte stream, and all that follows the last complete one. */
  function Frames(pf: Bytes, dl: Bytes, bytes: Bytes): Framed
    requires |pf| > 0
    decreases |bytes|
  {
    var r := NextEvent(pf, dl, bytes);
    if r.Complete? then Prepend(r.json, Frames(pf, dl, bytes[r.next..])) else Framed([], bytes)
  }

  /** What is kept of the remainder: all of it once it holds a prefix, else its last line. */
  function Keep(pf: Bytes, rest: Bytes): Bytes {
    if Find(pf, rest).At? then rest
    else
      match LastIndexOf('\n', rest)
      case Nowhere => rest
      case At(i) => rest[i + 1..]
  }

  /** An ASCII prefix without a newline, and an ASCII delimiter. */
  predicate Marks(pf: Bytes, dl: Bytes) {
    |pf| > 0 && Ascii(pf) && NoByte('\n', pf) && |dl| > 0 && Ascii(dl)
  }

  // ---- The lossy text gives the framing of the bytes ---------------------------------------

  lemma NextEventIgnoresHigh(pf: Bytes, dl: Bytes, w: Bytes, t: Bytes)
    requires Marks(pf, dl) && High(t)
    ensures NextEvent(pf, dl, w + t) == NextEvent(pf, dl, w)
  {
    hide Find, OccursAt, Trim;
    FindIgnoresHigh(pf, w, t);
    var r := Find(pf, w);
    if r.At? {
      var i := r.index + |pf|;
      DropOfAppend(w, t, i);
      FindIgnoresHigh(dl, w[i..], t);
      var e := Find(dl, w[i..]);
      if e.At? {
        TakeOfAppend(w[i..], t, e.index);
      }
    }
  }

  lemma DropOfAppend(a: Bytes, b: Bytes, i: nat)
    requires i <= |a|
    ensures (a + b)[i..] == a[i..] + b
  {
  }

  lemma TakeOfAppend(a: Bytes, b: Bytes, i: nat)
    requires i <= |a|
    ensures (a + b)[..i] == a[..i]
  {
  }

  lemma SearchesAgree(pf: Bytes, dl: Bytes, buffer: Bytes, later: Bytes)
    requires Marks(pf, dl) && Valid(buffer + later)
    ensures NextEvent(pf, dl, Lossy(buffer)) == NextEvent(pf, dl, buffer)
    ensures LastIndexOf('\n', Lossy(buffer)) == LastIndexOf('\n', buffer)
    ensures pf <= Lossy(buffer) <==> pf <= buffer
  {
    hide NextEvent, LastIndexOf, Valid, Lossy;
    var w, t, r := DecodeCutStream(buffer, later);
    NextEventIgnoresHigh(pf, dl, w, t);
    NextEventIgnoresHigh(pf, dl, w, r);
    LastIndexIgnoresHigh('\n', w, t);
    LastIndexIgnoresHigh('\n', w, r);
    AsciiPrefixSurvives(pf, buffer);
  }

  lemma ValidAfter(mark: Bytes, buffer: Bytes, later: Bytes, i: nat)
    requires |mark| > 0 && Ascii(mark) && Valid(buffer + later) && OccursAt(mark, buffer, i)
    ensures Valid(buffer[i + |mark|..] + later)
  {
    hide Valid;
    ValidAroundDelimiter(mark, buffer, later, i);
  }

  lemma KeepIsValid(pf: Bytes, rest: Bytes, later: Bytes)
    requires Valid(rest + later)
    ensures Valid(Keep(pf, rest) + later)
  {
    hide Valid, Find, LastIndexOf;
    var r := LastIndexOf('\n', rest);
    if r.At? {
      assert rest[r.index..r.index + 1] == ['\n'];
      ValidAfter(['\n'], rest, later, r.index);
    }
  }

  lemma {:induction false} DrainIsFrames(pf: Bytes, dl: Bytes, buffer: Bytes, later: Bytes)
    requires Marks(pf, dl) && Valid(buffer + later)
    ensures
      var f := Frames(pf, dl, buffer);
      && Drain(pf, dl, buffer) == Drained(f.events, Keep(pf, f.rest), true)
      && Valid(Keep(pf, f.rest) + later)
    decreases |buffer|
  {
    hide Valid, Lossy, Find, OccursAt, LastIndexOf, Trim;
    SearchesAgree(pf, dl, buffer, later);
    var r := NextEvent(pf, dl, buffer);
    if r.Complete? {
      hide NextEvent;
      ValidAfter(dl, buffer, later, r.next - |dl|);
      DrainIsFrames(pf, dl, buffer[r.next..], later);
    } else {
      KeepIsValid(pf, buffer, later);
    }
  }

  // ---- Framing in parts ---------------------------------------------------------------------

  lemma NextEventStable(pf: Bytes, dl: Bytes, a: Bytes, b: Bytes)
    requires NextEvent(pf, dl, a).Complete?
    ensures NextEvent(pf, dl, a + b) == NextEvent(pf, dl, a)
  {
    hide Find, OccursAt, Trim;
    FindStable(pf, a, b);
    var i := Find(pf, a).index + |pf|;
    DropOfAppend(a, b, i);
    FindStable(dl, a[i..], b);
    TakeOfAppend(a[i..], b, Find(dl, a[i..]).index);
  }

  function Continue(pf: Bytes, dl: Bytes, f: Framed, more: Bytes): Framed
    requires |pf| > 0
  {
    var g := Frames(pf, dl, f.rest + more);
    Framed(f.events + g.events, g.rest)
  }

  lemma {:induction false} FramesAppend(pf: Bytes, dl: Bytes, a: Bytes, b: Bytes)
    requires |pf| > 0
    ensures Frames(pf, dl, a + b) == Continue(pf, dl, Frames(pf, dl, a), b)
    decreases |a|
  {
    hide NextEvent;
    var r := NextEvent(pf, dl, a);
    if r.Complete? {
      NextEventStable(pf, dl, a, b);
      DropOfAppend(a, b, r.next);
      FramesAppend(pf, dl, a[r.next..], b);
      var f := Frames(pf, dl, a[r.next..]);
      var g := Frames(pf, dl, f.rest + b);
      assert [r.json] + f.events + g.events == [r.json] + (f.events + g.events);
    } else {
      var g := Frames(pf, dl, a + b);
      assert [] + g.events == g.events;
    }
  }

  // ---- Dropping lines without a prefix --------------------------------------------------------

  /** Whole lines that hold no prefix: what the loop may drop. */
  predicate Junk(pf: Bytes, j: Bytes) {
    Find(pf, j) == Nowhere && (|j| == 0 || j[|j| - 1] == '\n')
  }

  /** A prefix holds no newline, so none starts in dropped lines and ends after them: dropping
      them shifts the first prefix and destroys no partial one. */
  lemma FindSkipsJunk(pf: Bytes, j: Bytes, x: Bytes)
    requires |pf| > 0 && NoByte('\n', pf) && Junk(pf, j)
    ensures Find(pf, x).Nowhere? ==> Find(pf, j + x).Nowhere?
    ensures Find(pf, x).At? ==> Find(pf, j + x) == At(|j| + Find(pf, x).index)
  {
    hide Find, OccursAt;
    FindIsFirst(pf, j);
    FindIsFirst(pf, x);
    forall i: nat | i < |j|
      ensures !OccursAt(pf, j + x, i)
    {
      OccursNotAcross(pf, j, x, i);
    }
    forall i: nat
      ensures OccursAt(pf, j + x, |j| + i) <==> OccursAt(pf, x, i)
    {
      OccursInSuffix(pf, j, x, i);
    }
    var r := Find(pf, x);
    forall i: nat | |j| <= i && OccursAt(pf, j + x, i)
      ensures OccursAt(pf, x, i - |j|)
    {
      OccursInSuffix(pf, j, x, i - |j|);
    }
    if r.At? {
      FindIs(pf, j + x, |j| + r.index);
    }
  }

  lemma OccursNotAcross(pf: Bytes, j: Bytes, x: Bytes, i: nat)
    requires NoByte('\n', pf) && |j| > 0 && j[|j| - 1] == '\n' && i < |j|
    requires !OccursAt(pf, j, i)
    ensures !OccursAt(pf, j + x, i)
  {
    if i + |pf| <= |j| {
      OccursInPrefix(pf, j, x, i);
    } else if i + |pf| <= |j| + |x| {
      var k := |j| - 1 - i;
      assert (j + x)[i..i + |pf|][k] == (j + x)[i + k] == '\n';
      assert pf[k] != '\n';
    }
  }

  lemma JunkAppend(pf: Bytes, j: Bytes, k: Bytes)
    requires |pf| > 0 && NoByte('\n', pf) && Junk(pf, j) && Junk(pf, k)
    ensures Junk(pf, j + k)
  {
    hide Find;
    FindSkipsJunk(pf, j, k);
  }

  /** What `Keep` drops is junk. */
  lemma KeepDropsJunk(pf: Bytes, rest: Bytes) returns (j: Bytes)
    requires |pf| > 0
    ensures rest == j + Keep(pf, rest) && Junk(pf, j)
  {
    hide Find, LastIndexOf;
    var r, i := Find(pf, rest), LastIndexOf('\n', rest);
    if r.Nowhere? && i.At? {
      j := rest[..i.index + 1];
      assert rest == j + rest[i.index + 1..];
      FindNowhereInPrefix(pf, j, rest[i.index + 1..]);
    } else {
      j := [];
      assert rest == [] + rest;
    }
  }

  lemma FindNowhereInPrefix(pf: Bytes, a: Bytes, b: Bytes)
    requires Find(pf, a + b) == Nowhere
    ensures Find(pf, a) == Nowhere
  {
    hide Find;
    if Find(pf, a).At? {
      FindStable(pf, a, b);
    }
  }

  lemma NextEventSkipsJunk(pf: Bytes, dl: Bytes, j: Bytes, x: Bytes)
    requires |pf| > 0 && NoByte('\n', pf) && Junk(pf, j)
    ensures
      var r, q := NextEvent(pf, dl, x), NextEvent(pf, dl, j + x);
      if r.Complete? then q == Complete(r.json, |j| + r.next) else q == r
  {
    hide Find, OccursAt, Trim;
    FindSkipsJunk(pf, j, x);
    var r := Find(pf, x);
    if r.At? {
      var i := r.index + |pf|;
      assert (j + x)[|j| + i..] == x[i..];
    }
  }

  // ---- Translating ----------------------------------------------------------------------------

  /** The engine of a translator: the prefix, the delimiter and event handler, and what is emitted
      at the end of the stream. */
  datatype GeminiEngine<!S, !O> = GeminiEngine(prefix: Bytes, events: Engine<S, O>, ending: seq<O>) {
    predicate Good() {
      Marks(prefix, events.delimiter)
    }
  }

  /** At the end of the stream, a remainder that starts with the prefix still counts as an event. */
  function Flush(pf: Bytes, text: Bytes): seq<Bytes> {
    if pf <= text then [Trim(text[|pf|..])] else []
  }

  function ProcessChunk<S, O>(en: GeminiEngine<S, O>, t: Translator<S>, data: Bytes, endOfStream: bool): Fed<S, O>
    requires en.Good()
  {
    var d := Drain(en.prefix, en.events.delimiter, t.buffer + data);
    if !d.ok then Panic
    else
      var r := Run(en.events, t.machine, d.events);
      if endOfStream then
        var last := Run(en.events, r.state, Flush(en.prefix, Lossy(d.rest)));
        Fed(Translator([], last.state), r.output + last.output + en.ending)
      else
        Fed(Translator(d.rest, r.state), r.output)
  }

  /** Successive calls, one per network chunk, with end-of-stream on the last call only. */
  function Feed<S, O>(en: GeminiEngine<S, O>, t: Translator<S>, chunks: seq<Bytes>): Fed<S, O>
    requires en.Good() && |chunks| > 0
    decreases |chunks|
  {
    var first := ProcessChunk(en, t, chunks[0], |chunks| == 1);
    if |chunks| == 1 || first.Panic? then first
    else
      var rest := Feed(en, first.next, chunks[1..]);
      if rest.Panic? then Panic else Fed(rest.next, first.output + rest.output)
  }

  /** The result of a stream: its events, then perhaps a flushed one, then the ending. */
  function Result<S, O>(en: GeminiEngine<S, O>, m: S, events: seq<Bytes>, kept: Bytes): (r: Fed<S, O>)
    ensures r.Fed?
  {
    var r := Run(en.events, m, events);
    var last := Run(en.events, r.state, Flush(en.prefix, kept));
    Fed(Translator([], last.state), r.output + last.output + en.ending)
  }

  lemma LastCall<S, O>(en: GeminiEngine<S, O>, t: Translator<S>, data: Bytes)
    requires en.Good() && Valid(t.buffer + data)
    ensures
      var f := Frames(en.prefix, en.events.delimiter, t.buffer + data);
      ProcessChunk(en, t, data, true) == Result(en, t.machine, f.events, Keep(en.prefix, f.rest))
  {
    hide Valid, Lossy, Drain, Frames, Keep, Run;
    var pf, dl := en.prefix, en.events.delimiter;
    assert t.buffer + data + [] == t.buffer + data;
    DrainIsFrames(pf, dl, t.buffer + data, []);
    var kept := Keep(pf, Frames(pf, dl, t.buffer + data).rest);
    assert kept + [] == kept;
    LosslessIffValid(kept);
  }

  lemma ResultAppend<S, O>(en: GeminiEngine<S, O>, m: S, a: seq<Bytes>, b: seq<Bytes>, kept: Bytes)
    ensures
      var r := Run(en.events, m, a);
      var rest := Result(en, r.state, b, kept);
      Result(en, m, a + b, kept) == Fed(rest.next, r.output + rest.output)
  {
    hide Run, Flush;
    RunAppend(en.events, m, a, b);
    var r := Run(en.events, m, a);
    var q := Run(en.events, r.state, b);
    var last := Run(en.events, q.state, Flush(en.prefix, kept));
    assert r.output + q.output + last.output + en.ending == r.output + (q.output + last.output + en.ending);
  }

  /** Any cutting, from any point between two calls: the events are those of the bytes, and what is
      kept at the end is the remainder `rest` of the stream without some junk `j`. */
  lemma {:induction false} FeedIs<S, O>(en: GeminiEngine<S, O>, t: Translator<S>, chunks: seq<Bytes>)
    returns (j: Bytes, kept: Bytes)
    requires en.Good() && |chunks| > 0 && Valid(t.buffer + Concat(chunks))
    ensures
      var f := Frames(en.prefix, en.events.delimiter, t.buffer + Concat(chunks));
      && f.rest == j + kept && Junk(en.prefix, j)
      && Feed(en, t, chunks) == Result(en, t.machine, f.events, kept)
    decreases |chunks|
  {
    hide Valid, Drain, Frames, Keep, Run, Junk, Result, Find;
    var pf, dl := en.prefix, en.events.delimiter;
    var a, later := t.buffer + chunks[0], Concat(chunks[1..]);
    Associative(t.buffer, chunks[0], later);
    if |chunks| == 1 {
      assert chunks == [chunks[0]] && later == [];
      assert Concat(chunks) == chunks[0] + [] == chunks[0];
      LastCall(en, t, chunks[0]);
      kept := Keep(pf, Frames(pf, dl, a).rest);
      j := KeepDropsJunk(pf, Frames(pf, dl, a).rest);
    } else {
      DrainIsFrames(pf, dl, a, later);
      var f := Frames(pf, dl, a);
      var b := Keep(pf, f.rest);
      var r := Run(en.events, t.machine, f.events);
      var j2: Bytes;
      j2, kept := FeedIs(en, Translator(b, r.state), chunks[1..]);
      FramesAppend(pf, dl, a, later);
      var d := KeepDropsJunk(pf, f.rest);
      Associative(d, b, later);
      j := JunkOnJunk(pf, dl, d, b + later, j2, kept);
      ResultAppend(en, t.machine, f.events, Frames(pf, dl, b + later).events, kept);
    }
  }

  lemma JunkOnJunk(pf: Bytes, dl: Bytes, d: Bytes, x: Bytes, j2: Bytes, kept: Bytes) returns (j: Bytes)
    requires Marks(pf, dl) && Junk(pf, d) && Junk(pf, j2) && Frames(pf, dl, x).rest == j2 + kept
    ensures Frames(pf, dl, d + x).events == Frames(pf, dl, x).events
    ensures Frames(pf, dl, d + x).rest == j + kept && Junk(pf, j)
  {
    hide NextEvent, Junk, Keep, Find;
    NextEventSkipsJunk(pf, dl, d, x);
    var r := NextEvent(pf, dl, x);
    if r.Complete? {
      assert (d + x)[|d| + r.next..] == x[r.next..];
      j := j2;
    } else {
      JunkAppend(pf, d, j2);
      j := d + j2;
      Associative(d, j2, kept);
    }
  }

  // ---- Exactly when the cutting does not matter -------------------------------------------------

  /** What follows the last complete event of a stream. */
  function Tail(pf: Bytes, dl: Bytes, stream: Bytes): Bytes
    requires |pf| > 0
  {
    Frames(pf, dl, stream).rest
  }

  /** An unterminated event that starts a line, but not the first line of the tail. Whether the
      lines before it have been dropped when the stream ends depends on where the network cut. */
  predicate Ambiguous(pf: Bytes, tail: Bytes) {
    match Find(pf, tail)
    case Nowhere => false
    case At(p) => p > 0 && tail[p - 1] == '\n'
  }

  /** The text of the first unterminated event of a tail. */
  function Pending(pf: Bytes, tail: Bytes): Bytes
    requires Find(pf, tail).At?
  {
    Trim(tail[Find(pf, tail).index + |pf|..])
  }

  lemma PrefixIsFoundFirst(pf: Bytes, t: Bytes)
    ensures pf <= t <==> Find(pf, t) == At(0)
  {
    assert t[..0] == [];
    if pf <= t {
      assert t[0..0 + |pf|] == pf;
    }
  }

  lemma FlushAfterJunk(pf: Bytes, j: Bytes, kept: Bytes)
    requires |pf| > 0 && NoByte('\n', pf) && Junk(pf, j)
    ensures !Ambiguous(pf, j + kept) ==> Flush(pf, kept) == Flush(pf, Keep(pf, j + kept))
    ensures Flush(pf, Keep(pf, j + kept)) != [] ==> Flush(pf, kept) == Flush(pf, Keep(pf, j + kept))
  {
    hide Find, LastIndexOf, Trim;
    var tail := j + kept;
    FindSkipsJunk(pf, j, kept);
    PrefixIsFoundFirst(pf, kept);
    PrefixIsFoundFirst(pf, Keep(pf, tail));
    if Find(pf, tail).At? {
      var p := Find(pf, tail).index;
      if p == 0 {
        assert j == [] && tail == kept;
      }
    } else {
      var d := KeepDropsJunk(pf, tail);
      FindSkipsJunk(pf, d, Keep(pf, tail));
    }
  }

  /** With an unambiguous tail, every cutting gives the result of one call on the whole stream. */
  lemma CuttingDoesNotMatter<S, O>(en: GeminiEngine<S, O>, m: S, stream: Bytes, chunks: seq<Bytes>)
    requires en.Good() && |chunks| > 0 && Valid(stream) && Concat(chunks) == stream
    requires !Ambiguous(en.prefix, Tail(en.prefix, en.events.delimiter, stream))
    ensures Feed(en, Translator([], m), chunks).Fed?
    ensures Feed(en, Translator([], m), chunks) == ProcessChunk(en, Translator([], m), stream, true)
  {
    hide Valid, Frames, Feed, ProcessChunk, Junk, Ambiguous, Run, Flush, Keep;
    assert [] + stream == stream;
    var j, kept := FeedIs(en, Translator([], m), chunks);
    LastCall(en, Translator([], m), stream);
    FlushAfterJunk(en.prefix, j, kept);
  }

  /** The machine state when the events of a stream have been handled. */
  function StateAfter<S, O>(en: GeminiEngine<S, O>, m: S, stream: Bytes): S
    requires |en.prefix| > 0
  {
    Run(en.events, m, Frames(en.prefix, en.events.delimiter, stream).events).state
  }

  /** The cut just before a pending event. */
  function CutBefore(pf: Bytes, dl: Bytes, stream: Bytes): seq<Bytes>
    requires |pf| > 0
  {
    var tail := Tail(pf, dl, stream);
    var p := Find(pf, tail);
    if p.Nowhere? || |tail| > |stream| then [stream]
    else [stream[..|stream| - |tail| + p.index], stream[|stream| - |tail| + p.index..]]
  }

  /** The tail really is a tail, and everything before it frames without remainder. */
  lemma {:induction false} TailIsSuffix(pf: Bytes, dl: Bytes, stream: Bytes)
    requires |pf| > 0
    ensures
      var f := Frames(pf, dl, stream);
      var n := |stream| - |f.rest|;
      n >= 0 && stream[n..] == f.rest && Frames(pf, dl, stream[..n]) == Framed(f.events, [])
    decreases |stream|
  {
    hide NextEvent;
    var r := NextEvent(pf, dl, stream);
    if r.Complete? {
      var rest := stream[r.next..];
      TailIsSuffix(pf, dl, rest);
      var n := |rest| - |Frames(pf, dl, rest).rest|;
      SplitAfterEvent(pf, dl, stream, r.next, n);
    } else {
      assert stream[..0] == [] && stream[0..] == stream;
    }
  }

  lemma SplitAfterEvent(pf: Bytes, dl: Bytes, stream: Bytes, next: nat, n: nat)
    requires |pf| > 0 && NextEvent(pf, dl, stream).Complete? && NextEvent(pf, dl, stream).next == next
    requires next + n <= |stream|
    ensures stream[next + n..] == stream[next..][n..]
    ensures Frames(pf, dl, stream[..next + n]) ==
            Prepend(NextEvent(pf, dl, stream).json, Frames(pf, dl, stream[next..][..n]))
  {
    var s := stream[..next];
    assert stream[..next + n] == s + stream[next..][..n];
    assert stream == s + stream[next..];
    CompleteWithin(pf, dl, stream, next);
    NextEventStable(pf, dl, s, stream[next..][..n]);
    DropOfAppend(s, stream[next..][..n], next);
    assert s[next..] == [] && [] + stream[next..][..n] == stream[next..][..n];
  }

  /** An event is found in the bytes up to its end. */
  lemma CompleteWithin(pf: Bytes, dl: Bytes, text: Bytes, next: nat)
    requires |pf| > 0 && NextEvent(pf, dl, text).Complete? && NextEvent(pf, dl, text).next == next
    ensures NextEvent(pf, dl, text[..next]) == NextEvent(pf, dl, text)
  {
    hide Find, Trim, OccursAt;
    var start := Find(pf, text).index;
    var i := start + |pf|;
    var end := Find(dl, text[i..]).index;
    FindWithin(pf, text, next);
    FindWithin(dl, text[i..], end + |dl|);
    assert text[..next][i..] == text[i..][..end + |dl|];
    assert text[i..][..end + |dl|][..end] == text[i..][..end];
  }

  lemma FindWithin(pat: Bytes, t: Bytes, n: nat)
    requires Find(pat, t).At? && Find(pat, t).index + |pat| <= n <= |t|
    ensures Find(pat, t[..n]) == Find(pat, t)
  {
    hide Find, OccursAt;
    var i := Find(pat, t).index;
    assert t == t[..n] + t[n..];
    OccursInPrefix(pat, t[..n], t[n..], i);
    FindIsFirst(pat, t);
    forall j: nat | j < i
      ensures !OccursAt(pat, t[..n], j)
    {
      OccursInPrefix(pat, t[..n], t[n..], j);
    }
    FindIs(pat, t[..n], i);
  }

  lemma FindNowhereBefore(pat: Bytes, t: Bytes)
    requires |pat| > 0 && Find(pat, t).At?
    ensures Find(pat, t[..Find(pat, t).index]) == Nowhere
  {
    hide Find;
    var p := Find(pat, t).index;
    var r := Find(pat, t[..p]);
    if r.At? {
      assert t == t[..p] + t[p..];
      FindStable(pat, t[..p], t[p..]);
    }
  }

  /** With an ambiguous tail, cutting just before the pending event delivers it at the end of the
      stream, whereas one call on the whole stream drops it. */
  lemma AmbiguousTailDepends<S, O>(en: GeminiEngine<S, O>, m: S, stream: Bytes)
    requires en.Good() && Valid(stream)
    requires Ambiguous(en.prefix, Tail(en.prefix, en.events.delimiter, stream))
    ensures
      var pf, dl := en.prefix, en.events.delimiter;
      var tail, events := Tail(pf, dl, stream), Frames(pf, dl, stream).events;
      var chunks := CutBefore(pf, dl, stream);
      && |chunks| > 0 && Concat(chunks) == stream
      && Feed(en, Translator([], m), chunks) == Result(en, m, events, tail[Find(pf, tail).index..])
      && ProcessChunk(en, Translator([], m), stream, true) == Result(en, m, events, [])
  {
    hide Valid, Frames, Run, Result, Drain, Junk, Find, Keep, ProcessChunk, Flush, Concat;
    var pf, dl := en.prefix, en.events.delimiter;
    var f := Frames(pf, dl, stream);
    var tail, p := f.rest, Find(pf, f.rest).index;
    FirstPartDropsLines(pf, dl, stream);
    var n := |stream| - |tail|;
    var a, b := stream[..n + p], stream[n + p..];
    assert stream == a + b && b == stream[n..][p..];
    ConcatOfTwo(a, b);
    DrainIsFrames(pf, dl, a, b);
    EarlierCall(en, Translator([], m), a);
    var r := Run(en.events, m, f.events);
    assert [a, b][1..] == [b] && [] + a == a && [] + b == b && [] + stream == stream;
    LastCall(en, Translator([], r.state), b);
    ResultAppend(en, m, f.events, [], b);
    assert f.events + [] == f.events;
    LastCall(en, Translator([], m), stream);
    PrefixIsFoundFirst(pf, tail);
    NoFlush(en, m, f.events, tail);
  }

  /** A call that is not the last keeps what the loop leaves. */
  lemma EarlierCall<S, O>(en: GeminiEngine<S, O>, t: Translator<S>, data: Bytes)
    requires en.Good()
    ensures
      var d := Drain(en.prefix, en.events.delimiter, t.buffer + data);
      var r := Run(en.events, t.machine, d.events);
      ProcessChunk(en, t, data, false) == if d.ok then Fed(Translator(d.rest, r.state), r.output) else Panic
  {
    hide Drain, Run;
  }

  lemma NoFlush<S, O>(en: GeminiEngine<S, O>, m: S, events: seq<Bytes>, kept: Bytes)
    requires |en.prefix| > 0 && !(en.prefix <= kept)
    ensures Result(en, m, events, kept) == Result(en, m, events, [])
  {
  }

  lemma ConcatOfTwo(a: Bytes, b: Bytes)
    ensures Concat([a, b]) == a + b
  {
    assert [a, b][1..] == [b] && [b][1..] == [];
    assert b + [] == b;
    assert Concat([b]) == b;
  }

  /** The lines before a pending event are junk. */
  lemma LinesBefore(pf: Bytes, tail: Bytes)
    requires |pf| > 0 && NoByte('\n', pf) && Ambiguous(pf, tail)
    ensures
      var p := Find(pf, tail).index;
      Junk(pf, tail[..p]) && Keep(pf, tail[..p]) == [] && tail == tail[..p] + tail[p..]
  {
    hide Find;
    var p := Find(pf, tail).index;
    FindNowhereBefore(pf, tail);
    LastIndexIs('\n', tail[..p], p - 1);
  }

  lemma JunkFrames(pf: Bytes, dl: Bytes, j: Bytes)
    requires |pf| > 0 && Junk(pf, j)
    ensures Frames(pf, dl, j) == Framed([], j)
  {
    hide Find;
  }

  lemma FirstPartFrames(pf: Bytes, dl: Bytes, stream: Bytes, lines: Bytes)
    requires Marks(pf, dl) && Junk(pf, lines)
    ensures
      var f := Frames(pf, dl, stream);
      var n := |stream| - |f.rest|;
      n >= 0 && Frames(pf, dl, stream[..n] + lines) == Framed(f.events, lines)
  {
    hide Find, NextEvent, Frames, Junk;
    TailIsSuffix(pf, dl, stream);
    var f := Frames(pf, dl, stream);
    var n := |stream| - |f.rest|;
    FramesAppend(pf, dl, stream[..n], lines);
    assert [] + lines == lines;
    JunkFrames(pf, dl, lines);
    assert f.events + [] == f.events;
  }

  /** A pending event stays unfinished without the lines before it. */
  lemma PendingFrames(pf: Bytes, dl: Bytes, lines: Bytes, pending: Bytes)
    requires Marks(pf, dl) && Junk(pf, lines) && !NextEvent(pf, dl, lines + pending).Complete?
    ensures Frames(pf, dl, pending) == Framed([], pending)
  {
    hide NextEvent, Junk;
    NextEventSkipsJunk(pf, dl, lines, pending);
  }

  lemma FirstPartDropsLines(pf: Bytes, dl: Bytes, stream: Bytes)
    requires Marks(pf, dl) && Ambiguous(pf, Tail(pf, dl, stream))
    ensures
      var f := Frames(pf, dl, stream);
      var p := Find(pf, f.rest).index;
      var n := |stream| - |f.rest|;
      && n >= 0
      && Frames(pf, dl, stream[..n + p]) == Framed(f.events, f.rest[..p])
      && Keep(pf, f.rest[..p]) == []
      && Frames(pf, dl, f.rest[p..]) == Framed([], f.rest[p..])
      && Keep(pf, f.rest[p..]) == f.rest[p..]
      && Keep(pf, f.rest) == f.rest
      && stream[n..] == f.rest
  {
    hide Find, NextEvent, Frames, Junk, OccursAt;
    var f := Frames(pf, dl, stream);
    var tail, p := f.rest, Find(pf, f.rest).index;
    TailIsSuffix(pf, dl, stream);
    var n := |stream| - |tail|;
    LinesBefore(pf, tail);
    FirstPartFrames(pf, dl, stream, tail[..p]);
    assert stream[..n + p] == stream[..n] + stream[n..][..p];
    TailIsUnfinished(pf, dl, stream);
    PendingFrames(pf, dl, tail[..p], tail[p..]);
    FindSkipsJunk(pf, tail[..p], tail[p..]);
  }

  lemma {:induction false} TailIsUnfinished(pf: Bytes, dl: Bytes, stream: Bytes)
    requires |pf| > 0
    ensures !NextEvent(pf, dl, Frames(pf, dl, stream).rest).Complete?
    decreases |stream|
  {
    hide NextEvent;
    var r := NextEvent(pf, dl, stream);
    if r.Complete? {
      TailIsUnfinished(pf, dl, stream[r.next..]);
    }
  }

  /** Chunking invariance, exactly. Every cutting of a well-formed stream gives the result of one
      call if and only if no unterminated event starts a later line of the tail, or handling that
      event would change nothing and emit nothing. */
  lemma ChunkingInvariantIff<S(!new), O(!new)>(en: GeminiEngine<S, O>, m: S, stream: Bytes)
    requires en.Good() && Valid(stream)
    ensures
      var pf, dl := en.prefix, en.events.delimiter;
      var tail := Tail(pf, dl, stream);
      var s := StateAfter(en, m, stream);
      (forall chunks: seq<Bytes> | |chunks| > 0 && Concat(chunks) == stream ::
         Feed(en, Translator([], m), chunks) == ProcessChunk(en, Translator([], m), stream, true))
      <==> (!Ambiguous(pf, tail) || en.events.step(s, Pending(pf, tail)) == Ran(s, []))
  {
    hide Valid, Frames, Feed, ProcessChunk, Run, Flush, Ambiguous, Find, Junk, Keep, Concat, CutBefore;
    var pf, dl := en.prefix, en.events.delimiter;
    var tail, events := Tail(pf, dl, stream), Frames(pf, dl, stream).events;
    var t := Translator([], m);
    if !Ambiguous(pf, tail) {
      forall chunks: seq<Bytes> | |chunks| > 0 && Concat(chunks) == stream
        ensures Feed(en, t, chunks) == ProcessChunk(en, t, stream, true)
      {
        CuttingDoesNotMatter(en, m, stream, chunks);
      }
    } else {
      AmbiguousHasPrefix(pf, tail);
      AmbiguousTailDepends(en, m, stream);
      PendingResult(en, m, stream);
      var chunks := CutBefore(pf, dl, stream);
      assert Feed(en, t, chunks) == Result(en, m, events, tail[Find(pf, tail).index..]);
      forall chunks: seq<Bytes> | |chunks| > 0 && Concat(chunks) == stream
        ensures
          Feed(en, t, chunks) == Result(en, m, events, []) ||
          Feed(en, t, chunks) == Result(en, m, events, tail[Find(pf, tail).index..])
      {
        AmbiguousOutcomes(en, m, stream, chunks);
      }
    }
  }

  lemma AmbiguousHasPrefix(pf: Bytes, tail: Bytes)
    requires Ambiguous(pf, tail)
    ensures Find(pf, tail).At?
  {
  }

  /** Even with an ambiguous tail there are only two outcomes: the pending event is dropped, or it
      is handled. */
  lemma AmbiguousOutcomes<S, O>(en: GeminiEngine<S, O>, m: S, stream: Bytes, chunks: seq<Bytes>)
    requires en.Good() && Valid(stream) && |chunks| > 0 && Concat(chunks) == stream
    ensures
      var pf, dl := en.prefix, en.events.delimiter;
      var tail, events := Tail(pf, dl, stream), Frames(pf, dl, stream).events;
      || Feed(en, Translator([], m), chunks) == Result(en, m, events, [])
      || (Find(pf, tail).At? &&
          Feed(en, Translator([], m), chunks) == Result(en, m, events, tail[Find(pf, tail).index..]))
  {
    hide Valid, Frames, Feed, Run, Result, Find, Concat;
    assert [] + stream == stream;
    var j, kept := FeedIs(en, Translator([], m), chunks);
    var f := Frames(en.prefix, en.events.delimiter, stream);
    FindSkipsJunk(en.prefix, j, kept);
    PrefixIsFoundFirst(en.prefix, kept);
    if en.prefix <= kept {
      assert f.rest[|j|..] == kept;
    } else {
      NoFlush(en, m, f.events, kept);
    }
  }

  /** Dropping the pending event and handling it give the same result exactly when handling it
      changes nothing. */
  lemma PendingResult<S, O>(en: GeminiEngine<S, O>, m: S, stream: Bytes)
    requires en.Good() && Find(en.prefix, Tail(en.prefix, en.events.delimiter, stream)).At?
    ensures
      var pf, dl := en.prefix, en.events.delimiter;
      var tail, events := Tail(pf, dl, stream), Frames(pf, dl, stream).events;
      var s := StateAfter(en, m, stream);
      Result(en, m, events, []) == Result(en, m, events, tail[Find(pf, tail).index..])
      <==> en.events.step(s, Pending(pf, tail)) == Ran(s, [])
  {
    hide Frames, Find, Trim, Run;
    var pf, dl := en.prefix, en.events.delimiter;
    var tail, events := Tail(pf, dl, stream), Frames(pf, dl, stream).events;
    var kept := tail[Find(pf, tail).index..];
    assert kept[|pf|..] == tail[Find(pf, tail).index + |pf|..];
    var r := Run(en.events, m, events);
    RunOfNothing(en.events, r.state);
    RunSingle(en.events, r.state, Pending(pf, tail));
    var last := en.events.step(r.state, Pending(pf, tail));
    assert Flush(pf, kept) == [Pending(pf, tail)] && Flush(pf, []) == [];
  }

  lemma RunSingle<S, O>(en: Engine<S, O>, s: S, event: Bytes)
    ensures Run(en, s, [event]) == en.step(s, event)
  {
    var last := en.step(s, event);
    assert [event][1..] == [] && last.output + [] == last.output;
  }
}
