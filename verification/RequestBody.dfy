/** Buffering and rewriting of a request body that arrives in chunks. */
module RequestBody {
  import opened Text
  import opened BodyStages
  import Compaction
  import Guardrail

  datatype Endpoint = Passthrough | Embeddings | Native | Chat

  datatype Error = ProviderGone | Blocked

  /** What is fixed for one request. `translate` is the provider's form of a body, if it can be
      translated. */
  datatype Request = Request(
    endpoint: Endpoint, translatorName: string, compaction: bool, contentLength: Option<nat>, providerKnown: bool,
    stages: Stages, translate: Bytes -> Option<Bytes>)

  /** Translators whose body keeps its Content-Length. */
  predicate KeepsLength(r: Request) {
    r.endpoint != Passthrough && (r.translatorName == "openai" || r.translatorName == "azure_openai")
  }

  /** The length to pad to: recorded only when a compacted body must keep its Content-Length. */
  function PadTarget(r: Request): Option<nat> {
    if KeepsLength(r) && r.compaction then r.contentLength else None
  }

  function Spaces(n: nat): (s: Bytes)
    ensures |s| == n && forall i | 0 <= i < n :: s[i] == ' '
  {
    seq(n, _ => ' ')
  }

  function Pad(body: Bytes, target: Option<nat>): Bytes {
    if target.Some? && |body| < target.value then body + Spaces(target.value - |body|) else body
  }

  function Compacted(r: Request, body: Bytes): Bytes {
    if !r.compaction then body
    else match CompactStage(r.stages, body) case Some(c) => Pad(c, PadTarget(r)) case None => body
  }

  /** The rewriting of a whole chat body. */
  function ChatBody(r: Request, body: Bytes): Result<Bytes, Error> {
    match Screen(r.stages, body)
    case None => Err(Blocked)
    case Some(screened) => Ok(r.translate(Compacted(r, screened)).GetOr(Compacted(r, screened)))
  }

  /** What the whole body becomes when it is held back until its end. */
  function Rewritten(r: Request, body: Bytes): Result<Bytes, Error> {
    if r.endpoint == Embeddings then Ok(body)
    else if !r.providerKnown then Err(ProviderGone)
    else if r.endpoint == Native then if Admits(r.stages, body) then Ok(body) else Err(Blocked)
    else ChatBody(r, body)
  }

  /** Chunks are forwarded as they come. */
  predicate Streams(r: Request) {
    r.endpoint == Passthrough || (KeepsLength(r) && !r.compaction)
  }

  /** State of the filter; `rewrites` lists the bodies that were rewritten. */
  datatype State = State(buffer: Bytes, done: bool, keep: bool, rewrites: seq<Bytes>)

  function Initial(r: Request): State {
    State([], false, KeepsLength(r), [])
  }

  function Append(bytes: Bytes, chunk: Option<Bytes>): Bytes {
    if chunk.Some? then bytes + chunk.value else bytes
  }

  /** What is left in the buffer after the whole body `b` is handled. */
  function BufferAfter(r: Request, b: Bytes): Bytes {
    if r.endpoint == Embeddings then []
    else if !r.providerKnown then b
    else if r.endpoint == Native then if Admits(r.stages, b) then [] else b
    else match Screen(r.stages, b)
      case None => b
      case Some(screened) => if r.translate(Compacted(r, screened)).Some? then Compacted(r, screened) else []
  }

  function Step(r: Request, s: State, chunk: Option<Bytes>, endOfStream: bool): (State, Result<Option<Bytes>, Error>) {
    var buffer := Append(s.buffer, chunk);
    if r.endpoint == Passthrough then (s, Ok(chunk))
    else if s.keep && !r.compaction then
      (if endOfStream && !s.done then s.(buffer := [], done := true) else s.(buffer := buffer), Ok(chunk))
    else if endOfStream && !s.done then
      (State(BufferAfter(r, buffer), true, false, s.rewrites + [buffer]),
       match Rewritten(r, buffer) case Ok(b) => Ok(Some(b)) case Err(e) => Err(e))
    else (s.(buffer := buffer), Ok(None))
  }

  class RequestContext {
    const request: Request
    var requestBodyBuf: Bytes
    var bodyTranslated: bool
    var keepRequestContentLength: bool
    ghost var rewrites: seq<Bytes>

    ghost function Now(): State
      reads this
    {
      State(requestBodyBuf, bodyTranslated, keepRequestContentLength, rewrites)
    }

    constructor (request: Request)
      ensures this.request == request && Now() == Initial(request)
    {
      this.request := request;
      requestBodyBuf, bodyTranslated, rewrites := [], false, [];
      keepRequestContentLength :=
        request.endpoint != Passthrough &&
        (request.translatorName == "openai" || request.translatorName == "azure_openai");
    }

    /** The auto-compaction stage, with the padding to the announced length. */
    method CompactBuffer()
      modifies this`requestBodyBuf
      ensures requestBodyBuf == Compacted(request, old(requestBodyBuf))
    {
      if request.compaction {
        var compacted := CompactBody(request.stages, requestBodyBuf);
        if compacted.Some? {
          requestBodyBuf := compacted.value;
          var target := PadTarget(request);
          if target.Some? && |requestBodyBuf| < target.value {
            requestBodyBuf := requestBodyBuf + Spaces(target.value - |requestBodyBuf|);
          }
        }
      }
    }

    /** `request_body_filter`: takes one chunk, gives what is forwarded in its place. */
    method RequestBodyFilter(chunk: Option<Bytes>, endOfStream: bool) returns (forwarded: Result<Option<Bytes>, Error>)
      modifies this
      ensures (Now(), forwarded) == Step(request, old(Now()), chunk, endOfStream)
    {
      hide Compacted, PadTarget, Screen, Admits;
      var body := chunk;
      if request.endpoint == Passthrough {
        return Ok(body);
      }
      if keepRequestContentLength {
        if request.compaction {
          requestBodyBuf := Append(requestBodyBuf, body);
          body := None;
          if endOfStream && !bodyTranslated {
            keepRequestContentLength := false;
          } else {
            return Ok(None);
          }
        } else {
          requestBodyBuf := Append(requestBodyBuf, body);
          if endOfStream && !bodyTranslated {
            bodyTranslated := true;
            requestBodyBuf := [];
          }
          return Ok(body);
        }
      }
      requestBodyBuf := Append(requestBodyBuf, body);
      body := None;
      if request.endpoint == Embeddings {
        if endOfStream && !bodyTranslated {
          bodyTranslated := true;
          rewrites := rewrites + [requestBodyBuf];
          body := Some(requestBodyBuf);
          requestBodyBuf := [];
        }
        return Ok(body);
      }
      if endOfStream && !bodyTranslated {
        bodyTranslated := true;
        rewrites := rewrites + [requestBodyBuf];
        if !request.providerKnown {
          return Err(ProviderGone);
        }
        if request.endpoint == Native {
          var admitted := AdmitBody(request.stages, requestBodyBuf);
          if !admitted {
            return Err(Blocked);
          }
          body := Some(requestBodyBuf);
          requestBodyBuf := [];
        } else {
          var screened := ScreenBody(request.stages, requestBodyBuf);
          if screened.None? {
            return Err(Blocked);
          }
          requestBodyBuf := screened.value;
          CompactBuffer();
          var translated := request.translate(requestBodyBuf);
          if translated.Some? {
            body := translated;
          } else {
            body := Some(requestBodyBuf);
            requestBodyBuf := [];
          }
        }
      }
      return Ok(body);
    }
  }

  // ---- Whole bodies ----------------------------------------------------------------------------------

  /** The bytes of a body cut into chunks. */
  function Data(chunks: seq<Option<Bytes>>): Bytes {
    if |chunks| == 0 then [] else Append(Data(chunks[..|chunks| - 1]), chunks[|chunks| - 1])
  }

  /** The state and the bytes forwarded after chunks none of which is the last. */
  function Before(r: Request, chunks: seq<Option<Bytes>>): (State, Bytes) {
    if |chunks| == 0 then (Initial(r), [])
    else
      var (s, sent) := Before(r, chunks[..|chunks| - 1]);
      var (next, forwarded) := Step(r, s, chunks[|chunks| - 1], false);
      (next, if forwarded.Ok? then Append(sent, forwarded.value) else sent)
  }

  /** The state and the bytes forwarded after all chunks, the last of which ends the body. */
  function After(r: Request, chunks: seq<Option<Bytes>>): (State, Result<Bytes, Error>)
    requires |chunks| > 0
  {
    var (s, sent) := Before(r, chunks[..|chunks| - 1]);
    var (next, forwarded) := Step(r, s, chunks[|chunks| - 1], true);
    (next, match forwarded case Ok(b) => Ok(Append(sent, b)) case Err(e) => Err(e))
  }

  /** What reaches the provider of a whole body. */
  function Target(r: Request, body: Bytes): Result<Bytes, Error> {
    if Streams(r) then Ok(body) else Rewritten(r, body)
  }

  lemma {:induction false} BeforeIs(r: Request, chunks: seq<Option<Bytes>>)
    ensures
      var (s, sent) := Before(r, chunks);
      && sent == (if Streams(r) then Data(chunks) else [])
      && !s.done && s.keep == KeepsLength(r) && s.rewrites == []
      && (r.endpoint != Passthrough ==> s.buffer == Data(chunks))
  {
    if |chunks| > 0 {
      BeforeIs(r, chunks[..|chunks| - 1]);
    }
  }

  /** However the body is cut, what is forwarded is a function of the whole body; and unless chunks
      are forwarded as they come, the whole body is rewritten exactly once, when it ends. */
  lemma CuttingDoesNotMatter(r: Request, chunks: seq<Option<Bytes>>)
    requires |chunks| > 0
    ensures After(r, chunks).1 == Target(r, Data(chunks))
    ensures After(r, chunks).0.rewrites == if Streams(r) then [] else [Data(chunks)]
  {
    hide Rewritten, BufferAfter, Before;
    var init, last := chunks[..|chunks| - 1], chunks[|chunks| - 1];
    BeforeIs(r, init);
    var s := Before(r, init).0;
    LastStep(r, s, last);
    assert s.rewrites + [Data(chunks)] == [Data(chunks)];
  }

  lemma LastStep(r: Request, s: State, last: Option<Bytes>)
    requires !s.done && s.keep == KeepsLength(r)
    ensures
      var (next, forwarded) := Step(r, s, last, true);
      if Streams(r) then forwarded == Ok(last) && next.rewrites == s.rewrites
      else
        var whole := Append(s.buffer, last);
        && next.rewrites == s.rewrites + [whole]
        && (match Rewritten(r, whole)
            case Ok(b) => forwarded == Ok(Some(b)) && [] + b == b
            case Err(e) => forwarded == Err(e))
  {
    hide Rewritten, BufferAfter;
  }

  /** What reaches the provider, or why nothing does, by the kind of request alone. A body passes as it
      came on a passthrough endpoint, and where the Content-Length is kept and nothing is compacted. Else an
      embeddings body does too; a native one unless the guardrails refuse it; and a chat body is screened,
      compacted, filled up with blanks where the Content-Length is kept, and translated. */
  lemma TargetSays(r: Request, chunks: seq<Option<Bytes>>) returns (blanks: Bytes)
    requires |chunks| > 0
    ensures forall i | 0 <= i < |blanks| :: blanks[i] == ' '
    ensures
      var st, body := r.stages, Data(chunks);
      var kept := r.endpoint != Passthrough && r.translatorName in {"openai", "azure_openai"};
      After(r, chunks).1 ==
      if r.endpoint == Passthrough || (kept && !r.compaction) || r.endpoint == Embeddings then Ok(body)
      else if !r.providerKnown then Err(ProviderGone)
      else if r.endpoint == Native then if Admits(st, body) then Ok(body) else Err(Blocked)
      else
        match Screen(st, body)
        case None => Err(Blocked)
        case Some(screened) =>
          var compacted := if r.compaction then CompactStage(st, screened) else None;
          var filled := if compacted == None then screened else compacted.value + blanks;
          Ok(if r.translate(filled) == None then filled else r.translate(filled).value)
    ensures
      var st, body := r.stages, Data(chunks);
      Screen(st, body).Some? && CompactStage(st, Screen(st, body).value).Some? ==>
        var c := CompactStage(st, Screen(st, body).value).value;
        |blanks| == if r.translatorName in {"openai", "azure_openai"} && r.endpoint != Passthrough && r.compaction &&
                       r.contentLength.Some? && |c| < r.contentLength.value
                    then r.contentLength.value - |c| else 0
  {
    hide After, Data, Screen, CompactStage, Admits;
    CuttingDoesNotMatter(r, chunks);
    var st, body := r.stages, Data(chunks);
    blanks := [];
    if Screen(st, body).Some? && CompactStage(st, Screen(st, body).value).Some? {
      var c := CompactStage(st, Screen(st, body).value).value;
      assert c + [] == c;
      if PadTarget(r).Some? && |c| < PadTarget(r).value {
        blanks := Spaces(PadTarget(r).value - |c|);
      }
    }
  }

  /** Passthrough, native, embeddings and uncompacted bodies of fixed length reach the provider as they
      came, if the provider is there and no guardrail blocks. */
  lemma UnchangedModes(r: Request, chunks: seq<Option<Bytes>>)
    requires |chunks| > 0
    requires
      || r.endpoint == Passthrough || r.endpoint == Embeddings || (KeepsLength(r) && !r.compaction)
      || (r.endpoint == Native && r.providerKnown && Admits(r.stages, Data(chunks)))
    ensures After(r, chunks).1 == Ok(Data(chunks))
  {
    hide After;
    CuttingDoesNotMatter(r, chunks);
  }

  /** The translator for Azure is not among those whose body keeps its Content-Length, because it spells
      its name with a hyphen: its chat bodies are held back and rewritten, and never padded. */
  lemma AzureIsRewritten(r: Request, chunks: seq<Option<Bytes>>)
    requires |chunks| > 0 && r.endpoint == Chat && r.translatorName == "azure-openai"
    ensures After(r, chunks).1 == Rewritten(r, Data(chunks)) && PadTarget(r) == None
  {
    hide After, Rewritten;
    CuttingDoesNotMatter(r, chunks);
  }

  /** The guardrails refuse this body. */
  predicate Refused(r: Request, body: Bytes) {
    || (r.endpoint == Chat && IsBlocked(r.stages, body))
    || (r.endpoint == Native && !Admits(r.stages, body))
  }

  /** A body the guardrails refuse goes through if and only if it streams past them. */
  lemma RefusedUnlessStreamed(r: Request, chunks: seq<Option<Bytes>>)
    requires |chunks| > 0 && r.providerKnown && Refused(r, Data(chunks))
    ensures After(r, chunks).1 == if Streams(r) then Ok(Data(chunks)) else Err(Blocked)
  {
    hide After, Data, IsBlocked, Admits;
    CuttingDoesNotMatter(r, chunks);
  }

  // ---- Any sequence of calls -------------------------------------------------------------------------

  datatype Call = Call(chunk: Option<Bytes>, endOfStream: bool)

  function Calls(r: Request, calls: seq<Call>): State {
    if |calls| == 0 then Initial(r)
    else
      var last := calls[|calls| - 1];
      Step(r, Calls(r, calls[..|calls| - 1]), last.chunk, last.endOfStream).0
  }

  /** Whatever calls are made, even after the body has ended, it is rewritten at most once, and once it
      has been, nothing more is forwarded. */
  lemma {:induction false} RewrittenAtMostOnce(r: Request, calls: seq<Call>, next: Call)
    ensures var s := Calls(r, calls);
      && |s.rewrites| == (if s.done && !Streams(r) then 1 else 0)
      && (s.keep ==> KeepsLength(r))
      && (!s.done ==> s.keep == KeepsLength(r))
      && (s.done && !Streams(r) ==> Step(r, s, next.chunk, next.endOfStream).1 == Ok(None))
  {
    if |calls| > 0 {
      hide Rewritten, BufferAfter;
      RewrittenAtMostOnce(r, calls[..|calls| - 1], calls[|calls| - 1]);
    }
  }

  // ---- Keeping the Content-Length ----------------------------------------------------------------------

  /** The translator leaves the body alone, as that of OpenAI does. */
  ghost predicate LeavesBody(r: Request) {
    forall b :: r.translate(b).GetOr(b) == b
  }

  /** A compacted body of fixed length has the announced length exactly when compaction changed it and
      made it no longer than announced, or left it alone and it still has that length after screening,
      as it came or printed again. */
  lemma PaddingExact(r: Request, chunks: seq<Option<Bytes>>, length: nat)
    requires |chunks| > 0 && r.endpoint == Chat && r.providerKnown && KeepsLength(r) && r.compaction
    requires r.contentLength == Some(length) && LeavesBody(r) && Screen(r.stages, Data(chunks)).Some?
    ensures After(r, chunks).1.Ok?
    ensures
      var st, body := r.stages, Data(chunks);
      |After(r, chunks).1.value| == length <==>
      match CompactStage(st, Screen(st, body).value)
      case Some(c) => |c| <= length
      case None =>
        match Reprinted(st, body)
        case None => |body| == length
        case Some(d) => |st.write(d)| == length
  {
    hide After, Data, Reprinted;
    CuttingDoesNotMatter(r, chunks);
  }

  /** So a client that announces the length of what it sends is taken at its word exactly when compaction
      changed the body and did not lengthen it, or left it alone and screening did too, or printed it
      again with the same length. */
  lemma TrueLengthKeptIff(r: Request, chunks: seq<Option<Bytes>>)
    requires |chunks| > 0 && r.endpoint == Chat && r.providerKnown && KeepsLength(r) && r.compaction
    requires r.contentLength == Some(|Data(chunks)|) && LeavesBody(r) && Screen(r.stages, Data(chunks)).Some?
    ensures After(r, chunks).1.Ok?
    ensures
      var st, body := r.stages, Data(chunks);
      var printed := Reprinted(st, body);
      |After(r, chunks).1.value| == |body| <==>
      match CompactStage(st, Screen(st, body).value)
      case Some(c) => |c| <= |body|
      case None => printed.None? || |st.write(printed.value)| == |body|
  {
    hide After, Data, Reprinted, CompactStage, Screen;
    PaddingExact(r, chunks, |Data(chunks)|);
  }

  // ---- What becomes of the `guardrails` field ------------------------------------------------------------

  /** A printed document reads back, whatever spaces follow it. */
  ghost predicate ReadsPadded(st: Stages, d: Doc) {
    forall n: nat :: st.read(st.write(d) + Spaces(n)) == Some(d)
  }

  lemma PaddedReadsBack(st: Stages, d: Doc, target: Option<nat>)
    requires ReadsPadded(st, d)
    ensures Keeps(st, d) && st.read(Pad(st.write(d), target)) == Some(d)
  {
    assert st.write(d) + Spaces(0) == st.write(d);
  }

  /** The `guardrails` field a client sends reaches the provider if and only if the body streams past the
      guardrails, or an engine is configured but does not look: it has no pre-call guardrail, or there is
      no content. */
  lemma FieldReachesProviderIff(r: Request, chunks: seq<Option<Bytes>>)
    requires |chunks| > 0 && r.endpoint == Chat && LeavesBody(r) && After(r, chunks).1.Ok?
    requires r.stages.read(Data(chunks)).Some? && r.stages.read(Data(chunks)).value.guardrails.Some?
    requires
      var st, body := r.stages, Data(chunks);
      && (Reprinted(st, body).Some? ==> ReadsPadded(st, Reprinted(st, body).value))
      && (Screen(st, body).Some? && Shorter(st, Screen(st, body).value).Some? ==>
           ReadsPadded(st, Shorter(st, Screen(st, body).value).value))
    ensures
      var st, body := r.stages, Data(chunks);
      var after := st.read(After(r, chunks).1.value);
      && after.Some?
      && (after.value.guardrails.Some? <==>
          || Streams(r)
          || (st.engine.Some? && (!HasPreCall(st.engine.value) || ContentOf(st.read(body).value) == "")))
  {
    hide After, Data, Reprinted, Screen, ShorterMessages, HasPreCall, ContentOf, Spaces, Pad, ReadsPadded;
    var st, body := r.stages, Data(chunks);
    CuttingDoesNotMatter(r, chunks);
    if !Streams(r) {
      if Reprinted(st, body).Some? {
        PaddedReadsBack(st, Reprinted(st, body).value, None);
      }
      FieldSurvivesIff(st, body);
      var shorter := Shorter(st, Screen(st, body).value);
      if shorter.Some? {
        PaddedReadsBack(st, shorter.value, PadTarget(r));
      }
    }
  }

  // ---- A stripped body ---------------------------------------------------------------------------------

  // A small JSON: one body with a `guardrails` field that holds no list, and the same without it.

  const WITH_FIELD: Bytes := "{\"guardrails\":0}"
  const WITHOUT_FIELD: Bytes := "{}"
  const FIELD := Doc(None, None, Some(NotAList("0")), "")

  function ReadSmall(body: Bytes): Option<Doc> {
    if body == WITH_FIELD then Some(FIELD) else if body == WITHOUT_FIELD then Some(FIELD.(guardrails := None)) else None
  }

  function WriteSmall(d: Doc): Bytes {
    if d.guardrails.Some? then WITH_FIELD else WITHOUT_FIELD
  }

  function Plainly(): Request {
    var params := Compaction.Params("truncate", 6000, 20, true, 2, None, None);
    Request(Chat, "openai", true, Some(|WITH_FIELD|), true,
            Stages(ReadSmall, WriteSmall, None, None, b => Guardrail.Context("", None), b => "", params, d => None),
            b => Some(b))
  }

  /** A body from which screening removes the `guardrails` field, and which compaction leaves alone, is
      forwarded shorter than its announced length. */
  lemma StrippedBodyTooShort() returns (r: Request, body: Bytes)
    ensures r.endpoint == Chat && KeepsLength(r) && r.compaction && LeavesBody(r)
    ensures r.contentLength == Some(|body|)
    ensures After(r, [Some(body)]).1.Ok? && |After(r, [Some(body)]).1.value| < |body|
  {
    hide After;
    r, body := Plainly(), WITH_FIELD;
    assert Data([Some(body)]) == body by {
      assert [Some(body)][..0] == [];
      assert [] + body == body;
    }
    CuttingDoesNotMatter(r, [Some(body)]);
    assert Screen(r.stages, body) == Some(WITHOUT_FIELD);
    assert CompactStage(r.stages, WITHOUT_FIELD) == None;
  }
}
