/** What happens to a whole request body before it is translated: guardrails screen it, and compaction
    shortens its messages. */
module BodyStages {
  import opened Text
  import opened Compaction
  import Guardrail

  /** The `guardrails` field of a body: a list with some names in it, or something else. */
  datatype Asked = Names(names: seq<string>, rest: string) | NotAList(json: string)

  /** What the stages read of a body's JSON; `rest` stands for the fields they leave alone, here as in a message. */
  datatype Doc = Doc(messages: Option<seq<Message>>, prompt: Option<string>, guardrails: Option<Asked>, rest: string)

  /** What is fixed for a request: reading and printing JSON; the guardrail engine, if one is configured,
      with the route's guardrails and what it is told beside the content; the content it sees of a native
      body; the compaction parameters; and the summary another model gives, if it does. */
  datatype Stages = Stages(
    read: Bytes -> Option<Doc>, write: Doc -> Bytes,
    engine: Option<seq<Guardrail.Entry>>, route: Option<seq<string>>,
    context: Bytes -> Guardrail.Context, nativeContent: Bytes -> string,
    params: Params, summarise: LlmData -> Option<string>)

  // ---- The content guardrails see ---------------------------------------------------------------------

  function AddText(content: string, text: string): string {
    if content == "" then text else content + "\n" + text
  }

  function AddParts(content: string, parts: seq<Part>): string {
    if |parts| == 0 then content
    else
      var before, last := AddParts(content, parts[..|parts| - 1]), parts[|parts| - 1];
      if last.text.Some? then AddText(before, last.text.value) else before
  }

  function AddMessage(content: string, m: Message): string {
    match m.content
    case Plain(text) => AddText(content, text)
    case Parts(parts) => AddParts(content, parts)
    case _ => content
  }

  function AddMessages(content: string, msgs: seq<Message>): string {
    if |msgs| == 0 then content else AddMessage(AddMessages(content, msgs[..|msgs| - 1]), msgs[|msgs| - 1])
  }

  function MessageTexts(msgs: seq<Message>): string {
    AddMessages("", msgs)
  }

  /** The texts of all messages, one to a line; the prompt if there are none. */
  function ContentOf(d: Doc): string {
    var texts := MessageTexts(d.messages.GetOr([]));
    if texts == "" then d.prompt.GetOr("") else texts
  }

  /** `extract_message_content`. */
  method ExtractContent(d: Doc) returns (content: string)
    ensures content == ContentOf(d)
  {
    content := "";
    if d.messages.Some? {
      var msgs := d.messages.value;
      for i := 0 to |msgs|
        invariant content == MessageTexts(msgs[..i])
      {
        assert msgs[..i + 1][..i] == msgs[..i];
        match msgs[i].content {
          case Plain(text) =>
            if content != "" {
              content := content + "\n";
            }
            content := content + text;
          case Parts(parts) =>
            ghost var before := content;
            for j := 0 to |parts|
              invariant content == AddParts(before, parts[..j])
            {
              assert parts[..j + 1][..j] == parts[..j];
              if parts[j].text.Some? {
                if content != "" {
                  content := content + "\n";
                }
                content := content + parts[j].text.value;
              }
            }
            assert parts[..|parts|] == parts;
          case _ =>
        }
      }
      assert msgs[..|msgs|] == msgs;
    }
    if content == "" {
      content := d.prompt.GetOr("");
    }
  }

  /** What guardrails see, one text more: each message that is a text, and each part with a text, adds a
      line; and a prompt counts only where the messages add up to nothing. */
  lemma ContentSays(d: Doc, msgs: seq<Message>, m: Message, parts: seq<Part>, part: Part)
    ensures MessageTexts([]) == ""
    ensures
      var before, after := MessageTexts(msgs), MessageTexts(msgs + [m]);
      match m.content
      case Plain(text) => after == if before == "" then text else before + "\n" + text
      case Parts(_) => m.content.parts == [] ==> after == before
      case _ => after == before
    ensures m.content == Parts(parts + [part]) ==>
      var before := MessageTexts(msgs + [m.(content := Parts(parts))]);
      MessageTexts(msgs + [m]) ==
      match part.text
      case Some(text) => if before == "" then text else before + "\n" + text
      case None => before
    ensures ContentOf(d) ==
            if d.messages.Some? && MessageTexts(d.messages.value) != "" then MessageTexts(d.messages.value)
            else if d.prompt.Some? then d.prompt.value else ""
  {
    assert (msgs + [m])[..|msgs|] == msgs;
    var short := m.(content := Parts(parts));
    assert (msgs + [short])[..|msgs|] == msgs;
    assert (parts + [part])[..|parts|] == parts;
  }

  // ---- Screening ----------------------------------------------------------------------------------------

  predicate IsUser(m: Message) {
    m.role == Some("user")
  }

  /** The messages with the content of the last one of the user replaced. */
  function Redacted(msgs: seq<Message>, content: string): seq<Message> {
    if |msgs| == 0 then []
    else
      var init, last := msgs[..|msgs| - 1], msgs[|msgs| - 1];
      if IsUser(last) then init + [last.(content := Plain(content))] else Redacted(init, content) + [last]
  }

  method RedactLastUser(msgs: seq<Message>, content: string) returns (r: seq<Message>)
    ensures r == Redacted(msgs, content)
  {
    var i: nat := |msgs|;
    assert msgs[..i] == msgs && msgs[i..] == [];
    assert Redacted(msgs, content) + [] == Redacted(msgs, content);
    while i > 0
      invariant 0 <= i <= |msgs|
      invariant Redacted(msgs, content) == Redacted(msgs[..i], content) + msgs[i..]
    {
      i := i - 1;
      ghost var init, later := msgs[..i], msgs[i + 1..];
      assert msgs[..i + 1][..i] == init && msgs[i..] == [msgs[i]] + later;
      if IsUser(msgs[i]) {
        assert init + [msgs[i].(content := Plain(content))] + later == msgs[i := msgs[i].(content := Plain(content))];
        return msgs[i := msgs[i].(content := Plain(content))];
      }
      assert Redacted(init, content) + [msgs[i]] + later == Redacted(init, content) + ([msgs[i]] + later);
    }
    assert msgs[..0] == [] && [] + msgs[0..] == msgs;
    return msgs;
  }

  /** The names of the guardrails the client asks for. */
  function Requested(d: Option<Doc>): Option<seq<string>> {
    if d.Some? && d.value.guardrails.Some? && d.value.guardrails.value.Names?
    then Some(d.value.guardrails.value.names) else None
  }

  predicate HasPreCall(engine: seq<Guardrail.Entry>) {
    exists i :: 0 <= i < |engine| && Guardrail.InPhase(engine[i].mode, Guardrail.Before)
  }

  function SeenContent(d: Option<Doc>): string {
    if d.Some? then ContentOf(d.value) else ""
  }

  /** The pre-call guardrails look at a body with content, if there are any. */
  predicate Looks(st: Stages, body: Bytes) {
    st.engine.Some? && HasPreCall(st.engine.value) && SeenContent(st.read(body)) != ""
  }

  function VerdictOn(st: Stages, body: Bytes): Guardrail.Verdict
    requires st.engine.Some?
  {
    var d := st.read(body);
    Guardrail.Run(st.engine.value, Guardrail.Before, SeenContent(d), st.context(body), Requested(d), st.route).0
  }

  predicate IsBlocked(st: Stages, body: Bytes) {
    Looks(st, body) && VerdictOn(st, body).Block?
  }

  /** The JSON a body that is not blocked is printed from again; nothing if it goes on as it came. */
  function Reprinted(st: Stages, body: Bytes): Option<Doc> {
    var d := st.read(body);
    if d.None? || (st.engine.Some? && !Looks(st, body)) then None
    else if Looks(st, body) && VerdictOn(st, body).Modify? then
      Some(d.value.(guardrails := None,
                    messages := if d.value.messages.None? then None
                                else Some(Redacted(d.value.messages.value, VerdictOn(st, body).content))))
    else if d.value.guardrails.Some? then Some(d.value.(guardrails := None))
    else None
  }

  /** A chat body after the pre-call guardrails; nothing if they block it. */
  function Screen(st: Stages, body: Bytes): Option<Bytes> {
    if IsBlocked(st, body) then None
    else Some(if Reprinted(st, body).Some? then st.write(Reprinted(st, body).value) else body)
  }

  method PreCall(engine: seq<Guardrail.Entry>) returns (r: bool)
    ensures r == HasPreCall(engine)
  {
    for i := 0 to |engine|
      invariant forall j | 0 <= j < i :: !Guardrail.InPhase(engine[j].mode, Guardrail.Before)
    {
      if engine[i].mode == Guardrail.PreCall || engine[i].mode == Guardrail.Both {
        return true;
      }
    }
    return false;
  }

  method ScreenBody(st: Stages, body: Bytes) returns (r: Option<Bytes>)
    ensures r == Screen(st, body)
  {
    hide ContentOf, Redacted, Guardrail.Run;
    var parsed := st.read(body);
    var requested := Requested(parsed);
    if st.engine.Some? {
      var engine := st.engine.value;
      var screens := PreCall(engine);
      if screens {
        var content := "";
        if parsed.Some? {
          content := ExtractContent(parsed.value);
        }
        if content != "" {
          var verdict, applied := Guardrail.RunPreCall(engine, content, st.context(body), requested, st.route);
          match verdict {
            case Block(_, _) =>
              return None;
            case Modify(_, newContent, _) =>
              if parsed.Some? {
                var d := parsed.value;
                if d.messages.Some? {
                  var msgs := RedactLastUser(d.messages.value, newContent);
                  d := d.(messages := Some(msgs));
                }
                return Some(st.write(d.(guardrails := None)));
              }
              return Some(body);
            case _ =>
              if parsed.Some? && parsed.value.guardrails.Some? {
                return Some(st.write(parsed.value.(guardrails := None)));
              }
              return Some(body);
          }
        }
      }
    } else if parsed.Some? && parsed.value.guardrails.Some? {
      return Some(st.write(parsed.value.(guardrails := None)));
    }
    return Some(body);
  }

  /** A native body is let through as it is, or blocked. */
  predicate Admits(st: Stages, body: Bytes) {
    var content := st.nativeContent(body);
    || st.engine.None? || !HasPreCall(st.engine.value) || content == ""
    || !Guardrail.Run(st.engine.value, Guardrail.Before, content, st.context(body), None, st.route).0.Block?
  }

  method AdmitBody(st: Stages, body: Bytes) returns (r: bool)
    ensures r == Admits(st, body)
  {
    hide Guardrail.Run;
    if st.engine.Some? {
      var screens := PreCall(st.engine.value);
      if screens {
        var content := st.nativeContent(body);
        if content != "" {
          var verdict, applied := Guardrail.RunPreCall(st.engine.value, content, st.context(body), None, st.route);
          return !verdict.Block?;
        }
      }
    }
    return true;
  }

  /** A native body, by the checks: it is refused if and only if there is an engine and a content, and one
      of the guardrails chosen by default blocks what those before it made of that content. */
  lemma AdmitsSays(st: Stages, body: Bytes) returns (chosen: seq<nat>, contents: seq<string>)
    ensures st.engine.Some? ==>
      && Guardrail.AreChosen(chosen, st.engine.value, Guardrail.Before, None, st.route)
      && Guardrail.Handle(chosen, contents, st.engine.value, Guardrail.Before, st.nativeContent(body), st.context(body))
    ensures Admits(st, body) <==> st.engine == None || st.nativeContent(body) == "" || |contents| == |chosen| + 1
  {
    hide Guardrail.Run, Guardrail.Handle, Guardrail.AreChosen;
    chosen, contents := [], [];
    if st.engine.Some? {
      var engine := st.engine.value;
      chosen, contents := Guardrail.RunSays(engine, Guardrail.Before, st.nativeContent(body), st.context(body),
                                            None, st.route);
      SomeoneChosen(engine, chosen, None, st.route);
      Handled(chosen, contents, engine, st.nativeContent(body), st.context(body));
    }
  }

  lemma SomeoneChosen(
    engine: seq<Guardrail.Entry>, chosen: seq<nat>, requested: Option<seq<string>>, route: Option<seq<string>>)
    requires Guardrail.AreChosen(chosen, engine, Guardrail.Before, requested, route)
    ensures forall k | 0 <= k < |chosen| :: chosen[k] < |engine|
    ensures !HasPreCall(engine) ==> chosen == []
  {
    if |chosen| > 0 {
      assert chosen[0] in chosen;
    }
  }

  lemma Handled(chosen: seq<nat>, contents: seq<string>, engine: seq<Guardrail.Entry>, content: string,
                ctx: Guardrail.Context)
    requires forall k | 0 <= k < |chosen| :: chosen[k] < |engine|
    requires Guardrail.Handle(chosen, contents, engine, Guardrail.Before, content, ctx)
    ensures 0 < |contents| <= |chosen| + 1
    ensures chosen == [] ==> contents == [content]
  {
  }

  /** A chat body, by the checks. It is blocked if and only if there is an engine and a content, and one of
      the guardrails chosen blocks what those before it made of the content. Otherwise it goes on as it
      came if it is not JSON, or if there is an engine but no content or no pre-call guardrail; redacted, if
      they made something else of the content; and else without its `guardrails` field. */
  lemma ScreenSays(st: Stages, body: Bytes) returns (chosen: seq<nat>, contents: seq<string>)
    ensures
      var d := st.read(body);
      var seen := if d.Some? then ContentOf(d.value) else "";
      var asked := if d.Some? && d.value.guardrails.Some? && d.value.guardrails.value.Names?
                   then Some(d.value.guardrails.value.names) else None;
      && (st.engine.Some? ==>
           && Guardrail.AreChosen(chosen, st.engine.value, Guardrail.Before, asked, st.route)
           && Guardrail.Handle(chosen, contents, st.engine.value, Guardrail.Before, seen, st.context(body))
           && 0 < |contents|)
      && Screen(st, body) ==
         if st.engine.Some? && seen != "" && |contents| <= |chosen| then None
         else if d == None then Some(body)
         else if st.engine.Some? && seen == "" then Some(body)
         else if st.engine.Some? &&
                 (forall i | 0 <= i < |st.engine.value| :: st.engine.value[i].mode == Guardrail.PostCall) then Some(body)
         else if st.engine.Some? && contents[|contents| - 1] != seen then
           Some(st.write(d.value.(
             guardrails := None,
             messages := if d.value.messages == None then None
                         else Some(Redacted(d.value.messages.value, contents[|contents| - 1])))))
         else if d.value.guardrails.Some? then Some(st.write(d.value.(guardrails := None)))
         else Some(body)
  {
    hide Guardrail.Run, Guardrail.Handle, Guardrail.AreChosen, ContentOf, Redacted;
    chosen, contents := [], [];
    if st.engine.Some? {
      var engine, d := st.engine.value, st.read(body);
      chosen, contents := Guardrail.RunSays(engine, Guardrail.Before, SeenContent(d), st.context(body),
                                            Requested(d), st.route);
      SomeoneChosen(engine, chosen, Requested(d), st.route);
      Handled(chosen, contents, engine, SeenContent(d), st.context(body));
      ModesAre(engine);
    }
  }

  lemma ModesAre(engine: seq<Guardrail.Entry>)
    ensures !HasPreCall(engine) <==> forall i | 0 <= i < |engine| :: engine[i].mode == Guardrail.PostCall
  {
  }

  /** Printing keeps this body. */
  predicate Keeps(st: Stages, d: Doc) {
    st.read(st.write(d)) == Some(d)
  }

  /** The `guardrails` field a client sends is still in the screened body if and only if an engine is
      configured but does not look: it has no pre-call guardrail, or there is no content. */
  lemma FieldSurvivesIff(st: Stages, body: Bytes)
    requires st.read(body).Some? && st.read(body).value.guardrails.Some? && Screen(st, body).Some?
    requires Reprinted(st, body).Some? ==> Keeps(st, Reprinted(st, body).value)
    ensures
      var after := st.read(Screen(st, body).value);
      && after.Some?
      && (after.value.guardrails.Some? <==>
          st.engine.Some? && (!HasPreCall(st.engine.value) || ContentOf(st.read(body).value) == ""))
  {
    hide ContentOf, HasPreCall, Redacted, Guardrail.Run;
  }

  /** Redaction rewrites one message, the last one of the user, and leaves every other as it is. */
  lemma {:induction false} RedactsOne(msgs: seq<Message>, content: string) returns (k: nat)
    ensures |Redacted(msgs, content)| == |msgs|
    ensures k <= |msgs|
    ensures k < |msgs| ==>
      msgs[k].role == Some("user") && Redacted(msgs, content) == msgs[k := msgs[k].(content := Plain(content))]
    ensures k == |msgs| ==> Redacted(msgs, content) == msgs
    ensures forall i | k < i < |msgs| :: msgs[i].role != Some("user")
    ensures k == |msgs| ==> forall i | 0 <= i < |msgs| :: msgs[i].role != Some("user")
  {
    if |msgs| == 0 {
      return 0;
    }
    var init, last := msgs[..|msgs| - 1], msgs[|msgs| - 1];
    assert msgs == init + [last];
    if IsUser(last) {
      return |init|;
    }
    var j := RedactsOne(init, content);
    k := if j == |init| then |msgs| else j;
  }

  /** A message with no text in it, not even an empty one. */
  predicate NoText(m: Message) {
    match m.content
    case Plain(_) => false
    case Parts(parts) => forall i | 0 <= i < |parts| :: parts[i].text.None?
    case _ => true
  }

  lemma {:induction false} PartsAdd(content: string, parts: seq<Part>)
    ensures content <= AddParts(content, parts)
    ensures content != "" ==>
              (AddParts(content, parts) == content <==> forall i | 0 <= i < |parts| :: parts[i].text.None?)
  {
    if |parts| > 0 {
      var init, last := parts[..|parts| - 1], parts[|parts| - 1];
      PartsAdd(content, init);
      assert parts == init + [last];
    }
  }

  lemma {:induction false} MessagesAdd(content: string, msgs: seq<Message>)
    ensures content <= AddMessages(content, msgs)
    ensures content != "" ==> (AddMessages(content, msgs) == content <==> forall i | 0 <= i < |msgs| :: NoText(msgs[i]))
  {
    hide NoText;
    if |msgs| > 0 {
      var init, last := msgs[..|msgs| - 1], msgs[|msgs| - 1];
      MessagesAdd(content, init);
      MessageAdds(AddMessages(content, init), last);
      assert msgs == init + [last];
    }
  }

  lemma MessageAdds(content: string, m: Message)
    ensures content <= AddMessage(content, m)
    ensures content != "" ==> (AddMessage(content, m) == content <==> NoText(m))
  {
    if m.content.Parts? {
      PartsAdd(content, m.content.parts);
    }
  }

  lemma {:induction false} AddMessagesAppend(content: string, a: seq<Message>, b: seq<Message>)
    ensures AddMessages(content, a + b) == AddMessages(AddMessages(content, a), b)
    decreases |b|
  {
    hide AddMessage;
    if |b| == 0 {
      assert a + b == a;
    } else {
      assert (a + b)[..|a + b| - 1] == a + b[..|b| - 1];
      AddMessagesAppend(content, a, b[..|b| - 1]);
    }
  }

  /** After redaction the messages hold the redacted content and nothing else, if and only if the messages
      before the last one of the user add up to nothing and those after it have no text. */
  lemma RedactionCleansIff(msgs: seq<Message>, content: string, k: nat)
    requires content != "" && k < |msgs| && msgs[k].role == Some("user")
    requires forall i | k < i < |msgs| :: msgs[i].role != Some("user")
    ensures MessageTexts(Redacted(msgs, content)) == content <==>
            MessageTexts(msgs[..k]) == "" && forall i | k < i < |msgs| :: NoText(msgs[i])
  {
    hide Redacted, NoText, AddMessages;
    var j := RedactsOne(msgs, content);
    var before, last, later := msgs[..k], msgs[k].(content := Plain(content)), msgs[k + 1..];
    assert j == k;
    assert Redacted(msgs, content) == before + [last] + later;
    AddMessagesAppend("", before, [last] + later);
    AddMessagesAppend(MessageTexts(before), [last], later);
    assert before + ([last] + later) == before + [last] + later;
    OneMessage(MessageTexts(before), last);
    MessagesAdd(AddText(MessageTexts(before), content), later);
    assert forall i | 0 <= i < |later| :: later[i] == msgs[k + 1 + i];
  }

  /** What guardrails would see of a body they have redacted. With a message of the user, it is what they
      put there exactly if nothing comes before or after that message; with none, it is what they saw,
      be that messages or a prompt. */
  lemma RedactedBodyShows(st: Stages, body: Bytes) returns (k: nat)
    requires Looks(st, body) && VerdictOn(st, body).Modify? && VerdictOn(st, body).content != ""
    ensures
      var d := st.read(body).value;
      var msgs, content := d.messages.GetOr([]), VerdictOn(st, body).content;
      && Reprinted(st, body).Some?
      && k <= |msgs| && (forall i | k < i < |msgs| :: msgs[i].role != Some("user"))
      && (if k < |msgs| then
            && msgs[k].role == Some("user")
            && (ContentOf(Reprinted(st, body).value) == content <==>
                MessageTexts(msgs[..k]) == "" && forall i | k < i < |msgs| :: NoText(msgs[i]))
          else
            && (forall i | 0 <= i < |msgs| :: msgs[i].role != Some("user"))
            && ContentOf(Reprinted(st, body).value) == ContentOf(d))
  {
    hide Redacted, NoText, AddMessages, HasPreCall, Guardrail.Run;
    var msgs, content := st.read(body).value.messages.GetOr([]), VerdictOn(st, body).content;
    k := RedactsOne(msgs, content);
    if k < |msgs| {
      RedactionCleansIff(msgs, content, k);
      SomethingShows(msgs, content, k);
    }
  }

  lemma SomethingShows(msgs: seq<Message>, content: string, k: nat)
    requires content != "" && k < |msgs|
    ensures MessageTexts(msgs[k := msgs[k].(content := Plain(content))]) != ""
  {
    hide AddMessages;
    var before, last, later := msgs[..k], msgs[k].(content := Plain(content)), msgs[k + 1..];
    assert msgs[k := last] == before + [last] + later;
    AddMessagesAppend("", before + [last], later);
    AddMessagesAppend("", before, [last]);
    OneMessage(MessageTexts(before), last);
    MessagesAdd(AddText(MessageTexts(before), content), later);
  }

  lemma OneMessage(content: string, m: Message)
    ensures AddMessages(content, [m]) == AddMessage(content, m)
  {
    assert [m][..0] == [];
    assert AddMessages(content, []) == content;
  }

  // ---- Compaction ---------------------------------------------------------------------------------------

  function SummaryMessage(summary: string): Message {
    Message(Some("assistant"), Plain("[Summary of earlier conversation]\n" + summary), "")
  }

  /** The messages after compaction, if it changed them. */
  function ShorterMessages(st: Stages, messages: Option<seq<Message>>): Option<Option<seq<Message>>> {
    var o := Compact(messages, st.params);
    match o.result
    case NoOp => None
    case Compacted => Some(o.messages)
    case NeedsLlm(d) =>
      match st.summarise(d)
      case None => None
      case Some(summary) => Some(Some(d.system + [SummaryMessage(summary)] + d.toKeep))
  }

  /** The JSON with fewer messages, if compaction changed it. */
  function Shorter(st: Stages, body: Bytes): Option<Doc> {
    var d := st.read(body);
    if d.None? then None
    else
      var shorter := ShorterMessages(st, d.value.messages);
      if shorter.None? then None else Some(d.value.(messages := shorter.value))
  }

  /** The printed body if compaction changed it. */
  function CompactStage(st: Stages, body: Bytes): Option<Bytes> {
    if Shorter(st, body).None? then None else Some(st.write(Shorter(st, body).value))
  }

  method CompactBody(st: Stages, body: Bytes) returns (r: Option<Bytes>)
    ensures r == CompactStage(st, body)
  {
    hide Compact;
    var parsed := st.read(body);
    if parsed.None? {
      return None;
    }
    var json := new Body(parsed.value.messages);
    var result := json.CompactMessages(st.params);
    var messages := json.messages;
    match result {
      case NoOp =>
        return None;
      case Compacted =>
      case NeedsLlm(data) =>
        var summary := st.summarise(data);
        if summary.None? {
          return None;
        }
        messages := Some(data.system + [SummaryMessage(summary.value)] + data.toKeep);
    }
    return Some(st.write(parsed.value.(messages := messages)));
  }

  /** What the compaction stage makes of a body: nothing, if it is not JSON or compaction finds nothing to
      do or no summary comes; the shortened messages; or those set apart, the summary, and those kept. */
  lemma CompactStageSays(st: Stages, body: Bytes)
    ensures
      var d := st.read(body);
      CompactStage(st, body) ==
      if d == None then None
      else
        var o := Compact(d.value.messages, st.params);
        match o.result
        case NoOp => None
        case Compacted => Some(st.write(d.value.(messages := o.messages)))
        case NeedsLlm(data) =>
          if st.summarise(data) == None then None
          else
            var summary := Message(
              Some("assistant"), Plain("[Summary of earlier conversation]\n" + st.summarise(data).value), "");
            Some(st.write(d.value.(messages := Some(data.system + [summary] + data.toKeep))))
  {
    hide Compact;
  }

  /** A body that truncation or the sliding window has shortened is left alone the next time. */
  lemma StageIsIdempotent(st: Stages, body: Bytes)
    requires st.params.strategy == "truncate" || st.params.strategy == "sliding_window"
    requires CompactStage(st, body).Some?
    requires Keeps(st, Shorter(st, body).value)
    ensures CompactStage(st, CompactStage(st, body).value) == None
  {
    hide Compact;
    CompactIsIdempotent(st.read(body).value.messages, st.params);
    NoSummary(st.read(body).value.messages, st.params);
  }

  lemma NoSummary(messages: Option<seq<Message>>, p: Params)
    requires p.strategy == "truncate" || p.strategy == "sliding_window"
    ensures !Compact(messages, p).result.NeedsLlm?
  {
  }
}
