/** The lines of one server-sent event, as the Anthropic and Cohere translators read them:
    the last `event:` line and the last `data:` line win. */
module SseFields {
  import opened Text
  import opened Utf8
  import opened SseFraming

  const EVENT: Bytes := "event: "
  const DATA: Bytes := "data: "
  const DATA_BARE: Bytes := "data:"

  function EventLine(line: Bytes): Option<Bytes> {
    match StripPrefix(EVENT, line)
    case Some(name) => Some(Trim(name))
    case None => None
  }

  function DataLine(line: Bytes): Option<Bytes> {
    if StripPrefix(EVENT, line).Some? then None
    else
      match StripPrefix(DATA, line)
      case Some(d) => Some(d)
      case None => StripPrefix(DATA_BARE, line)
  }

  /** The field of the last line that has it; empty if none does. */
  function LastField(field: Bytes -> Option<Bytes>, lines: seq<Bytes>): Bytes {
    if |lines| == 0 then ""
    else
      match field(lines[|lines| - 1])
      case Some(v) => v
      case None => LastField(field, lines[..|lines| - 1])
  }

  function EventType(raw: Bytes): Bytes {
    LastField(EventLine, Lines(raw))
  }

  function Data(raw: Bytes): Bytes {
    LastField(DataLine, Lines(raw))
  }

  method ReadFields(raw: Bytes) returns (eventType: Bytes, dataLine: Bytes)
    ensures eventType == EventType(raw) && dataLine == Data(raw)
  {
    eventType, dataLine := "", "";
    var lines := Lines(raw);
    for i := 0 to |lines|
      invariant eventType == LastField(EventLine, lines[..i])
      invariant dataLine == LastField(DataLine, lines[..i])
    {
      var line := lines[i];
      assert lines[..i + 1][..i] == lines[..i];
      var name := StripPrefix(EVENT, line);
      if name.Some? {
        eventType := Trim(name.value);
      } else {
        var d := StripPrefix(DATA, line);
        if d.Some? {
          dataLine := d.value;
        } else {
          d := StripPrefix(DATA_BARE, line);
          if d.Some? {
            dataLine := d.value;
          }
        }
      }
    }
    assert lines[..|lines|] == lines;
  }

  // ---- The wire form of one event -------------------------------------------------------

  /** An event as a provider writes it, without the blank line that ends it. */
  function Written(name: Bytes, data: Bytes): Bytes {
    ("event: " + name) + "\n" + ("data: " + data)
  }

  /** Text that can stand on one line of an event: no line break inside, no carriage return. */
  predicate OneLine(t: Bytes) {
    NoByte('\n', t) && NoByte('\r', t)
  }

  /** An event name that reads back as it was written. */
  predicate GoodName(name: string) {
    OneLine(name) && Trimmed(name) && Ascii(name)
  }

  lemma LinesOfTwo(l1: Bytes, l2: Bytes)
    requires OneLine(l1) && OneLine(l2) && |l2| > 0
    ensures Lines(l1 + NL + l2) == [l1, l2]
  {
    var s := l1 + NL + l2;
    FindByte('\n', l1, l2);
    assert s[..|l1|] == l1 && s[|l1| + 1..] == l2;
    FindNoByte('\n', l2);
    assert Lines(l2) == [l2];
  }

  lemma LastFieldOfTwo(field: Bytes -> Option<Bytes>, l1: Bytes, l2: Bytes)
    ensures field(l2).Some? ==> LastField(field, [l1, l2]) == field(l2).value
    ensures field(l2).None? && field(l1).Some? ==> LastField(field, [l1, l2]) == field(l1).value
  {
    var lines := [l1, l2];
    assert lines[..1] == [l1];
  }

  /** Reading an event gives back the name and the data it was written with. */
  lemma ReadWritten(name: Bytes, data: Bytes)
    requires OneLine(name) && Trimmed(name) && OneLine(data)
    ensures EventType(Written(name, data)) == name
    ensures Data(Written(name, data)) == data
  {
    hide Trim, Lines;
    var l1, l2 := EVENT + name, DATA + data;
    assert OneLine(EVENT) && OneLine(DATA);
    LinesOfTwo(l1, l2);
    StripOtherPrefix(EVENT, DATA, data);
    TrimIsIdentity(name);
    LastFieldOfTwo(EventLine, l1, l2);
    LastFieldOfTwo(DataLine, l1, l2);
  }

  /** The blank line after a written event is the first one, and the event is well-formed UTF-8. */
  lemma WrittenIsWhole(name: Bytes, data: Bytes)
    requires OneLine(name) && OneLine(data) && Ascii(name) && Valid(data)
    ensures WholeEvent(BLANK_LINE, Written(name, data))
    ensures Valid(Written(name, data))
  {
    hide Valid, Find;
    assert OneLine(EVENT) && OneLine(DATA);
    FindDoubleByte('\n', EVENT + name, DATA + data);
    assert Ascii((EVENT + name) + NL + DATA);
    AsciiIsValid((EVENT + name) + NL + DATA);
    ValidConcat((EVENT + name) + NL + DATA, data);
    Associative((EVENT + name) + NL, DATA, data);
  }

  /** Other ways to write an event: lines may end in a carriage return and a newline, the blank after
      `data:` may be missing, the last line of a kind counts, and blanks around the name and lines of no
      kind do not. */
  lemma ReadVariants(name: Bytes, data: Bytes, prior: Bytes, id: Bytes)
    requires OneLine(name) && Trimmed(name) && OneLine(data) && OneLine(prior) && OneLine(id)
    ensures
      var raw := "event: " + name + "\r\n" + ("data: " + data + "\r\n");
      EventType(raw) == name && Data(raw) == data
    ensures (data == [] || data[0] != ' ') ==> Data("event: " + name + "\n" + ("data:" + data)) == data
    ensures
      var raw := "data: " + prior + "\n" + ("data: " + data);
      EventType(raw) == "" && Data(raw) == data
    ensures
      var raw := "event: " + (" " + name + "\t") + "\n" + (": " + id);
      EventType(raw) == name && Data(raw) == ""
  {
    hide Trim, Lines, EventLine, DataLine, StripPrefix, LastField;
    TrimIsIdentity(name);
    EventLineIs(name);
    DataLineIs(data);
    DataLineIs(prior);
    OtherLineIs(id);
    CrLfLines("event: " + name, "data: " + data);
    TwoLines("event: " + name, "data: " + data);
    LinesOfTwo("data: " + prior, "data: " + data);
    TwoLines("data: " + prior, "data: " + data);
    var wide := " " + name + "\t";
    TrimDropsBlanks(name);
    EventLineIs(wide);
    LinesOfTwo("event: " + wide, ": " + id);
    TwoLines("event: " + wide, ": " + id);
    LinesOfTwo("event: " + name, "data:" + data);
    TwoLines("event: " + name, "data:" + data);
  }

  lemma EventLineIs(x: Bytes)
    ensures EventLine("event: " + x) == Some(Trim(x)) && DataLine("event: " + x) == None
  {
    hide Trim;
    assert ("event: " + x)[7..] == x;
  }

  lemma DataLineIs(x: Bytes)
    ensures EventLine("data: " + x) == None && DataLine("data: " + x) == Some(x)
    ensures x == [] || x[0] != ' ' ==> EventLine("data:" + x) == None && DataLine("data:" + x) == Some(x)
  {
    assert ("data: " + x)[6..] == x && ("data: " + x)[0] == 'd';
    assert ("data:" + x)[5..] == x && ("data:" + x)[0] == 'd';
    if DATA <= "data:" + x {
      assert ("data:" + x)[5] == DATA[5] == ' ';
    }
  }

  lemma OtherLineIs(x: Bytes)
    ensures EventLine(": " + x) == None && DataLine(": " + x) == None
  {
    assert (": " + x)[0] == ':';
  }

  lemma TwoLines(l1: Bytes, l2: Bytes)
    ensures
      LastField(EventLine, [l1, l2]) ==
      if EventLine(l2).Some? then EventLine(l2).value else if EventLine(l1).Some? then EventLine(l1).value else ""
    ensures
      LastField(DataLine, [l1, l2]) ==
      if DataLine(l2).Some? then DataLine(l2).value else if DataLine(l1).Some? then DataLine(l1).value else ""
  {
    hide EventLine, DataLine;
    assert [l1, l2][..1] == [l1] && [l1][..0] == [];
    assert LastField(EventLine, []) == "" && LastField(DataLine, []) == "";
    assert LastField(EventLine, [l1]) == if EventLine(l1).Some? then EventLine(l1).value else "";
    assert LastField(DataLine, [l1]) == if DataLine(l1).Some? then DataLine(l1).value else "";
  }

  lemma LineThen(l: Bytes, rest: Bytes)
    requires NoByte('\n', l)
    ensures Lines(l + NL + rest) == [StripCr(l)] + Lines(rest)
  {
    hide Find, StripCr;
    var s := l + NL + rest;
    FindByte('\n', l, rest);
    assert s[..|l|] == l && s[|l| + 1..] == rest;
  }

  lemma CrLfLines(l1: Bytes, l2: Bytes)
    requires OneLine(l1) && OneLine(l2)
    ensures Lines(l1 + "\r\n" + (l2 + "\r\n")) == [l1, l2]
  {
    hide Lines;
    var rest := l2 + "\r\n";
    assert l1 + "\r\n" + rest == (l1 + "\r") + NL + rest;
    LineThen(l1 + "\r", rest);
    assert rest == (l2 + "\r") + NL + [];
    LineThen(l2 + "\r", []);
    NoLines();
    assert (l1 + "\r")[..|l1|] == l1 && (l2 + "\r")[..|l2|] == l2;
  }

  lemma NoLines()
    ensures Lines([]) == []
  {
  }
}
