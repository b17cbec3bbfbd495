/**
 The text form of an event, after sections 9.2.5 and 9.2.6 of the WHATWG HTML Standard:
 formatting a published event, and decoding it again on the subscriber's side.
 What JSON and `int` make of a text is a parameter.
 */
module SseWire {
  import opened Common

  datatype Parsed<T> = Malformed | NotAnObject | Object(value: T)

  /**
   What the decoding takes from Python: `json.loads`, and the value of a decimal digit, which
   `int` accepts of any script.
   */
  datatype Python<!T> = Python(parse: string -> Parsed<T>, digit: char -> Option<nat>)
  {
    ghost predicate ReadsAscii() {
      forall c :: '0' <= c <= '9' ==> digit(c) == Some((c - '0') as nat)
    }
  }

  datatype Message<T> = Message(id: int, event: string, data: T)

  // ---------------------------------------------------------------- lines

  /** Where Python's `splitlines` breaks a line. */
  predicate Breaks(c: char) {
    || '\U{0A}' <= c <= '\U{0D}' || '\U{1C}' <= c <= '\U{1E}'
    || c == '\U{85}' || c == '\U{2028}' || c == '\U{2029}'
  }

  predicate OneLine(s: string) {
    forall i :: 0 <= i < |s| ==> !Breaks(s[i])
  }

  function FirstBreak(s: string): (k: nat)
    ensures k <= |s| && (forall i :: 0 <= i < k ==> !Breaks(s[i])) && (k < |s| ==> Breaks(s[k]))
  {
    if s == [] || Breaks(s[0]) then 0 else FirstBreak(s[1..]) + 1
  }

  /** One line break; the two characters of a Windows one are one break. */
  predicate LineBreak(s: string) {
    s == "\r\n" || (|s| == 1 && Breaks(s[0]))
  }

  /** Where the line after the break at `k` starts. */
  function AfterBreak(s: string, k: nat): (next: nat)
    requires k < |s| && Breaks(s[k])
    ensures k < next <= |s| && LineBreak(s[k..next])
  {
    if s[k] == '\r' && k + 1 < |s| && s[k + 1] == '\n' then k + 2 else k + 1
  }

  function SplitLines(s: string): (lines: seq<string>)
    decreases |s|
  {
    if s == [] then []
    else
      var k := FirstBreak(s);
      if k == |s| then [s]
      else [s[..k]] + SplitLines(s[AfterBreak(s, k)..])
  }

  lemma {:induction false} BreakIsFound(line: string, c: char, rest: string)
    requires OneLine(line) && Breaks(c)
    ensures FirstBreak(line + [c] + rest) == |line|
  {
    var s := line + [c] + rest;
    assert s[|line|] == c;
    assert forall i :: 0 <= i < |line| ==> s[i] == line[i];
  }

  lemma {:induction false} SplitAt(s: string, k: nat)
    requires k < |s| && FirstBreak(s) == k && s[k] != '\r'
    ensures SplitLines(s) == [s[..k]] + SplitLines(s[k + 1..])
  {
  }

  lemma {:induction false} SplitFirstLine(line: string, c: char, rest: string)
    requires OneLine(line) && Breaks(c) && c != '\r'
    ensures SplitLines(line + [c] + rest) == [line] + SplitLines(rest)
  {
    var s := line + [c] + rest;
    BreakIsFound(line, c, rest);
    assert s[|line|] == c;
    SplitAt(s, |line|);
    assert s[..|line|] == line && s[|line| + 1..] == rest;
  }

  // ---------------------------------------------------------------- numbers

  function Digits(n: nat): (s: string)
    ensures |s| > 0 && forall i :: 0 <= i < |s| ==> '0' <= s[i] <= '9'
  {
    if n < 10 then ['0' + n as char] else Digits(n / 10) + ['0' + (n % 10) as char]
  }

  /** Decimal digits of any script, with single underscores between them. */
  function ParseNat<T>(s: string, py: Python<T>): (n: Option<nat>) {
    if s == [] then None
    else
      var last :- py.digit(s[|s| - 1]);
      if |s| == 1 then Some(last)
      else
        var front :- ParseNat(if s[|s| - 2] == '_' then s[..|s| - 2] else s[..|s| - 1], py);
        Some(10 * front + last)
  }

  /** `int(text)` of a stripped text. */
  function ParseInt<T>(s: string, py: Python<T>): (n: Option<int>) {
    if s == [] then None
    else
      var n: Option<int> := ParseNat(if s[0] == '-' || s[0] == '+' then s[1..] else s, py);
      if s[0] == '-' && n.Some? then Some(-n.value) else n
  }

  lemma {:induction false} ParseDigits<T>(n: nat, py: Python<T>)
    requires py.ReadsAscii()
    ensures ParseNat(Digits(n), py) == Some(n)
  {
    if n >= 10 {
      ParseDigits(n / 10, py);
      var s := Digits(n);
      assert s[..|s| - 1] == Digits(n / 10);
      assert '0' <= s[|s| - 2] <= '9' && s[|s| - 1] == '0' + (n % 10) as char;
    }
  }

  /** A written number is read back. */
  lemma {:induction false} ParseWrittenInt<T>(n: nat, py: Python<T>)
    requires py.ReadsAscii()
    ensures ParseInt(Digits(n), py) == Some(n)
  {
    ParseDigits(n, py);
    assert '0' <= Digits(n)[0] <= '9';
  }

  /** What Python's `strip` removes. */
  predicate Space(c: char) {
    || c == ' ' || c == '\t' || c == '\U{1F}' || Breaks(c) || c == '\U{A0}' || c == '\U{1680}'
    || '\U{2000}' <= c <= '\U{200A}' || c == '\U{202F}' || c == '\U{205F}' || c == '\U{3000}'
  }

  function Strip(s: string): (t: string)
    decreases |s|
  {
    if s != [] && Space(s[0]) then Strip(s[1..])
    else if s != [] && Space(s[|s| - 1]) then Strip(s[..|s| - 1])
    else s
  }

  // ---------------------------------------------------------------- format and decode

  /** `json` is the dumped payload. */
  function Format(id: nat, event: string, json: string): (raw: string) {
    "id: " + Digits(id) + ['\n'] + ("event: " + event + ['\n'] + ("data: " + json + "\n\n"))
  }

  /** What the decoding loop carries from line to line. */
  datatype Fields<T> = Fields(id: Option<int>, event: string, data: Option<T>)

  /** One line; `None` when the whole message is given up. */
  function Line<T>(f: Fields<T>, line: string, py: Python<T>): (f': Option<Fields<T>>) {
    if "id: " <= line then
      var id :- ParseInt(Strip(line[4..]), py);
      Some(f.(id := Some(id)))
    else if "event: " <= line then Some(f.(event := Strip(line[7..])))
    else if "data: " <= line then
      match py.parse(line[6..])
      case Malformed => None
      case NotAnObject => Some(f)
      case Object(v) => Some(f.(data := Some(v)))
    else Some(f)
  }

  function Lines<T>(f: Fields<T>, lines: seq<string>, py: Python<T>): (f': Option<Fields<T>>)
    decreases |lines|
  {
    if lines == [] then Some(f)
    else
      var next :- Line(f, lines[0], py);
      Lines(next, lines[1..], py)
  }

  /** The event, if all its parts were found. */
  function Finish<T>(fields: Option<Fields<T>>): (m: Option<Message<T>>) {
    var f :- fields;
    if f.id.None? || f.data.None? then None else Some(Message(f.id.value, f.event, f.data.value))
  }

  function Decoded<T>(raw: string, py: Python<T>): (m: Option<Message<T>>) {
    Finish(Lines(Fields(None, "message", None), SplitLines(raw), py))
  }

  method DecodePublishedEvent<T>(raw: string, py: Python<T>) returns (m: Option<Message<T>>)
    ensures m == Decoded(raw, py) && Decodes(SplitLines(raw), m, py)
  {
    DecodedIs(raw, py);
    var lines := SplitLines(raw);
    var f: Fields<T> := Fields(None, "message", None);
    ghost var whole := Lines(f, lines, py);
    for i := 0 to |lines|
      invariant whole == Lines(f, lines[i..], py)
    {
      assert lines[i..][1..] == lines[i + 1..];
      var next := Line(f, lines[i], py);
      if next.None? { return None; }
      f := next.value;
    }
    if f.id.None? || f.data.None? { return None; }
    m := Some(Message(f.id.value, f.event, f.data.value));
  }

  // ---------------------------------------------------------------- what is decoded

  datatype Kind = IdLine | EventLine | DataLine

  /** A data line is of its kind only with an object as its data. */
  predicate Is<T>(line: string, kind: Kind, py: Python<T>) {
    match kind
    case IdLine => "id: " <= line
    case EventLine => "event: " <= line
    case DataLine => "data: " <= line && py.parse(line[6..]).Object?
  }

  /** The fields have what the line says. */
  predicate Holds<T(==)>(f: Fields<T>, kind: Kind, line: string, py: Python<T>)
    requires Is(line, kind, py)
  {
    match kind
    case IdLine => f.id.Some? && f.id == ParseInt(Strip(line[4..]), py)
    case EventLine => f.event == Strip(line[7..])
    case DataLine => f.data == Some(py.parse(line[6..]).value)
  }

  predicate Agree<T(==)>(f: Fields<T>, g: Fields<T>, kind: Kind) {
    match kind
    case IdLine => f.id == g.id
    case EventLine => f.event == g.event
    case DataLine => f.data == g.data
  }

  /** A line that gives the whole message up: an id that is no number, or data that is no JSON. */
  predicate Unreadable<T>(line: string, py: Python<T>) {
    || ("id: " <= line && ParseInt(Strip(line[4..]), py).None?)
    || ("data: " <= line && py.parse(line[6..]).Malformed?)
  }

  ghost predicate NoneFrom<T>(lines: seq<string>, k: nat, kind: Kind, py: Python<T>) {
    forall j :: k <= j < |lines| ==> !Is(lines[j], kind, py)
  }

  /** The fields have what the last line of the kind says, or what they had before if there is none. */
  ghost predicate Found<T>(lines: seq<string>, f: Fields<T>, g: Fields<T>, kind: Kind, py: Python<T>) {
    if NoneFrom(lines, 0, kind, py) then Agree(f, g, kind)
    else exists k :: 0 <= k < |lines| && Is(lines[k], kind, py) && NoneFrom(lines, k + 1, kind, py)
                     && Holds(g, kind, lines[k], py)
  }

  lemma {:induction false} LineFinds<T>(f: Fields<T>, line: string, py: Python<T>, kind: Kind)
    ensures Line(f, line, py).None? <==> Unreadable(line, py)
    ensures Line(f, line, py).Some? ==>
              var g := Line(f, line, py).value;
              if Is(line, kind, py) then Holds(g, kind, line, py) else Agree(f, g, kind)
  {
    if "id: " <= line {
      assert line[0] == 'i';
    } else if "event: " <= line {
      assert line[0] == 'e';
    }
  }

  lemma {:induction false} FoundThen<T>(
    lines: seq<string>, f: Fields<T>, next: Fields<T>, g: Fields<T>, kind: Kind, py: Python<T>)
    requires lines != [] && Found(lines[1..], next, g, kind, py)
    requires if Is(lines[0], kind, py) then Holds(next, kind, lines[0], py) else Agree(f, next, kind)
    ensures Found(lines, f, g, kind, py)
  {
    var rest := lines[1..];
    assert forall j :: 0 <= j < |rest| ==> rest[j] == lines[j + 1];
    if NoneFrom(rest, 0, kind, py) {
      assert NoneFrom(lines, 1, kind, py) by {
        forall j | 1 <= j < |lines| ensures !Is(lines[j], kind, py) { assert lines[j] == rest[j - 1]; }
      }
    } else {
      var k :| 0 <= k < |rest| && Is(rest[k], kind, py) && NoneFrom(rest, k + 1, kind, py)
               && Holds(g, kind, rest[k], py);
      assert Is(lines[k + 1], kind, py) && Holds(g, kind, lines[k + 1], py);
      assert NoneFrom(lines, k + 2, kind, py) by {
        forall j | k + 2 <= j < |lines| ensures !Is(lines[j], kind, py) { assert lines[j] == rest[j - 1]; }
      }
    }
  }

  /** The message is given up exactly by an unreadable line; otherwise the last line of each kind counts. */
  lemma {:induction false} LinesFind<T>(f: Fields<T>, lines: seq<string>, py: Python<T>, kind: Kind)
    ensures Lines(f, lines, py).None? <==> exists i :: 0 <= i < |lines| && Unreadable(lines[i], py)
    ensures Lines(f, lines, py).Some? ==> Found(lines, f, Lines(f, lines, py).value, kind, py)
    decreases |lines|
  {
    if lines != [] {
      LineFinds(f, lines[0], py, kind);
      var next := Line(f, lines[0], py);
      if next.Some? {
        LinesFind(next.value, lines[1..], py, kind);
        var whole := Lines(next.value, lines[1..], py);
        if whole.Some? {
          FoundThen(lines, f, next.value, whole.value, kind, py);
        } else {
          var i :| 0 <= i < |lines[1..]| && Unreadable(lines[1..][i], py);
          assert Unreadable(lines[i + 1], py);
        }
        if i :| 0 <= i < |lines| && Unreadable(lines[i], py) {
          assert Unreadable(lines[1..][i - 1], py);
        }
      }
    }
  }

  /**
   A text decodes exactly if no line of it is unreadable and it has an id line and a data line
   with an object; the message then has what the last line of each kind says, and the event
   name "message" without an event line.
   */
  ghost predicate Decodes<T>(lines: seq<string>, m: Option<Message<T>>, py: Python<T>) {
    && (m.Some? <==>
          && (forall i :: 0 <= i < |lines| ==> !Unreadable(lines[i], py))
          && !NoneFrom(lines, 0, IdLine, py) && !NoneFrom(lines, 0, DataLine, py))
    && (m.Some? ==>
          var g := Fields(Some(m.value.id), m.value.event, Some(m.value.data));
          forall kind :: Found(lines, Fields(None, "message", None), g, kind, py))
  }

  lemma {:induction false} DecodedIs<T>(raw: string, py: Python<T>)
    ensures Decodes(SplitLines(raw), Decoded(raw, py), py)
  {
    var lines, f: Fields<T> := SplitLines(raw), Fields(None, "message", None);
    forall kind
      ensures Lines(f, lines, py).None? <==> exists i :: 0 <= i < |lines| && Unreadable(lines[i], py)
      ensures Lines(f, lines, py).Some? ==> Found(lines, f, Lines(f, lines, py).value, kind, py)
    {
      LinesFind(f, lines, py, kind);
    }
    LinesFind(f, lines, py, IdLine);
    LinesFind(f, lines, py, DataLine);
  }

  // Lines and stripping.

  function Join(lines: seq<string>, ends: seq<string>): (s: string)
    requires |lines| == |ends|
  {
    if lines == [] then "" else lines[0] + ends[0] + Join(lines[1..], ends[1..])
  }

  /** The lines hold no break, and with the breaks after them they are the text; only the last may lack one. */
  ghost predicate LinesOf(s: string, lines: seq<string>, ends: seq<string>) {
    && |ends| == |lines| && Join(lines, ends) == s && (forall i :: 0 <= i < |lines| ==> OneLine(lines[i]))
    && forall i :: 0 <= i < |ends| ==> LineBreak(ends[i]) || (i == |ends| - 1 && ends[i] == "" && lines[i] != "")
  }

  lemma {:induction false} LineThen(line: string, end: string, s: string, lines: seq<string>, ends: seq<string>)
    requires OneLine(line) && LineBreak(end) && LinesOf(s, lines, ends)
    ensures LinesOf(line + end + s, [line] + lines, [end] + ends)
  {
    var all, allEnds := [line] + lines, [end] + ends;
    assert all[1..] == lines && allEnds[1..] == ends;
  }

  lemma {:induction false} LastLine(s: string)
    requires OneLine(s) && s != ""
    ensures LinesOf(s, [s], [""])
  {
    assert [s][1..] == [] && [""][1..] == [];
    assert Join([], []) == "";
  }

  lemma {:induction false} InThree(s: string, k: nat, next: nat)
    requires k <= next <= |s|
    ensures s[..k] + s[k..next] + s[next..] == s
  {
  }

  lemma {:induction false} SplitLinesJoin(s: string) returns (ends: seq<string>)
    ensures LinesOf(s, SplitLines(s), ends)
    decreases |s|
  {
    var k := FirstBreak(s);
    if s == [] {
      ends := [];
    } else if k == |s| {
      ends := [""];
      LastLine(s);
    } else {
      var next := AfterBreak(s, k);
      InThree(s, k, next);
      ends := SplitLinesJoin(s[next..]);
      LineThen(s[..k], s[k..next], s[next..], SplitLines(s[next..]), ends);
      ends := [s[k..next]] + ends;
    }
  }

  /** Stripping removes the spaces on both sides and no more. */
  ghost predicate Stripped(s: string, t: string, from: nat, to: nat) {
    && from <= to <= |s| && t == s[from..to]
    && (forall i :: 0 <= i < from || to <= i < |s| ==> Space(s[i]))
    && (t != "" ==> !Space(s[from]) && !Space(s[to - 1]))
  }

  lemma {:induction false} StripBetween(s: string, from: nat, to: nat) returns (from': nat, to': nat)
    requires from <= to <= |s| && forall i :: 0 <= i < from || to <= i < |s| ==> Space(s[i])
    ensures Stripped(s, Strip(s[from..to]), from', to')
    decreases |s| - from, to
  {
    var t := s[from..to];
    from', to' := from, to;
    if from < to && Space(s[from]) {
      assert t[1..] == s[from + 1..to];
      from', to' := StripBetween(s, from + 1, to);
    } else if from < to && Space(s[to - 1]) {
      assert t[..|t| - 1] == s[from..to - 1];
      from', to' := StripBetween(s, from, to - 1);
    }
  }

  lemma {:induction false} StripIs(s: string) returns (from: nat, to: nat)
    ensures Stripped(s, Strip(s), from, to)
  {
    assert s[0..|s|] == s;
    from, to := StripBetween(s, 0, |s|);
  }

  // ---------------------------------------------------------------- round trip

  /** A dumped JSON text: control characters are escaped, other characters are kept. */
  predicate DumpedText(json: string) {
    forall i :: 0 <= i < |json| ==> json[i] >= ' '
  }

  /** Free of the line breaks that dumping does not escape. */
  predicate NoUnicodeBreaks(json: string) {
    forall i :: 0 <= i < |json| ==> json[i] != '\U{85}' && json[i] != '\U{2028}' && json[i] != '\U{2029}'
  }

  /** The text is that of an object: it parses, and no proper prefix of it is JSON. */
  ghost predicate ObjectText<T>(json: string, py: Python<T>) {
    py.parse(json).Object? && forall p :: p < json ==> py.parse(p).Malformed?
  }

  predicate EventName(event: string) {
    OneLine(event) && Strip(event) == event
  }

  lemma {:induction false} DigitsLine(id: nat)
    ensures OneLine("id: " + Digits(id)) && Strip(Digits(id)) == Digits(id)
  {
  }

  /** The first two lines fill the id and the event name. */
  lemma {:induction false} HeaderLines<T>(id: nat, event: string, body: seq<string>, py: Python<T>)
    requires EventName(event) && py.ReadsAscii()
    ensures Lines(Fields(None, "message", None), ["id: " + Digits(id), "event: " + event] + body, py)
         == Lines(Fields(Some(id), event, None), body, py)
  {
    var l0, l1 := "id: " + Digits(id), "event: " + event;
    var lines := [l0, l1] + body;
    DigitsLine(id);
    ParseWrittenInt(id, py);
    assert l0[4..] == Digits(id) && "id: " <= l0;
    assert l1[0] == 'e' && l1[7..] == event && "event: " <= l1;
    assert lines[1..] == [l1] + body && lines[1..][1..] == body;
    var f0: Fields<T> := Fields(None, "message", None);
    assert Line(f0, l0, py) == Some(Fields(Some(id), "message", None));
    assert Line(Fields(Some(id), "message", None), l1, py) == Some(Fields(Some(id), event, None));
  }

  lemma {:induction false} TwoInFront(a: string, b: string, rest: seq<string>)
    ensures [a] + ([b] + rest) == [a, b] + rest
  {
  }

  lemma {:induction false} SplitHeader(l0: string, l1: string, rest: string)
    requires OneLine(l0) && OneLine(l1)
    ensures SplitLines(l0 + ['\n'] + (l1 + ['\n'] + rest)) == [l0, l1] + SplitLines(rest)
  {
    var tail := l1 + ['\n'] + rest;
    assert SplitLines(l0 + ['\n'] + tail) == [l0] + SplitLines(tail) by { SplitFirstLine(l0, '\n', tail); }
    assert SplitLines(tail) == [l1] + SplitLines(rest) by { SplitFirstLine(l1, '\n', rest); }
    TwoInFront(l0, l1, SplitLines(rest));
  }

  lemma {:induction false} SplitBreak()
    ensures SplitLines(['\n']) == [[]]
  {
    SplitFirstLine([], '\n', []);
    assert [] + ['\n'] + [] == ['\n'];
  }

  /** A line and two breaks, as the data line ends. */
  lemma {:induction false} SplitLastLine(line: string)
    requires OneLine(line)
    ensures SplitLines(line + ['\n'] + ['\n']) == [line, []]
  {
    SplitBreak();
    SplitFirstLine(line, '\n', ['\n']);
  }

  /** The text after the header, split, when nothing breaks the data line. */
  lemma {:induction false} SplitWholeData(json: string)
    requires OneLine(json)
    ensures SplitLines("data: " + json + "\n\n") == ["data: " + json, ""]
  {
    var line := "data: " + json;
    assert OneLine(line);
    assert line + "\n\n" == line + ['\n'] + ['\n'];
    SplitLastLine(line);
  }

  /** The same when the payload has a break at `k`: the data line ends there. */
  lemma {:induction false} SplitBrokenData(json: string, k: nat)
    requires k < |json| && OneLine(json[..k]) && Breaks(json[k]) && json[k] != '\r'
    ensures var lines := SplitLines("data: " + json + "\n\n"); lines != [] && lines[0] == "data: " + json[..k]
  {
    var line, rest := "data: " + json[..k], json[k + 1..] + "\n\n";
    assert OneLine(line);
    assert json == json[..k] + [json[k]] + json[k + 1..];
    assert "data: " + json + "\n\n" == line + [json[k]] + rest;
    SplitFirstLine(line, json[k], rest);
  }

  /** A dumped text breaks at its first U+0085, U+2028 or U+2029. */
  lemma {:induction false} DumpedBreak(json: string) returns (k: nat)
    requires DumpedText(json)
    ensures NoUnicodeBreaks(json) ==> OneLine(json)
    ensures !NoUnicodeBreaks(json) ==> k < |json| && OneLine(json[..k]) && Breaks(json[k]) && json[k] != '\r'
  {
    k := FirstBreak(json);
  }

  /** What the header lines leave to the data line. */
  lemma {:induction false} DecodedBody<T>(id: nat, event: string, json: string, py: Python<T>)
    requires EventName(event) && py.ReadsAscii()
    ensures var body := SplitLines("data: " + json + "\n\n");
            Decoded(Format(id, event, json), py) == Finish(Lines(Fields(Some(id), event, None), body, py))
  {
    var rest := "data: " + json + "\n\n";
    DigitsLine(id);
    SplitHeader("id: " + Digits(id), "event: " + event, rest);
    HeaderLines(id, event, SplitLines(rest), py);
  }

  /** A whole data line, and the empty one that ends the event. */
  lemma {:induction false} DataLines<T>(f: Fields<T>, json: string, py: Python<T>)
    requires py.parse(json).Object?
    ensures Lines(f, ["data: " + json, ""], py) == Some(f.(data := Some(py.parse(json).value)))
  {
    var lines := ["data: " + json, ""];
    var g := f.(data := Some(py.parse(json).value));
    ObjectData(f, json, py);
    assert lines[1..] == [""] && [""][1..] == [];
    assert Line(g, "", py) == Some(g);
    assert Lines(g, [""], py) == Some(g);
  }

  /** A data line that is cut off gives the event up. */
  lemma {:induction false} BrokenDataLine<T>(f: Fields<T>, lines: seq<string>, piece: string, py: Python<T>)
    requires lines != [] && lines[0] == "data: " + piece && py.parse(piece).Malformed?
    ensures Lines(f, lines, py) == None
  {
    ObjectData(f, piece, py);
  }

  /**
   A published event is decoded to itself exactly when its payload text is free of
   U+0085, U+2028 and U+2029; otherwise the subscriber gives it up.
   */
  lemma {:induction false} DecodesExactlyWithoutUnicodeBreaks<T>(
    id: nat, event: string, json: string, py: Python<T>)
    requires EventName(event) && DumpedText(json) && ObjectText(json, py) && py.ReadsAscii()
    ensures Decoded(Format(id, event, json), py)
            == if NoUnicodeBreaks(json) then Some(Message(id, event, py.parse(json).value)) else None
  {
    DecodedBody(id, event, json, py);
    var k := DumpedBreak(json);
    if NoUnicodeBreaks(json) {
      SplitWholeData(json);
      DataLines(Fields(Some(id), event, None), json, py);
    } else {
      SplitBrokenData(json, k);
      assert json[..k] < json;
      BrokenDataLine(Fields(Some(id), event, None), SplitLines("data: " + json + "\n\n"), json[..k], py);
    }
  }

  lemma {:induction false} ObjectData<T>(f: Fields<T>, json: string, py: Python<T>)
    ensures py.parse(json).Malformed? ==> Line(f, "data: " + json, py) == None
    ensures py.parse(json).NotAnObject? ==> Line(f, "data: " + json, py) == Some(f)
    ensures py.parse(json).Object? ==>
              Line(f, "data: " + json, py) == Some(f.(data := Some(py.parse(json).value)))
  {
    var line := "data: " + json;
    assert line[0] == 'd' && line[6..] == json;
  }
}
