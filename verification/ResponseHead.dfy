/**
 * The head of a response, from the server's dictionary of fields to the client's
 * reading of it, and the event stream that follows when the client accepts it.
 */
module ResponseHead {
  import opened Wrappers
  import opened Bytes
  import opened Text
  import opened ChunkedCoding
  import opened EventStream
  import opened HttpServer

  // ---- the client's reading -------------------------------------------------------------

  /** How many bytes the last Character of a text has, by Unicode's tables: whatever they say. */
  type Tables = string -> nat

  predicate IsAscii(c: char) {
    c as int < 0x80
  }

  /** A CRLF is one Character; so is an ASCII byte after another one. The tables say the rest. */
  function LastCharacter(tables: Tables, s: string): (n: nat)
    ensures n <= |s|
  {
    var n := |s|;
    if n >= 2 && s[n - 2..] == CRLF then 2
    else if n == 0 then 0
    else if IsAscii(s[n - 1]) && (n == 1 || IsAscii(s[n - 2])) then 1
    else if tables(s) <= n then tables(s)
    else n
  }

  /** `dropLast`, which counts Characters. */
  function DropLast(tables: Tables, s: string, count: nat): string
    decreases count
  {
    if count == 0 then s else DropLast(tables, s[..|s| - LastCharacter(tables, s)], count - 1)
  }

  predicate EndsIn(s: string, suffix: string) {
    |suffix| <= |s| && s[|s| - |suffix|..] == suffix
  }

  lemma EndsInExactly(s: string, suffix: string)
    ensures EndsIn(s, suffix) <==> exists before :: s == before + suffix
  {
    if EndsIn(s, suffix) {
      assert s == s[..|s| - |suffix|] + suffix;
    }
  }

  /** A line break is one Character, and so is a byte of ASCII with none but ASCII before it; the rest is Unicode's. */
  lemma LastCharacterExactly(tables: Tables, s: string)
    requires s != ""
    ensures var (n, last) := (|s|, LastCharacter(tables, s));
            if exists before :: s == before + "\r\n" then last == 2
            else if s[n - 1] as int < 128 && (n == 1 || s[n - 2] as int < 128) then last == 1
            else last == if tables(s) <= n then tables(s) else n
  {
    EndsInExactly(s, CRLF);
  }

  datatype Parsed = Parsed(status: int, headers: map<string, string>) | BadHead

  /** The lines of a head, as far as they are looked at. */
  function HeadLines(tables: Tables, head: string): (lines: seq<string>)
    ensures |lines| > 0
  {
    Lines(DropLast(tables, head, if EndsIn(head, BLANK_LINE) then 4 else 2))
  }

  /** `parseHTTPHeaders`. */
  function ParseHead(tables: Tables, head: string): Parsed {
    if !ValidUtf8(head) then BadHead
    else
      var lines := HeadLines(tables, head);
      var version := FirstPiece(lines[0], ' ');
      var status := FirstPiece(AfterFirstPiece(lines[0], ' '), ' ');
      if version == "" || status == "" || ParseInt(status, 10).None? then BadHead
      else Parsed(ParseInt(status, 10).value, Headers(lines[1..]))
  }

  function WithoutLast(tables: Tables, s: string): string {
    s[..|s| - LastCharacter(tables, s)]
  }

  lemma TwoDropped(tables: Tables, s: string, more: nat)
    ensures DropLast(tables, s, more + 2)
         == DropLast(tables, WithoutLast(tables, WithoutLast(tables, s)), more)
  {
    assert DropLast(tables, s, more + 2) == DropLast(tables, WithoutLast(tables, s), more + 1);
  }

  lemma FourDropped(tables: Tables, s: string, two: string)
    requires two == WithoutLast(tables, WithoutLast(tables, s))
    ensures DropLast(tables, s, 4) == WithoutLast(tables, WithoutLast(tables, two))
  {
    TwoDropped(tables, s, 2);
    TwoDropped(tables, two, 0);
  }

  /** Four Characters are dropped from a head that ends in a blank line, and two from any other. */
  lemma HeadLinesExactly(tables: Tables, head: string, two: string)
    requires two == WithoutLast(tables, WithoutLast(tables, head))
    ensures EndsIn(head, "\r\n\r\n") ==>
              HeadLines(tables, head) == Lines(WithoutLast(tables, WithoutLast(tables, two)))
    ensures !EndsIn(head, "\r\n\r\n") ==> HeadLines(tables, head) == Lines(two)
  {
    TwoDropped(tables, head, 0);
    FourDropped(tables, head, two);
  }

  // ---- the server's writing --------------------------------------------------------------

  datatype Answer = Answer(status: nat, reason: string, headers: map<string, string>, response: Response)

  /** The dictionary `writeResponse` goes through. */
  function AllHeaders(a: Answer): map<string, string> {
    (match a.response
     case Whole(body) => a.headers["Content-Length" := Print(|body|, 10)]
     case Chunked(_, _) => a.headers)["Connection" := "close"]
  }

  /** A dictionary hands out its keys once each, in an order of its own. */
  ghost predicate Iterates(names: seq<string>, headers: map<string, string>) {
    && (forall name :: name in names <==> name in headers)
    && (forall j, k | 0 <= j < k < |names| :: names[j] != names[k])
  }

  function Fields(names: seq<string>, headers: map<string, string>): (r: seq<string>)
    requires forall k | 0 <= k < |names| :: names[k] in headers
    ensures |r| == |names| && forall k | 0 <= k < |r| :: r[k] == Field(names[k], headers[names[k]])
  {
    seq(|names|, k requires 0 <= k < |names| => Field(names[k], headers[names[k]]))
  }

  function StatusLine(a: Answer): string {
    "HTTP/1.1 " + Print(a.status, 10) + " " + a.reason
  }

  function HeadText(a: Answer, names: seq<string>): string
    requires forall k | 0 <= k < |names| :: names[k] in AllHeaders(a)
  {
    Join([StatusLine(a)] + Fields(names, AllHeaders(a))) + BLANK_LINE
  }

  /** What a head can carry: printable ASCII, and field names without a colon or a space. */
  ghost predicate Carried(a: Answer) {
    && a.status < INT_LIMIT && Printable(a.reason)
    && forall name | name in a.headers :: FieldName(name) && Printable(a.headers[name])
  }

  /** There is always a last field, since `Connection` is always sent. */
  lemma SomeFieldIsLast(a: Answer, names: seq<string>)
    requires Iterates(names, AllHeaders(a))
    ensures names != [] && forall k | 0 <= k < |names| :: names[k] in AllHeaders(a)
  {
    assert "Connection" in AllHeaders(a);
    assert "Connection" in names;
    forall k | 0 <= k < |names| ensures names[k] in AllHeaders(a) {
      assert names[k] in names;
    }
  }

  lemma {:induction false} JoinOneMore(lines: seq<string>, line: string)
    requires lines != []
    ensures Join(lines + [line]) == Join(lines) + CRLF + line
  {
    var all := lines + [line];
    if |lines| == 1 {
      assert all[1..] == [line] && all[0] == lines[0];
    } else {
      assert all[1..] == lines[1..] + [line] && all[0] == lines[0];
      JoinOneMore(lines[1..], line);
    }
  }

  lemma FieldsOneMore(names: seq<string>, headers: map<string, string>)
    requires names != [] && forall k | 0 <= k < |names| :: names[k] in headers
    ensures var last := names[|names| - 1];
            Fields(names, headers) == Fields(names[..|names| - 1], headers) + [Field(last, headers[last])]
  {
  }

  /** The head as far as the `i`-th field, each line ended. */
  ghost predicate HeadSoFar(head: string, a: Answer, names: seq<string>, i: nat) {
    && i <= |names| && (forall k | 0 <= k < |names| :: names[k] in AllHeaders(a))
    && head == Join([StatusLine(a)] + Fields(names[..i], AllHeaders(a))) + CRLF
  }

  lemma HeadOneMore(head: string, a: Answer, names: seq<string>, i: nat)
    requires HeadSoFar(head, a, names, i) && i < |names|
    ensures HeadSoFar(head + names[i] + ": " + AllHeaders(a)[names[i]] + CRLF, a, names, i + 1)
  {
    var all, earlier := AllHeaders(a), [StatusLine(a)] + Fields(names[..i], AllHeaders(a));
    assert names[..i + 1][..i] == names[..i];
    FieldsOneMore(names[..i + 1], all);
    assert [StatusLine(a)] + Fields(names[..i + 1], all) == earlier + [Field(names[i], all[names[i]])];
    JoinOneMore(earlier, Field(names[i], all[names[i]]));
  }

  /** `writeResponse`, from the answer: the head is built line by line, then everything is written. */
  method Respond(out: Outlet, a: Answer, names: seq<string>)
    requires Iterates(names, AllHeaders(a))
    modifies out
    ensures forall k | 0 <= k < |names| :: names[k] in AllHeaders(a)
    ensures Handed(out, old(out.sent), old(out.writes), Pieces(HeadText(a, names), a.response))
  {
    var headers := a.headers;
    if a.response.Whole? {
      headers := headers["Content-Length" := Print(|a.response.body|, 10)];
    }
    headers := headers["Connection" := "close"];
    SomeFieldIsLast(a, names);
    var head := "HTTP/1.1 " + Print(a.status, 10) + " " + a.reason + CRLF;
    var i := 0;
    while i < |names|
      invariant 0 <= i <= |names| && HeadSoFar(head, a, names, i)
      invariant out.sent == old(out.sent) && out.writes == old(out.writes)
    {
      HeadOneMore(head, a, names, i);
      head := head + names[i] + ": " + headers[names[i]] + CRLF;
      i := i + 1;
    }
    assert names[..i] == names;
    head := head + CRLF;
    assert head == HeadText(a, names);
    WriteResponse(out, head, a.response);
  }

  // ---- what dropping four Characters drops ---------------------------------------------------

  lemma DropLastLine(tables: Tables, s: string)
    ensures s + CRLF != "" && LastCharacter(tables, s + CRLF) == 2 && (s + CRLF)[..|s + CRLF| - 2] == s
  {
  }

  lemma OneByte(tables: Tables, s: string)
    requires s != "" && Ascii(s) && s[|s| - 1] != '\n'
    ensures LastCharacter(tables, s) == 1
  {
    if |s| >= 2 {
      assert s[|s| - 2..][1] == s[|s| - 1] && CRLF[1] == '\n';
    }
  }

  lemma DropOne(tables: Tables, s: string, count: nat)
    requires s != "" && Ascii(s) && s[|s| - 1] != '\n' && count > 0
    ensures DropLast(tables, s, count) == DropLast(tables, s[..|s| - 1], count - 1)
  {
    OneByte(tables, s);
  }

  lemma DropTwo(tables: Tables, s: string, c: char, d: char)
    requires Ascii(s + [c]) && Ascii(s + [c] + [d]) && c != '\n' && d != '\n'
    ensures DropLast(tables, s + [c] + [d], 2) == s
  {
    var t := s + [c];
    var u := t + [d];
    assert u[..|u| - 1] == t && t[..|t| - 1] == s;
    DropOne(tables, u, 2);
    DropOne(tables, t, 1);
  }

  lemma DropTwoPlain(tables: Tables, s: string)
    requires |s| >= 2 && Ascii(s) && s[|s| - 1] != '\n' && s[|s| - 2] != '\n'
    ensures DropLast(tables, s, 2) == s[..|s| - 2]
  {
    var front, c, d := s[..|s| - 2], s[|s| - 2], s[|s| - 1];
    assert s == front + [c] + [d];
    DropTwo(tables, front, c, d);
  }

  /** The blank line counts for two, so two more Characters of the last line go with it. */
  lemma DropFourTakesTwoMore(tables: Tables, s: string)
    requires |s| >= 2 && Ascii(s) && s[|s| - 1] != '\n' && s[|s| - 2] != '\n'
    ensures EndsIn(s + BLANK_LINE, BLANK_LINE) && DropLast(tables, s + BLANK_LINE, 4) == s[..|s| - 2]
  {
    assert s + BLANK_LINE == s + CRLF + CRLF;
    DropLastLine(tables, s + CRLF);
    DropLastLine(tables, s);
    assert DropLast(tables, s + CRLF + CRLF, 4) == DropLast(tables, s + CRLF, 3) == DropLast(tables, s, 2);
    DropTwoPlain(tables, s);
  }

  function Cut2(line: string): string
    requires |line| >= 2
  {
    line[..|line| - 2]
  }

  lemma {:induction false} JoinCut(lines: seq<string>, last: string)
    requires |last| >= 2
    ensures |Join(lines + [last])| >= 2
    ensures Cut2(Join(lines + [last])) == Join(lines + [Cut2(last)])
    ensures var s := Join(lines + [last]);
            s[|s| - 1] == last[|last| - 1] && s[|s| - 2] == last[|last| - 2]
  {
    if lines == [] {
      assert [] + [last] == [last] && [] + [Cut2(last)] == [Cut2(last)];
    } else {
      assert (lines + [last])[1..] == lines[1..] + [last];
      assert (lines + [Cut2(last)])[1..] == lines[1..] + [Cut2(last)];
      JoinCut(lines[1..], last);
    }
  }

  predicate PlainLines(lines: seq<string>) {
    forall k | 0 <= k < |lines| :: lines[k] != "" && Printable(lines[k])
  }

  lemma PlainLinesLackReturns(lines: seq<string>)
    requires PlainLines(lines)
    ensures AllLack(lines, '\r')
  {
  }

  lemma CutIsPlain(lines: seq<string>, last: string)
    requires PlainLines(lines) && Printable(last) && |last| > 2
    ensures AllLack(lines + [Cut2(last)], '\r')
    ensures last[|last| - 1] != '\n' && last[|last| - 2] != '\n'
  {
    PlainLinesLackReturns(lines + [Cut2(last)]);
  }

  lemma PlainTextIsAscii(lines: seq<string>, last: string)
    requires PlainLines(lines) && Printable(last)
    ensures Ascii(Join(lines + [last]))
  {
    forall line | line in lines + [last] ensures Printable(line) {
      assert line in lines || line == last;
    }
    JoinedLinesAreAscii(lines + [last]);
  }

  /** The lines the client sees: the last one is two bytes short. */
  lemma LinesSeen(tables: Tables, lines: seq<string>, last: string)
    requires PlainLines(lines) && Printable(last) && |last| > 2
    ensures HeadLines(tables, Join(lines + [last]) + BLANK_LINE) == lines + [Cut2(last)]
  {
    CutIsPlain(lines, last);
    JoinCut(lines, last);
    PlainTextIsAscii(lines, last);
    DropFourTakesTwoMore(tables, Join(lines + [last]));
    LinesOfJoin(lines + [Cut2(last)]);
  }

  // ---- what the client reads ---------------------------------------------------------------------

  /** A field line two bytes short: the value's last two, or the blank before a shorter one, or the colon as well. */
  lemma CutFieldParses(lines: seq<string>, name: string, value: string)
    requires FieldName(name)
    ensures Headers(lines + [Cut2(Field(name, value))])
         == if value == "" then Headers(lines)
            else Headers(lines)[Lower(name) := Trim(if |value| == 1 then "" else Cut2(value))]
  {
    var cut := Cut2(Field(name, value));
    assert (lines + [cut])[..|lines|] == lines;
    if value == "" {
      assert cut == name;
      assert Index(cut, ':') == |cut|;
    } else if |value| == 1 {
      assert cut == name + ":";
      assert cut[|name|] == ':' && forall k | 0 <= k < |name| :: cut[k] == name[k];
      assert Index(cut, ':') == |name|;
      assert cut[..|name|] == name && cut[|name| + 1..] == "";
    } else {
      assert cut == Field(name, Cut2(value));
      FieldParses(lines, name, Cut2(value));
    }
  }

  /** The client's dictionary of fields written in this order, each whole. */
  function Understood(names: seq<string>, headers: map<string, string>): map<string, string>
    requires forall k | 0 <= k < |names| :: names[k] in headers
  {
    if names == [] then map[]
    else
      var last := names[|names| - 1];
      Understood(names[..|names| - 1], headers)[Lower(last) := Trim(headers[last])]
  }

  lemma {:induction false} FieldsParse(names: seq<string>, headers: map<string, string>)
    requires forall k | 0 <= k < |names| :: names[k] in headers && FieldName(names[k])
    ensures Headers(Fields(names, headers)) == Understood(names, headers)
  {
    if names != [] {
      var n := |names| - 1;
      FieldsParse(names[..n], headers);
      FieldParses(Fields(names[..n], headers), names[n], headers[names[n]]);
      FieldsOneMore(names, headers);
    }
  }

  /** The client's dictionary of a response head: the last field as it is after losing two Characters. */
  function Received(names: seq<string>, headers: map<string, string>): map<string, string>
    requires names != [] && forall k | 0 <= k < |names| :: names[k] in headers
  {
    var n := |names| - 1;
    var (earlier, value) := (Understood(names[..n], headers), headers[names[n]]);
    if value == "" then earlier else earlier[Lower(names[n]) := Trim(if |value| == 1 then "" else Cut2(value))]
  }

  lemma DigitsAreToken(n: nat)
    ensures IsToken(Print(n, 10)) && Printable(Print(n, 10))
  {
  }

  lemma StatusPieces(digits: string, reason: string)
    requires IsToken(digits)
    ensures var line := "HTTP/1.1 " + digits + " " + reason;
            FirstPiece(line, ' ') == "HTTP/1.1" && FirstPiece(AfterFirstPiece(line, ' '), ' ') == digits
  {
    var rest := digits + [' '] + reason;
    assert "HTTP/1.1 " + digits + " " + reason == "HTTP/1.1" + [' '] + rest;
    TokenIsFirstPiece("HTTP/1.1", rest);
    LeadingSpaceIsDropped(digits, reason);
  }

  lemma StatusLineParses(a: Answer)
    requires Carried(a)
    ensures var line := StatusLine(a);
            && Printable(line) && line != ""
            && FirstPiece(line, ' ') == "HTTP/1.1"
            && FirstPiece(AfterFirstPiece(line, ' '), ' ') == Print(a.status, 10)
            && ParseInt(Print(a.status, 10), 10) == Some(a.status)
  {
    var digits := Print(a.status, 10);
    DigitsAreToken(a.status);
    StatusPieces(digits, a.reason);
    ParseOfPrint(a.status, 10);
  }

  lemma AllHeadersAreCarried(a: Answer, name: string)
    requires Carried(a) && name in AllHeaders(a)
    ensures FieldName(name) && Printable(AllHeaders(a)[name])
  {
    NamesAreTokens();
    ContentNamesAreTokens();
    if a.response.Whole? {
      DigitsAreToken(|a.response.body|);
    }
  }

  lemma FieldLinesArePlain(a: Answer, names: seq<string>)
    requires Carried(a) && forall k | 0 <= k < |names| :: names[k] in AllHeaders(a)
    ensures PlainLines(Fields(names, AllHeaders(a)))
    ensures forall k | 0 <= k < |names| :: FieldName(names[k]) && |Field(names[k], AllHeaders(a)[names[k]])| > 2
  {
    forall k | 0 <= k < |names|
      ensures Fields(names, AllHeaders(a))[k] != "" && Printable(Fields(names, AllHeaders(a))[k]) && FieldName(names[k])
    {
      AllHeadersAreCarried(a, names[k]);
      FieldIsPrintable(names[k], AllHeaders(a)[names[k]]);
    }
  }

  lemma HeadIsAscii(a: Answer, names: seq<string>)
    requires Carried(a) && forall k | 0 <= k < |names| :: names[k] in AllHeaders(a)
    ensures Ascii(HeadText(a, names))
  {
    StatusLineParses(a);
    FieldLinesArePlain(a, names);
    var lines := [StatusLine(a)] + Fields(names, AllHeaders(a));
    JoinedLinesAreAscii(lines);
  }

  /** The field lines the client sees. */
  function SeenFields(names: seq<string>, headers: map<string, string>): seq<string>
    requires names != [] && forall k | 0 <= k < |names| :: names[k] in headers
  {
    var n := |names| - 1;
    Fields(names[..n], headers) + [Cut2(Field(names[n], headers[names[n]]))]
  }

  lemma HeadByItsLast(a: Answer, names: seq<string>)
    requires names != [] && forall k | 0 <= k < |names| :: names[k] in AllHeaders(a)
    ensures var (n, all) := (|names| - 1, AllHeaders(a));
            HeadText(a, names)
            == Join([StatusLine(a)] + Fields(names[..n], all) + [Field(names[n], all[names[n]])]) + BLANK_LINE
  {
    var n, all := |names| - 1, AllHeaders(a);
    FieldsOneMore(names, all);
    assert [StatusLine(a)] + (Fields(names[..n], all) + [Field(names[n], all[names[n]])])
        == [StatusLine(a)] + Fields(names[..n], all) + [Field(names[n], all[names[n]])];
  }

  lemma EarlierLinesArePlain(a: Answer, names: seq<string>)
    requires Carried(a) && forall k | 0 <= k < |names| :: names[k] in AllHeaders(a)
    ensures PlainLines([StatusLine(a)] + Fields(names, AllHeaders(a)))
  {
    StatusLineParses(a);
    FieldLinesArePlain(a, names);
  }

  lemma LastLineIsPlain(a: Answer, name: string)
    requires Carried(a) && name in AllHeaders(a)
    ensures Printable(Field(name, AllHeaders(a)[name])) && |Field(name, AllHeaders(a)[name])| > 2
  {
    AllHeadersAreCarried(a, name);
    FieldIsPrintable(name, AllHeaders(a)[name]);
  }

  lemma HeadLinesSeen(tables: Tables, a: Answer, names: seq<string>)
    requires Carried(a) && names != [] && forall k | 0 <= k < |names| :: names[k] in AllHeaders(a)
    ensures HeadLines(tables, HeadText(a, names)) == [StatusLine(a)] + SeenFields(names, AllHeaders(a))
  {
    var n, all := |names| - 1, AllHeaders(a);
    var earlier, last := [StatusLine(a)] + Fields(names[..n], all), Field(names[n], all[names[n]]);
    HeadByItsLast(a, names);
    EarlierLinesArePlain(a, names[..n]);
    LastLineIsPlain(a, names[n]);
    LinesSeen(tables, earlier, last);
    assert earlier + [Cut2(last)] == [StatusLine(a)] + SeenFields(names, all);
  }

  lemma SeenFieldsParse(a: Answer, names: seq<string>)
    requires Carried(a) && names != [] && forall k | 0 <= k < |names| :: names[k] in AllHeaders(a)
    ensures Headers(SeenFields(names, AllHeaders(a))) == Received(names, AllHeaders(a))
  {
    var n, all := |names| - 1, AllHeaders(a);
    FieldLinesArePlain(a, names);
    FieldsParse(names[..n], all);
    CutFieldParses(Fields(names[..n], all), names[n], all[names[n]]);
  }

  /**
   * Whatever the server answers, and in whatever order its dictionary is iterated: the client reads
   * the status, and every field as it was written except the last, which has lost two Characters.
   */
  lemma ClientReadsAllButTheLastField(tables: Tables, a: Answer, names: seq<string>)
    requires Carried(a) && Iterates(names, AllHeaders(a))
    ensures names != [] && forall k | 0 <= k < |names| :: names[k] in AllHeaders(a)
    ensures ParseHead(tables, HeadText(a, names)) == Parsed(a.status, Received(names, AllHeaders(a)))
  {
    SomeFieldIsLast(a, names);
    HeadIsAscii(a, names);
    AsciiIsUtf8(HeadText(a, names));
    StatusLineParses(a);
    HeadLinesSeen(tables, a, names);
    SeenFieldsParse(a, names);
    var seen := [StatusLine(a)] + SeenFields(names, AllHeaders(a));
    assert seen[0] == StatusLine(a) && seen[1..] == SeenFields(names, AllHeaders(a));
  }

  // ---- from the server's answer to the subscriber -------------------------------------------------------

  datatype Outcome =
    | Streamed(stream: Stream)
    | HttpError(status: int, body: string)
    | NotChunked
    | HeadRefused
    | NoAnswer(how: Close)

  predicate SaysChunked(headers: map<string, string>) {
    "transfer-encoding" in headers && Find(Lower(headers["transfer-encoding"]), "chunked").Some?
  }

  function OutcomeOf(parsed: Parsed, rest: string, close: Close): Outcome {
    match parsed
    case BadHead => HeadRefused
    case Parsed(status, headers) =>
      if !(200 <= status < 300) then (if close.Failed? then NoAnswer(close) else HttpError(status, rest))
      else if !SaysChunked(headers) then NotChunked
      else Streamed(DeliverBody(Decode(rest, close), ""))
  }

  /** What a subscriber makes of everything a connection brings. */
  function Subscription(tables: Tables, s: string, close: Close): Outcome {
    match Find(s, BLANK_LINE)
    case None => NoAnswer(close)
    case Some(h) => OutcomeOf(ParseHead(tables, s[..h + 4]), s[h + 4..], close)
  }

  /** `subscribeRawLines` from the response's first byte: a function of the bytes, however they arrive. */
  method OpenStream(tables: Tables, reader: ByteReader) returns (outcome: Outcome)
    modifies reader
    ensures outcome == Subscription(tables, old(reader.Unread()), reader.close)
  {
    var head := reader.ReadUntil(BLANK_LINE);
    if head.None? {
      return NoAnswer(reader.close);
    }
    var parsed := ParseHead(tables, head.value);
    if parsed.BadHead? {
      return HeadRefused;
    }
    if !(200 <= parsed.status < 300) {
      var body := reader.ReadToEof();
      return if body.None? then NoAnswer(reader.close) else HttpError(parsed.status, body.value);
    }
    if !SaysChunked(parsed.headers) {
      return NotChunked;
    }
    var yielded, end := Subscribe(reader);
    return Streamed(Stream(yielded, end));
  }

  /** The head as the client cuts it off the front of the connection. */
  lemma HeadComesFirst(a: Answer, names: seq<string>, rest: string)
    requires Carried(a) && names != [] && forall k | 0 <= k < |names| :: names[k] in AllHeaders(a)
    ensures var (head, s) := (HeadText(a, names), HeadText(a, names) + rest);
            |head| >= 4 && Find(s, BLANK_LINE) == Some(|head| - 4) && s[..|head|] == head && s[|head|..] == rest
  {
    var lines := [StatusLine(a)] + Fields(names, AllHeaders(a));
    StatusLineParses(a);
    FieldLinesArePlain(a, names);
    PlainLinesLackReturns(lines);
    BlankLineAfter(lines, rest);
  }

  const TRANSFER_ENCODING := "Transfer-Encoding"

  /** The answer is announced as chunked, under one spelling of the field's name. */
  ghost predicate Announced(a: Answer) {
    && TRANSFER_ENCODING in a.headers && a.headers[TRANSFER_ENCODING] == "chunked"
    && forall name | name in a.headers && Lower(name) == "transfer-encoding" :: name == TRANSFER_ENCODING
  }

  lemma LowerNames()
    ensures Lower(TRANSFER_ENCODING) == "transfer-encoding" && Lower("Connection") == "connection"
    ensures Lower("Content-Length") == "content-length"
  {
  }

  lemma {:induction false} UnderstoodField(names: seq<string>, headers: map<string, string>, key: string)
    requires forall k | 0 <= k < |names| :: names[k] in headers
    requires key in headers && forall k | 0 <= k < |names| && Lower(names[k]) == Lower(key) :: names[k] == key
    ensures var understood := Understood(names, headers);
            if key in names then Lower(key) in understood && understood[Lower(key)] == Trim(headers[key])
            else Lower(key) !in understood
  {
    if names != [] {
      var n := |names| - 1;
      UnderstoodField(names[..n], headers, key);
      assert names == names[..n] + [names[n]];
    }
  }

  ghost predicate SpelledOneWay(names: seq<string>, key: string) {
    forall k | 0 <= k < |names| && Lower(names[k]) == Lower(key) :: names[k] == key
  }

  /** One field after the head was read: whole, or two Characters short in last place. */
  lemma ReceivedField(names: seq<string>, headers: map<string, string>, key: string)
    requires names != [] && forall k | 0 <= k < |names| :: names[k] in headers
    requires key in names && |headers[key]| >= 2 && SpelledOneWay(names, key)
    ensures var received := Received(names, headers);
            && Lower(key) in received
            && received[Lower(key)] == Trim(if names[|names| - 1] == key then Cut2(headers[key]) else headers[key])
  {
    var n := |names| - 1;
    assert names == names[..n] + [names[n]];
    UnderstoodField(names[..n], headers, key);
  }

  lemma AnnouncedNames(a: Answer, names: seq<string>)
    requires Announced(a) && forall k | 0 <= k < |names| :: names[k] in AllHeaders(a)
    ensures SpelledOneWay(names, TRANSFER_ENCODING)
    ensures TRANSFER_ENCODING in AllHeaders(a) && AllHeaders(a)[TRANSFER_ENCODING] == "chunked"
  {
    LowerNames();
  }

  /** What is left of the announcement once the head was read. */
  lemma AnnouncementRead(a: Answer, names: seq<string>)
    requires Announced(a) && Iterates(names, AllHeaders(a))
    requires names != [] && forall k | 0 <= k < |names| :: names[k] in AllHeaders(a)
    ensures var received := Received(names, AllHeaders(a));
            && "transfer-encoding" in received
            && received["transfer-encoding"] == if names[|names| - 1] == TRANSFER_ENCODING then "chunk" else "chunked"
  {
    AnnouncedNames(a, names);
    ReceivedField(names, AllHeaders(a), TRANSFER_ENCODING);
    LowerNames();
    assert Cut2("chunked") == "chunk" && Trim("chunk") == "chunk" && Trim("chunked") == "chunked";
  }

  lemma OnlyWholeWordIsFound()
    ensures Find(Lower("chunked"), "chunked").Some? && Find(Lower("chunk"), "chunked").None?
  {
    assert Lower("chunked") == "chunked";
    assert OccursAt("chunked", "chunked", 0);
  }

  /** A subscriber to an announced answer is turned away exactly when the announcement was the last field. */
  lemma {:induction false} AnnouncedIsAcceptedExactly(
    tables: Tables, a: Answer, names: seq<string>, rest: string, close: Close)
    requires Carried(a) && Announced(a) && Iterates(names, AllHeaders(a)) && 200 <= a.status < 300
    ensures names != [] && forall k | 0 <= k < |names| :: names[k] in AllHeaders(a)
    ensures Subscription(tables, HeadText(a, names) + rest, close)
         == if names[|names| - 1] == TRANSFER_ENCODING then NotChunked
            else Streamed(DeliverBody(Decode(rest, close), ""))
  {
    ClientReadsAllButTheLastField(tables, a, names);
    HeadComesFirst(a, names, rest);
    AnnouncementRead(a, names);
    OnlyWholeWordIsFound();
  }

  /**
   * End to end, from `writeResponse` to the subscriber: an announced answer in any non-empty chunks,
   * over any partial writes of which none fails, delivers one event for each line of the payload
   * that is text and not blank, in order and trimmed, and a clean end, unless the server's dictionary
   * puts the announcement last.
   */
  lemma {:induction false} ServedAnswerIsDelivered(
    tables: Tables, a: Answer, names: seq<string>, socket: Socket, chunks: seq<string>, received: string, close: Close,
    lines: seq<string>, tail: string)
    requires Carried(a) && Announced(a) && Iterates(names, AllHeaders(a)) && 200 <= a.status < 300
    requires a.response == Chunked(chunks, true) && Countable(chunks) && NonEmpty(chunks) && !Outgrows(chunks, "")
    requires forall k | 0 <= k < |names| :: names[k] in AllHeaders(a)
    requires SentOf(socket, 0, Pieces(HeadText(a, names), a.response)).0 == received
    requires NoneFails(socket, 0, SentOf(socket, 0, Pieces(HeadText(a, names), a.response)).1)
    requires Flatten(chunks) == Unlines(lines) + tail && AllLack(lines, '\n') && Lacks(tail, '\n')
    ensures names != []
    ensures var outcome := Subscription(tables, received, close);
            if names[|names| - 1] == TRANSFER_ENCODING then outcome == NotChunked
            else outcome.Streamed? && outcome.stream.end == CleanEnd && AreTheEvents(outcome.stream.events, lines)
  {
    var head := HeadText(a, names);
    AllArrivesExactly(socket, 0, Pieces(head, a.response));
    PiecesMakeTheResponse(head, a.response);
    AnnouncedIsAcceptedExactly(tables, a, names, Wire(chunks, true), close);
    WholePayload(Wire(chunks, true));
    ServedPayloadIsDelivered(chunks, [Wire(chunks, true)], close, lines, tail);
  }

  lemma WholePayload(s: string)
    ensures Flatten([s]) == s
  {
    assert [s][1..] == [];
  }

  // ---- every other outcome ----------------------------------------------------------------------------

  /** Any status but those from 200 to 299 is an error, told with the body, if the connection ends well. */
  lemma OtherStatusIsAnError(tables: Tables, a: Answer, names: seq<string>, rest: string, close: Close)
    requires Carried(a) && Iterates(names, AllHeaders(a)) && (a.status < 200 || a.status > 299)
    ensures forall k | 0 <= k < |names| :: names[k] in AllHeaders(a)
    ensures Subscription(tables, HeadText(a, names) + rest, close)
         == if close == Eof then HttpError(a.status, rest) else NoAnswer(Failed)
  {
    ClientReadsAllButTheLastField(tables, a, names);
    HeadComesFirst(a, names, rest);
  }

  /** Without a blank line there is no answer at all. */
  lemma NoHeadNoAnswer(tables: Tables, s: string, close: Close)
    requires Find(s, BLANK_LINE) == None
    ensures Subscription(tables, s, close) == NoAnswer(close)
  {
  }

  /** Otherwise the answer turns on the head: refused, an error, not a stream, or a stream. */
  lemma AnswerExactly(tables: Tables, s: string, close: Close, h: nat)
    requires HeadEndsAt(s, h)
    ensures var (parsed, outcome) := (ParseHead(tables, s[..h + 4]), Subscription(tables, s, close));
            && (outcome == HeadRefused <==> parsed == BadHead)
            && (outcome == NotChunked <==>
                  parsed.Parsed? && 200 <= parsed.status <= 299 && !SaysChunked(parsed.headers))
            && (outcome == Streamed(DeliverBody(Decode(s[h + 4..], close), "")) <==>
                  parsed.Parsed? && 200 <= parsed.status <= 299 && SaysChunked(parsed.headers))
            && (outcome == NoAnswer(Failed) <==>
                  parsed.Parsed? && !(200 <= parsed.status <= 299) && close == Failed)
            && (forall status, body :: outcome == HttpError(status, body) <==>
                  && parsed.Parsed? && parsed.status == status && !(200 <= status <= 299) && close != Failed
                  && body == s[h + 4..])
  {
    EndsThere(s, h);
  }

  /** A head is refused that is no text, or has no status, or one that is no number. */
  lemma HeadRefusedExactly(tables: Tables, head: string)
    ensures ParseHead(tables, head) == BadHead
       <==> || !ValidUtf8(head)
            || AfterFirstPiece(HeadLines(tables, head)[0], ' ') == ""
            || ParseInt(FirstPiece(AfterFirstPiece(HeadLines(tables, head)[0], ' '), ' '), 10) == None
  {
    var line := HeadLines(tables, head)[0];
    var before := FirstPieceExactly(line, ' ');
    NoDigitsNoNumber(10);
  }

  /** The fields beside the answer's own: the length of a whole body, and no keep-alive. */
  lemma SentFieldsExactly(a: Answer, name: string)
    ensures name in AllHeaders(a)
       <==> name in a.headers || name == "Connection" || (name == "Content-Length" && a.response.Whole?)
    ensures name in AllHeaders(a) ==>
              AllHeaders(a)[name]
              == if name == "Connection" then "close"
                 else if name == "Content-Length" && a.response.Whole? then Print(|a.response.body|, 10)
                 else a.headers[name]
  {
  }
}
