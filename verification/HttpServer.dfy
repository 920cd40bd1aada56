/**
 * The Unix-socket HTTP server: a request accumulated over partial reads and a
 * response pushed out over partial writes. The other side of the request is the
 * client's `sendRequest`.
 */
module HttpServer {
  import opened Wrappers
  import opened Bytes
  import opened Text
  import opened ChunkedCoding
  import opened EventStream

  datatype Head = Head(verb: string, path: string, headers: map<string, string>)

  datatype Request = Request(head: Head, body: string)

  /** `Refused` is the nil return; `Trapped` is the range error of a negative length. */
  datatype Reading = Got(request: Request) | Refused | TrappedRead

  // ---- what a byte stream says --------------------------------------------

  /** Header lines in order, a repeated name keeping its last value. */
  function Headers(lines: seq<string>): map<string, string> {
    if lines == [] then map[]
    else
      var earlier := Headers(lines[..|lines| - 1]);
      var line := lines[|lines| - 1];
      var colon := Index(line, ':');
      if colon == |line| then earlier
      else earlier[Lower(Trim(line[..colon])) := Trim(line[colon + 1..])]
  }

  function HeadOf(text: string): Option<Head> {
    if !ValidUtf8(text) then None
    else
      var lines := Lines(text);
      var verb := FirstPiece(lines[0], ' ');
      var path := FirstPiece(AfterFirstPiece(lines[0], ' '), ' ');
      if verb == "" || path == "" then None
      else Some(Head(verb, path, Headers(lines[1..])))
  }

  function ContentLength(headers: map<string, string>): int {
    if "content-length" !in headers then 0
    else
      match ParseInt(headers["content-length"], 10)
      case None => 0
      case Some(n) => n
  }

  /** The request that the bytes of a connection hold. */
  function RequestIn(s: string): Reading {
    match Find(s, BLANK_LINE)
    case None => Refused
    case Some(h) =>
      match HeadOf(s[..h])
      case None => Refused
      case Some(head) =>
        var length := ContentLength(head.headers);
        if length < 0 then TrappedRead
        else if |s| - (h + 4) < length then Refused
        else Got(Request(head, s[h + 4..h + 4 + length]))
  }

  /** A socket's receiving side: `recv` hands out these pieces and then reports the end. */
  class Peer {
    var incoming: seq<string>

    constructor (incoming: seq<string>)
      ensures this.incoming == incoming
    {
      this.incoming := incoming;
    }

    ghost predicate Valid()
      reads this
    {
      NonEmpty(incoming)
    }

    method Recv() returns (piece: string)
      requires Valid()
      modifies this
      ensures Valid()
      ensures old(incoming) == [] ==> piece == "" && incoming == []
      ensures old(incoming) != [] ==> piece == old(incoming)[0] && incoming == old(incoming)[1..]
    {
      if incoming == [] {
        return "";
      }
      piece, incoming := incoming[0], incoming[1..];
    }
  }

  /** The first loop of `readRequest`: receive until the blank line after the headers is in. */
  method ReceiveHead(peer: Peer) returns (data: string, headerEnd: Option<nat>)
    requires peer.Valid()
    modifies peer
    ensures peer.Valid() && Flatten(old(peer.incoming)) == data + Flatten(peer.incoming)
    ensures headerEnd == Find(Flatten(old(peer.incoming)), BLANK_LINE) == Find(data, BLANK_LINE)
  {
    data, headerEnd := "", None;
    while headerEnd.None?
      invariant peer.Valid() && Flatten(old(peer.incoming)) == data + Flatten(peer.incoming)
      invariant headerEnd == Find(data, BLANK_LINE)
      decreases |peer.incoming|, headerEnd.None?
    {
      var piece := peer.Recv();
      if piece == "" {
        assert data + "" == data;
        return;
      }
      data := data + piece;
      headerEnd := Find(data, BLANK_LINE);
    }
    FindExtends(data, Flatten(peer.incoming), BLANK_LINE);
  }

  /** The second loop: receive until `want` bytes are in, or report that the peer stopped early. */
  method ReceiveAtLeast(peer: Peer, received: string, want: int) returns (data: string, complete: bool)
    requires peer.Valid()
    modifies peer
    ensures complete == (want <= |received + Flatten(old(peer.incoming))|)
    ensures complete ==> want <= |data| && data <= received + Flatten(old(peer.incoming))
  {
    data := received;
    ghost var all := received + Flatten(peer.incoming);
    while |data| < want
      invariant peer.Valid() && all == data + Flatten(peer.incoming)
      decreases |peer.incoming|
    {
      var piece := peer.Recv();
      if piece == "" {
        return data, false;
      }
      data := data + piece;
    }
    return data, true;
  }

  lemma RequestFrom(s: string, h: nat, text: string, head: Head)
    requires Find(s, BLANK_LINE) == Some(h) && h + 4 <= |s| && s[..h] == text && HeadOf(text) == Some(head)
    ensures var length := ContentLength(head.headers);
            RequestIn(s) == if length < 0 then TrappedRead
                            else if |s| - (h + 4) < length then Refused
                            else Got(Request(head, s[h + 4..h + 4 + length]))
  {
  }

  /** `readRequest`: the outcome is a function of the bytes sent, however `recv` splits them. */
  method ReadRequest(peer: Peer) returns (r: Reading)
    requires peer.Valid()
    modifies peer
    ensures r == RequestIn(Flatten(old(peer.incoming)))
  {
    ghost var stream := Flatten(peer.incoming);
    var data, headerEnd := ReceiveHead(peer);
    if headerEnd.None? {
      return Refused;
    }
    var h := headerEnd.value;
    assert stream[..h] == data[..h];
    var head := HeadOf(data[..h]);
    if head.None? {
      return Refused;
    }
    RequestFrom(stream, h, data[..h], head.value);
    var bodyStart := h + 4;
    var length := ContentLength(head.value.headers);
    var complete: bool;
    data, complete := ReceiveAtLeast(peer, data, bodyStart + length);
    if !complete {
      return Refused;
    }
    if length < 0 {
      return TrappedRead;
    }
    assert stream[bodyStart..bodyStart + length] == data[bodyStart..bodyStart + length];
    return Got(Request(head.value, data[bodyStart..bodyStart + length]));
  }

  // ---- what was read, from the bytes ---------------------------------------

  /** The first colon of the line. */
  predicate ColonAt(line: string, colon: nat) {
    colon < |line| && line[colon] == ':' && Lacks(line[..colon], ':')
  }

  /** A header line says this of a name: the name before its first colon, in any case, the value after it. */
  predicate Says(line: string, name: string, value: string) {
    exists colon | 0 <= colon < |line| ::
      ColonAt(line, colon) && Lower(Trim(line[..colon])) == name && Trim(line[colon + 1..]) == value
  }

  ghost predicate Speaks(line: string, name: string) {
    exists value :: Says(line, name, value)
  }

  lemma FirstColon(line: string, colon: nat)
    ensures ColonAt(line, colon) <==> colon < |line| && colon == Index(line, ':')
  {
    assert Index(line, ':') < colon <= |line| ==> line[..colon][Index(line, ':')] == ':';
  }

  lemma SaysExactly(line: string, name: string, value: string)
    ensures var colon := Index(line, ':');
            Says(line, name, value)
            <==> colon < |line| && Lower(Trim(line[..colon])) == name && Trim(line[colon + 1..]) == value
  {
    forall i: nat ensures ColonAt(line, i) <==> i < |line| && i == Index(line, ':') {
      FirstColon(line, i);
    }
  }

  lemma SpeaksExactly(line: string, name: string)
    ensures var colon := Index(line, ':');
            Speaks(line, name) <==> colon < |line| && Lower(Trim(line[..colon])) == name
  {
    var colon := Index(line, ':');
    if Speaks(line, name) {
      var value :| Says(line, name, value);
      SaysExactly(line, name, value);
    } else if colon < |line| {
      SaysExactly(line, name, Trim(line[colon + 1..]));
    }
  }

  /** The line at `k` says this of the name, and no later line says anything of it. */
  ghost predicate SaidLast(lines: seq<string>, k: int, name: string, value: string) {
    0 <= k < |lines| && Says(lines[k], name, value) && forall j | k < j < |lines| :: !Speaks(lines[j], name)
  }

  ghost predicate IsSaid(lines: seq<string>, name: string, value: string) {
    exists k :: SaidLast(lines, k, name, value)
  }

  lemma SaidOneMore(before: seq<string>, line: string, name: string, value: string)
    ensures IsSaid(before + [line], name, value)
       <==> Says(line, name, value) || (!Speaks(line, name) && IsSaid(before, name, value))
  {
    var lines := before + [line];
    if Says(line, name, value) {
      assert SaidLast(lines, |before|, name, value);
    } else if !Speaks(line, name) && IsSaid(before, name, value) {
      var k :| SaidLast(before, k, name, value);
      assert SaidLast(lines, k, name, value);
    } else if IsSaid(lines, name, value) {
      SaidEarlier(before, line, name, value);
    }
  }

  lemma SaidEarlier(before: seq<string>, line: string, name: string, value: string)
    requires IsSaid(before + [line], name, value) && !Says(line, name, value)
    ensures !Speaks(line, name) && IsSaid(before, name, value)
  {
    var lines := before + [line];
    var k :| SaidLast(lines, k, name, value);
    assert lines[|before|] == line;
    forall j | k < j < |before| ensures !Speaks(before[j], name) {
      assert before[j] == lines[j];
    }
    assert SaidLast(before, k, name, value);
  }

  /** The headers are what the lines say, the last one of a name counting; lines without a colon say nothing. */
  lemma {:induction false} HeadersExactly(lines: seq<string>, name: string, value: string)
    ensures name in Headers(lines) && Headers(lines)[name] == value <==> IsSaid(lines, name, value)
  {
    if lines != [] {
      var n := |lines| - 1;
      HeadersExactly(lines[..n], name, value);
      SaysExactly(lines[n], name, value);
      SpeaksExactly(lines[n], name);
      assert lines == lines[..n] + [lines[n]];
      SaidOneMore(lines[..n], lines[n], name, value);
    }
  }

  /** A head is text whose first line has two words at least, between spaces. */
  lemma HeadExactly(text: string, head: Head)
    ensures HeadOf(text) == Some(head)
       <==> && ValidUtf8(text) && head.verb != "" && head.path != ""
            && head.verb == FirstPiece(Lines(text)[0], ' ')
            && head.path == FirstPiece(AfterFirstPiece(Lines(text)[0], ' '), ' ')
            && head.headers == Headers(Lines(text)[1..])
  {
  }

  /** The length announced; none, or one that is no number, is none of it. */
  lemma LengthExactly(headers: map<string, string>)
    ensures "content-length" !in headers ==> ContentLength(headers) == 0
    ensures "content-length" in headers ==>
              var number := ParseInt(headers["content-length"], 10);
              ContentLength(headers) == if number.Some? then number.value else 0
  {
  }

  /** The head ends at the first blank line. */
  predicate HeadEndsAt(s: string, h: nat) {
    OccursAt(s, "\r\n\r\n", h) && forall j: nat | j < h :: !OccursAt(s, "\r\n\r\n", j)
  }

  lemma EndsThere(s: string, h: nat)
    ensures HeadEndsAt(s, h) <==> Find(s, BLANK_LINE) == Some(h)
  {
    if HeadEndsAt(s, h) {
      FindIs(s, BLANK_LINE, h);
    }
  }

  /** What a connection's bytes hold, and when they hold no request: the whole of it. */
  lemma ReadingExactly(s: string, request: Request)
    ensures RequestIn(s) == Got(request)
       <==> exists h: nat :: && HeadEndsAt(s, h) && HeadOf(s[..h]) == Some(request.head)
                             && ContentLength(request.head.headers) == |request.body|
                             && request.body <= s[h + 4..]
    ensures RequestIn(s) == TrappedRead
       <==> exists h: nat :: && HeadEndsAt(s, h) && HeadOf(s[..h]).Some?
                             && ContentLength(HeadOf(s[..h]).value.headers) < 0
  {
    match Find(s, BLANK_LINE)
    case None =>
      forall h: nat ensures !HeadEndsAt(s, h) {
        EndsThere(s, h);
      }
    case Some(h) =>
      forall j: nat ensures HeadEndsAt(s, j) <==> j == h {
        EndsThere(s, j);
      }
      if HeadOf(s[..h]).Some? {
        RequestFrom(s, h, s[..h], HeadOf(s[..h]).value);
      }
  }

  // ---- the client's side of the request -----------------------------------

  function Field(name: string, value: string): string {
    name + ": " + value
  }

  /** The lines of the head `sendRequest` writes for a request. */
  function RequestLines(verb: string, path: string, body: Option<string>): seq<string> {
    [verb + " " + path + " HTTP/1.1"] + FieldLines(body)
  }

  function FieldLines(body: Option<string>): seq<string> {
    var always := [Field("Host", "localhost"), Field("Connection", "close")];
    match body
    case None => always
    case Some(b) => always + [Field("Content-Type", "application/json"), Field("Content-Length", Print(|b|, 10))]
  }

  /** The bytes `sendRequest` hands to the connection. */
  function RequestBytes(verb: string, path: string, body: Option<string>): string {
    Join(RequestLines(verb, path, body)) + BLANK_LINE + if body.Some? then body.value else ""
  }

  /** A verb or path the request line can carry: non-empty ASCII with no space, control or line break in it. */
  predicate IsToken(s: string) {
    s != "" && forall k | 0 <= k < |s| :: '!' <= s[k] <= '~'
  }

  function SentHeaders(body: Option<string>): map<string, string> {
    var always := map["host" := "localhost", "connection" := "close"];
    match body
    case None => always
    case Some(b) => always["content-type" := "application/json"]["content-length" := Print(|b|, 10)]
  }

  lemma FieldIsPrintable(name: string, value: string)
    requires Printable(name) && Printable(value)
    ensures Printable(Field(name, value)) && Field(name, value) != ""
  {
  }

  lemma RequestLinesArePrintable(verb: string, path: string, body: Option<string>)
    requires IsToken(verb) && IsToken(path)
    ensures forall line | line in RequestLines(verb, path, body) :: line != "" && Printable(line)
  {
    assert Printable(verb + " " + path + " HTTP/1.1") by {
      assert Printable(" ") && Printable(" HTTP/1.1");
    }
    FieldIsPrintable("Host", "localhost");
    FieldIsPrintable("Connection", "close");
    if body.Some? {
      FieldIsPrintable("Content-Type", "application/json");
      FieldIsPrintable("Content-Length", Print(|body.value|, 10));
    }
  }

  lemma {:induction false} JoinedLinesAreAscii(lines: seq<string>)
    requires |lines| > 0 && forall line | line in lines :: Printable(line)
    ensures AllLack(lines, '\r') && Ascii(Join(lines))
  {
    assert forall k | 0 <= k < |lines| :: lines[k] in lines;
    if |lines| > 1 {
      JoinedLinesAreAscii(lines[1..]);
    }
  }

  lemma TokenIsFirstPiece(token: string, rest: string)
    requires IsToken(token)
    ensures FirstPiece(token + [' '] + rest, ' ') == token
    ensures AfterFirstPiece(token + [' '] + rest, ' ') == [' '] + rest
  {
    var line := token + [' '] + rest;
    assert line[0] == token[0];
    assert Past(line, ' ') == line;
    UpToEnd(token, ' ', rest);
    assert line[|token|..] == [' '] + rest;
  }

  lemma LeadingSpaceIsDropped(token: string, rest: string)
    requires IsToken(token)
    ensures FirstPiece([' '] + (token + [' '] + rest), ' ') == token
  {
    var line := token + [' '] + rest;
    var spaced := [' '] + line;
    assert spaced[0] == ' ' && spaced[1..] == line && line[0] == token[0];
    assert Past(line, ' ') == line && Past(spaced, ' ') == Past(line, ' ');
    TokenIsFirstPiece(token, rest);
  }

  lemma RequestLineParses(verb: string, path: string)
    requires IsToken(verb) && IsToken(path)
    ensures var line := verb + " " + path + " HTTP/1.1";
            FirstPiece(line, ' ') == verb && FirstPiece(AfterFirstPiece(line, ' '), ' ') == path
  {
    var rest := path + [' '] + "HTTP/1.1";
    assert verb + " " + path + " HTTP/1.1" == verb + [' '] + rest;
    TokenIsFirstPiece(verb, rest);
    LeadingSpaceIsDropped(path, "HTTP/1.1");
  }

  predicate FieldName(name: string) {
    IsToken(name) && Lacks(name, ':')
  }

  lemma TrimSpaced(value: string)
    ensures Trim(" " + value) == Trim(value)
  {
    assert (" " + value)[1..] == value;
  }

  lemma FieldAtColon(name: string, value: string)
    requires Lacks(name, ':')
    ensures var line := Field(name, value);
            Index(line, ':') == |name| < |line| && line[..|name|] == name && line[|name| + 1..] == " " + value
  {
    var line := Field(name, value);
    assert line[|name|] == ':' && forall k | 0 <= k < |name| :: line[k] == name[k];
  }

  lemma HeadersOneMore(lines: seq<string>, line: string)
    requires Index(line, ':') < |line|
    ensures var colon := Index(line, ':');
            Headers(lines + [line]) == Headers(lines)[Lower(Trim(line[..colon])) := Trim(line[colon + 1..])]
  {
    assert (lines + [line])[..|lines|] == lines;
  }

  /** One header line, added after the others. */
  lemma FieldParses(lines: seq<string>, name: string, value: string)
    requires FieldName(name)
    ensures Headers(lines + [Field(name, value)]) == Headers(lines)[Lower(name) := Trim(value)]
  {
    FieldAtColon(name, value);
    HeadersOneMore(lines, Field(name, value));
    TrimSpaced(value);
  }

  lemma NamesInLowerCase()
    ensures Lower("Host") == "host" && Lower("Connection") == "connection"
  {
  }

  lemma ContentNamesInLowerCase()
    ensures Lower("Content-Type") == "content-type" && Lower("Content-Length") == "content-length"
  {
  }

  lemma NamesAreTokens()
    ensures FieldName("Host") && IsToken("localhost") && FieldName("Connection") && IsToken("close")
  {
  }

  lemma ContentNamesAreTokens()
    ensures FieldName("Content-Type") && IsToken("application/json") && FieldName("Content-Length")
  {
  }

  lemma HeadersOfNone()
    ensures Headers([]) == map[]
  {
  }

  lemma TwoHeaders(lines: seq<string>, name1: string, value1: string, name2: string, value2: string)
    requires FieldName(name1) && IsToken(value1) && FieldName(name2) && IsToken(value2)
    ensures Headers(lines + [Field(name1, value1), Field(name2, value2)])
         == Headers(lines)[Lower(name1) := value1][Lower(name2) := value2]
  {
    var field1, field2 := Field(name1, value1), Field(name2, value2);
    FieldParses(lines, name1, value1);
    FieldParses(lines + [field1], name2, value2);
    assert lines + [field1, field2] == lines + [field1] + [field2];
  }

  lemma SentHeadersParse(body: Option<string>)
    ensures Headers(FieldLines(body)) == SentHeaders(body)
  {
    NamesAreTokens();
    NamesInLowerCase();
    HeadersOfNone();
    TwoHeaders([], "Host", "localhost", "Connection", "close");
    assert FieldLines(None) == [] + [Field("Host", "localhost"), Field("Connection", "close")];
    match body
    case None =>
    case Some(b) =>
      ContentNamesAreTokens();
      ContentNamesInLowerCase();
      TwoHeaders(FieldLines(None), "Content-Type", "application/json", "Content-Length", Print(|b|, 10));
  }

  lemma SentLengthParses(body: Option<string>)
    requires body.Some? ==> |body.value| < INT_LIMIT
    ensures ContentLength(SentHeaders(body)) == if body.Some? then |body.value| else 0
  {
    if body.Some? {
      ParseOfPrint(|body.value|, 10);
    }
  }

  lemma SentHeadParses(verb: string, path: string, body: Option<string>)
    requires IsToken(verb) && IsToken(path)
    ensures HeadOf(Join(RequestLines(verb, path, body))) == Some(Head(verb, path, SentHeaders(body)))
  {
    var lines := RequestLines(verb, path, body);
    RequestLinesArePrintable(verb, path, body);
    JoinedLinesAreAscii(lines);
    AsciiIsUtf8(Join(lines));
    LinesOfJoin(lines);
    RequestLineParses(verb, path);
    SentHeadersParse(body);
    assert lines[1..] == FieldLines(body);
  }

  lemma SentStream(verb: string, path: string, body: Option<string>, more: string)
    requires IsToken(verb) && IsToken(path)
    ensures var (s, h) := (RequestBytes(verb, path, body) + more, |Join(RequestLines(verb, path, body))|);
            && Find(s, BLANK_LINE) == Some(h) && h + 4 <= |s|
            && s[..h] == Join(RequestLines(verb, path, body))
            && s[h + 4..] == (if body.Some? then body.value else "") + more
  {
    var lines := RequestLines(verb, path, body);
    var payload := if body.Some? then body.value else "";
    RequestLinesArePrintable(verb, path, body);
    JoinedLinesAreAscii(lines);
    assert RequestBytes(verb, path, body) + more == Join(lines) + BLANK_LINE + (payload + more);
    BlankLineAfter(lines, payload + more);
  }

  lemma BodyFrom(s: string, h: nat, text: string, head: Head, body: string, more: string)
    requires Find(s, BLANK_LINE) == Some(h) && h + 4 <= |s| && s[..h] == text && s[h + 4..] == body + more
    requires HeadOf(text) == Some(head) && ContentLength(head.headers) == |body|
    ensures RequestIn(s) == Got(Request(head, body))
  {
    RequestFrom(s, h, text, head);
    assert s[h + 4..h + 4 + |body|] == s[h + 4..][..|body|] == body;
  }

  /**
   * The round trip between the two ends: whatever a client sends, the server reads back the
   * same verb, path, headers and body, and nothing of what follows on the connection.
   */
  lemma ServerReadsWhatClientSent(verb: string, path: string, body: Option<string>, more: string)
    requires IsToken(verb) && IsToken(path) && (body.Some? ==> |body.value| < INT_LIMIT)
    ensures RequestIn(RequestBytes(verb, path, body) + more)
         == Got(Request(Head(verb, path, SentHeaders(body)), if body.Some? then body.value else ""))
  {
    var text := Join(RequestLines(verb, path, body));
    SentStream(verb, path, body, more);
    SentHeadParses(verb, path, body);
    SentLengthParses(body);
    BodyFrom(RequestBytes(verb, path, body) + more, |text|, text, Head(verb, path, SentHeaders(body)),
             if body.Some? then body.value else "", more);
  }

  lemma CutInHead(s: string, h: nat, k: nat)
    requires k <= |s| && Find(s, BLANK_LINE) == Some(h) && k < h + 4
    ensures Find(s[..k], BLANK_LINE) == None
  {
    forall j: nat ensures !OccursAt(s[..k], BLANK_LINE, j) {
      assert j + 4 <= k ==> s[..k][j..j + 4] == s[j..j + 4];
      assert j < h ==> !OccursAt(s, BLANK_LINE, j);
    }
  }

  lemma CutAfterHead(s: string, h: nat, k: nat)
    requires h + 4 <= k <= |s| && Find(s, BLANK_LINE) == Some(h)
    ensures Find(s[..k], BLANK_LINE) == Some(h) && s[..k][..h] == s[..h]
  {
    var cut := s[..k];
    assert cut[h..h + 4] == s[h..h + 4];
    forall j: nat | j < h ensures !OccursAt(cut, BLANK_LINE, j) {
      assert cut[j..j + 4] == s[j..j + 4];
      assert !OccursAt(s, BLANK_LINE, j);
    }
    FindIs(cut, BLANK_LINE, h);
  }

  /** A request cut short of its last byte is refused, never misread. */
  lemma CutRequestIsRefused(s: string, k: nat)
    requires k <= |s| && RequestIn(s).Got?
    ensures var h := Find(s, BLANK_LINE).value;
            var needed := h + 4 + |RequestIn(s).request.body|;
            RequestIn(s[..k]) == if k < needed then Refused else RequestIn(s)
  {
    var h := Find(s, BLANK_LINE).value;
    if k < h + 4 {
      CutInHead(s, h, k);
    } else {
      CutAfterHead(s, h, k);
      var head := HeadOf(s[..h]).value;
      RequestFrom(s, h, s[..h], head);
      RequestFrom(s[..k], h, s[..h], head);
      var length := ContentLength(head.headers);
      assert k >= h + 4 + length ==> s[..k][h + 4..h + 4 + length] == s[h + 4..h + 4 + length];
    }
  }

  // ---- writing a response --------------------------------------------------

  /** What each `write` of a socket will accept: zero or less is a failed write. */
  type Socket = nat -> int

  /** How many of so many bytes go out, and the number of the next write; a failed write ends the attempt. */
  function Accepted(socket: Socket, k: nat, length: nat): (r: (nat, nat))
    ensures r.0 <= length && r.1 >= k
    decreases length
  {
    if length == 0 then (0, k)
    else if socket(k) <= 0 then (0, k + 1)
    else
      var n := if socket(k) > length then length else socket(k);
      var (later, k') := Accepted(socket, k + 1, length - n);
      (n + later, k')
  }

  /** What the peer receives when these pieces are written one after the other, each as far as it gets. */
  function SentOf(socket: Socket, k: nat, pieces: seq<string>): (r: (string, nat))
    ensures r.1 >= k
    decreases |pieces|
  {
    if pieces == [] then ("", k)
    else
      var n := |pieces| - 1;
      var (before, k') := SentOf(socket, k, pieces[..n]);
      var (count, k'') := Accepted(socket, k', |pieces[n]|);
      (before + pieces[n][..count], k'')
  }

  datatype Response = Whole(body: string) | Chunked(chunks: seq<string>, terminate: bool)

  function Payload(response: Response): string {
    match response
    case Whole(body) => body
    case Chunked(chunks, terminate) => Wire(chunks, terminate)
  }

  function ChunkPieces(chunks: seq<string>): seq<string> {
    if chunks == [] then []
    else
      var n := |chunks| - 1;
      ChunkPieces(chunks[..n]) + [Print(|chunks[n]|, 16), CRLF, chunks[n], CRLF]
  }

  /** The pieces `writeResponse` writes, in order. */
  function Pieces(head: string, response: Response): seq<string> {
    match response
    case Whole(body) => [head, body]
    case Chunked(chunks, terminate) => [head] + ChunkPieces(chunks) + if terminate then [TERMINATOR] else []
  }

  lemma {:induction false} FlattenConcat(a: seq<string>, b: seq<string>)
    ensures Flatten(a + b) == Flatten(a) + Flatten(b)
  {
    if a == [] {
      assert a + b == b;
    } else {
      var all := a + b;
      assert all[1..] == a[1..] + b && all[0] == a[0];
      FlattenConcat(a[1..], b);
      SeqAssociates(a[0], Flatten(a[1..]), Flatten(b));
    }
  }

  lemma FlattenOneMore(pieces: seq<string>, piece: string)
    ensures Flatten(pieces + [piece]) == Flatten(pieces) + piece
  {
    FlattenConcat(pieces, [piece]);
    assert [piece][1..] == [];
  }

  lemma {:induction false} FramesOfOneMore(chunks: seq<string>, chunk: string)
    ensures Frames(chunks + [chunk]) == Frames(chunks) + Frame(chunk)
  {
    var all := chunks + [chunk];
    assert all != [] && Frames(all) == Frame(all[0]) + Frames(all[1..]);
    if chunks == [] {
      assert all[1..] == [] && all[0] == chunk;
    } else {
      assert all[1..] == chunks[1..] + [chunk] && all[0] == chunks[0];
      FramesOfOneMore(chunks[1..], chunk);
      SeqAssociates(Frame(chunks[0]), Frames(chunks[1..]), Frame(chunk));
    }
  }

  lemma FourPieces(a: string, b: string, c: string, d: string)
    ensures Flatten([a, b, c, d]) == a + b + c + d
  {
    FlattenOneMore([a, b, c], d);
    FlattenOneMore([a, b], c);
    FlattenOneMore([a], b);
    FlattenOneMore([], a);
    assert [a, b, c] + [d] == [a, b, c, d] && [a, b] + [c] == [a, b, c];
    assert [a] + [b] == [a, b] && [] + [a] == [a];
  }

  lemma {:induction false} ChunkPiecesAreFrames(chunks: seq<string>)
    ensures Flatten(ChunkPieces(chunks)) == Frames(chunks)
  {
    if chunks != [] {
      var n := |chunks| - 1;
      ChunkPiecesAreFrames(chunks[..n]);
      FourPieces(Print(|chunks[n]|, 16), CRLF, chunks[n], CRLF);
      FlattenConcat(ChunkPieces(chunks[..n]), [Print(|chunks[n]|, 16), CRLF, chunks[n], CRLF]);
      FramesOfOneMore(chunks[..n], chunks[n]);
      assert chunks == chunks[..n] + [chunks[n]];
    }
  }

  /** All the pieces together are the head and the payload, chunked coding and all. */
  lemma PiecesMakeTheResponse(head: string, response: Response)
    ensures Flatten(Pieces(head, response)) == head + Payload(response)
  {
    FlattenOneMore([], head);
    assert [] + [head] == [head];
    match response {
      case Whole(body) =>
        FlattenOneMore([head], body);
        assert [head] + [body] == [head, body];
      case Chunked(chunks, terminate) =>
        FlattenConcat([head], ChunkPieces(chunks));
        ChunkPiecesAreFrames(chunks);
        var framed := [head] + ChunkPieces(chunks);
        assert Flatten(framed) == head + Frames(chunks);
        FlattenOneMore(framed, TERMINATOR);
        SeqAssociates(head, Frames(chunks), TERMINATOR);
        assert framed + [] == framed && Frames(chunks) + "" == Frames(chunks);
    }
  }

  /** No write of those numbered `k` up to `k'` fails. */
  ghost predicate NoneFails(socket: Socket, k: nat, k': nat) {
    forall j: nat | k <= j < k' :: socket(j) > 0
  }

  /** One `writeAll`: everything goes out exactly when none of its writes fails; at most the last one does. */
  lemma {:induction false} AcceptedFully(socket: Socket, k: nat, length: nat)
    ensures var (count, k') := Accepted(socket, k, length);
            && (count == length <==> NoneFails(socket, k, k'))
            && (k' > k ==> NoneFails(socket, k, k' - 1))
    decreases length
  {
    if length > 0 && socket(k) > 0 {
      var n := if socket(k) > length then length else socket(k);
      AcceptedFully(socket, k + 1, length - n);
    }
  }

  /** The whole response arrives if and only if no write fails. */
  lemma {:induction false} AllArrivesExactly(socket: Socket, k: nat, pieces: seq<string>)
    ensures var (sent, k') := SentOf(socket, k, pieces);
            && |sent| <= |Flatten(pieces)|
            && (NoneFails(socket, k, k') ==> sent == Flatten(pieces))
            && (|sent| == |Flatten(pieces)| ==> NoneFails(socket, k, k'))
    decreases |pieces|
  {
    if pieces != [] {
      var n := |pieces| - 1;
      var (before, k') := SentOf(socket, k, pieces[..n]);
      AllArrivesExactly(socket, k, pieces[..n]);
      AcceptedFully(socket, k', |pieces[n]|);
      FlattenOneMore(pieces[..n], pieces[n]);
      assert pieces == pieces[..n] + [pieces[n]];
      assert pieces[n][..|pieces[n]|] == pieces[n];
    }
  }

  /** A failed write means the peer is gone: every later write fails as well. */
  ghost predicate FailsForGood(socket: Socket) {
    forall j: nat, k: nat | j < k && socket(j) <= 0 :: socket(k) <= 0
  }

  /** One more piece after a prefix: nothing of it if the peer is gone, else a prefix of it. */
  lemma PrefixOfOneMore(sent: string, asked: string, piece: string, count: nat)
    requires sent <= asked && count <= |piece| && (sent == asked || count == 0)
    ensures sent + piece[..count] <= asked + piece
  {
  }

  lemma {:induction false} PrefixArrives(socket: Socket, k: nat, pieces: seq<string>)
    requires FailsForGood(socket)
    ensures SentOf(socket, k, pieces).0 <= Flatten(pieces)
    ensures NoneFails(socket, k, SentOf(socket, k, pieces).1) || socket(SentOf(socket, k, pieces).1) <= 0
    decreases |pieces|
  {
    if pieces != [] {
      var n := |pieces| - 1;
      var (sent, k') := SentOf(socket, k, pieces[..n]);
      var (count, k'') := Accepted(socket, k', |pieces[n]|);
      PrefixArrives(socket, k, pieces[..n]);
      AllArrivesExactly(socket, k, pieces[..n]);
      AcceptedFully(socket, k', |pieces[n]|);
      FlattenOneMore(pieces[..n], pieces[n]);
      assert pieces == pieces[..n] + [pieces[n]];
      PrefixOfOneMore(sent, Flatten(pieces[..n]), pieces[n], count);
    }
  }

  ghost predicate OnlyPrefixes(socket: Socket) {
    forall k: nat, pieces: seq<string> :: SentOf(socket, k, pieces).0 <= Flatten(pieces)
  }

  lemma {:induction false} Recovers(socket: Socket, j: nat, k: nat) returns (i: nat)
    requires j < k && socket(j) <= 0 && socket(k) > 0
    ensures socket(i) <= 0 && socket(i + 1) > 0
    decreases k - j
  {
    if socket(j + 1) > 0 {
      i := j;
    } else {
      i := Recovers(socket, j + 1, k);
    }
  }

  /**
   * `writeResponse` goes on to the next piece after a failed `writeAll`. So what the peer
   * receives is always a prefix of the response if and only if failed writes are final.
   */
  lemma PrefixExactlyWhenFailuresAreFinal(socket: Socket)
    ensures OnlyPrefixes(socket) <==> FailsForGood(socket)
  {
    if FailsForGood(socket) {
      forall k: nat, pieces: seq<string> ensures SentOf(socket, k, pieces).0 <= Flatten(pieces) {
        PrefixArrives(socket, k, pieces);
      }
    } else {
      var j: nat, k: nat :| j < k && socket(j) <= 0 && socket(k) > 0;
      var i := Recovers(socket, j, k);
      LostThenSent(socket, i);
      assert !(SentOf(socket, i, ["a", "b"]).0 <= Flatten(["a", "b"]));
    }
  }

  /** A piece lost to a failed write, and the next one sent after all. */
  lemma LostThenSent(socket: Socket, i: nat)
    requires socket(i) <= 0 && socket(i + 1) > 0
    ensures !(SentOf(socket, i, ["a", "b"]).0 <= Flatten(["a", "b"]))
  {
    var one, two := ["a"], ["a", "b"];
    assert one[..0] == [] && two[..1] == one && two[1] == "b" && one[0] == "a";
    assert Accepted(socket, i, 1) == (0, i + 1);
    assert SentOf(socket, i, []) == ("", i);
    assert SentOf(socket, i, one) == ("" + "a"[..0], i + 1);
    assert Accepted(socket, i + 1, 1) == (1, i + 2);
    assert SentOf(socket, i, two).0 == ("" + "a"[..0]) + "b"[..1];
    FlattenOneMore(one, "b");
    FlattenOneMore([], "a");
    assert one + ["b"] == two && [] + ["a"] == one;
    var got, asked := "b", "ab";
    assert SentOf(socket, i, two).0 == got && Flatten(two) == asked;
    assert got[0] != asked[0];
  }

  /** A socket's sending side, and what has reached the peer. */
  class Outlet {
    var sent: string
    var writes: nat
    const socket: Socket

    constructor (socket: Socket)
      ensures sent == "" && writes == 0 && this.socket == socket
    {
      this.sent, this.writes, this.socket := "", 0, socket;
    }

    method Write(data: string) returns (n: int)
      requires data != ""
      modifies this
      ensures writes == old(writes) + 1
      ensures n == if socket(old(writes)) > |data| then |data| else socket(old(writes))
      ensures sent == if n <= 0 then old(sent) else old(sent) + data[..n]
    {
      n := if socket(writes) > |data| then |data| else socket(writes);
      writes := writes + 1;
      if n > 0 {
        sent := sent + data[..n];
      }
    }
  }

  lemma OneWrite(data: string, sent: nat, n: nat, prior: string)
    requires sent + n <= |data|
    ensures prior + data[..sent] + data[sent..][..n] == prior + data[..sent + n]
  {
    assert data[..sent] + data[sent..][..n] == data[..sent + n];
    SeqAssociates(prior, data[..sent], data[sent..][..n]);
  }

  /** With `sent` bytes out, what becomes of all `length` of them. */
  ghost predicate Foretold(all: (nat, nat), socket: Socket, k: nat, sent: nat, length: nat) {
    && sent <= length
    && all == (sent + Accepted(socket, k, length - sent).0, Accepted(socket, k, length - sent).1)
  }

  lemma ForetoldStep(all: (nat, nat), socket: Socket, k: nat, sent: nat, length: nat, n: int)
    requires Foretold(all, socket, k, sent, length) && sent < length
    requires n == if socket(k) > length - sent then length - sent else socket(k)
    ensures n <= 0 ==> all == (sent, k + 1)
    ensures n > 0 ==> Foretold(all, socket, k + 1, sent + n, length)
  {
  }

  /** `writeAll`. */
  method WriteAll(out: Outlet, data: string)
    modifies out
    ensures out.writes == Accepted(out.socket, old(out.writes), |data|).1
    ensures out.sent == old(out.sent) + data[..Accepted(out.socket, old(out.writes), |data|).0]
  {
    var sent := 0;
    ghost var prior, all := out.sent, Accepted(out.socket, out.writes, |data|);
    assert prior + data[..0] == prior;
    while sent < |data|
      invariant 0 <= sent <= |data| && out.sent == prior + data[..sent]
      invariant Foretold(all, out.socket, out.writes, sent, |data|)
    {
      ghost var k := out.writes;
      var n := out.Write(data[sent..]);
      ForetoldStep(all, out.socket, k, sent, |data|, n);
      if n <= 0 {
        return;
      }
      OneWrite(data, sent, n, prior);
      sent := sent + n;
    }
  }

  /** Where a response stands once these pieces have been handed to `writeAll`. */
  ghost predicate Handed(out: Outlet, before: string, k: nat, pieces: seq<string>)
    reads out
  {
    var (sent, k') := SentOf(out.socket, k, pieces);
    out.sent == before + sent && out.writes == k'
  }

  method Push(out: Outlet, piece: string, ghost before: string, ghost k: nat, ghost pieces: seq<string>)
    requires Handed(out, before, k, pieces)
    modifies out
    ensures Handed(out, before, k, pieces + [piece])
  {
    WriteAll(out, piece);
    assert (pieces + [piece])[..|pieces|] == pieces;
  }

  /** The four writes that make up one chunk. */
  method PushChunk(out: Outlet, chunk: string, ghost before: string, ghost k: nat, ghost pieces: seq<string>)
    requires Handed(out, before, k, pieces)
    modifies out
    ensures Handed(out, before, k, pieces + [Print(|chunk|, 16), CRLF, chunk, CRLF])
  {
    var size := Print(|chunk|, 16);
    Push(out, size, before, k, pieces);
    Push(out, CRLF, before, k, pieces + [size]);
    Push(out, chunk, before, k, pieces + [size] + [CRLF]);
    Push(out, CRLF, before, k, pieces + [size] + [CRLF] + [chunk]);
    assert pieces + [size] + [CRLF] + [chunk] + [CRLF] == pieces + [size, CRLF, chunk, CRLF];
  }

  /** `writeResponse`: over partial and failed writes, the peer receives what `SentOf` says of its pieces. */
  method WriteResponse(out: Outlet, head: string, response: Response)
    modifies out
    ensures Handed(out, old(out.sent), old(out.writes), Pieces(head, response))
  {
    ghost var before, k := out.sent, out.writes;
    assert before + "" == before;
    Push(out, head, before, k, []);
    assert [] + [head] == [head];
    match response {
      case Whole(body) =>
        Push(out, body, before, k, [head]);
        assert [head] + [body] == [head, body];
      case Chunked(chunks, terminate) =>
        var i := 0;
        while i < |chunks|
          invariant 0 <= i <= |chunks|
          invariant Handed(out, before, k, [head] + ChunkPieces(chunks[..i]))
        {
          var chunk := chunks[i];
          PushChunk(out, chunk, before, k, [head] + ChunkPieces(chunks[..i]));
          assert chunks[..i + 1][..i] == chunks[..i];
          assert [head] + ChunkPieces(chunks[..i]) + [Print(|chunk|, 16), CRLF, chunk, CRLF]
              == [head] + ChunkPieces(chunks[..i + 1]);
          i := i + 1;
        }
        assert chunks[..i] == chunks;
        if terminate {
          Push(out, TERMINATOR, before, k, [head] + ChunkPieces(chunks));
        }
        assert [head] + ChunkPieces(chunks) + [] == [head] + ChunkPieces(chunks);
    }
  }
}
