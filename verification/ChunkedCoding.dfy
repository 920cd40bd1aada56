/**
 * Chunked transfer coding (section 7.1 of RFC 9112) as one byte string: what the
 * server puts on the wire, and what the client makes of any bytes at all.
 */
module ChunkedCoding {
  import opened Wrappers
  import opened Bytes
  import opened Text

  /** How a connection ends once its bytes are used up. */
  datatype Close = Eof | Failed

  /** How decoding a stream ends. `Trapped` is the range error of a negative chunk size. */
  datatype End =
    | CleanEnd
    | Dropped(how: Close)
    | BadLength
    | BadTerminator
    | Trapped
    | LineTooLong

  datatype Decoded = Decoded(chunks: seq<string>, end: End)

  const TERMINATOR := "0\r\n\r\n"

  function Frame(chunk: string): string {
    Print(|chunk|, 16) + CRLF + chunk + CRLF
  }

  function Frames(chunks: seq<string>): string {
    if chunks == [] then "" else Frame(chunks[0]) + Frames(chunks[1..])
  }

  /** The body `writeResponse` sends when no write fails. */
  function Wire(chunks: seq<string>, terminate: bool): string {
    Frames(chunks) + if terminate then TERMINATOR else ""
  }

  /** The size on a chunk's first line: before any `;`, trimmed, in hexadecimal. */
  function ChunkSize(line: string): Option<int> {
    if ValidUtf8(line) then ParseInt(Trim(FirstPiece(line, ';')), 16) else None
  }

  /** What the client's read loop makes of the bytes `s` of a connection that then ends with `close`. */
  function Decode(s: string, close: Close): Decoded
    decreases |s|
  {
    match Find(s, CRLF)
    case None => Decoded([], Dropped(close))
    case Some(i) =>
      var rest := s[i + 2..];
      match ChunkSize(s[..i])
      case None => Decoded([], BadLength)
      case Some(n) =>
        // The blank line after the last chunk is read but its absence is forgiven.
        if n == 0 then Decoded([], CleanEnd)
        else if n < 0 then Decoded([], Trapped)
        else if |rest| < n + 2 then Decoded([], Dropped(close))
        else if rest[n..n + 2] != CRLF then Decoded([], BadTerminator)
        else
          var later := Decode(rest[n + 2..], close);
          Decoded([rest[..n]] + later.chunks, later.end)
  }

  /** A chunk with a line break left out of its first line. */
  lemma DecodeByLine(line: string, rest: string, close: Close)
    requires Lacks(line, '\r')
    ensures var d := Decode(line + CRLF + rest, close);
            match ChunkSize(line)
            case None => d == Decoded([], BadLength)
            case Some(n) =>
              if n == 0 then d == Decoded([], CleanEnd)
              else if n < 0 then d == Decoded([], Trapped)
              else if |rest| < n then d == Decoded([], Dropped(close))
              else if |rest| < n + 2 then d == Decoded([], Dropped(close))
              else if rest[n] != '\r' || rest[n + 1] != '\n' then d == Decoded([], BadTerminator)
              else d.chunks == [rest[..n]] + Decode(rest[n + 2..], close).chunks
                   && d.end == Decode(rest[n + 2..], close).end
  {
    var s := line + CRLF + rest;
    FindAfter(line, CRLF, rest);
    assert s[..|line|] == line && s[|line| + 2..] == rest;
    var size := ChunkSize(line);
    if size.Some? && size.value > 0 && |rest| >= size.value + 2 {
      var end := rest[size.value..size.value + 2];
      assert end == [rest[size.value], rest[size.value + 1]] && CRLF == ['\r', '\n'];
    }
  }

  /** Without any line break the connection was dropped. */
  lemma DecodeWithoutBreak(s: string, close: Close)
    requires Lacks(s, '\r')
    ensures Decode(s, close) == Decoded([], Dropped(close))
  {
    LacksCrlf(s);
  }

  /** A size is a hexadecimal integer, white space around it and anything after a semicolon ignored. */
  lemma ChunkSizeExactly(size: string, extension: string)
    requires Lacks(size, ';') && size != "" && Ascii(size) && Ascii(extension)
    ensures ChunkSize(size) == ChunkSize(size + ";" + extension) == ParseInt(Trim(size), 16)
  {
    var with := size + [';'] + extension;
    AsciiIsUtf8(size);
    AsciiIsUtf8(with);
    UpToEnd(size, ';', extension);
    assert size[0] != ';' && Past(size, ';') == size && with[0] == size[0] && Past(with, ';') == with;
    assert size + ";" + extension == with;
  }

  lemma UndecodableSize(line: string)
    requires !ValidUtf8(line)
    ensures ChunkSize(line) == None
  {
  }

  // A byte count is a Swift Int.
  predicate Countable(chunks: seq<string>) {
    forall k | 0 <= k < |chunks| :: |chunks[k]| < INT_LIMIT
  }

  predicate NonEmpty(chunks: seq<string>) {
    forall k | 0 <= k < |chunks| :: chunks[k] != ""
  }

  lemma SizeLine(chunk: string)
    requires |chunk| < INT_LIMIT
    ensures ChunkSize(Print(|chunk|, 16)) == Some(|chunk|)
    ensures Lacks(Print(|chunk|, 16), '\r')
  {
    var digits := Print(|chunk|, 16);
    AsciiIsUtf8(digits);
    assert digits[0] != ';';
    UpToEnd(digits, ';', "");
    assert Trim(digits) == digits;
    ParseOfPrint(|chunk|, 16);
  }

  /** A non-empty frame decodes to its chunk, and decoding goes on with whatever follows it. */
  lemma DecodeFrame(chunk: string, rest: string, close: Close)
    requires 0 < |chunk| < INT_LIMIT
    ensures Decode(Frame(chunk) + rest, close).chunks == [chunk] + Decode(rest, close).chunks
    ensures Decode(Frame(chunk) + rest, close).end == Decode(rest, close).end
  {
    var digits := Print(|chunk|, 16);
    var s := Frame(chunk) + rest;
    SizeLine(chunk);
    var body := chunk + CRLF + rest;
    assert s == digits + CRLF + body;
    FindAfter(digits, CRLF, body);
    assert s[..|digits|] == digits && s[|digits| + 2..] == body;
    assert body[..|chunk|] == chunk && body[|chunk|..|chunk| + 2] == CRLF && body[|chunk| + 2..] == rest;
  }

  lemma LacksCrlf(s: string)
    requires forall k | 0 <= k < |s| - 1 :: s[k] != '\r'
    ensures Find(s, CRLF) == None
  {
    forall j: nat ensures !OccursAt(s, CRLF, j) {
      assert j + 2 <= |s| ==> s[j..j + 2][0] == s[j];
    }
  }

  /** A frame cut anywhere yields nothing and reads as a dropped connection. */
  lemma DecodeCutFrame(chunk: string, k: nat, close: Close)
    requires 0 < |chunk| < INT_LIMIT && k < |Frame(chunk)|
    ensures Decode(Frame(chunk)[..k], close) == Decoded([], Dropped(close))
  {
    var digits := Print(|chunk|, 16);
    var s := Frame(chunk)[..k];
    SizeLine(chunk);
    if k < |digits| + 2 {
      assert forall j | 0 <= j < |s| && j < |digits| :: s[j] == digits[j];
      LacksCrlf(s);
    } else {
      var body := (chunk + CRLF)[..k - |digits| - 2];
      assert s == digits + CRLF + body;
      FindAfter(digits, CRLF, body);
      assert s[..|digits|] == digits && s[|digits| + 2..] == body;
    }
  }

  /** The chunks before the first empty one, whose frame is also the terminator. */
  function UpToEmpty(chunks: seq<string>): seq<string> {
    if chunks == [] || chunks[0] == "" then [] else [chunks[0]] + UpToEmpty(chunks[1..])
  }

  lemma DecodeTerminator(rest: string, close: Close)
    ensures Decode("0" + CRLF + rest, close) == Decoded([], CleanEnd)
  {
    var s := "0" + CRLF + rest;
    SizeLine("");
    assert Print(0, 16) == "0";
    FindAfter("0", CRLF, rest);
    assert s[..1] == "0";
  }

  /**
   * The round trip: decoding what the server wrote gives back its chunks and a
   * clean end. An empty chunk prints as the terminator, so it ends the stream where it stands.
   */
  lemma {:induction false} DecodeOfWire(chunks: seq<string>, terminate: bool, close: Close)
    requires Countable(chunks)
    ensures Decode(Wire(chunks, terminate), close)
         == Decoded(UpToEmpty(chunks), if terminate || "" in chunks then CleanEnd else Dropped(close))
  {
    var s := Wire(chunks, terminate);
    if chunks == [] {
      if terminate {
        assert s == "0" + CRLF + CRLF;
        DecodeTerminator(CRLF, close);
      } else {
        LacksCrlf(s);
      }
    } else {
      var later := Wire(chunks[1..], terminate);
      assert s == Frame(chunks[0]) + later;
      if chunks[0] == "" {
        assert Print(0, 16) == "0";
        assert s == "0" + CRLF + (CRLF + later);
        DecodeTerminator(CRLF + later, close);
      } else {
        DecodeOfWire(chunks[1..], terminate, close);
        DecodeFrame(chunks[0], later, close);
        assert "" in chunks <==> "" in chunks[1..];
      }
    }
  }

  /** The chunks whose whole frames lie within the first `k` bytes. */
  function CompleteWithin(chunks: seq<string>, k: nat): seq<string> {
    if chunks == [] || k < |Frame(chunks[0])| then []
    else [chunks[0]] + CompleteWithin(chunks[1..], k - |Frame(chunks[0])|)
  }

  lemma DecodeOfCutTerminator(k: nat, close: Close)
    requires k <= |TERMINATOR|
    ensures Decode(TERMINATOR[..k], close) == Decoded([], if k >= 3 then CleanEnd else Dropped(close))
  {
    if k >= 3 {
      assert TERMINATOR[..k] == "0" + CRLF + TERMINATOR[3..k];
      DecodeTerminator(TERMINATOR[3..k], close);
    } else {
      LacksCrlf(TERMINATOR[..k]);
    }
  }

  lemma CutAfter(a: string, b: string, k: nat)
    requires |a| <= k <= |a| + |b|
    ensures (a + b)[..k] == a + b[..k - |a|]
  {
  }

  lemma CutBefore(a: string, b: string, k: nat)
    requires k <= |a|
    ensures (a + b)[..k] == a[..k]
  {
  }

  lemma WireOfFirst(chunks: seq<string>, terminate: bool)
    requires chunks != []
    ensures Wire(chunks, terminate) == Frame(chunks[0]) + Wire(chunks[1..], terminate)
  {
  }

  lemma CompleteWithinFirst(chunks: seq<string>, k: nat)
    requires chunks != []
    ensures var n := |Frame(chunks[0])|;
            CompleteWithin(chunks, k) == if k < n then [] else [chunks[0]] + CompleteWithin(chunks[1..], k - n)
  {
  }

  lemma CutInFirst(chunks: seq<string>, k: nat, close: Close)
    requires chunks != [] && 0 < |chunks[0]| < INT_LIMIT && k < |Frame(chunks[0])|
    ensures k + 2 < |Wire(chunks, true)| && Decode(Wire(chunks, true)[..k], close) == Decoded([], Dropped(close))
  {
    WireOfFirst(chunks, true);
    CutBefore(Frame(chunks[0]), Wire(chunks[1..], true), k);
    DecodeCutFrame(chunks[0], k, close);
  }

  lemma WireAfterFirst(chunks: seq<string>, k: nat)
    requires chunks != [] && |Frame(chunks[0])| <= k <= |Wire(chunks, true)|
    ensures |Wire(chunks, true)| == |Frame(chunks[0])| + |Wire(chunks[1..], true)|
    ensures Wire(chunks, true)[..k] == Frame(chunks[0]) + Wire(chunks[1..], true)[..k - |Frame(chunks[0])|]
  {
    WireOfFirst(chunks, true);
    CutAfter(Frame(chunks[0]), Wire(chunks[1..], true), k);
  }

  lemma DecodeFramed(s: string, chunk: string, rest: string, close: Close)
    requires 0 < |chunk| < INT_LIMIT && s == Frame(chunk) + rest
    ensures Decode(s, close) == Decoded([chunk] + Decode(rest, close).chunks, Decode(rest, close).end)
  {
    DecodeFrame(chunk, rest, close);
  }

  /**
   * A response cut after `k` bytes yields exactly the chunks that arrived whole,
   * and reads as cleanly ended if and only if at most its last two bytes are missing.
   */
  lemma {:induction false} DecodeOfCutWire(chunks: seq<string>, k: nat, close: Close)
    requires Countable(chunks) && NonEmpty(chunks) && k <= |Wire(chunks, true)|
    ensures Decode(Wire(chunks, true)[..k], close)
         == Decoded(CompleteWithin(chunks, k), if k + 2 >= |Wire(chunks, true)| then CleanEnd else Dropped(close))
  {
    if chunks == [] {
      assert Wire(chunks, true) == TERMINATOR;
      DecodeOfCutTerminator(k, close);
    } else {
      CompleteWithinFirst(chunks, k);
      if k < |Frame(chunks[0])| {
        CutInFirst(chunks, k, close);
      } else {
        var n := |Frame(chunks[0])|;
        WireAfterFirst(chunks, k);
        DecodeOfCutWire(chunks[1..], k - n, close);
        DecodeFramed(Wire(chunks, true)[..k], chunks[0], Wire(chunks[1..], true)[..k - n], close);
      }
    }
  }

  /** So a dropped connection can pass for a clean end: the bytes up to the terminator's first line are enough. */
  lemma TerminatorLineAloneEndsCleanly(chunks: seq<string>, close: Close)
    requires Countable(chunks) && NonEmpty(chunks)
    ensures Decode(Frames(chunks) + "0\r\n", close) == Decoded(chunks, CleanEnd)
  {
    var frames := Frames(chunks);
    var k := |frames| + 3;
    assert Wire(chunks, true) == frames + TERMINATOR;
    assert (frames + TERMINATOR)[..k] == frames + TERMINATOR[..3] && TERMINATOR[..3] == "0\r\n";
    DecodeOfCutWire(chunks, k, close);
    AllComplete(chunks, k);
  }

  lemma {:induction false} AllComplete(chunks: seq<string>, k: nat)
    requires k >= |Frames(chunks)|
    ensures CompleteWithin(chunks, k) == chunks
  {
    if chunks != [] {
      AllComplete(chunks[1..], k - |Frame(chunks[0])|);
    }
  }
}
