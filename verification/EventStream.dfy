/**
 * The daemon client's streaming read: bytes arrive from the connection in
 * arbitrary pieces, chunks are cut out of them, and newline-delimited events
 * are cut out of the chunks.
 */
module EventStream {
  import opened Wrappers
  import opened Bytes
  import opened Text
  import opened ChunkedCoding

  function Flatten(pieces: seq<string>): string {
    if pieces == [] then "" else pieces[0] + Flatten(pieces[1..])
  }

  // ---- reading bytes ------------------------------------------------------

  class ByteReader {
    var buffer: string
    // What each later receive will hand over.
    var incoming: seq<string>
    const close: Close

    constructor (incoming: seq<string>, close: Close)
      ensures Unread() == Flatten(incoming) && this.close == close
    {
      this.buffer, this.incoming, this.close := "", incoming, close;
    }

    /** Everything that has arrived or will arrive and was not read yet. */
    ghost function Unread(): string
      reads this
    {
      buffer + Flatten(incoming)
    }

    method Receive() returns (piece: Option<string>)
      modifies this`incoming
      ensures old(incoming) == [] ==> piece == None && incoming == []
      ensures old(incoming) != [] ==> piece == Some(old(incoming)[0]) && incoming == old(incoming)[1..]
    {
      if incoming == [] {
        return None;
      }
      piece, incoming := Some(incoming[0]), incoming[1..];
    }

    /** The bytes through the first separator; `None` when the connection ends without one. */
    method ReadUntil(separator: string) returns (result: Option<string>)
      modifies this
      ensures match Find(old(Unread()), separator)
              case None => result == None
              case Some(i) =>
                && result == Some(old(Unread())[..i + |separator|])
                && Unread() == old(Unread())[i + |separator|..]
    {
      while true
        invariant Unread() == old(Unread())
        decreases |incoming|
      {
        var found := Find(buffer, separator);
        if found.Some? {
          FindExtends(buffer, Flatten(incoming), separator);
          var end := found.value + |separator|;
          assert old(Unread())[..end] == buffer[..end];
          assert old(Unread())[end..] == buffer[end..] + Flatten(incoming);
          result, buffer := Some(buffer[..end]), buffer[end..];
          return;
        }
        var piece := Receive();
        if piece.None? {
          assert old(Unread()) == buffer;
          return None;
        }
        buffer := buffer + piece.value;
      }
    }

    /** Exactly `count` bytes; `None` when the connection ends before they arrive. */
    method ReadExactly(count: nat) returns (result: Option<string>)
      modifies this
      ensures count <= |old(Unread())| ==>
                result == Some(old(Unread())[..count]) && Unread() == old(Unread())[count..]
      ensures count > |old(Unread())| ==> result == None
    {
      while |buffer| < count
        invariant Unread() == old(Unread())
        decreases |incoming|
      {
        var piece := Receive();
        if piece.None? {
          return None;
        }
        buffer := buffer + piece.value;
      }
      assert old(Unread())[..count] == buffer[..count];
      assert old(Unread())[count..] == buffer[count..] + Flatten(incoming);
      result, buffer := Some(buffer[..count]), buffer[count..];
    }

    /** All there is; `None` when the connection fails instead of ending. */
    method ReadToEof() returns (result: Option<string>)
      modifies this
      ensures result == if close.Failed? then None else Some(old(Unread()))
    {
      var all := buffer;
      buffer := "";
      assert old(Unread()) == all + Flatten(incoming);
      var piece := Receive();
      while piece.Some?
        invariant old(Unread()) == if piece.None? then all else all + (piece.value + Flatten(incoming))
        decreases if piece.Some? then 1 + |incoming| else 0
      {
        SeqAssociates(all, piece.value, Flatten(incoming));
        all := all + piece.value;
        piece := Receive();
      }
      return if close.Failed? then None else Some(all);
    }
  }

  // ---- cutting lines ------------------------------------------------------

  const MAX_LINE_BYTES := 1_048_576

  datatype Cut = Cut(lines: seq<string>, tail: string)

  /** The complete lines of `s` and what follows the last newline. */
  function CutLines(s: string): Cut
    decreases |s|
  {
    var i := Index(s, '\n');
    if i == |s| then Cut([], s)
    else
      var later := CutLines(s[i + 1..]);
      Cut([s[..i]] + later.lines, later.tail)
  }

  /** The event bytes a line yields: dropped when not UTF-8 or blank, else trimmed. */
  function EventOf(line: string): seq<string> {
    if ValidUtf8(line) && Trim(line) != "" then [Trim(line)] else []
  }

  function EventsOf(lines: seq<string>): seq<string> {
    if lines == [] then [] else EventOf(lines[0]) + EventsOf(lines[1..])
  }

  /** Each line with its newline. */
  function Unlines(lines: seq<string>): string {
    if lines == [] then "" else lines[0] + "\n" + Unlines(lines[1..])
  }

  lemma UnlinesFirst(line: string, rest: string, lines: seq<string>, tail: string)
    requires rest == Unlines(lines) + tail
    ensures line + "\n" + rest == Unlines([line] + lines) + tail
  {
    assert ([line] + lines)[1..] == lines;
    assert line + "\n" + (Unlines(lines) + tail) == line + "\n" + Unlines(lines) + tail;
  }

  /** Cutting is the inverse of putting lines and an unfinished one together. */
  lemma {:induction false} CutLinesExactly(s: string, lines: seq<string>, tail: string)
    ensures CutLines(s) == Cut(lines, tail)
       <==> s == Unlines(lines) + tail && AllLack(lines, '\n') && Lacks(tail, '\n')
    decreases |s|
  {
    CutLinesBack(s);
    if s == Unlines(lines) + tail && AllLack(lines, '\n') && Lacks(tail, '\n') {
      CutsToLines(lines, tail);
    }
  }

  lemma {:induction false} CutLinesBack(s: string)
    ensures s == Unlines(CutLines(s).lines) + CutLines(s).tail
    ensures AllLack(CutLines(s).lines, '\n') && Lacks(CutLines(s).tail, '\n')
    decreases |s|
  {
    var i := Index(s, '\n');
    if i == |s| {
      assert s == "" + s;
    } else {
      var rest := s[i + 1..];
      CutLinesBack(rest);
      SplitAt(s, i);
      NoneBefore(s, i, '\n');
      UnlinesFirst(s[..i], rest, CutLines(rest).lines, CutLines(rest).tail);
    }
  }

  lemma UnlinesByFirst(lines: seq<string>, tail: string)
    requires lines != []
    ensures Unlines(lines) + tail == lines[0] + ['\n'] + (Unlines(lines[1..]) + tail)
  {
  }

  lemma {:induction false} CutsToLines(lines: seq<string>, tail: string)
    requires AllLack(lines, '\n') && Lacks(tail, '\n')
    ensures CutLines(Unlines(lines) + tail) == Cut(lines, tail)
  {
    if lines == [] {
      assert "" + tail == tail;
      assert Index(tail, '\n') == |tail|;
    } else {
      CutsToLines(lines[1..], tail);
      UnlinesByFirst(lines, tail);
      CutAtNewline(lines[0], Unlines(lines[1..]) + tail);
      assert lines == [lines[0]] + lines[1..];
    }
  }

  // ---- what the events of a text are ------------------------------------------------------

  /** A line that is worth an event: text, and not only white space. */
  predicate Counts(line: string) {
    ValidUtf8(line) && !Blank(line)
  }

  function Flags(lines: seq<string>): (r: seq<bool>)
    ensures |r| == |lines| && forall i | 0 <= i < |r| :: r[i] == Counts(lines[i])
  {
    seq(|lines|, i requires 0 <= i < |lines| => Counts(lines[i]))
  }

  function Trims(lines: seq<string>): (r: seq<string>)
    ensures |r| == |lines| && forall i | 0 <= i < |r| :: r[i] == Trim(lines[i])
  {
    seq(|lines|, i requires 0 <= i < |lines| => Trim(lines[i]))
  }

  /** `places` are exactly where the flags stand, in order. */
  ghost predicate PlacesOf(places: seq<nat>, flags: seq<bool>) {
    && (forall j, k | 0 <= j < k < |places| :: places[j] < places[k])
    && (forall k | 0 <= k < |places| :: places[k] < |flags|)
    && (forall i | 0 <= i < |flags| :: i in places <==> flags[i])
  }

  /** The events are the texts at those places. */
  ghost predicate PickedFrom(events: seq<string>, texts: seq<string>, places: seq<nat>) {
    |events| == |places| && forall k | 0 <= k < |events| :: places[k] < |texts| && events[k] == texts[places[k]]
  }

  ghost predicate Picked(events: seq<string>, texts: seq<string>, flags: seq<bool>) {
    exists places :: PlacesOf(places, flags) && PickedFrom(events, texts, places)
  }

  /** One event for each line that counts, in order: the line, trimmed. */
  ghost predicate AreTheEvents(events: seq<string>, lines: seq<string>) {
    Picked(events, Trims(lines), Flags(lines))
  }

  lemma ShiftPlaces(places: seq<nat>, flags: seq<bool>, first: bool) returns (out: seq<nat>)
    requires PlacesOf(places, flags)
    ensures PlacesOf(out, [first] + flags)
    ensures |out| == |places| + (if first then 1 else 0)
    ensures forall k | 0 <= k < |places| :: out[k + (if first then 1 else 0)] == places[k] + 1
    ensures first ==> out[0] == 0
  {
    var shifted: seq<nat> := seq(|places|, k requires 0 <= k < |places| => places[k] + 1);
    out := if first then [0] + shifted else shifted;
    var all := [first] + flags;
    forall i | 0 <= i < |all| ensures i in out <==> all[i] {
      if i > 0 {
        assert all[i] == flags[i - 1];
        assert i in out <==> i in shifted;
        if i - 1 in places {
          var k :| 0 <= k < |places| && places[k] == i - 1;
          assert shifted[k] == i;
        }
      } else {
        assert 0 !in shifted;
      }
    }
  }

  lemma OneMorePicked(first: string, counts: bool, events: seq<string>, texts: seq<string>, flags: seq<bool>)
    requires Picked(events, texts, flags) && |texts| == |flags|
    ensures Picked((if counts then [first] else []) + events, [first] + texts, [counts] + flags)
  {
    var places :| PlacesOf(places, flags) && PickedFrom(events, texts, places);
    var out := ShiftPlaces(places, flags, counts);
    assert PickedFrom((if counts then [first] else []) + events, [first] + texts, out);
  }

  lemma FlagsFirst(lines: seq<string>)
    requires lines != []
    ensures Flags(lines) == [Counts(lines[0])] + Flags(lines[1..])
    ensures Trims(lines) == [Trim(lines[0])] + Trims(lines[1..])
  {
  }

  lemma EventOfExactly(line: string)
    ensures EventOf(line) == if Counts(line) then [Trim(line)] else []
  {
    TrimOfBlank(line);
  }

  lemma NothingPicked()
    ensures Picked([], [], [])
  {
    var none: seq<nat> := [];
    assert PlacesOf(none, []) && PickedFrom([], [], none);
  }

  lemma {:induction false} EventsOfLines(lines: seq<string>)
    ensures AreTheEvents(EventsOf(lines), lines)
  {
    if lines == [] {
      NothingPicked();
      assert Flags(lines) == [] && Trims(lines) == [];
    } else {
      EventsOfLines(lines[1..]);
      EventOfExactly(lines[0]);
      OneMorePicked(
        Trim(lines[0]), Counts(lines[0]), EventsOf(lines[1..]), Trims(lines[1..]), Flags(lines[1..]));
      FlagsFirst(lines);
    }
  }

  /** So there is no blank event, and each is the trim of a line. */
  lemma EventsAreNotBlank(events: seq<string>, lines: seq<string>, k: nat)
    requires AreTheEvents(events, lines) && k < |events|
    ensures !Blank(events[k]) && exists i :: 0 <= i < |lines| && events[k] == Trim(lines[i])
  {
    var places :| PlacesOf(places, Flags(lines)) && PickedFrom(events, Trims(lines), places);
    var i := places[k];
    assert i in places && Flags(lines)[i];
    TrimIsNotBlank(lines[i]);
    assert events[k] == Trim(lines[i]);
  }

  lemma TrimIsNotBlank(line: string)
    requires Counts(line)
    ensures !Blank(Trim(line))
  {
    TrimOfBlank(line);
    TrimmedEnds(line);
    assert [Trim(line)[0]][0] == Trim(line)[0];
  }

  /** Strictly ascending places that leave none out are 0, 1, 2 and so on. */
  lemma {:induction false} EveryPlace(places: seq<nat>, n: nat)
    requires forall j, k | 0 <= j < k < |places| :: places[j] < places[k]
    requires forall i: nat | i < n :: i in places
    ensures n <= |places| && forall j | 0 <= j < n :: places[j] == j
  {
    if n > 0 {
      EveryPlace(places, n - 1);
      assert n - 1 in places;
      var j :| 0 <= j < |places| && places[j] == n - 1;
      assert j >= n - 1;
      assert n > 1 ==> places[n - 2] == n - 2;
    }
  }

  lemma {:induction false} AtLeast(places: seq<nat>, k: nat)
    requires (forall i, j | 0 <= i < j < |places| :: places[i] < places[j]) && k < |places|
    ensures places[k] >= k
  {
    if k > 0 {
      AtLeast(places, k - 1);
      assert places[k - 1] < places[k];
    }
  }

  lemma AllPlaces(places: seq<nat>, flags: seq<bool>)
    requires PlacesOf(places, flags) && forall i | 0 <= i < |flags| :: flags[i]
    ensures |places| == |flags| && forall j | 0 <= j < |places| :: places[j] == j
  {
    EveryPlace(places, |flags|);
    forall k | 0 <= k < |places| ensures places[k] >= k {
      AtLeast(places, k);
    }
    if places != [] {
      assert places[|places| - 1] >= |places| - 1;
    }
  }

  /** Lines that are text, not blank and trimmed already are delivered as they are. */
  lemma CleanLinesAreTheEvents(lines: seq<string>, events: seq<string>)
    requires AreTheEvents(events, lines)
    requires forall i | 0 <= i < |lines| :: Counts(lines[i]) && Trim(lines[i]) == lines[i]
    ensures events == lines
  {
    var places :| PlacesOf(places, Flags(lines)) && PickedFrom(events, Trims(lines), places);
    AllPlaces(places, Flags(lines));
  }

  class LineBuffer {
    var pending: string

    constructor ()
      ensures pending == ""
    {
      pending := "";
    }

    /** Add a chunk and take the lines it completes; `None` when the unfinished line has grown too long. */
    method Feed(data: string) returns (lines: Option<seq<string>>)
      modifies this
      ensures pending == CutLines(old(pending) + data).tail
      ensures lines == if |pending| > MAX_LINE_BYTES then None
                       else Some(CutLines(old(pending) + data).lines)
    {
      pending := pending + data;
      ghost var all := CutLines(pending);
      var taken: seq<string> := [];
      var newline := Index(pending, '\n');
      while newline < |pending|
        invariant newline == Index(pending, '\n')
        invariant all == Cut(taken + CutLines(pending).lines, CutLines(pending).tail)
        decreases |pending|
      {
        ghost var later := CutLines(pending[newline + 1..]).lines;
        assert taken + ([pending[..newline]] + later) == (taken + [pending[..newline]]) + later;
        taken := taken + [pending[..newline]];
        pending := pending[newline + 1..];
        newline := Index(pending, '\n');
      }
      assert taken + [] == taken;
      return if |pending| > MAX_LINE_BYTES then None else Some(taken);
    }
  }

  lemma {:induction false} TailIsUnfinished(s: string)
    ensures Lacks(CutLines(s).tail, '\n')
    decreases |s|
  {
    var i := Index(s, '\n');
    if i < |s| {
      TailIsUnfinished(s[i + 1..]);
    }
  }

  lemma CutAtNewline(line: string, rest: string)
    requires Lacks(line, '\n')
    ensures CutLines(line + ['\n'] + rest) == Cut([line] + CutLines(rest).lines, CutLines(rest).tail)
  {
    var s := line + ['\n'] + rest;
    assert s[|line|] == '\n' && forall k | 0 <= k < |line| :: s[k] == line[k];
    assert Index(s, '\n') == |line|;
    assert s[..|line|] == line && s[|line| + 1..] == rest;
  }

  lemma SplitAt(a: string, i: nat)
    requires i < |a|
    ensures a == a[..i] + [a[i]] + a[i + 1..]
  {
  }

  lemma NoneBefore(a: string, i: nat, c: char)
    requires i < |a| && forall k | 0 <= k < i :: a[k] != c
    ensures Lacks(a[..i], c)
  {
  }

  lemma CutOneMore(line: string, rest: string, b: string)
    requires Lacks(line, '\n')
    requires CutLines(rest + b) == Joined(CutLines(rest), CutLines(CutLines(rest).tail + b))
    ensures var a := line + ['\n'] + rest;
            CutLines(a + b) == Joined(CutLines(a), CutLines(CutLines(a).tail + b))
  {
    CutAtNewline(line, rest);
    CutAtNewline(line, rest + b);
    SeqAssociates(line + ['\n'], rest, b);
    JoinedLater(line, CutLines(rest), CutLines(CutLines(rest).tail + b));
  }

  /** Cutting a text in two and carrying the unfinished line over loses and invents nothing. */
  lemma {:induction false} CutLinesOfConcat(a: string, b: string)
    ensures CutLines(a + b) == Joined(CutLines(a), CutLines(CutLines(a).tail + b))
    decreases |a|
  {
    var i := Index(a, '\n');
    if i == |a| {
      NothingJoined(CutLines(a + b), a);
    } else {
      SplitAt(a, i);
      NoneBefore(a, i, '\n');
      CutLinesOfConcat(a[i + 1..], b);
      CutOneMore(a[..i], a[i + 1..], b);
    }
  }

  /** The lines of a first part, then those of its tail with the second part. */
  function Joined(first: Cut, both: Cut): Cut {
    Cut(first.lines + both.lines, both.tail)
  }

  lemma NothingJoined(both: Cut, tail: string)
    ensures Joined(Cut([], tail), both) == both
  {
    assert [] + both.lines == both.lines;
  }

  lemma JoinedLater(line: string, first: Cut, both: Cut)
    ensures Joined(Cut([line] + first.lines, first.tail), both)
         == Cut([line] + Joined(first, both).lines, Joined(first, both).tail)
  {
    SeqAssociates([line], first.lines, both.lines);
  }

  lemma SeqAssociates<T>(a: seq<T>, b: seq<T>, c: seq<T>)
    ensures a + (b + c) == (a + b) + c
  {
  }

  // ---- the stream ---------------------------------------------------------

  datatype Stream = Stream(events: seq<string>, end: End)

  /** What a subscriber is given for a decoded body, starting with an unfinished line `pending`. */
  function Deliver(chunks: seq<string>, end: End, pending: string): Stream {
    if chunks == [] then Stream([], end)
    else
      var cut := CutLines(pending + chunks[0]);
      if |cut.tail| > MAX_LINE_BYTES then Stream([], LineTooLong)
      else
        var later := Deliver(chunks[1..], end, cut.tail);
        Stream(EventsOf(cut.lines) + later.events, later.end)
  }

  function DeliverBody(body: Decoded, pending: string): Stream {
    Deliver(body.chunks, body.end, pending)
  }

  /** What the front of a body is: the end of the stream, or a chunk with the bytes after it. */
  datatype Front = Ends(end: End) | Starts(chunk: string, rest: string)

  function FrontOf(s: string, close: Close): (f: Front)
    ensures f.Starts? ==> |f.rest| < |s|
  {
    match Find(s, CRLF)
    case None => Ends(Dropped(close))
    case Some(i) =>
      var rest := s[i + 2..];
      match ChunkSize(s[..i])
      case None => Ends(BadLength)
      case Some(n) =>
        if n == 0 then Ends(CleanEnd)
        else if n < 0 then Ends(Trapped)
        else if |rest| < n + 2 then Ends(Dropped(close))
        else if rest[n..n + 2] != CRLF then Ends(BadTerminator)
        else Starts(rest[..n], rest[n + 2..])
  }

  /** Decoding takes the front off, again and again. */
  lemma DecodeByFronts(s: string, close: Close)
    ensures Decode(s, close)
         == match FrontOf(s, close)
            case Ends(end) => Decoded([], end)
            case Starts(chunk, rest) => Decoded([chunk] + Decode(rest, close).chunks, Decode(rest, close).end)
  {
  }

  datatype ChunkRead = Chunk(data: string) | Ended(end: End)

  lemma FrontByLine(s: string, line: string, rest: string, close: Close)
    requires Find(s, CRLF) == Some(|line|) && s[..|line|] == line && s[|line| + 2..] == rest
    ensures FrontOf(s, close)
         == match ChunkSize(line)
            case None => Ends(BadLength)
            case Some(n) =>
              if n == 0 then Ends(CleanEnd)
              else if n < 0 then Ends(Trapped)
              else if |rest| < n + 2 then Ends(Dropped(close))
              else if rest[n..n + 2] != CRLF then Ends(BadTerminator)
              else Starts(rest[..n], rest[n + 2..])
  {
  }

  /** One turn of the client's read loop takes the front off the connection. */
  method ReadChunk(reader: ByteReader) returns (r: ChunkRead)
    modifies reader
    ensures match FrontOf(old(reader.Unread()), reader.close)
            case Ends(end) => r == Ended(end)
            case Starts(chunk, rest) => r == Chunk(chunk) && reader.Unread() == rest
  {
    ghost var unread := reader.Unread();
    var lengthLine := reader.ReadUntil(CRLF);
    if lengthLine.None? {
      return Ended(Dropped(reader.close));
    }
    var line := lengthLine.value[..|lengthLine.value| - 2];
    ghost var rest := reader.Unread();
    FrontByLine(unread, line, rest, reader.close);
    var size := ChunkSize(line);
    if size.None? {
      return Ended(BadLength);
    }
    if size.value == 0 {
      var _ := reader.ReadUntil(CRLF);
      return Ended(CleanEnd);
    }
    if size.value < 0 {
      return Ended(Trapped);
    }
    var chunk := reader.ReadExactly(size.value);
    if chunk.None? {
      return Ended(Dropped(reader.close));
    }
    var crlf := reader.ReadExactly(2);
    if crlf.None? {
      return Ended(Dropped(reader.close));
    }
    assert crlf.value == rest[size.value..size.value + 2];
    assert reader.Unread() == rest[size.value + 2..];
    return if crlf.value == CRLF then Chunk(chunk.value) else Ended(BadTerminator);
  }

  /** What one more chunk adds to the stream. */
  lemma DeliverOne(data: string, later: Decoded, pending: string)
    ensures var cut := CutLines(pending + data);
            DeliverBody(Decoded([data] + later.chunks, later.end), pending)
            == if |cut.tail| > MAX_LINE_BYTES then Stream([], LineTooLong)
               else Stream(EventsOf(cut.lines) + DeliverBody(later, cut.tail).events, DeliverBody(later, cut.tail).end)
  {
    assert ([data] + later.chunks)[1..] == later.chunks;
  }

  /** The stream so far, and what is still to come. */
  function After(yielded: seq<string>, rest: Stream): Stream {
    Stream(yielded + rest.events, rest.end)
  }

  lemma AfterMore(yielded: seq<string>, more: seq<string>, rest: Stream)
    ensures After(yielded, Stream(more + rest.events, rest.end)) == After(yielded + more, rest)
    ensures After(yielded, Stream([], rest.end)) == Stream(yielded, rest.end)
  {
    SeqAssociates(yielded, more, rest.events);
    assert yielded + [] == yielded;
  }

  /**
   * `subscribeRawLines` after the response head: what is yielded depends on the
   * bytes of the body alone, never on the pieces they arrive in.
   */
  method Subscribe(reader: ByteReader) returns (yielded: seq<string>, end: End)
    modifies reader
    ensures Stream(yielded, end) == DeliverBody(Decode(old(reader.Unread()), reader.close), "")
    ensures IsGiven(Decode(old(reader.Unread()), reader.close), Stream(yielded, end))
  {
    yielded := [];
    var lines := new LineBuffer();
    ghost var sent := Decode(reader.Unread(), reader.close);
    ghost var body, whole := sent, DeliverBody(sent, "");
    AfterMore([], [], whole);
    assert [] + whole.events == whole.events;
    while true
      invariant fresh(lines)
      invariant body == Decode(reader.Unread(), reader.close)
      invariant whole == After(yielded, DeliverBody(body, lines.pending))
      decreases |reader.Unread()|
    {
      DecodeByFronts(reader.Unread(), reader.close);
      var next := ReadChunk(reader);
      if next.Ended? {
        AfterMore(yielded, [], Stream([], next.end));
        end := next.end;
        break;
      }
      body := Decode(reader.Unread(), reader.close);
      DeliverOne(next.data, body, lines.pending);
      var fed := lines.Feed(next.data);
      if fed.None? {
        AfterMore(yielded, [], Stream([], LineTooLong));
        end := LineTooLong;
        break;
      }
      AfterMore(yielded, EventsOf(fed.value), DeliverBody(body, lines.pending));
      yielded := yielded + EventsOf(fed.value);
    }
    assert Stream(yielded, end) == whole;
    GivenSomewhere(sent);
  }

  lemma {:induction false} EventsOfConcat(a: seq<string>, b: seq<string>)
    ensures EventsOf(a + b) == EventsOf(a) + EventsOf(b)
  {
    if a == [] {
      assert a + b == b;
    } else {
      assert (a + b)[1..] == a[1..] + b;
      EventsOfConcat(a[1..], b);
    }
  }

  /**
   * Where the server puts its chunk boundaries does not matter either: unless an
   * unfinished line outgrows the limit, the events are those of the whole text.
   */
  lemma {:induction false} DeliverIgnoresFraming(chunks: seq<string>, end: End, pending: string)
    requires Lacks(pending, '\n') && !Outgrows(chunks, pending)
    ensures Deliver(chunks, end, pending) == Stream(EventsOf(CutLines(pending + Flatten(chunks)).lines), end)
  {
    if chunks == [] {
      assert pending + "" == pending;
    } else {
      var first, rest := pending + chunks[0], Flatten(chunks[1..]);
      var cut := CutLines(first);
      TailIsUnfinished(first);
      DeliverIgnoresFraming(chunks[1..], end, cut.tail);
      CutLinesOfConcat(first, rest);
      EventsOfConcat(cut.lines, CutLines(cut.tail + rest).lines);
      SeqAssociates(pending, chunks[0], rest);
    }
  }

  /** Whether some chunk leaves a line unfinished that is longer than the limit. */
  predicate Outgrows(chunks: seq<string>, pending: string) {
    chunks != [] &&
    var tail := CutLines(pending + chunks[0]).tail;
    |tail| > MAX_LINE_BYTES || Outgrows(chunks[1..], tail)
  }

  lemma NoNewlineNoLine(s: string)
    requires Lacks(s, '\n')
    ensures CutLines(s) == Cut([], s)
  {
  }

  /** The limit is one mebibyte, and what was yielded before stays yielded. */
  lemma TooLongBeyondOneMebibyte(line: string, rest: seq<string>, end: End, pending: string)
    requires Lacks(line, '\n') && Lacks(pending, '\n')
    ensures |pending + line| > 0x10_0000 ==> Deliver([line] + rest, end, pending) == Stream([], LineTooLong)
    ensures |pending + line| <= 0x10_0000 ==> Deliver([line] + rest, end, pending) == Deliver(rest, end, pending + line)
  {
    NoNewlineNoLine(pending + line);
    assert ([line] + rest)[1..] == rest;
    if |pending + line| <= 0x10_0000 {
      var later := Deliver(rest, end, pending + line);
      assert [] + later.events == later.events;
    }
  }

  /** A chunk that ends in a line too long takes the complete lines in it down with it. */
  lemma TooLongLosesItsChunk(text: string, line: string, rest: seq<string>, end: End)
    requires Lacks(text, '\n') && Lacks(line, '\n') && |line| > 0x10_0000
    ensures Deliver([text + ['\n'] + line] + rest, end, "") == Stream([], LineTooLong)
  {
    CutAtNewline(text, line);
    NoNewlineNoLine(line);
    assert "" + (text + ['\n'] + line) == text + ['\n'] + line;
  }

  lemma {:induction false} TooLongExactlyWhenOutgrown(chunks: seq<string>, end: End, pending: string)
    requires end != LineTooLong
    ensures Deliver(chunks, end, pending).end == LineTooLong <==> Outgrows(chunks, pending)
  {
    if chunks != [] {
      TooLongExactlyWhenOutgrown(chunks[1..], end, CutLines(pending + chunks[0]).tail);
    }
  }

  /** The line left unfinished once so many chunks are in. */
  function Unfinished(chunks: seq<string>, pending: string, k: nat): string
    requires k <= |chunks|
  {
    CutLines(pending + Flatten(chunks[..k])).tail
  }

  /** The first `k` chunks are taken in: all of them, or those before the one that leaves a line too long. */
  predicate TakenIn(chunks: seq<string>, pending: string, k: nat) {
    && k <= |chunks|
    && (forall j | 0 < j <= k :: |Unfinished(chunks, pending, j)| <= 0x10_0000)
    && (k < |chunks| ==> |Unfinished(chunks, pending, k + 1)| > 0x10_0000)
  }

  lemma UnfinishedLater(chunks: seq<string>, pending: string, k: nat)
    requires chunks != [] && k < |chunks|
    ensures var cut := CutLines(pending + chunks[0]);
            CutLines(pending + Flatten(chunks[..k + 1])) == Joined(cut, CutLines(cut.tail + Flatten(chunks[1..][..k])))
  {
    var first, rest := chunks[..k + 1], chunks[1..][..k];
    assert first[0] == chunks[0] && first[1..] == rest;
    SeqAssociates(pending, chunks[0], Flatten(rest));
    CutLinesOfConcat(pending + chunks[0], Flatten(rest));
  }

  lemma {:induction false} DeliverStops(chunks: seq<string>, end: End, pending: string) returns (k: nat)
    requires Lacks(pending, '\n')
    ensures TakenIn(chunks, pending, k)
    ensures Deliver(chunks, end, pending)
         == Stream(EventsOf(CutLines(pending + Flatten(chunks[..k])).lines), if k < |chunks| then LineTooLong else end)
  {
    k := 0;
    assert pending + Flatten(chunks[..0]) == pending;
    NoNewlineNoLine(pending);
    if chunks != [] {
      var cut := CutLines(pending + chunks[0]);
      TailIsUnfinished(pending + chunks[0]);
      UnfinishedLater(chunks, pending, 0);
      assert cut.tail + Flatten(chunks[1..][..0]) == cut.tail;
      NoNewlineNoLine(cut.tail);
      if |cut.tail| <= 0x10_0000 {
        var m := DeliverStops(chunks[1..], end, cut.tail);
        k := m + 1;
        OneMoreTakenIn(chunks, pending, m);
        UnfinishedLater(chunks, pending, m);
        EventsOfConcat(cut.lines, CutLines(cut.tail + Flatten(chunks[1..][..m])).lines);
      }
    }
  }

  lemma OneMoreTakenIn(chunks: seq<string>, pending: string, m: nat)
    requires chunks != [] && |CutLines(pending + chunks[0]).tail| <= 0x10_0000
    requires TakenIn(chunks[1..], CutLines(pending + chunks[0]).tail, m)
    ensures TakenIn(chunks, pending, m + 1)
  {
    var tail := CutLines(pending + chunks[0]).tail;
    forall j | 0 < j <= |chunks| ensures Unfinished(chunks, pending, j) == Unfinished(chunks[1..], tail, j - 1) {
      UnfinishedLater(chunks, pending, j - 1);
    }
    TailIsUnfinished(pending + chunks[0]);
    assert tail + Flatten(chunks[1..][..0]) == tail;
    NoNewlineNoLine(tail);
  }

  /**
   * What a subscriber is given: the events of the text of the chunks taken in, and the end the
   * body came to, or that a line was too long.
   */
  ghost predicate Given(body: Decoded, k: nat, events: seq<string>, end: End) {
    && TakenIn(body.chunks, "", k)
    && AreTheEvents(events, CutLines(Flatten(body.chunks[..k])).lines)
    && end == if k < |body.chunks| then LineTooLong else body.end
  }

  ghost predicate IsGiven(body: Decoded, s: Stream) {
    exists k: nat :: Given(body, k, s.events, s.end)
  }

  lemma GivenSomewhere(body: Decoded)
    ensures IsGiven(body, DeliverBody(body, ""))
  {
    var k := DeliverStops(body.chunks, body.end, "");
    assert "" + Flatten(body.chunks[..k]) == Flatten(body.chunks[..k]);
    EventsOfLines(CutLines(Flatten(body.chunks[..k])).lines);
    assert Given(body, k, DeliverBody(body, "").events, DeliverBody(body, "").end);
  }

  /**
   * End to end: a payload the server sends as any non-empty chunks, received in any pieces, is
   * delivered as one event for each of its lines that is text and not blank, in order and trimmed,
   * and a clean end. An unfinished last line yields none.
   */
  lemma ServedPayloadIsDelivered(
    chunks: seq<string>, pieces: seq<string>, close: Close, lines: seq<string>, tail: string)
    requires Countable(chunks) && NonEmpty(chunks) && !Outgrows(chunks, "")
    requires Flatten(pieces) == Wire(chunks, true)
    requires Flatten(chunks) == Unlines(lines) + tail && AllLack(lines, '\n') && Lacks(tail, '\n')
    ensures DeliverBody(Decode(Flatten(pieces), close), "").end == CleanEnd
    ensures AreTheEvents(DeliverBody(Decode(Flatten(pieces), close), "").events, lines)
  {
    DecodeOfWire(chunks, true, close);
    NoEmptyChunk(chunks);
    DeliverIgnoresFraming(chunks, CleanEnd, "");
    assert "" + Flatten(chunks) == Flatten(chunks);
    CutsToLines(lines, tail);
    EventsOfLines(lines);
  }

  lemma {:induction false} NoEmptyChunk(chunks: seq<string>)
    requires NonEmpty(chunks)
    ensures UpToEmpty(chunks) == chunks
  {
    if chunks != [] {
      NoEmptyChunk(chunks[1..]);
    }
  }
}
