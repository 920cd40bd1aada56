/** The text handling Swift applies to header and size lines, on ASCII bytes. */
module Text {
  import opened Wrappers
  import opened Bytes

  /** White space and newlines, the ASCII part of Foundation's set. */
  predicate IsSpace(c: char) {
    c == ' ' || c == '\t' || '\n' <= c <= '\r'
  }

  /** `trimmingCharacters(in: .whitespacesAndNewlines)`. */
  function Trim(s: string): (r: string)
    ensures r == "" || (!IsSpace(r[0]) && !IsSpace(r[|r| - 1]))
  {
    if s == "" then ""
    else if IsSpace(s[0]) then Trim(s[1..])
    else if IsSpace(s[|s| - 1]) then Trim(s[..|s| - 1])
    else s
  }

  function LowerChar(c: char): char {
    if 'A' <= c <= 'Z' then (c as int - 'A' as int + 'a' as int) as char else c
  }

  /** `lowercased()`. */
  function Lower(s: string): string {
    seq(|s|, i requires 0 <= i < |s| => LowerChar(s[i]))
  }

  /** Whether the bytes are well-formed UTF-8, so that `String(data:encoding:)` is not nil. */
  predicate ValidUtf8(s: string) {
    s == "" ||
    var b := s[0] as int;
    if b < 0x80 then ValidUtf8(s[1..])
    else if 0xC2 <= b < 0xE0 then Continues(s, 1, 0x80, 0xBF) && ValidUtf8(s[2..])
    else if 0xE0 <= b < 0xF0 then
      && Continues(s, 1, if b == 0xE0 then 0xA0 else 0x80, if b == 0xED then 0x9F else 0xBF)
      && Continues(s, 2, 0x80, 0xBF)
      && ValidUtf8(s[3..])
    else if 0xF0 <= b < 0xF5 then
      && Continues(s, 1, if b == 0xF0 then 0x90 else 0x80, if b == 0xF4 then 0x8F else 0xBF)
      && Continues(s, 2, 0x80, 0xBF)
      && Continues(s, 3, 0x80, 0xBF)
      && ValidUtf8(s[4..])
    else false
  }

  predicate Continues(s: string, k: nat, low: int, high: int) {
    k < |s| && low <= s[k] as int <= high
  }

  predicate Ascii(s: string) {
    forall k | 0 <= k < |s| :: s[k] as int < 0x80
  }

  /** Text a header line can carry: no control character, no line break. */
  predicate Printable(s: string) {
    forall k | 0 <= k < |s| :: ' ' <= s[k] <= '~'
  }

  lemma {:induction false} AsciiIsUtf8(s: string)
    requires Ascii(s)
    ensures ValidUtf8(s)
  {
    if s != "" {
      AsciiIsUtf8(s[1..]);
    }
  }

  /** Where `stop` first occurs, or the length of `s`. */
  function Index(s: string, stop: char): (i: nat)
    ensures i <= |s| && (i < |s| ==> s[i] == stop)
    ensures forall k | 0 <= k < i :: s[k] != stop
  {
    if s == "" || s[0] == stop then 0 else Index(s[1..], stop) + 1
  }

  /** The text before the first `stop`, or all of it. */
  function UpTo(s: string, stop: char): (r: string)
    ensures Lacks(r, stop) && r <= s
    ensures |r| < |s| ==> s[|r|] == stop
  {
    s[..Index(s, stop)]
  }

  /** The text after any run of leading `skip`s. */
  function Past(s: string, skip: char): (r: string)
    ensures r == "" || r[0] != skip
    ensures |r| <= |s|
  {
    if s != "" && s[0] == skip then Past(s[1..], skip) else s
  }

  /** The first piece of `split(separator:)`, which drops empty pieces; empty if there is none. */
  function FirstPiece(s: string, separator: char): string {
    UpTo(Past(s, separator), separator)
  }

  /** What follows the first piece. */
  function AfterFirstPiece(s: string, separator: char): string {
    var rest := Past(s, separator);
    rest[|UpTo(rest, separator)|..]
  }

  lemma UpToEnd(s: string, stop: char, rest: string)
    requires Lacks(s, stop)
    ensures UpTo(s, stop) == s
    ensures UpTo(s + [stop] + rest, stop) == s
  {
    var t := s + [stop] + rest;
    assert t[|s|] == stop && forall k | 0 <= k < |s| :: t[k] == s[k];
    assert Index(t, stop) == |s|;
  }

  /** `components(separatedBy: "\r\n")`. */
  function Lines(s: string): (r: seq<string>)
    ensures |r| > 0
    decreases |s|
  {
    match Find(s, CRLF)
    case None => [s]
    case Some(i) => [s[..i]] + Lines(s[i + 2..])
  }

  function Join(lines: seq<string>): string
    requires |lines| > 0
  {
    if |lines| == 1 then lines[0] else lines[0] + CRLF + Join(lines[1..])
  }

  predicate AllLack(lines: seq<string>, c: char) {
    forall k | 0 <= k < |lines| :: Lacks(lines[k], c)
  }

  /** Splitting undoes joining, for lines that hold no carriage return. */
  lemma {:induction false} LinesOfJoin(lines: seq<string>)
    requires |lines| > 0 && AllLack(lines, '\r')
    ensures Lines(Join(lines)) == lines
  {
    if |lines| == 1 {
      forall j: nat ensures !OccursAt(lines[0], CRLF, j) {
        assert j < |lines[0]| ==> lines[0][j] != CRLF[0];
        assert j + 2 <= |lines[0]| ==> lines[0][j..j + 2][0] == lines[0][j];
      }
    } else {
      var s := Join(lines);
      FindAfter(lines[0], CRLF, Join(lines[1..]));
      assert s[..|lines[0]|] == lines[0] && s[|lines[0]| + 2..] == Join(lines[1..]);
      LinesOfJoin(lines[1..]);
    }
  }

  /** Joined lines hold no blank line of their own, so the blank line that ends a head is found right after them. */
  lemma {:induction false} BlankLineAfter(lines: seq<string>, rest: string)
    requires |lines| > 0 && AllLack(lines, '\r')
    requires forall k | 0 <= k < |lines| :: lines[k] != ""
    ensures Find(Join(lines) + BLANK_LINE + rest, BLANK_LINE) == Some(|Join(lines)|)
  {
    if |lines| == 1 {
      FindAfter(lines[0], BLANK_LINE, rest);
    } else {
      var s := Join(lines) + BLANK_LINE + rest;
      var t := Join(lines[1..]) + BLANK_LINE + rest;
      var n := |lines[0]|;
      BlankLineAfter(lines[1..], rest);
      assert s == lines[0] + CRLF + t;
      JoinOpens(lines[1..]);
      forall j: nat | j < |Join(lines)| ensures !OccursAt(s, BLANK_LINE, j) {
        if j < n + 2 {
          assert OccursAt(s, BLANK_LINE, j) ==> s[j] == '\r' && s[j + 2] == '\r' by {
            assert OccursAt(s, BLANK_LINE, j) ==> s[j] == s[j..j + 4][0] && s[j + 2] == s[j..j + 4][2];
          }
        } else {
          assert j + 4 <= |s| ==> s[j..j + 4] == t[j - n - 2..j - n + 2];
          assert !OccursAt(t, BLANK_LINE, j - n - 2);
        }
      }
      assert s[|Join(lines)|..|Join(lines)| + 4] == BLANK_LINE;
      FindIs(s, BLANK_LINE, |Join(lines)|);
    }
  }

  lemma JoinOpens(lines: seq<string>)
    requires |lines| > 0 && lines[0] != ""
    ensures Join(lines) != "" && Join(lines)[0] == lines[0][0]
  {
  }

  // ---- what the functions above come to ---------------------------------------------------

  /** Tab, line feed, vertical tab, form feed, carriage return and space. */
  predicate Blank(s: string) {
    forall k | 0 <= k < |s| :: s[k] as int in {9, 10, 11, 12, 13, 32}
  }

  lemma SpaceExactly(c: char)
    ensures IsSpace(c) <==> Blank([c])
  {
    assert [c][0] == c;
  }

  lemma BlankOfConcat(a: string, b: string)
    ensures Blank(a + b) <==> Blank(a) && Blank(b)
  {
    var all := a + b;
    assert forall k | 0 <= k < |a| :: all[k] == a[k];
    assert forall k | 0 <= k < |b| :: all[|a| + k] == b[k];
  }

  lemma OneMoreBefore(s: string, before: string, middle: string, after: string)
    requires s != "" && s[1..] == before + middle + after && Blank(before) && Blank([s[0]])
    ensures s == [s[0]] + before + middle + after && Blank([s[0]] + before)
  {
    assert s == [s[0]] + s[1..];
    BlankOfConcat([s[0]], before);
  }

  lemma OneMoreAfter(s: string, before: string, middle: string, after: string)
    requires s != "" && s[..|s| - 1] == before + middle + after && Blank(after) && Blank([s[|s| - 1]])
    ensures s == before + middle + (after + [s[|s| - 1]]) && Blank(after + [s[|s| - 1]])
  {
    assert s == s[..|s| - 1] + [s[|s| - 1]];
    BlankOfConcat(after, [s[|s| - 1]]);
  }

  lemma NothingAround(s: string)
    ensures s == "" + s + "" && Blank("")
  {
  }

  lemma TrimmedEnds(s: string)
    ensures Trim(s) != "" ==> !Blank([Trim(s)[0]]) && !Blank([Trim(s)[|Trim(s)| - 1]])
  {
    if Trim(s) != "" {
      SpaceExactly(Trim(s)[0]);
      SpaceExactly(Trim(s)[|Trim(s)| - 1]);
    }
  }

  /** Trimming takes white space off both ends, and nothing else. */
  lemma {:induction false} TrimExactly(s: string) returns (before: string, after: string)
    ensures s == before + Trim(s) + after && Blank(before) && Blank(after)
    ensures Trim(s) != "" ==> !Blank([Trim(s)[0]]) && !Blank([Trim(s)[|Trim(s)| - 1]])
  {
    TrimmedEnds(s);
    if s == "" {
      before, after := "", "";
    } else if IsSpace(s[0]) {
      SpaceExactly(s[0]);
      before, after := TrimExactly(s[1..]);
      OneMoreBefore(s, before, Trim(s[1..]), after);
      before := [s[0]] + before;
    } else if IsSpace(s[|s| - 1]) {
      SpaceExactly(s[|s| - 1]);
      before, after := TrimExactly(s[..|s| - 1]);
      OneMoreAfter(s, before, Trim(s[..|s| - 1]), after);
      after := after + [s[|s| - 1]];
    } else {
      NothingAround(s);
      before, after := "", "";
    }
  }

  /** Only white space is trimmed to nothing. */
  lemma TrimOfBlank(s: string)
    ensures Trim(s) == "" <==> Blank(s)
  {
    var before, after := TrimExactly(s);
    BlankOfConcat(before, Trim(s));
    BlankOfConcat(before + Trim(s), after);
    if Trim(s) != "" {
      assert Trim(s) == [Trim(s)[0]] + Trim(s)[1..];
      BlankOfConcat([Trim(s)[0]], Trim(s)[1..]);
    }
  }

  lemma LowerExactly(c: char)
    ensures forall k | 0 <= k < 26 ::
              LowerChar("ABCDEFGHIJKLMNOPQRSTUVWXYZ"[k]) == "abcdefghijklmnopqrstuvwxyz"[k]
    ensures c !in "ABCDEFGHIJKLMNOPQRSTUVWXYZ" ==> LowerChar(c) == c
  {
    var capitals, letters := "ABCDEFGHIJKLMNOPQRSTUVWXYZ", "abcdefghijklmnopqrstuvwxyz";
    forall k | 0 <= k < 26 ensures LowerChar(capitals[k]) == letters[k] {
      assert capitals[k] as int == 65 + k && letters[k] as int == 97 + k;
    }
    if 'A' <= c <= 'Z' {
      assert capitals[c as int - 65] == c;
    }
  }

  predicate AllAre(s: string, c: char) {
    forall k | 0 <= k < |s| :: s[k] == c
  }

  lemma SkippedOne(s: string, skip: char, before: string, rest: string)
    requires s != "" && s[0] == skip && s[1..] == before + rest
    ensures s == [skip] + before + rest
  {
    assert s == [s[0]] + s[1..];
  }

  lemma {:induction false} PastExactly(s: string, skip: char) returns (before: string)
    ensures s == before + Past(s, skip) && AllAre(before, skip)
  {
    if s != "" && s[0] == skip {
      var more := PastExactly(s[1..], skip);
      before := [skip] + more;
      SkippedOne(s, skip, more, Past(s[1..], skip));
    } else {
      before := "";
      assert s == "" + s;
    }
  }

  /** Splitting takes separators off, then a piece without any up to the next one, if there is one. */
  lemma FirstPieceExactly(s: string, separator: char) returns (before: string)
    ensures s == before + FirstPiece(s, separator) + AfterFirstPiece(s, separator) && AllAre(before, separator)
    ensures Lacks(FirstPiece(s, separator), separator)
    ensures AfterFirstPiece(s, separator) != "" ==>
              FirstPiece(s, separator) != "" && AfterFirstPiece(s, separator)[0] == separator
  {
    before := PastExactly(s, separator);
    var rest := Past(s, separator);
    assert rest == UpTo(rest, separator) + rest[|UpTo(rest, separator)|..];
  }

  /** Joining undoes splitting, for any text, and no line holds a line break. */
  lemma {:induction false} JoinOfLines(s: string)
    ensures Join(Lines(s)) == s
    ensures forall k | 0 <= k < |Lines(s)| :: Find(Lines(s)[k], CRLF) == None
    decreases |s|
  {
    var found := Find(s, CRLF);
    if found.Some? {
      var i := found.value;
      JoinOfLines(s[i + 2..]);
      NoEarlierBreak(s, i);
      assert s == s[..i] + CRLF + s[i + 2..];
      assert Lines(s)[1..] == Lines(s[i + 2..]);
      assert forall k | 0 < k < |Lines(s)| :: Lines(s)[k] == Lines(s[i + 2..])[k - 1];
    }
  }

  lemma NoEarlierBreak(s: string, i: nat)
    requires Find(s, CRLF) == Some(i)
    ensures Find(s[..i], CRLF) == None
  {
    forall j: nat ensures !OccursAt(s[..i], CRLF, j) {
      if j + 2 <= i {
        assert s[..i][j..j + 2] == s[j..j + 2];
        assert !OccursAt(s, CRLF, j);
      }
    }
  }

  // ---- UTF-8 by its definition --------------------------------------------------------------

  /** A Unicode scalar value: a code point that is no surrogate. */
  predicate Scalar(c: nat) {
    c < 0xD800 || 0xE000 <= c < 0x11_0000
  }

  function Encoded(c: nat): string
    requires Scalar(c)
  {
    if c < 0x80 then [c as char]
    else if c < 0x800 then [(0xC0 + c / 0x40) as char, (0x80 + c % 0x40) as char]
    else if c < 0x1_0000 then
      [(0xE0 + c / 0x1000) as char, (0x80 + c / 0x40 % 0x40) as char, (0x80 + c % 0x40) as char]
    else
      [(0xF0 + c / 0x4_0000) as char, (0x80 + c / 0x1000 % 0x40) as char,
       (0x80 + c / 0x40 % 0x40) as char, (0x80 + c % 0x40) as char]
  }

  ghost predicate Scalars(cs: seq<nat>) {
    forall k | 0 <= k < |cs| :: Scalar(cs[k])
  }

  ghost function EncodedAll(cs: seq<nat>): string
    requires Scalars(cs)
  {
    if cs == [] then "" else Encoded(cs[0]) + EncodedAll(cs[1..])
  }

  lemma ValidAfterTwo(c: nat, rest: string)
    requires 0x80 <= c < 0x800
    ensures ValidUtf8(Encoded(c) + rest) == ValidUtf8(rest)
  {
    var s := Encoded(c) + rest;
    assert s[0] as int == 0xC0 + c / 0x40 && s[1] as int == 0x80 + c % 0x40 && s[2..] == rest;
  }

  lemma ValidAfterThree(c: nat, rest: string)
    requires 0x800 <= c < 0x1_0000 && Scalar(c)
    ensures ValidUtf8(Encoded(c) + rest) == ValidUtf8(rest)
  {
    var s := Encoded(c) + rest;
    assert s[0] as int == 0xE0 + c / 0x1000 && s[1] as int == 0x80 + c / 0x40 % 0x40;
    assert s[2] as int == 0x80 + c % 0x40 && s[3..] == rest;
    assert c / 0x1000 == 0 ==> c / 0x40 % 0x40 >= 0x20;
    assert c / 0x1000 == 0xD ==> c / 0x40 % 0x40 < 0x20;
  }

  lemma ValidAfterFour(c: nat, rest: string)
    requires 0x1_0000 <= c < 0x11_0000
    ensures ValidUtf8(Encoded(c) + rest) == ValidUtf8(rest)
  {
    var s := Encoded(c) + rest;
    assert s[0] as int == 0xF0 + c / 0x4_0000 && s[1] as int == 0x80 + c / 0x1000 % 0x40;
    assert s[2] as int == 0x80 + c / 0x40 % 0x40 && s[3] as int == 0x80 + c % 0x40 && s[4..] == rest;
    assert c / 0x4_0000 == 0 ==> c / 0x1000 % 0x40 >= 0x10;
    assert c / 0x4_0000 == 4 ==> c / 0x1000 % 0x40 < 0x10;
  }

  lemma ValidAfter(c: nat, rest: string)
    requires Scalar(c)
    ensures ValidUtf8(Encoded(c) + rest) == ValidUtf8(rest)
  {
    if c < 0x80 {
      assert (Encoded(c) + rest)[1..] == rest;
    } else if c < 0x800 {
      ValidAfterTwo(c, rest);
    } else if c < 0x1_0000 {
      ValidAfterThree(c, rest);
    } else {
      ValidAfterFour(c, rest);
    }
  }

  lemma {:induction false} EncodedIsValid(cs: seq<nat>)
    requires Scalars(cs)
    ensures ValidUtf8(EncodedAll(cs))
  {
    if cs != [] {
      EncodedIsValid(cs[1..]);
      ValidAfter(cs[0], EncodedAll(cs[1..]));
    }
  }

  lemma TwoBytes(b: int, d: int) returns (c: nat)
    requires 0xC2 <= b < 0xE0 && 0x80 <= d < 0xC0
    ensures Scalar(c) && Encoded(c) == [b as char, d as char]
  {
    c := (b - 0xC0) * 0x40 + (d - 0x80);
    assert c / 0x40 == b - 0xC0 && c % 0x40 == d - 0x80;
  }

  lemma ThreeBytes(b: int, d: int, e: int) returns (c: nat)
    requires 0xE0 <= b < 0xF0 && 0x80 <= d < 0xC0 && 0x80 <= e < 0xC0
    requires (b == 0xE0 ==> 0xA0 <= d) && (b == 0xED ==> d < 0xA0)
    ensures Scalar(c) && Encoded(c) == [b as char, d as char, e as char]
  {
    c := (b - 0xE0) * 0x1000 + (d - 0x80) * 0x40 + (e - 0x80);
    assert c / 0x1000 == b - 0xE0 && c / 0x40 == (b - 0xE0) * 0x40 + (d - 0x80);
    assert c / 0x40 % 0x40 == d - 0x80 && c % 0x40 == e - 0x80;
  }

  lemma FourBytes(b: int, d: int, e: int, f: int) returns (c: nat)
    requires 0xF0 <= b < 0xF5 && 0x80 <= d < 0xC0 && 0x80 <= e < 0xC0 && 0x80 <= f < 0xC0
    requires (b == 0xF0 ==> 0x90 <= d) && (b == 0xF4 ==> d < 0x90)
    ensures Scalar(c) && Encoded(c) == [b as char, d as char, e as char, f as char]
  {
    c := (b - 0xF0) * 0x4_0000 + (d - 0x80) * 0x1000 + (e - 0x80) * 0x40 + (f - 0x80);
    assert c / 0x4_0000 == b - 0xF0 && c / 0x1000 == (b - 0xF0) * 0x40 + (d - 0x80);
    assert c / 0x40 == ((b - 0xF0) * 0x40 + (d - 0x80)) * 0x40 + (e - 0x80);
    assert c / 0x1000 % 0x40 == d - 0x80 && c / 0x40 % 0x40 == e - 0x80 && c % 0x40 == f - 0x80;
  }

  /** The first character of valid text, and what follows it. */
  lemma FirstScalar(s: string) returns (c: nat, rest: string)
    requires s != "" && ValidUtf8(s)
    ensures Scalar(c) && s == Encoded(c) + rest && ValidUtf8(rest) && |rest| < |s|
  {
    var b := s[0] as int;
    if b < 0x80 {
      c, rest := b, s[1..];
    } else if b < 0xE0 {
      c := TwoBytes(b, s[1] as int);
      rest := s[2..];
      assert s[..2] == [s[0], s[1]];
    } else if b < 0xF0 {
      c := ThreeBytes(b, s[1] as int, s[2] as int);
      rest := s[3..];
      assert s[..3] == [s[0], s[1], s[2]];
    } else {
      c := FourBytes(b, s[1] as int, s[2] as int, s[3] as int);
      rest := s[4..];
      assert s[..4] == [s[0], s[1], s[2], s[3]];
    }
  }

  lemma {:induction false} DecodedText(s: string) returns (cs: seq<nat>)
    requires ValidUtf8(s)
    ensures Scalars(cs) && EncodedAll(cs) == s
    decreases |s|
  {
    if s == "" {
      cs := [];
    } else {
      var c, rest := FirstScalar(s);
      var more := DecodedText(rest);
      cs := [c] + more;
      assert cs[1..] == more;
    }
  }

  ghost predicate Encodes(cs: seq<nat>, s: string) {
    Scalars(cs) && EncodedAll(cs) == s
  }

  /** Valid UTF-8 is what scalar values encode to: no overlong form, no surrogate, nothing beyond the last one. */
  lemma Utf8Exactly(s: string)
    ensures ValidUtf8(s) <==> exists cs :: Encodes(cs, s)
  {
    if ValidUtf8(s) {
      var cs := DecodedText(s);
      assert Encodes(cs, s);
    }
    if exists cs :: Encodes(cs, s) {
      var cs :| Encodes(cs, s);
      EncodedIsValid(cs);
    }
  }
}
