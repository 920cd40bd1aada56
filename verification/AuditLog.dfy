/**
 * The decommission audit log as bytes: one JSON object a line, and what is left of it when a
 * write is cut short and a later run appends to it.
 */
module AuditLog {
  import opened Wrappers
  import opened Bytes
  import opened EventStream
  import opened Text

  datatype Action = Planned | Deleted | KeptBack

  datatype Outcome = Outcome(src: string, action: Action, reason: string)

  // ---- a record as JSON -----------------------------------------------------------------

  function ActionName(a: Action): string {
    match a
    case Planned => "planned"
    case Deleted => "deleted"
    case KeptBack => "kept"
  }

  function Hex4(n: nat): string {
    [DigitChar(n / 4096 % 16), DigitChar(n / 256 % 16), DigitChar(n / 16 % 16), DigitChar(n % 16)]
  }

  /** One character inside a JSON string, as `json.dumps` writes it: ASCII only. */
  function Escape(c: char): (e: string)
    ensures e != "" && e[0] != '"'
  {
    var n := c as int;
    if c == '"' then "\\\""
    else if c == '\\' then "\\\\"
    else if ' ' <= c <= '~' then [c]
    else if c == '\n' then "\\n"
    else if c == '\r' then "\\r"
    else if c == '\t' then "\\t"
    else if n == 8 then "\\b"
    else if n == 12 then "\\f"
    else if n < 0x1_0000 then "\\u" + Hex4(n)
    else "\\u" + Hex4(0xD800 + (n - 0x1_0000) / 0x400) + "\\u" + Hex4(0xDC00 + (n - 0x1_0000) % 0x400)
  }

  function Escaped(s: string): string {
    if s == "" then "" else Escape(s[0]) + Escaped(s[1..])
  }

  function Quoted(s: string): string {
    "\"" + Escaped(s) + "\""
  }

  /** A key and its value, after a brace or a comma. */
  function Pair(before: string, key: string, value: string): string {
    before + ("\"" + key + "\"") + ": " + Quoted(value)
  }

  /** `json.dumps(..., sort_keys=True)` of an outcome. */
  function Record(o: Outcome): string {
    Pair("{", "action", ActionName(o.action)) + Pair(", ", "reason", o.reason) + Pair(", ", "src", o.src) + "}"
  }

  function LineOf(o: Outcome): string {
    Record(o) + "\n"
  }

  // ---- counting quotes ---------------------------------------------------------------------

  /** How many quotes are not escaped, and whether the end of the text escapes what follows. */
  function Quotes(s: string, escaped: bool): (nat, bool) {
    if s == "" then (0, escaped)
    else if escaped then Quotes(s[1..], false)
    else
      var (n, e) := Quotes(s[1..], s[0] == '\\');
      (n + if s[0] == '"' then 1 else 0, e)
  }

  lemma {:induction false} QuotesOfConcat(a: string, b: string, escaped: bool)
    ensures var (n, e) := Quotes(a, escaped);
            Quotes(a + b, escaped) == (n + Quotes(b, e).0, Quotes(b, e).1)
  {
    if a == "" {
      assert a + b == b;
    } else {
      assert (a + b)[1..] == a[1..] + b && (a + b)[0] == a[0];
      QuotesOfConcat(a[1..], b, if escaped then false else a[0] == '\\');
    }
  }

  /** Text without a quote or a backslash. */
  predicate Plain(s: string) {
    forall k | 0 <= k < |s| :: s[k] != '"' && s[k] != '\\'
  }

  lemma {:induction false} PlainHasNone(s: string)
    requires Plain(s)
    ensures Quotes(s, false) == (0, false)
  {
    if s != "" {
      PlainHasNone(s[1..]);
    }
  }

  lemma HexIsPlain(n: nat)
    ensures Plain(Hex4(n)) && Lacks(Hex4(n), '\n')
  {
  }

  /** A backslash and a character, then plain text. */
  lemma EscapeSequenceHasNone(c: char, rest: string)
    requires Plain(rest)
    ensures Quotes("\\" + [c] + rest, false) == (0, false)
  {
    var s := "\\" + [c] + rest;
    assert s[0] == '\\' && s[1..][0] == c && s[1..][1..] == rest;
    PlainHasNone(rest);
  }

  lemma HexEscapeHasNone(n: nat)
    ensures Quotes("\\u" + Hex4(n), false) == (0, false) && Lacks("\\u" + Hex4(n), '\n')
  {
    HexIsPlain(n);
    EscapeSequenceHasNone('u', Hex4(n));
    assert "\\u" + Hex4(n) == "\\" + ['u'] + Hex4(n);
  }

  lemma PairOfEscapesHasNone(high: nat, low: nat)
    ensures var s := "\\u" + Hex4(high) + "\\u" + Hex4(low);
            Quotes(s, false) == (0, false) && Lacks(s, '\n')
  {
    HexEscapeHasNone(high);
    HexEscapeHasNone(low);
    QuotesOfConcat("\\u" + Hex4(high), "\\u" + Hex4(low), false);
    assert "\\u" + Hex4(high) + "\\u" + Hex4(low) == ("\\u" + Hex4(high)) + ("\\u" + Hex4(low));
  }

  lemma ShortEscapeHasNone(c: char)
    ensures Quotes(['\\', c], false) == (0, false)
  {
    EscapeSequenceHasNone(c, "");
    assert ['\\', c] == "\\" + [c] + "";
  }

  lemma EscapeHasNone(c: char)
    ensures Quotes(Escape(c), false) == (0, false) && Lacks(Escape(c), '\n')
  {
    var n := c as int;
    if c == '"' || c == '\\' || c == '\n' || c == '\r' || c == '\t' || n == 8 || n == 12 {
      ShortEscapeHasNone(Escape(c)[1]);
      assert Escape(c) == ['\\', Escape(c)[1]];
    } else if ' ' <= c <= '~' {
      PlainHasNone([c]);
    } else if n < 0x1_0000 {
      HexEscapeHasNone(n);
    } else {
      PairOfEscapesHasNone(0xD800 + (n - 0x1_0000) / 0x400, 0xDC00 + (n - 0x1_0000) % 0x400);
    }
  }

  lemma {:induction false} EscapedHasNone(s: string)
    ensures Quotes(Escaped(s), false) == (0, false) && Lacks(Escaped(s), '\n')
  {
    if s != "" {
      EscapeHasNone(s[0]);
      EscapedHasNone(s[1..]);
      QuotesOfConcat(Escape(s[0]), Escaped(s[1..]), false);
    }
  }

  lemma QuotedHasTwo(s: string)
    ensures Quotes(Quoted(s), false) == (2, false) && Lacks(Quoted(s), '\n')
  {
    EscapedHasNone(s);
    QuotesOfConcat("\"", Escaped(s), false);
    QuotesOfConcat("\"" + Escaped(s), "\"", false);
  }

  lemma PairHasFour(before: string, key: string, value: string)
    requires Plain(before) && Plain(key) && Lacks(before, '\n') && Lacks(key, '\n')
    ensures Quotes(Pair(before, key, value), false) == (4, false) && Lacks(Pair(before, key, value), '\n')
  {
    PlainHasNone(before);
    PlainHasNone(key);
    PlainHasNone(": ");
    QuotedHasTwo(value);
    var name := "\"" + key + "\"";
    QuotesOfConcat("\"", key, false);
    QuotesOfConcat("\"" + key, "\"", false);
    QuotesOfConcat(before, name, false);
    QuotesOfConcat(before + name, ": ", false);
    QuotesOfConcat(before + name + ": ", Quoted(value), false);
  }

  lemma ThreePairs(a: string, b: string, c: string)
    requires Quotes(a, false) == Quotes(b, false) == Quotes(c, false) == (4, false)
    requires Lacks(a, '\n') && Lacks(b, '\n') && Lacks(c, '\n')
    ensures Quotes(a + b + c + "}", false) == (12, false) && Lacks(a + b + c + "}", '\n')
  {
    PlainHasNone("}");
    QuotesOfConcat(a, b, false);
    QuotesOfConcat(a + b, c, false);
    QuotesOfConcat(a + b + c, "}", false);
  }

  lemma RecordHasTwelve(o: Outcome)
    ensures Quotes(Record(o), false) == (12, false) && Lacks(Record(o), '\n')
  {
    PairHasFour("{", "action", ActionName(o.action));
    PairHasFour(", ", "reason", o.reason);
    PairHasFour(", ", "src", o.src);
    ThreePairs(Pair("{", "action", ActionName(o.action)), Pair(", ", "reason", o.reason), Pair(", ", "src", o.src));
  }

  lemma RecordOpens(o: Outcome)
    ensures |Record(o)| > 2 && Record(o)[0] == '{' && Record(o)[1] == '"'
  {
    assert Pair("{", "action", ActionName(o.action))[0] == '{';
    assert Pair("{", "action", ActionName(o.action))[1] == '"';
  }

  /** Even after a dangling backslash: the brace it takes is no quote. */
  lemma RecordHasTwelveAnyway(o: Outcome, escaped: bool)
    ensures Quotes(Record(o), escaped).0 == 12
  {
    RecordHasTwelve(o);
    RecordOpens(o);
  }

  // ---- what a reader of JSON makes of a record ---------------------------------------------------

  function HexValue(c: char): Option<nat> {
    if '0' <= c <= '9' then Some(c as int - '0' as int)
    else if 'a' <= c <= 'f' then Some(c as int - 'a' as int + 10)
    else if 'A' <= c <= 'F' then Some(c as int - 'A' as int + 10)
    else None
  }

  /** The four hexadecimal digits the text opens with. */
  function FourDigits(s: string): (r: Option<nat>)
    ensures r.Some? ==> r.value < 0x1_0000
  {
    if |s| < 4 then None
    else
      match (HexValue(s[0]), HexValue(s[1]), HexValue(s[2]), HexValue(s[3]))
      case (Some(a), Some(b), Some(c), Some(d)) => Some(0x1000 * a + 0x100 * b + 0x10 * c + d)
      case _ => None
  }

  /** The first character of a string's text, as section 7 of RFC 8259 reads it, and what follows. */
  function ReadCharacter(s: string): (r: Option<(char, string)>)
    ensures r.Some? ==> |r.value.1| < |s|
  {
    if s == "" || s[0] == '"' || s[0] < ' ' then None
    else if s[0] != '\\' then Some((s[0], s[1..]))
    else if |s| < 2 then None
    else
      match s[1]
      case '"' => Some(('"', s[2..]))
      case '\\' => Some(('\\', s[2..]))
      case '/' => Some(('/', s[2..]))
      case 'b' => Some((8 as char, s[2..]))
      case 'f' => Some((12 as char, s[2..]))
      case 'n' => Some(('\n', s[2..]))
      case 'r' => Some(('\r', s[2..]))
      case 't' => Some(('\t', s[2..]))
      case 'u' => ReadUnicode(s)
      case _ => None
  }

  /** `\uXXXX`, or two of them that are a surrogate pair. */
  function ReadUnicode(s: string): (r: Option<(char, string)>)
    requires |s| >= 2
    ensures r.Some? ==> |r.value.1| < |s|
  {
    match FourDigits(s[2..])
    case None => None
    case Some(unit) =>
      if 0xD800 <= unit < 0xDC00 then
        if |s| < 12 || s[6] != '\\' || s[7] != 'u' || FourDigits(s[8..]).None? then None
        else
          var low := FourDigits(s[8..]).value;
          if 0xDC00 <= low < 0xE000
          then Some(((0x1_0000 + (unit - 0xD800) * 0x400 + (low - 0xDC00)) as char, s[12..])) else None
      else if 0xDC00 <= unit < 0xE000 then None
      else Some((unit as char, s[6..]))
  }

  /** The text up to the closing quote, and what follows that. */
  function ReadText(s: string): (r: Option<(string, string)>)
    ensures r.Some? ==> |r.value.1| < |s|
    decreases |s|
  {
    if s != "" && s[0] == '"' then Some(("", s[1..]))
    else
      match ReadCharacter(s)
      case None => None
      case Some((c, rest)) =>
        (match ReadText(rest)
         case None => None
         case Some((text, rest')) => Some(([c] + text, rest')))
  }

  /** What follows this punctuation, if the text opens with it. */
  function After(punctuation: string, s: string): (r: Option<string>)
    ensures r.Some? ==> |r.value| <= |s|
  {
    if punctuation <= s then Some(s[|punctuation|..]) else None
  }

  /** The members of an object whose values are strings, and nothing after it. */
  function ReadMembers(before: string, s: string): Option<seq<(string, string)>>
    decreases |s|, 0
  {
    var first := After(before + "\"", s);
    if first.None? then None
    else
      var key := ReadText(first.value);
      if key.None? || After(": \"", key.value.1).None? then None
      else
        var value := ReadText(After(": \"", key.value.1).value);
        if value.None? then None
        else
          var member := (key.value.0, value.value.0);
          if value.value.1 == "}" then Some([member]) else MoreMembers(member, value.value.1)
  }

  function MoreMembers(member: (string, string), s: string): Option<seq<(string, string)>>
    decreases |s|, 1
  {
    match ReadMembers(", ", s)
    case None => None
    case Some(more) => Some([member] + more)
  }

  lemma HexIsRead(n: nat, rest: string)
    requires n < 0x1_0000
    ensures FourDigits(Hex4(n) + rest) == Some(n)
  {
    var (a, b, c, d) := (n / 4096 % 16, n / 256 % 16, n / 16 % 16, n % 16);
    ByNibbles(n);
    DigitIsRead(a);
    DigitIsRead(b);
    DigitIsRead(c);
    DigitIsRead(d);
    var s := Hex4(n) + rest;
    assert s[0] == DigitChar(a) && s[1] == DigitChar(b) && s[2] == DigitChar(c) && s[3] == DigitChar(d);
  }

  lemma DigitIsRead(d: nat)
    requires d < 16
    ensures HexValue(DigitChar(d)) == Some(d)
  {
  }

  lemma ByNibbles(n: nat)
    requires n < 0x1_0000
    ensures n == 4096 * (n / 4096 % 16) + 256 * (n / 256 % 16) + 16 * (n / 16 % 16) + n % 16
  {
    assert n / 4096 < 16;
    assert n / 256 == 16 * (n / 4096) + n / 256 % 16;
    assert n / 16 == 16 * (n / 256) + n / 16 % 16;
  }

  lemma UnitIsRead(n: nat, rest: string)
    requires n < 0x1_0000 && !(0xD800 <= n < 0xE000)
    ensures ReadCharacter("\\u" + Hex4(n) + rest) == Some((n as char, rest))
  {
    var s := "\\u" + Hex4(n) + rest;
    assert s[2..] == Hex4(n) + rest && s[6..] == rest;
    HexIsRead(n, rest);
  }

  lemma SurrogatesAreRead(high: nat, low: nat, rest: string)
    requires 0xD800 <= high < 0xDC00 <= low < 0xE000
    ensures ReadCharacter("\\u" + Hex4(high) + "\\u" + Hex4(low) + rest)
         == Some(((0x1_0000 + (high - 0xD800) * 0x400 + (low - 0xDC00)) as char, rest))
  {
    var s := "\\u" + Hex4(high) + "\\u" + Hex4(low) + rest;
    assert s[2..] == Hex4(high) + ("\\u" + Hex4(low) + rest) && s[8..] == Hex4(low) + rest && s[12..] == rest;
    assert s[6] == '\\' && s[7] == 'u';
    HexIsRead(high, "\\u" + Hex4(low) + rest);
    HexIsRead(low, rest);
  }

  lemma EscapeIsRead(c: char, rest: string)
    ensures ReadCharacter(Escape(c) + rest) == Some((c, rest))
  {
    var n := c as int;
    var s := Escape(c) + rest;
    if c == '"' || c == '\\' || c == '\n' || c == '\r' || c == '\t' || n == 8 || n == 12 {
      assert s[0] == '\\' && s[1] == Escape(c)[1] && s[2..] == rest;
    } else if ' ' <= c <= '~' {
      assert s[0] == c && s[1..] == rest;
    } else if n < 0x1_0000 {
      UnitIsRead(n, rest);
    } else {
      SurrogatesAreRead(0xD800 + (n - 0x1_0000) / 0x400, 0xDC00 + (n - 0x1_0000) % 0x400, rest);
    }
  }

  lemma {:induction false} TextIsRead(s: string, rest: string)
    ensures ReadText(Escaped(s) + ("\"" + rest)) == Some((s, rest))
  {
    if s == "" {
      assert Escaped(s) + ("\"" + rest) == "\"" + rest;
    } else {
      var after := Escaped(s[1..]) + ("\"" + rest);
      assert Escaped(s) + ("\"" + rest) == Escape(s[0]) + after;
      EscapeIsRead(s[0], after);
      TextIsRead(s[1..], rest);
      assert [s[0]] + s[1..] == s;
    }
  }

  /** Letters stand for themselves. */
  lemma {:induction false} LettersAreThemselves(key: string)
    requires forall k | 0 <= k < |key| :: 'a' <= key[k] <= 'z'
    ensures Escaped(key) == key
  {
    if key != "" {
      LettersAreThemselves(key[1..]);
    }
  }

  lemma PairThen(before: string, key: string, value: string, rest: string)
    ensures Pair(before, key, value) + rest
         == before + "\"" + (key + ("\"" + (": \"" + (Escaped(value) + ("\"" + rest)))))
  {
  }

  lemma AfterIt(punctuation: string, rest: string)
    ensures After(punctuation, punctuation + rest) == Some(rest)
  {
  }

  lemma PairIsRead(before: string, key: string, value: string, rest: string)
    requires forall k | 0 <= k < |key| :: 'a' <= key[k] <= 'z'
    ensures ReadMembers(before, Pair(before, key, value) + rest)
         == if rest == "}" then Some([(key, value)]) else MoreMembers((key, value), rest)
  {
    PairThen(before, key, value, rest);
    var last := Escaped(value) + ("\"" + rest);
    var middle := key + ("\"" + (": \"" + last));
    AfterIt(before + "\"", middle);
    LettersAreThemselves(key);
    TextIsRead(key, ": \"" + last);
    AfterIt(": \"", last);
    TextIsRead(value, rest);
  }

  lemma ReasonAndSource(reason: string, src: string)
    ensures ReadMembers(", ", Pair(", ", "reason", reason) + (Pair(", ", "src", src) + "}"))
         == Some([("reason", reason), ("src", src)])
  {
    PairIsRead(", ", "src", src, "}");
    var last := Pair(", ", "src", src) + "}";
    assert last[0] == ',';
    PairIsRead(", ", "reason", reason, last);
    assert [("reason", reason)] + [("src", src)] == [("reason", reason), ("src", src)];
  }

  lemma ThreeMembers(name: string, last: string, reason: string, src: string)
    requires last != "" && last[0] == ',' && ReadMembers(", ", last) == Some([("reason", reason), ("src", src)])
    ensures ReadMembers("{", Pair("{", "action", name) + last)
         == Some([("action", name), ("reason", reason), ("src", src)])
  {
    PairIsRead("{", "action", name, last);
    assert [("action", name)] + [("reason", reason), ("src", src)]
        == [("action", name), ("reason", reason), ("src", src)];
  }

  /** Any reader of JSON gets the outcome back, whatever characters its name and reason hold. */
  lemma RecordReadsBack(o: Outcome)
    ensures ReadMembers("{", Record(o))
         == Some([("action", ActionName(o.action)), ("reason", o.reason), ("src", o.src)])
    ensures ActionName(o.action)
         == if o.action.Deleted? then "deleted" else if o.action.Planned? then "planned" else "kept"
  {
    var last := Pair(", ", "reason", o.reason) + (Pair(", ", "src", o.src) + "}");
    assert Record(o) == Pair("{", "action", ActionName(o.action)) + last;
    ReasonAndSource(o.reason, o.src);
    assert last[0] == ',';
    ThreeMembers(ActionName(o.action), last, o.reason, o.src);
  }

  /** A line reads back as one outcome only. */
  lemma RecordsAreDistinct(o: Outcome, o': Outcome)
    ensures Record(o) == Record(o') <==> o == o'
  {
    if Record(o) == Record(o') {
      RecordReadsBack(o);
      RecordReadsBack(o');
      SameMembers(ActionName(o.action), o.reason, o.src, ActionName(o'.action), o'.reason, o'.src);
      NamesDiffer(o.action, o'.action);
    }
  }

  lemma SameMembers(a: string, r: string, s: string, a': string, r': string, s': string)
    requires [("action", a), ("reason", r), ("src", s)] == [("action", a'), ("reason", r'), ("src", s')]
    ensures a == a' && r == r' && s == s'
  {
    var members, members' := [("action", a), ("reason", r), ("src", s)], [("action", a'), ("reason", r'), ("src", s')];
    assert members[0] == members'[0] && members[1] == members'[1] && members[2] == members'[2];
  }

  lemma NamesDiffer(a: Action, b: Action)
    ensures ActionName(a) == ActionName(b) ==> a == b
  {
    assert "deleted"[0] == 'd' && "planned"[0] == 'p' && "kept"[0] == 'k';
  }

  // ---- lines -----------------------------------------------------------------------------------

  /** The line is one of the records. */
  ghost predicate Readable(line: string) {
    exists o :: line == Record(o)
  }

  lemma OpensWithAQuote(s: string)
    requires |s| >= 2 && s[0] == '{' && s[1] == '"'
    ensures Quotes(s, false).0 >= 1
  {
    var rest := s[1..];
    assert rest[0] == '"' && Quotes(rest, false).0 >= 1;
    assert Quotes(s, false).0 == Quotes(rest, false).0;
  }

  /** Whatever is in front of it on its line, a record is lost with it. */
  lemma GluedIsUnreadable(tail: string, o: Outcome)
    ensures Readable(tail + Record(o)) <==> tail == ""
  {
    if tail == "" {
      assert tail + Record(o) == Record(o);
    } else if Readable(tail + Record(o)) {
      var o' :| tail + Record(o) == Record(o');
      NoRecordInside(tail, o, o');
    }
  }

  lemma SecondByte(tail: string, o: Outcome)
    requires |tail| == 1
    ensures |tail + Record(o)| > 1 && (tail + Record(o))[1] == '{'
  {
    RecordOpens(o);
  }

  lemma NoRecordInside(tail: string, o: Outcome, o': Outcome)
    requires tail != ""
    ensures tail + Record(o) != Record(o')
  {
    RecordHasTwelve(o');
    RecordHasTwelveAnyway(o, Quotes(tail, false).1);
    QuotesOfConcat(tail, Record(o), false);
    RecordOpens(o');
    if |tail| == 1 {
      SecondByte(tail, o);
    } else if tail[0] == '{' && tail[1] == '"' {
      OpensWithAQuote(tail);
    } else {
      assert (tail + Record(o))[0] == tail[0] && (tail + Record(o))[1] == tail[1];
    }
  }

  /** The lines of outcomes, each whole. */
  function LinesOf(outcomes: seq<Outcome>): string {
    if outcomes == [] then "" else LineOf(outcomes[0]) + LinesOf(outcomes[1..])
  }

  ghost predicate AllReadable(log: string) {
    forall line | line in CutLines(log).lines :: Readable(line)
  }

  predicate OnBoundary(log: string) {
    CutLines(log).tail == ""
  }

  predicate CompletesNoLine(w: string) {
    CutLines(w).lines == []
  }

  lemma WithoutNewline(s: string)
    requires Lacks(s, '\n')
    ensures CutLines(s) == Cut([], s)
  {
  }

  lemma FirstLine(tail: string, o: Outcome, rest: string)
    requires Lacks(tail, '\n')
    ensures CutLines(tail + LineOf(o) + rest)
         == Cut([tail + Record(o)] + CutLines(rest).lines, CutLines(rest).tail)
  {
    RecordHasTwelve(o);
    var line := tail + Record(o);
    assert tail + LineOf(o) + rest == line + ['\n'] + rest;
    CutAtNewline(line, rest);
  }

  lemma BeginningOfTwo(w: string, a: string, b: string)
    requires w <= a + b
    ensures |w| < |a| ==> w <= a
    ensures |w| >= |a| ==> w == a + w[|a|..] && w[|a|..] <= b
  {
    assert w == (a + b)[..|w|];
    if |w| >= |a| {
      assert w[..|a|] == a && w[|a|..] == b[..|w| - |a|];
    }
  }

  lemma InsideALine(w: string, o: Outcome)
    requires w <= LineOf(o) && |w| < |LineOf(o)|
    ensures Lacks(w, '\n')
  {
    RecordHasTwelve(o);
    assert w == LineOf(o)[..|w|] == Record(o)[..|w|];
  }

  /** A beginning of these lines: it stops within the first one, or has it whole. */
  lemma BeginningOfLines(w: string, outcomes: seq<Outcome>)
    requires w <= LinesOf(outcomes) && outcomes != []
    ensures |w| < |LineOf(outcomes[0])| ==> Lacks(w, '\n')
    ensures |w| >= |LineOf(outcomes[0])| ==>
              && w == LineOf(outcomes[0]) + w[|LineOf(outcomes[0])|..]
              && w[|LineOf(outcomes[0])|..] <= LinesOf(outcomes[1..])
  {
    BeginningOfTwo(w, LineOf(outcomes[0]), LinesOf(outcomes[1..]));
    if |w| < |LineOf(outcomes[0])| {
      InsideALine(w, outcomes[0]);
    }
  }

  lemma ReadableOfConcat(first: Cut, both: Cut)
    ensures (forall line | line in Joined(first, both).lines :: Readable(line))
       <==> && (forall line | line in first.lines :: Readable(line))
            && (forall line | line in both.lines :: Readable(line))
  {
    assert forall line :: line in Joined(first, both).lines <==> line in first.lines || line in both.lines;
  }

  lemma ReadableByFirst(log: string, line: string, rest: string)
    requires CutLines(log) == Cut([line] + CutLines(rest).lines, CutLines(rest).tail)
    ensures AllReadable(log) <==> Readable(line) && AllReadable(rest)
    ensures CutLines(log).lines != []
  {
    var lines := [line] + CutLines(rest).lines;
    assert lines[0] == line;
    assert forall l :: l in lines <==> l == line || l in CutLines(rest).lines;
  }

  lemma GluedLine(tail: string, o: Outcome, rest: string)
    requires Lacks(tail, '\n') && AllReadable(rest)
    ensures AllReadable(tail + LineOf(o) + rest) <==> tail == ""
    ensures CutLines(tail + LineOf(o) + rest).lines != []
  {
    FirstLine(tail, o, rest);
    GluedIsUnreadable(tail, o);
    ReadableByFirst(tail + LineOf(o) + rest, tail + Record(o), rest);
  }

  lemma Regrouped(tail: string, line: string, rest: string, w: string)
    requires w == line + rest
    ensures tail + line + rest == tail + w && "" + line + rest == w
  {
  }

  lemma AfterTail(tail: string, o: Outcome, rest: string, w: string)
    requires Lacks(tail, '\n') && w == LineOf(o) + rest && AllReadable(rest)
    ensures AllReadable(tail + w) <==> tail == ""
    ensures CutLines(w).lines != []
  {
    Regrouped(tail, LineOf(o), rest, w);
    GluedLine(tail, o, rest);
    GluedLine("", o, rest);
  }

  /** What one run writes, cut anywhere, is readable by itself. */
  lemma {:induction false} BeginningIsReadable(w: string, outcomes: seq<Outcome>)
    requires w <= LinesOf(outcomes)
    ensures AllReadable(w)
    decreases |outcomes|
  {
    if outcomes == [] {
      WithoutNewline(w);
    } else {
      BeginningOfLines(w, outcomes);
      if |w| < |LineOf(outcomes[0])| {
        WithoutNewline(w);
      } else {
        var rest := w[|LineOf(outcomes[0])|..];
        BeginningIsReadable(rest, outcomes[1..]);
        AfterTail("", outcomes[0], rest, w);
        assert "" + w == w;
      }
    }
  }

  /**
   * A run's lines, as many as reached the disk, are appended to a log, whatever that holds. Every
   * complete line of it is then a record if and only if it was so before, and the log ended on a
   * line boundary or the run completed no line.
   */
  lemma AppendedIsReadableExactly(log: string, w: string, outcomes: seq<Outcome>)
    requires w <= LinesOf(outcomes)
    ensures AllReadable(log + w) <==> AllReadable(log) && (OnBoundary(log) || CompletesNoLine(w))
  {
    var tail := CutLines(log).tail;
    CutLinesOfConcat(log, w);
    ReadableOfConcat(CutLines(log), CutLines(tail + w));
    TailIsUnfinished(log);
    if outcomes == [] || |w| < |LineOf(outcomes[0])| {
      if outcomes != [] {
        BeginningOfLines(w, outcomes);
      }
      WithoutNewline(w);
      WithoutNewline(tail + w);
    } else {
      BeginningOfLines(w, outcomes);
      var rest := w[|LineOf(outcomes[0])|..];
      BeginningIsReadable(rest, outcomes[1..]);
      AfterTail(tail, outcomes[0], rest, w);
    }
  }

  /** A log ends on a boundary exactly when its last byte is a newline, or it is empty. */
  lemma {:induction false} BoundaryExactly(log: string)
    ensures OnBoundary(log) <==> log == "" || log[|log| - 1] == '\n'
    decreases |log|
  {
    var i := Index(log, '\n');
    if i < |log| {
      BoundaryExactly(log[i + 1..]);
    }
  }

  lemma {:induction false} LinesOfOneMore(outcomes: seq<Outcome>, o: Outcome)
    ensures LinesOf(outcomes + [o]) == LinesOf(outcomes) + LineOf(o)
  {
    var all := outcomes + [o];
    if outcomes == [] {
      assert all[0] == o && all[1..] == [];
    } else {
      assert all[0] == outcomes[0] && all[1..] == outcomes[1..] + [o];
      LinesOfOneMore(outcomes[1..], o);
      SeqAssociates(LineOf(outcomes[0]), LinesOf(outcomes[1..]), LineOf(o));
    }
  }

  lemma {:induction false} LinesEndOnBoundary(log: string, outcomes: seq<Outcome>)
    requires OnBoundary(log)
    ensures OnBoundary(log + LinesOf(outcomes))
  {
    if outcomes == [] {
      assert log + "" == log;
    } else {
      var n := |outcomes| - 1;
      assert outcomes == outcomes[..n] + [outcomes[n]];
      LinesOfOneMore(outcomes[..n], outcomes[n]);
      var all := log + LinesOf(outcomes);
      assert all[|all| - 1] == '\n';
      BoundaryExactly(all);
    }
  }
}
