/**
 * Byte strings as the wire code handles them: searching for a separator and
 * printing and reading whole numbers. One `char` stands for one byte.
 */
module Bytes {
  import opened Wrappers

  const CRLF := "\r\n"
  const BLANK_LINE := "\r\n\r\n"
  // Swift's Int is 64 bits wide.
  const INT_LIMIT: int := 0x8000_0000_0000_0000

  predicate OccursAt(s: string, sep: string, i: nat) {
    i + |sep| <= |s| && s[i..i + |sep|] == sep
  }

  /** An occurrence is a place to cut the text at. */
  lemma OccursExactly(s: string, sep: string, i: nat)
    ensures OccursAt(s, sep, i) <==> exists before, after :: |before| == i && s == before + sep + after
  {
    if OccursAt(s, sep, i) {
      assert s == s[..i] + sep + s[i + |sep|..];
    }
  }

  /** `Data.range(of:)`: where `sep` first occurs in `s`. */
  function Find(s: string, sep: string): (r: Option<nat>)
    ensures r.Some? ==> OccursAt(s, sep, r.value) && forall j: nat | j < r.value :: !OccursAt(s, sep, j)
    ensures r.None? ==> forall j: nat :: !OccursAt(s, sep, j)
  {
    FindFrom(s, sep, 0)
  }

  function FindFrom(s: string, sep: string, i: nat): (r: Option<nat>)
    ensures r.Some? ==> i <= r.value && OccursAt(s, sep, r.value)
    ensures r.Some? ==> forall j: nat | i <= j < r.value :: !OccursAt(s, sep, j)
    ensures r.None? ==> forall j: nat | i <= j :: !OccursAt(s, sep, j)
    decreases |s| - i
  {
    if OccursAt(s, sep, i) then Some(i)
    else if i >= |s| then None
    else FindFrom(s, sep, i + 1)
  }

  /** What has been found stays the first occurrence however much input follows. */
  lemma FindExtends(a: string, b: string, sep: string)
    requires Find(a, sep).Some?
    ensures Find(a + b, sep) == Find(a, sep)
  {
    var i := Find(a, sep).value;
    forall j: nat | j <= i ensures OccursAt(a + b, sep, j) == OccursAt(a, sep, j) {
      assert (a + b)[j..j + |sep|] == a[j..j + |sep|];
    }
    FindIs(a + b, sep, i);
  }

  lemma FindIs(s: string, sep: string, i: nat)
    requires OccursAt(s, sep, i)
    requires forall j: nat | j < i :: !OccursAt(s, sep, j)
    ensures Find(s, sep) == Some(i)
  {
  }

  predicate Lacks(s: string, c: char) {
    forall k | 0 <= k < |s| :: s[k] != c
  }

  /** A separator opening with a byte the text lacks is first met right after the text. */
  lemma FindAfter(text: string, sep: string, rest: string)
    requires |sep| > 0 && Lacks(text, sep[0])
    ensures Find(text + sep + rest, sep) == Some(|text|)
  {
    var s := text + sep + rest;
    assert s[|text|..|text| + |sep|] == sep;
    forall j: nat | j < |text| ensures !OccursAt(s, sep, j) {
      assert s[j] == text[j] != sep[0];
      assert j + |sep| <= |s| ==> s[j..j + |sep|][0] == s[j];
    }
    FindIs(s, sep, |text|);
  }

  // ---- whole numbers ------------------------------------------------------

  // Decimal for lengths and statuses, hexadecimal for chunk sizes.
  type Base = b: nat | b == 10 || b == 16 witness 10

  function DigitChar(d: nat): (c: char)
    requires d < 16
  {
    if d < 10 then ('0' as int + d) as char else ('a' as int + d - 10) as char
  }

  /** The value of one digit; letters count in either case. */
  function DigitValue(c: char): (v: Option<nat>)
    ensures v.Some? ==> v.value < 16
  {
    if '0' <= c <= '9' then Some(c as int - '0' as int)
    else if 'a' <= c <= 'f' then Some(c as int - 'a' as int + 10)
    else if 'A' <= c <= 'F' then Some(c as int - 'A' as int + 10)
    else None
  }

  /** `String(n, radix:)`: most significant digit first, lower case. */
  function Print(n: nat, base: Base): (s: string)
    ensures |s| > 0
    ensures forall k | 0 <= k < |s| :: '0' <= s[k] <= '9' || 'a' <= s[k] <= 'f'
  {
    if n < base then [DigitChar(n)]
    else if base == 10 then Print(n / 10, 10) + [DigitChar(n % 10)]
    else Print(n / 16, 16) + [DigitChar(n % 16)]
  }

  /** The number written by a non-empty run of digits, `None` if any byte is not one. */
  function Value(s: string, base: Base): Option<nat> {
    if |s| == 0 then None
    else
      var d := DigitValue(s[|s| - 1]);
      if d.None? || d.value >= base then None
      else if |s| == 1 then d
      else
        var high := Value(s[..|s| - 1], base);
        if high.None? then None
        else if base == 10 then Some(high.value * 10 + d.value)
        else Some(high.value * 16 + d.value)
  }

  /** `Int(text, radix:)`: one optional sign, then digits; `None` when it does not fit 64 bits. */
  function ParseInt(s: string, base: Base): (r: Option<int>)
    ensures r.Some? ==> -INT_LIMIT <= r.value < INT_LIMIT
  {
    var negative := |s| > 0 && s[0] == '-';
    var digits := if |s| > 0 && (s[0] == '-' || s[0] == '+') then s[1..] else s;
    match Value(digits, base)
    case None => None
    case Some(v) =>
      var magnitude: int := v;
      var value := if negative then -magnitude else magnitude;
      if -INT_LIMIT <= value < INT_LIMIT then Some(value) else None
  }

  lemma ValueOfDigitAfter(high: string, low: nat, base: Base)
    requires low < base && Value(high, base).Some?
    ensures Value(high + [DigitChar(low)], base) == Some(base * Value(high, base).value + low)
  {
    var s := high + [DigitChar(low)];
    assert s[..|s| - 1] == high && DigitValue(s[|s| - 1]) == Some(low);
  }

  lemma {:induction false} ValueOfPrint(n: nat, base: Base)
    ensures Value(Print(n, base), base) == Some(n)
  {
    if n < base {
      assert DigitValue(DigitChar(n)) == Some(n);
    } else if base == 10 {
      ValueOfPrint(n / 10, base);
      ValueOfDigitAfter(Print(n / 10, base), n % 10, base);
    } else {
      ValueOfPrint(n / 16, base);
      ValueOfDigitAfter(Print(n / 16, base), n % 16, base);
    }
  }

  /** Printing a number and reading it back gives the number, in every base the wire uses. */
  lemma ParseOfPrint(n: nat, base: Base)
    requires n < INT_LIMIT
    ensures ParseInt(Print(n, base), base) == Some(n)
  {
    ValueOfPrint(n, base);
  }

  /** The digits by name, in either case, and nothing else. */
  lemma DigitsExactly(c: char, d: nat)
    ensures DigitValue(c) == Some(d)
       <==> || (d < 16 && "0123456789abcdef"[d] == c)
            || (10 <= d < 16 && "ABCDEF"[d - 10] == c)
  {
    var digits, capitals := "0123456789abcdef", "ABCDEF";
    if d < 10 {
      assert digits[d] == ('0' as int + d) as char;
    } else if d < 16 {
      assert digits[d] == ('a' as int + d - 10) as char && capitals[d - 10] == ('A' as int + d - 10) as char;
    }
  }

  lemma ValueOfOneMore(s: string, c: char, base: Base)
    requires s != ""
    ensures Value(s + [c], base)
         == var (high, d) := (Value(s, base), DigitValue(c));
            if high.Some? && d.Some? && d.value < base then Some(base * high.value + d.value) else None
  {
    var t := s + [c];
    assert t[..|t| - 1] == s && t[|t| - 1] == c;
  }

  lemma ValueOfOne(c: char, base: Base)
    ensures Value([c], base) == if DigitValue(c).Some? && DigitValue(c).value < base then DigitValue(c) else None
  {
  }

  /** One sign at most, and only what fits 64 bits, whose lower end reaches one further. */
  lemma ParseIntExactly(digits: string, base: Base)
    requires digits != "" && digits[0] != '+' && digits[0] != '-'
    ensures var v := Value(digits, base);
            var n: int := if v.Some? then v.value else 0;
            && ParseInt(digits, base) == (if v.Some? && n <= 0x7FFF_FFFF_FFFF_FFFF then Some(n) else None)
            && ParseInt("+" + digits, base) == ParseInt(digits, base)
            && ParseInt("-" + digits, base) == (if v.Some? && n <= 0x8000_0000_0000_0000 then Some(-n) else None)
  {
    assert ("+" + digits)[1..] == digits && ("-" + digits)[1..] == digits;
  }

  lemma NoDigitsNoNumber(base: Base)
    ensures ParseInt("", base) == ParseInt("+", base) == ParseInt("-", base) == None
  {
  }
}
