/**
 * The day strip's empty stretches: the complement of the recorded spans, as
 * half-open intervals of epoch milliseconds.
 */
module DayGaps {
  datatype Span = Span(start: int, end: int)

  predicate In(s: Span, x: int) {
    s.start <= x < s.end
  }

  predicate InAny(spans: seq<Span>, x: int) {
    exists k | 0 <= k < |spans| :: In(spans[k], x)
  }

  lemma InAnyOfConcat(a: seq<Span>, b: seq<Span>, x: int)
    ensures InAny(a + b, x) <==> InAny(a, x) || InAny(b, x)
  {
    if InAny(a, x) {
      var k :| 0 <= k < |a| && In(a[k], x);
      assert In((a + b)[k], x);
    }
    if InAny(b, x) {
      var k :| 0 <= k < |b| && In(b[k], x);
      assert In((a + b)[|a| + k], x);
    }
  }

  lemma InAnyOfOneMore(a: seq<Span>, s: Span, x: int)
    ensures InAny(a + [s], x) <==> InAny(a, x) || In(s, x)
  {
    InAnyOfConcat(a, [s], x);
    assert InAny([s], x) <==> In([s][0], x);
  }

  // ---- clamping and sorting --------------------------------------------------

  function Clamp(s: Span, bounds: Span): Span {
    Span(if s.start < bounds.start then bounds.start else s.start,
         if s.end > bounds.end then bounds.end else s.end)
  }

  /** Every span cut to the axis, without the ones that leaves empty. */
  function Clamped(spans: seq<Span>, bounds: Span): (r: seq<Span>)
    ensures forall k | 0 <= k < |r| :: bounds.start <= r[k].start < r[k].end <= bounds.end
  {
    if spans == [] then []
    else
      var first := Clamp(spans[0], bounds);
      (if first.end > first.start then [first] else []) + Clamped(spans[1..], bounds)
  }

  lemma {:induction false} ClampedCovers(spans: seq<Span>, bounds: Span, x: int)
    ensures InAny(Clamped(spans, bounds), x) <==> In(bounds, x) && InAny(spans, x)
  {
    if spans != [] {
      var first := Clamp(spans[0], bounds);
      ClampedCovers(spans[1..], bounds, x);
      InAnyOfConcat(if first.end > first.start then [first] else [], Clamped(spans[1..], bounds), x);
      assert InAny([first], x) <==> In([first][0], x);
      InAnyOfConcat([spans[0]], spans[1..], x);
      assert spans == [spans[0]] + spans[1..];
      assert InAny([spans[0]], x) <==> In([spans[0]][0], x);
    }
  }

  predicate SortedByStart(spans: seq<Span>) {
    forall j, k | 0 <= j < k < |spans| :: spans[j].start <= spans[k].start
  }

  function Insert(s: Span, sorted: seq<Span>): seq<Span> {
    if sorted == [] || s.start <= sorted[0].start then [s] + sorted
    else [sorted[0]] + Insert(s, sorted[1..])
  }

  /** `sorted { $0.startMs < $1.startMs }`. */
  function Sort(spans: seq<Span>): seq<Span> {
    if spans == [] then [] else Insert(spans[0], Sort(spans[1..]))
  }

  lemma {:induction false} InsertKeepsAll(s: Span, sorted: seq<Span>)
    ensures multiset(Insert(s, sorted)) == multiset(sorted) + multiset{s}
  {
    if !(sorted == [] || s.start <= sorted[0].start) {
      InsertKeepsAll(s, sorted[1..]);
      assert sorted == [sorted[0]] + sorted[1..];
    }
  }

  lemma {:induction false} InsertKeepsOrder(s: Span, sorted: seq<Span>)
    requires SortedByStart(sorted)
    ensures SortedByStart(Insert(s, sorted))
  {
    if !(sorted == [] || s.start <= sorted[0].start) {
      var rest := Insert(s, sorted[1..]);
      InsertKeepsOrder(s, sorted[1..]);
      InsertKeepsAll(s, sorted[1..]);
      forall k | 0 <= k < |rest| ensures sorted[0].start <= rest[k].start {
        assert rest[k] in multiset(rest);
        assert rest[k] == s || rest[k] in sorted[1..];
      }
    }
  }

  lemma {:induction false} SortFacts(spans: seq<Span>)
    ensures SortedByStart(Sort(spans)) && multiset(Sort(spans)) == multiset(spans)
  {
    if spans != [] {
      SortFacts(spans[1..]);
      InsertKeepsAll(spans[0], Sort(spans[1..]));
      InsertKeepsOrder(spans[0], Sort(spans[1..]));
      assert spans == [spans[0]] + spans[1..];
    }
  }

  lemma SamePoints(a: seq<Span>, b: seq<Span>, x: int)
    requires multiset(a) == multiset(b)
    ensures InAny(a, x) <==> InAny(b, x)
  {
    if InAny(a, x) {
      var k :| 0 <= k < |a| && In(a[k], x);
      assert a[k] in multiset(b);
    }
    if InAny(b, x) {
      var k :| 0 <= k < |b| && In(b[k], x);
      assert b[k] in multiset(a);
    }
  }

  // ---- the complement --------------------------------------------------------

  /** Non-empty intervals in order, with something between any two of them. */
  predicate Canonical(spans: seq<Span>) {
    && (forall k | 0 <= k < |spans| :: spans[k].start < spans[k].end)
    && (forall j, k | 0 <= j < k < |spans| :: spans[j].end < spans[k].start)
  }

  /** The specification of `gaps`: the axis without the spans, as separate intervals. */
  ghost predicate IsComplement(gaps: seq<Span>, bounds: Span, spans: seq<Span>) {
    && Canonical(gaps)
    && (forall k | 0 <= k < |gaps| :: bounds.start <= gaps[k].start && gaps[k].end <= bounds.end)
    && (forall x :: InAny(gaps, x) <==> In(bounds, x) && !InAny(spans, x))
  }

  lemma OneMoreSpan(spans: seq<Span>, i: nat)
    requires i < |spans|
    ensures forall x :: InAny(spans[..i + 1], x) <==> InAny(spans[..i], x) || In(spans[i], x)
  {
    assert spans[..i + 1] == spans[..i] + [spans[i]];
    forall x ensures InAny(spans[..i + 1], x) <==> InAny(spans[..i], x) || In(spans[i], x) {
      InAnyOfOneMore(spans[..i], spans[i], x);
    }
  }

  /** The last span widened by one that starts within it covers both, and no more. */
  lemma LastWidened(merged: seq<Span>, span: Span, wider: Span)
    requires merged != [] && merged[|merged| - 1].start <= span.start <= merged[|merged| - 1].end
    requires wider.start == merged[|merged| - 1].start
    requires wider.end == if merged[|merged| - 1].end < span.end then span.end else merged[|merged| - 1].end
    ensures forall x :: InAny(merged[..|merged| - 1] + [wider], x) <==> InAny(merged, x) || In(span, x)
  {
    var others, last := merged[..|merged| - 1], merged[|merged| - 1];
    assert merged == others + [last];
    forall x ensures InAny(others + [wider], x) <==> InAny(merged, x) || In(span, x) {
      InAnyOfOneMore(others, last, x);
      InAnyOfOneMore(others, wider, x);
    }
  }

  /** The spans merged where they touch or overlap. */
  method Merge(sorted: seq<Span>) returns (merged: seq<Span>)
    requires SortedByStart(sorted) && forall k | 0 <= k < |sorted| :: sorted[k].start < sorted[k].end
    ensures Canonical(merged)
    ensures forall x :: InAny(merged, x) <==> InAny(sorted, x)
  {
    merged := [];
    var i := 0;
    while i < |sorted|
      invariant 0 <= i <= |sorted|
      invariant Canonical(merged)
      invariant forall x :: InAny(merged, x) <==> InAny(sorted[..i], x)
      invariant merged != [] ==> i > 0 && merged[|merged| - 1].start <= sorted[i - 1].start
      invariant merged == [] ==> i == 0
    {
      var span := sorted[i];
      ghost var before := merged;
      if merged != [] && span.start <= merged[|merged| - 1].end {
        var last := merged[|merged| - 1];
        var wider := last.(end := if last.end < span.end then span.end else last.end);
        merged := merged[..|merged| - 1] + [wider];
        LastWidened(before, span, wider);
        assert forall x :: InAny(merged, x) <==> InAny(before, x) || In(span, x);
      } else {
        merged := merged + [span];
        forall x ensures InAny(merged, x) <==> InAny(before, x) || In(span, x) {
          InAnyOfOneMore(before, span, x);
        }
      }
      OneMoreSpan(sorted, i);
      i := i + 1;
    }
    assert sorted[..i] == sorted;
  }

  /** `DayStripLayout.gaps`: for any spans at all, exactly what no span covers. */
  method Gaps(bounds: Span, spans: seq<Span>) returns (result: seq<Span>)
    ensures IsComplement(result, bounds, spans)
  {
    if bounds.end <= bounds.start {
      return [];
    }
    var clamped := Sort(Clamped(spans, bounds));
    SortFacts(Clamped(spans, bounds));
    forall k | 0 <= k < |clamped|
      ensures bounds.start <= clamped[k].start < clamped[k].end <= bounds.end
    {
      assert clamped[k] in multiset(Clamped(spans, bounds));
    }
    var merged := Merge(clamped);
    forall x ensures InAny(merged, x) <==> In(bounds, x) && InAny(spans, x) {
      SamePoints(clamped, Clamped(spans, bounds), x);
      ClampedCovers(spans, bounds, x);
    }
    forall k | 0 <= k < |merged| ensures bounds.start <= merged[k].start && merged[k].end <= bounds.end {
      assert In(merged[k], merged[k].start) && In(merged[k], merged[k].end - 1);
      assert In(bounds, merged[k].start) && In(bounds, merged[k].end - 1);
    }
    result := Complement(bounds, merged);
  }

  method Complement(bounds: Span, merged: seq<Span>) returns (result: seq<Span>)
    requires bounds.start < bounds.end && Canonical(merged)
    requires forall k | 0 <= k < |merged| :: bounds.start <= merged[k].start && merged[k].end <= bounds.end
    ensures IsComplement(result, bounds, merged)
  {
    result := [];
    var cursor := bounds.start;
    var i := 0;
    while i < |merged|
      invariant 0 <= i <= |merged| && bounds.start <= cursor <= bounds.end
      invariant cursor == if i == 0 then bounds.start else merged[i - 1].end
      invariant Canonical(result)
      invariant forall k | 0 <= k < |result| :: bounds.start <= result[k].start && result[k].end < cursor
      invariant forall x :: InAny(result, x) <==> bounds.start <= x < cursor && !InAny(merged[..i], x)
    {
      var span := merged[i];
      ghost var before, from := result, cursor;
      if span.start > cursor {
        result := result + [Span(cursor, span.start)];
      }
      cursor := if cursor > span.end then cursor else span.end;
      assert merged[..i + 1] == merged[..i] + [span];
      forall x ensures InAny(result, x) <==> bounds.start <= x < cursor && !InAny(merged[..i + 1], x) {
        InAnyOfOneMore(before, Span(from, span.start), x);
        InAnyOfOneMore(merged[..i], span, x);
        BeyondAll(merged[..i], from, x);
      }
      i := i + 1;
    }
    assert merged[..i] == merged;
    if cursor < bounds.end {
      forall x ensures InAny(result + [Span(cursor, bounds.end)], x) <==> In(bounds, x) && !InAny(merged, x) {
        InAnyOfOneMore(result, Span(cursor, bounds.end), x);
        BeyondAll(merged, cursor, x);
      }
      result := result + [Span(cursor, bounds.end)];
    }
  }

  lemma BeyondAll(spans: seq<Span>, end: int, x: int)
    requires forall k | 0 <= k < |spans| :: spans[k].end <= end
    ensures InAny(spans, x) ==> x < end
  {
  }

  /** There is only one such list, so the spans' order and overlaps cannot matter. */
  lemma {:induction false} CanonicalIsUnique(a: seq<Span>, b: seq<Span>)
    requires Canonical(a) && Canonical(b) && forall x :: InAny(a, x) <==> InAny(b, x)
    ensures a == b
  {
    if a != [] {
      FirstMember(a);
    }
    if b != [] {
      FirstMember(b);
    }
    if a != [] && b != [] {
      assert InAny(a, b[0].start) && InAny(b, a[0].start);
      assert a[0].start == b[0].start;
      assert !InAny(a, b[0].end) && !InAny(b, a[0].end);
      assert !In(b[0], a[0].end) && !In(a[0], b[0].end);
      forall x ensures InAny(a[1..], x) <==> InAny(b[1..], x) {
        RestMembers(a, x);
        RestMembers(b, x);
      }
      CanonicalIsUnique(a[1..], b[1..]);
      assert a == [a[0]] + a[1..] && b == [b[0]] + b[1..];
    }
  }

  lemma FirstMember(a: seq<Span>)
    requires Canonical(a) && a != []
    ensures InAny(a, a[0].start) && !InAny(a, a[0].end)
    ensures forall x | InAny(a, x) :: a[0].start <= x
  {
    assert In(a[0], a[0].start);
  }

  lemma RestMembers(a: seq<Span>, x: int)
    requires Canonical(a) && a != []
    ensures InAny(a[1..], x) <==> InAny(a, x) && !In(a[0], x)
  {
    assert a == [a[0]] + a[1..];
    InAnyOfConcat([a[0]], a[1..], x);
    assert InAny([a[0]], x) <==> In([a[0]][0], x);
  }

  lemma GapsIgnoreOrder(bounds: Span, spans: seq<Span>, gaps: seq<Span>, spans': seq<Span>, gaps': seq<Span>)
    requires multiset(spans) == multiset(spans')
    requires IsComplement(gaps, bounds, spans) && IsComplement(gaps', bounds, spans')
    ensures gaps == gaps'
  {
    forall x ensures InAny(gaps, x) <==> InAny(gaps', x) {
      SamePoints(spans, spans', x);
    }
    CanonicalIsUnique(gaps, gaps');
  }

  // ---- lengths ---------------------------------------------------------------

  function TotalLength(spans: seq<Span>): int {
    if spans == [] then 0 else spans[0].end - spans[0].start + TotalLength(spans[1..])
  }

  function Instants(start: int, end: int): set<int> {
    set x: int | start <= x < end && In(Span(start, end), x)
  }

  lemma {:induction false} InstantsCount(start: int, end: int)
    requires start <= end
    ensures |Instants(start, end)| == end - start
    decreases end - start
  {
    if start < end {
      InstantsCount(start, end - 1);
      assert Instants(start, end) == Instants(start, end - 1) + {end - 1};
    }
  }

  function Inside(spans: seq<Span>, bounds: Span): set<int> {
    set x: int | bounds.start <= x < bounds.end && InAny(spans, x)
  }

  lemma {:induction false} CanonicalLength(spans: seq<Span>, bounds: Span)
    requires Canonical(spans)
    requires forall k | 0 <= k < |spans| :: bounds.start <= spans[k].start && spans[k].end <= bounds.end
    ensures TotalLength(spans) == |Inside(spans, bounds)|
  {
    if spans == [] {
      assert Inside(spans, bounds) == {};
    } else {
      CanonicalLength(spans[1..], bounds);
      InstantsCount(spans[0].start, spans[0].end);
      forall x
        ensures x in Inside(spans, bounds)
           <==> x in Instants(spans[0].start, spans[0].end) + Inside(spans[1..], bounds)
      {
        RestMembers(spans, x);
        if In(spans[0], x) {
          assert InAny(spans, x);
        }
      }
      assert Inside(spans, bounds) == Instants(spans[0].start, spans[0].end) + Inside(spans[1..], bounds);
      forall x | x in Instants(spans[0].start, spans[0].end) ensures x !in Inside(spans[1..], bounds) {
        RestMembers(spans, x);
      }
    }
  }

  /** Covered time and gap time add up to the axis. */
  lemma GapsAndCoverFillTheAxis(bounds: Span, spans: seq<Span>, gaps: seq<Span>)
    requires bounds.start <= bounds.end && IsComplement(gaps, bounds, spans)
    ensures TotalLength(gaps) + |Inside(spans, bounds)| == bounds.end - bounds.start
  {
    CanonicalLength(gaps, bounds);
    InstantsCount(bounds.start, bounds.end);
    var covered, empty := Inside(spans, bounds), Inside(gaps, bounds);
    assert Instants(bounds.start, bounds.end) == covered + empty;
    assert covered !! empty;
  }
}
