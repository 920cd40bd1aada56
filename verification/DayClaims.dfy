/**
 * What the day strip says about an empty stretch: each gap is split at the
 * present moment, and each piece is given the one cause the evidence proves.
 */
module DayClaims {
  import opened Wrappers
  import opened DayGaps

  /** A recording's span with the end status it was stored with; `None` from an older daemon. */
  datatype Recording = Recording(start: int, end: int, endStatus: Option<string>)

  datatype Cause =
    | NothingOnFile
    | Interrupted(aroundMs: int)
    | StillRecording
    | CantVerify
    | NoClaim

  datatype Evidence = Evidence(
    recordings: seq<Recording>,
    storeMounted: bool,
    coverageComplete: bool,
    provenanceReady: bool)

  /** The latest-ending of those that end by `ms`, the first listed one among equals. */
  function Predecessor(recordings: seq<Recording>, ms: int): (r: Option<Recording>)
    ensures r.Some? ==> r.value in recordings && r.value.end <= ms
    ensures forall s | s in recordings && s.end <= ms :: r.Some? && s.end <= r.value.end
  {
    if recordings == [] then None
    else
      var later := Predecessor(recordings[1..], ms);
      if recordings[0].end <= ms && (later.None? || recordings[0].end >= later.value.end)
      then Some(recordings[0]) else later
  }

  function Verdict(r: Recording, coverageComplete: bool): Cause {
    match r.endStatus
    case None => CantVerify
    case Some(status) =>
      if status == "clean" then (if coverageComplete then NothingOnFile else CantVerify)
      else if status == "interrupted" then Interrupted(r.end)
      else if status == "live" then StillRecording
      else CantVerify
  }

  /** `gapCause`. */
  function CauseOf(gapStart: int, e: Evidence, nowMs: int): Cause {
    if !e.provenanceReady then NoClaim
    else if gapStart >= nowMs then NoClaim
    else if !e.storeMounted then CantVerify
    else
      match Predecessor(e.recordings, gapStart)
      case None => if e.coverageComplete then NothingOnFile else CantVerify
      case Some(r) => Verdict(r, e.coverageComplete)
  }

  /** `splitGapAtNow`. */
  function SplitAtNow(gap: Span, nowMs: int): seq<Span> {
    if gap.start < nowMs < gap.end then [Span(gap.start, nowMs), Span(nowMs, gap.end)] else [gap]
  }

  datatype Region = Region(span: Span, cause: Cause)

  /** A piece of a ready day about which nothing may be said is no region at all. */
  predicate Silent(piece: Span, e: Evidence, nowMs: int) {
    CauseOf(piece.start, e, nowMs) == NoClaim && e.provenanceReady
  }

  function RegionsOf(pieces: seq<Span>, e: Evidence, nowMs: int): seq<Region> {
    if pieces == [] then []
    else
      var rest := RegionsOf(pieces[1..], e, nowMs);
      if Silent(pieces[0], e, nowMs) then rest
      else [Region(pieces[0], CauseOf(pieces[0].start, e, nowMs))] + rest
  }

  function Pieces(gaps: seq<Span>, nowMs: int): seq<Span> {
    if gaps == [] then [] else SplitAtNow(gaps[0], nowMs) + Pieces(gaps[1..], nowMs)
  }

  /** The regions of a day with these gaps. */
  ghost predicate AreRegions(
    regions: seq<Region>, gaps: seq<Span>, bounds: Span, spans: seq<Span>, e: Evidence, nowMs: int)
  {
    IsComplement(gaps, bounds, spans) && regions == RegionsOf(Pieces(gaps, nowMs), e, nowMs)
  }

  lemma PiecesStep(gaps: seq<Span>, i: nat, nowMs: int)
    requires i < |gaps|
    ensures Pieces(gaps[i..], nowMs) == SplitAtNow(gaps[i], nowMs) + Pieces(gaps[i + 1..], nowMs)
  {
    assert gaps[i..][1..] == gaps[i + 1..];
  }

  lemma RegionsStep(regions: seq<Region>, parts: seq<Span>, j: nat, others: seq<Span>, e: Evidence, nowMs: int)
    requires j < |parts|
    ensures var all := RegionsOf(parts[j..] + others, e, nowMs);
            var rest := RegionsOf(parts[j + 1..] + others, e, nowMs);
            regions + all == if Silent(parts[j], e, nowMs) then regions + rest
                             else regions + [Region(parts[j], CauseOf(parts[j].start, e, nowMs))] + rest
  {
    assert (parts[j..] + others)[1..] == parts[j + 1..] + others;
  }

  /** The provenance layer's regions for a day's gaps. */
  method DayRegions(bounds: Span, spans: seq<Span>, e: Evidence, nowMs: int) returns (regions: seq<Region>)
    ensures exists gaps :: AreRegions(regions, gaps, bounds, spans, e, nowMs)
    ensures forall r | r in regions :: Tells(r.cause, r.span.start, e, nowMs)
  {
    var gaps := Gaps(bounds, spans);
    ghost var wanted := RegionsOf(Pieces(gaps, nowMs), e, nowMs);
    regions := [];
    var i := 0;
    while i < |gaps|
      invariant 0 <= i <= |gaps|
      invariant regions + RegionsOf(Pieces(gaps[i..], nowMs), e, nowMs) == wanted
    {
      PiecesStep(gaps, i, nowMs);
      var parts := SplitAtNow(gaps[i], nowMs);
      ghost var others := Pieces(gaps[i + 1..], nowMs);
      assert parts[0..] + others == Pieces(gaps[i..], nowMs);
      var j := 0;
      while j < |parts|
        invariant 0 <= j <= |parts|
        invariant regions + RegionsOf(parts[j..] + others, e, nowMs) == wanted
      {
        RegionsStep(regions, parts, j, others, e, nowMs);
        var cause := CauseOf(parts[j].start, e, nowMs);
        if cause != NoClaim {
          regions := regions + [Region(parts[j], cause)];
        } else if !e.provenanceReady {
          regions := regions + [Region(parts[j], NoClaim)];
        }
        j := j + 1;
      }
      assert parts[j..] + others == others;
      i := i + 1;
    }
    assert AreRegions(regions, gaps, bounds, spans, e, nowMs);
    forall r | r in regions ensures Tells(r.cause, r.span.start, e, nowMs) {
      RegionFromPiece(Pieces(gaps, nowMs), e, nowMs, r);
      CausesAreTold(r.span.start, e, nowMs);
    }
  }

  // ---- what a claim says ------------------------------------------------------------------

  /** The recording at `i` ends last of those that end by `ms`; of several that do, it is listed first. */
  predicate Decides(recordings: seq<Recording>, ms: int, i: nat) {
    && i < |recordings| && recordings[i].end <= ms
    && (forall j | 0 <= j < |recordings| && recordings[j].end <= ms :: recordings[j].end <= recordings[i].end)
    && (forall j | 0 <= j < i && recordings[j].end <= ms :: recordings[j].end < recordings[i].end)
  }

  /** The recording that decides has this status. */
  ghost predicate Before(recordings: seq<Recording>, ms: int, status: string) {
    exists i: nat :: Decides(recordings, ms, i) && recordings[i].endStatus == Some(status)
  }

  /** It was interrupted, and ends at this moment. */
  ghost predicate Interruption(recordings: seq<Recording>, ms: int, end: int) {
    exists i: nat ::
      Decides(recordings, ms, i) && recordings[i].endStatus == Some("interrupted") && recordings[i].end == end
  }

  /** It is an older daemon's, or its status is none of the three. */
  ghost predicate Unknown(recordings: seq<Recording>, ms: int) {
    exists i: nat ::
      Decides(recordings, ms, i)
      && (recordings[i].endStatus.None? || recordings[i].endStatus.value !in {"clean", "interrupted", "live"})
  }

  predicate NoneBefore(recordings: seq<Recording>, ms: int) {
    forall j | 0 <= j < |recordings| :: recordings[j].end > ms
  }

  /** The cause is what the recordings say about a gap that starts here. */
  ghost predicate Tells(cause: Cause, gapStart: int, e: Evidence, nowMs: int) {
    var claims := e.provenanceReady && gapStart < nowMs;
    var sees := claims && e.storeMounted;
    && (cause == NoClaim <==> !claims)
    && (forall ms :: cause == Interrupted(ms) <==>
          sees && Interruption(e.recordings, gapStart, ms))
    && (cause == StillRecording <==> sees && Before(e.recordings, gapStart, "live"))
    && (cause == NothingOnFile <==>
          && sees && e.coverageComplete
          && (NoneBefore(e.recordings, gapStart) || Before(e.recordings, gapStart, "clean")))
  }

  lemma DecidesHere(recordings: seq<Recording>, ms: int, j: nat, i: nat)
    requires recordings != []
    requires var (first, rest) := (recordings[0], recordings[1..]);
             && (NoneBefore(rest, ms) || Decides(rest, ms, j))
             && i == if first.end <= ms && (NoneBefore(rest, ms) || first.end >= rest[j].end) then 0 else j + 1
    ensures NoneBefore(recordings, ms) <==> recordings[0].end > ms && NoneBefore(recordings[1..], ms)
    ensures !NoneBefore(recordings, ms) ==> Decides(recordings, ms, i)
  {
    var rest := recordings[1..];
    assert forall k | 0 < k < |recordings| :: recordings[k] == rest[k - 1];
    assert forall k | 0 <= k < |rest| :: rest[k] == recordings[k + 1];
    if !NoneBefore(recordings, ms) && i > 0 {
      assert recordings[i] == rest[j];
    }
  }

  lemma {:induction false} OneDecides(recordings: seq<Recording>, ms: int) returns (i: nat)
    ensures Predecessor(recordings, ms).None? <==> NoneBefore(recordings, ms)
    ensures Predecessor(recordings, ms).Some? ==>
              Decides(recordings, ms, i) && recordings[i] == Predecessor(recordings, ms).value
  {
    if recordings == [] {
      i := 0;
    } else {
      var j := OneDecides(recordings[1..], ms);
      var later := Predecessor(recordings[1..], ms);
      i := if recordings[0].end <= ms && (later.None? || recordings[0].end >= later.value.end) then 0 else j + 1;
      DecidesHere(recordings, ms, j, i);
    }
  }

  /** There is one such recording at most, so what holds of one that decides holds of the predecessor. */
  lemma DeciderIsPredecessor(recordings: seq<Recording>, ms: int, i: nat)
    requires Decides(recordings, ms, i)
    ensures Predecessor(recordings, ms) == Some(recordings[i]) && !NoneBefore(recordings, ms)
  {
    var k := OneDecides(recordings, ms);
    assert recordings[i].end <= ms;
    assert k == i;
  }

  lemma ReadOff(recordings: seq<Recording>, ms: int)
    ensures var p := Predecessor(recordings, ms);
            && (p.None? <==> NoneBefore(recordings, ms))
            && (forall status :: Before(recordings, ms, status) <==> p.Some? && p.value.endStatus == Some(status))
            && (forall end :: Interruption(recordings, ms, end) <==>
                  p.Some? && p.value.endStatus == Some("interrupted") && p.value.end == end)
            && (Unknown(recordings, ms) <==>
                  p.Some? && (p.value.endStatus.None?
                              || p.value.endStatus.value !in {"clean", "interrupted", "live"}))
  {
    var i := OneDecides(recordings, ms);
    assert forall j: nat | Decides(recordings, ms, j) :: Predecessor(recordings, ms) == Some(recordings[j]) by {
      forall j: nat | Decides(recordings, ms, j) ensures Predecessor(recordings, ms) == Some(recordings[j]) {
        DeciderIsPredecessor(recordings, ms, j);
      }
    }
  }

  /** Whatever else is on file, the cause is the one the deciding recording gives: no other is claimed. */
  lemma CausesAreTold(gapStart: int, e: Evidence, nowMs: int)
    ensures Tells(CauseOf(gapStart, e, nowMs), gapStart, e, nowMs)
  {
    ReadOff(e.recordings, gapStart);
    StatusesDiffer();
  }

  lemma StatusesDiffer()
    ensures "clean" != "interrupted" && "clean" != "live" && "interrupted" != "live"
  {
    assert "clean"[0] == 'c' && "interrupted"[0] == 'i' && "live"[0] == 'l';
  }

  /** The rest of a past gap's causes: the store is away, coverage has holes, or the end is none of the known ones. */
  lemma CantVerifyExactly(gapStart: int, e: Evidence, nowMs: int)
    requires e.provenanceReady && gapStart < nowMs
    ensures CauseOf(gapStart, e, nowMs) == CantVerify
       <==> || !e.storeMounted
            || (!e.coverageComplete
                && (NoneBefore(e.recordings, gapStart) || Before(e.recordings, gapStart, "clean")))
            || Unknown(e.recordings, gapStart)
  {
    ReadOff(e.recordings, gapStart);
    CantVerifyOf(gapStart, e, nowMs, NoneBefore(e.recordings, gapStart), Before(e.recordings, gapStart, "clean"),
                 Unknown(e.recordings, gapStart));
  }

  lemma CantVerifyOf(gapStart: int, e: Evidence, nowMs: int, none: bool, clean: bool, unknown: bool)
    requires e.provenanceReady && gapStart < nowMs
    requires var p := Predecessor(e.recordings, gapStart);
             && (none <==> p.None?)
             && (clean <==> p.Some? && p.value.endStatus == Some("clean"))
             && (unknown <==>
                   p.Some? && (p.value.endStatus.None?
                               || p.value.endStatus.value !in {"clean", "interrupted", "live"}))
    ensures CauseOf(gapStart, e, nowMs) == CantVerify
       <==> !e.storeMounted || (!e.coverageComplete && (none || clean)) || unknown
  {
    StatusesDiffer();
  }

  // ---- the pieces tile the gaps ------------------------------------------------

  /** Pieces in order that do not overlap and do not straddle the present. */
  predicate Tiling(pieces: seq<Span>, nowMs: int) {
    && (forall k | 0 <= k < |pieces| :: pieces[k].start < pieces[k].end)
    && (forall k | 0 <= k < |pieces| :: pieces[k].end <= nowMs || nowMs <= pieces[k].start)
    && (forall j, k | 0 <= j < k < |pieces| :: pieces[j].end <= pieces[k].start)
  }

  lemma {:induction false} PiecesTile(gaps: seq<Span>, nowMs: int)
    requires Canonical(gaps)
    ensures Tiling(Pieces(gaps, nowMs), nowMs)
    ensures forall x :: InAny(Pieces(gaps, nowMs), x) <==> InAny(gaps, x)
    ensures forall k | 0 <= k < |Pieces(gaps, nowMs)| ::
              gaps != [] && gaps[0].start <= Pieces(gaps, nowMs)[k].start
  {
    if gaps != [] {
      PiecesTile(gaps[1..], nowMs);
      var first, rest := SplitAtNow(gaps[0], nowMs), Pieces(gaps[1..], nowMs);
      assert gaps == [gaps[0]] + gaps[1..];
      forall x ensures InAny(first + rest, x) <==> InAny(gaps, x) {
        InAnyOfConcat(first, rest, x);
        InAnyOfConcat([gaps[0]], gaps[1..], x);
        assert InAny([gaps[0]], x) <==> In([gaps[0]][0], x);
        if In(gaps[0], x) {
          assert In(first[0], x) || In(first[1], x);
        }
      }
    }
  }

  ghost predicate RegionAt(regions: seq<Region>, k: int, x: int) {
    0 <= k < |regions| && In(regions[k].span, x)
  }

  predicate InOrder(regions: seq<Region>) {
    forall j, k | 0 <= j < k < |regions| :: regions[j].span.end <= regions[k].span.start
  }

  /** Region `k` is one of the pieces, with its cause. */
  predicate FromPiece(r: Region, pieces: seq<Span>, e: Evidence, nowMs: int) {
    r.span in pieces && !Silent(r.span, e, nowMs) && r.cause == CauseOf(r.span.start, e, nowMs)
  }

  lemma {:induction false} RegionFromPiece(pieces: seq<Span>, e: Evidence, nowMs: int, r: Region)
    ensures r in RegionsOf(pieces, e, nowMs) <==> FromPiece(r, pieces, e, nowMs)
  {
    if pieces != [] {
      RegionFromPiece(pieces[1..], e, nowMs, r);
      assert pieces == [pieces[0]] + pieces[1..];
    }
  }

  lemma RestTiles(pieces: seq<Span>, nowMs: int)
    requires Tiling(pieces, nowMs) && pieces != []
    ensures Tiling(pieces[1..], nowMs)
    ensures forall p | p in pieces[1..] :: pieces[0].end <= p.start
  {
    forall p | p in pieces[1..] ensures pieces[0].end <= p.start {
      var k :| 0 < k < |pieces| && pieces[k] == p;
    }
  }

  lemma {:induction false} RegionsInOrder(pieces: seq<Span>, e: Evidence, nowMs: int)
    requires Tiling(pieces, nowMs)
    ensures InOrder(RegionsOf(pieces, e, nowMs))
  {
    if pieces != [] {
      RestTiles(pieces, nowMs);
      var rest := RegionsOf(pieces[1..], e, nowMs);
      RegionsInOrder(pieces[1..], e, nowMs);
      forall k | 0 <= k < |rest| ensures pieces[0].end <= rest[k].span.start {
        RegionFromPiece(pieces[1..], e, nowMs, rest[k]);
      }
    }
  }

  /** Region `k` is the only one at `x`, makes a claim exactly when the day is ready, and claims what is told. */
  ghost predicate SettledAt(regions: seq<Region>, k: int, x: int, e: Evidence, nowMs: int) {
    && RegionAt(regions, k, x)
    && (forall j | RegionAt(regions, j, x) :: j == k)
    && (regions[k].cause != NoClaim <==> e.provenanceReady)
    && Tells(regions[k].cause, regions[k].span.start, e, nowMs)
  }

  lemma PieceOf(pieces: seq<Span>, x: int, e: Evidence, nowMs: int)
    requires Tiling(pieces, nowMs) && InAny(pieces, x) && (x < nowMs || !e.provenanceReady)
    ensures exists k :: SettledAt(RegionsOf(pieces, e, nowMs), k, x, e, nowMs)
  {
    var regions := RegionsOf(pieces, e, nowMs);
    RegionsInOrder(pieces, e, nowMs);
    var j :| 0 <= j < |pieces| && In(pieces[j], x);
    var r := Region(pieces[j], CauseOf(pieces[j].start, e, nowMs));
    ClaimsArePast(pieces[j].start, e, nowMs);
    RegionFromPiece(pieces, e, nowMs, r);
    CausesAreTold(pieces[j].start, e, nowMs);
    var k :| 0 <= k < |regions| && regions[k] == r;
    assert SettledAt(regions, k, x, e, nowMs);
  }

  lemma RegionIsOf(pieces: seq<Span>, r: Region, x: int, e: Evidence, nowMs: int)
    requires Tiling(pieces, nowMs) && FromPiece(r, pieces, e, nowMs) && In(r.span, x)
    ensures InAny(pieces, x) && (x < nowMs || !e.provenanceReady)
  {
    var j :| 0 <= j < |pieces| && pieces[j] == r.span;
    assert In(pieces[j], x);
    ClaimsArePast(pieces[j].start, e, nowMs);
  }

  lemma NoRegion(pieces: seq<Span>, x: int, e: Evidence, nowMs: int)
    requires Tiling(pieces, nowMs) && !(InAny(pieces, x) && (x < nowMs || !e.provenanceReady))
    ensures forall k :: !RegionAt(RegionsOf(pieces, e, nowMs), k, x)
  {
    var regions := RegionsOf(pieces, e, nowMs);
    forall r | r in regions ensures !In(r.span, x) {
      RegionFromPiece(pieces, e, nowMs, r);
      if In(r.span, x) {
        RegionIsOf(pieces, r, x, e, nowMs);
      }
    }
  }

  /**
   * The whole day. On a ready day every past moment that nothing covers lies in exactly one region,
   * which makes a claim, and the future lies in none; before the data is in every uncovered moment
   * lies in exactly one region, which makes no claim. A covered moment lies in none.
   */
  lemma EveryEmptyInstantHasOneCause(
    bounds: Span, spans: seq<Span>, e: Evidence, nowMs: int, gaps: seq<Span>, regions: seq<Region>, x: int)
    requires AreRegions(regions, gaps, bounds, spans, e, nowMs)
    ensures if In(bounds, x) && !InAny(spans, x) && (x < nowMs || !e.provenanceReady)
            then exists k :: SettledAt(regions, k, x, e, nowMs)
            else forall k :: !RegionAt(regions, k, x)
  {
    PiecesTile(gaps, nowMs);
    if In(bounds, x) && !InAny(spans, x) && (x < nowMs || !e.provenanceReady) {
      PieceOf(Pieces(gaps, nowMs), x, e, nowMs);
    } else {
      NoRegion(Pieces(gaps, nowMs), x, e, nowMs);
    }
  }

  lemma ClaimsArePast(gapStart: int, e: Evidence, nowMs: int)
    ensures CauseOf(gapStart, e, nowMs) == NoClaim <==> gapStart >= nowMs || !e.provenanceReady
  {
  }

  // ---- honesty of the claims ------------------------------------------------------

  /** "Nothing on file" is claimed exactly on this evidence. */
  lemma NothingOnFileNeedsAllTheEvidence(gapStart: int, e: Evidence, nowMs: int)
    ensures CauseOf(gapStart, e, nowMs) == NothingOnFile
       <==> && e.provenanceReady && gapStart < nowMs && e.storeMounted && e.coverageComplete
            && (Predecessor(e.recordings, gapStart).None?
                || Predecessor(e.recordings, gapStart).value.endStatus == Some("clean"))
  {
  }

  /** The same recording, its end known no better. */
  predicate NoBetterKnown(w: Recording, s: Recording) {
    && w.start == s.start && w.end == s.end
    && (w.endStatus == s.endStatus || w.endStatus != Some("clean"))
  }

  predicate Weaker(weak: Evidence, strong: Evidence) {
    && (weak.provenanceReady ==> strong.provenanceReady)
    && (weak.storeMounted ==> strong.storeMounted)
    && (weak.coverageComplete ==> strong.coverageComplete)
    && |weak.recordings| == |strong.recordings|
    && forall k | 0 <= k < |weak.recordings| :: NoBetterKnown(weak.recordings[k], strong.recordings[k])
  }

  lemma {:induction false} PredecessorNoBetterKnown(weak: seq<Recording>, strong: seq<Recording>, ms: int)
    requires |weak| == |strong| && forall k | 0 <= k < |weak| :: NoBetterKnown(weak[k], strong[k])
    ensures var (w, s) := (Predecessor(weak, ms), Predecessor(strong, ms));
            (w.None? <==> s.None?) && (w.Some? ==> NoBetterKnown(w.value, s.value))
  {
    if weak != [] {
      PredecessorNoBetterKnown(weak[1..], strong[1..], ms);
    }
  }

  /** Taking evidence away never creates the claim. */
  lemma WeakerEvidenceNeverClaimsMore(gapStart: int, weak: Evidence, strong: Evidence, nowMs: int)
    requires Weaker(weak, strong) && CauseOf(gapStart, weak, nowMs) == NothingOnFile
    ensures CauseOf(gapStart, strong, nowMs) == NothingOnFile
  {
    PredecessorNoBetterKnown(weak.recordings, strong.recordings, gapStart);
    NothingOnFileNeedsAllTheEvidence(gapStart, weak, nowMs);
    NothingOnFileNeedsAllTheEvidence(gapStart, strong, nowMs);
  }

  /** A gap inside the axis starts where a recording ended, so its cause speaks of that very moment. */
  lemma InnerGapFollowsARecording(bounds: Span, recordings: seq<Recording>, gaps: seq<Span>, k: nat)
    requires k < |gaps| && IsComplement(gaps, bounds, SpansOf(recordings)) && gaps[k].start > bounds.start
    ensures var p := Predecessor(recordings, gaps[k].start);
            p.Some? && p.value.end == gaps[k].start
  {
    var spans, x := SpansOf(recordings), gaps[k].start;
    assert In(gaps[k], x) && InAny(gaps, x);
    assert !InAny(gaps, x - 1) by {
      assert forall j | 0 <= j < |gaps| :: !In(gaps[j], x - 1);
    }
    assert In(bounds, x - 1);
    var j :| 0 <= j < |spans| && In(spans[j], x - 1);
    assert !In(spans[j], x);
    assert recordings[j] in recordings && recordings[j].end == x;
  }

  function SpansOf(recordings: seq<Recording>): (r: seq<Span>)
    ensures |r| == |recordings|
    ensures forall k | 0 <= k < |r| :: r[k] == Span(recordings[k].start, recordings[k].end)
  {
    seq(|recordings|, k requires 0 <= k < |recordings| => Span(recordings[k].start, recordings[k].end))
  }

  // ---- ties ------------------------------------------------------------------------

  predicate Latest(recordings: seq<Recording>, ms: int, r: Recording) {
    && r in recordings && r.end <= ms
    && forall s | s in recordings && s.end <= ms :: s.end <= r.end
  }

  /** Every recording that ends last before `ms` leads to the same verdict. */
  ghost predicate TiesAgree(recordings: seq<Recording>, ms: int, coverageComplete: bool) {
    forall r, s | Latest(recordings, ms, r) && Latest(recordings, ms, s) ::
      Verdict(r, coverageComplete) == Verdict(s, coverageComplete)
  }

  /** The same recordings listed in another order. */
  ghost predicate Reordered(a: seq<Recording>, b: seq<Recording>) {
    multiset(a) == multiset(b)
  }

  /**
   * When two recordings end at the same moment the first one listed decides, so the claim is
   * independent of the daemon's listing order if and only if such ties agree.
   */
  lemma OrderMattersExactlyWhenTiesDisagree(gapStart: int, e: Evidence, nowMs: int)
    requires e.provenanceReady && e.storeMounted && gapStart < nowMs
    ensures TiesAgree(e.recordings, gapStart, e.coverageComplete)
       <==> forall other | Reordered(e.recordings, other) ::
              CauseOf(gapStart, e.(recordings := other), nowMs) == CauseOf(gapStart, e, nowMs)
  {
    if TiesAgree(e.recordings, gapStart, e.coverageComplete) {
      forall other | Reordered(e.recordings, other)
        ensures CauseOf(gapStart, e.(recordings := other), nowMs) == CauseOf(gapStart, e, nowMs)
      {
        SameMembers(e.recordings, other);
        var p, q := Predecessor(e.recordings, gapStart), Predecessor(other, gapStart);
        if p.Some? {
          assert Latest(e.recordings, gapStart, p.value) && Latest(e.recordings, gapStart, q.value);
        }
      }
    } else {
      var r, s :| Latest(e.recordings, gapStart, r) && Latest(e.recordings, gapStart, s)
               && Verdict(r, e.coverageComplete) != Verdict(s, e.coverageComplete);
      var a := BroughtForward(e.recordings, r);
      var b := BroughtForward(e.recordings, s);
      FirstLatestDecides(a, gapStart, r);
      FirstLatestDecides(b, gapStart, s);
    }
  }

  lemma SameMembers(a: seq<Recording>, b: seq<Recording>)
    requires Reordered(a, b)
    ensures forall r :: r in a <==> r in b
  {
    forall r ensures r in a <==> r in b {
      assert r in a <==> r in multiset(a);
    }
  }

  lemma BroughtForward(recordings: seq<Recording>, r: Recording) returns (other: seq<Recording>)
    requires r in recordings
    ensures Reordered(recordings, other) && other != [] && other[0] == r
    ensures forall s :: s in other <==> s in recordings
  {
    var k :| 0 <= k < |recordings| && recordings[k] == r;
    other := [r] + recordings[..k] + recordings[k + 1..];
    assert recordings == recordings[..k] + [r] + recordings[k + 1..];
    SameMembers(recordings, other);
  }

  lemma FirstLatestDecides(recordings: seq<Recording>, ms: int, r: Recording)
    requires recordings != [] && recordings[0] == r && Latest(recordings, ms, r)
    ensures Predecessor(recordings, ms) == Some(r)
  {
  }
}
