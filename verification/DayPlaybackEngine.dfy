/** The day's one player: loading, seeking, auto-advance, and the aspect ratio it publishes. */
module DayPlaybackEngine {
  import opened Wrappers
  import opened DayPlayback

  const SNAP_CAP := 120000

  /** `PlaybackAspect.resolve`. */
  function Resolve(width: real, height: real): Option<real> {
    if width <= 0.0 || height <= 0.0 then None
    else if width / height < 0.5 || width / height > 4.0 then None
    else Some(width / height)
  }

  datatype State = State(
    target: Target,
    dayMs: Option<int>,
    aspect: Option<real>,
    chunks: seq<Chunk>,
    chunk: Option<Chunk>,
    cache: map<string, real>)

  const INIT := State(Placeholder(NothingCaptured), None, None, [], None, map[])

  function Cached(cache: map<string, real>, recording: string): Option<real> {
    if recording in cache then Some(cache[recording]) else None
  }

  function Insert(c: Chunk, sorted: seq<Chunk>): seq<Chunk> {
    if sorted == [] || c.start <= sorted[0].start then [c] + sorted else [sorted[0]] + Insert(c, sorted[1..])
  }

  function Sort(cs: seq<Chunk>): seq<Chunk> {
    if cs == [] then [] else Insert(cs[0], Sort(cs[1..]))
  }

  lemma {:induction false} InsertMembers(c: Chunk, sorted: seq<Chunk>, d: Chunk)
    ensures d in Insert(c, sorted) <==> d == c || d in sorted
  {
    if !(sorted == [] || c.start <= sorted[0].start) {
      InsertMembers(c, sorted[1..], d);
      assert sorted == [sorted[0]] + sorted[1..];
    }
  }

  lemma {:induction false} SortMembers(cs: seq<Chunk>, d: Chunk)
    ensures d in Sort(cs) <==> d in cs
  {
    if cs != [] {
      SortMembers(cs[1..], d);
      InsertMembers(cs[0], Sort(cs[1..]), d);
      assert cs == [cs[0]] + cs[1..];
    }
  }

  /** The chunks that start at this moment, as they are listed. */
  function Starting(cs: seq<Chunk>, ms: int): seq<Chunk> {
    if cs == [] then [] else (if cs[0].start == ms then [cs[0]] else []) + Starting(cs[1..], ms)
  }

  predicate ByStart(cs: seq<Chunk>) {
    forall j, k | 0 <= j < k < |cs| :: cs[j].start <= cs[k].start
  }

  lemma StartingWithFirst(c: Chunk, cs: seq<Chunk>, ms: int)
    ensures Starting([c] + cs, ms) == (if c.start == ms then [c] else []) + Starting(cs, ms)
  {
    assert ([c] + cs)[1..] == cs;
  }

  lemma {:induction false} InsertIsStable(c: Chunk, sorted: seq<Chunk>, ms: int)
    ensures Starting(Insert(c, sorted), ms) == Starting([c] + sorted, ms)
  {
    if !(sorted == [] || c.start <= sorted[0].start) {
      var first, rest := sorted[0], sorted[1..];
      InsertIsStable(c, rest, ms);
      StartingWithFirst(first, Insert(c, rest), ms);
      StartingWithFirst(c, rest, ms);
      StartingWithFirst(c, sorted, ms);
    }
  }

  lemma FirstByStart(c: Chunk, cs: seq<Chunk>)
    requires ByStart(cs) && forall d | d in cs :: c.start <= d.start
    ensures ByStart([c] + cs)
  {
  }

  lemma {:induction false} InsertStaysByStart(c: Chunk, sorted: seq<Chunk>)
    requires ByStart(sorted)
    ensures ByStart(Insert(c, sorted))
  {
    if sorted == [] || c.start <= sorted[0].start {
      FirstByStart(c, sorted);
    } else {
      InsertStaysByStart(c, sorted[1..]);
      forall d | d in Insert(c, sorted[1..]) ensures sorted[0].start <= d.start {
        InsertMembers(c, sorted[1..], d);
      }
      FirstByStart(sorted[0], Insert(c, sorted[1..]));
    }
  }

  /** Sorting puts the chunks in the order of their starts, and leaves those that start together as they were. */
  lemma {:induction false} SortIsStable(cs: seq<Chunk>, ms: int)
    ensures ByStart(Sort(cs)) && Starting(Sort(cs), ms) == Starting(cs, ms)
  {
    if cs != [] {
      SortIsStable(cs[1..], ms);
      InsertIsStable(cs[0], Sort(cs[1..]), ms);
      InsertStaysByStart(cs[0], Sort(cs[1..]));
      StartingWithFirst(cs[0], Sort(cs[1..]), ms);
    }
  }

  /** A size is usable if it is positive and between half as wide and four times as wide as it is high. */
  lemma ResolveExactly(width: real, height: real, aspect: real)
    ensures Resolve(width, height) == Some(aspect)
       <==> width > 0.0 && height > 0.0 && 0.5 <= aspect <= 4.0 && aspect * height == width
  {
    if height > 0.0 {
      QuotientExactly(width, height, aspect);
    }
  }

  lemma QuotientExactly(width: real, height: real, aspect: real)
    requires height > 0.0
    ensures width / height == aspect <==> aspect * height == width
  {
    assert width / height * height == width;
    if aspect * height == width {
      assert (aspect - width / height) * height == 0.0;
    }
  }

  predicate Usable(cs: seq<Chunk>) {
    Disjoint(cs) && AllWellFormed(cs)
  }

  predicate Apart(c: Chunk, cs: seq<Chunk>) {
    forall d | d in cs :: c.end <= d.start || d.end <= c.start
  }

  lemma DisjointWithFirst(c: Chunk, cs: seq<Chunk>)
    requires Disjoint(cs) && Apart(c, cs)
    ensures Disjoint([c] + cs)
  {
  }

  lemma {:induction false} InsertStaysDisjoint(c: Chunk, sorted: seq<Chunk>)
    requires Disjoint(sorted) && Apart(c, sorted)
    ensures Disjoint(Insert(c, sorted))
  {
    if sorted == [] || c.start <= sorted[0].start {
      DisjointWithFirst(c, sorted);
    } else {
      InsertStaysDisjoint(c, sorted[1..]);
      forall d | d in Insert(c, sorted[1..]) ensures sorted[0].end <= d.start || d.end <= sorted[0].start {
        InsertMembers(c, sorted[1..], d);
      }
      DisjointWithFirst(sorted[0], Insert(c, sorted[1..]));
    }
  }

  lemma {:induction false} SortStaysUsable(cs: seq<Chunk>)
    requires Usable(cs)
    ensures Usable(Sort(cs))
  {
    if cs != [] {
      SortStaysUsable(cs[1..]);
      forall d | d in Sort(cs[1..]) ensures cs[0].end <= d.start || d.end <= cs[0].start {
        SortMembers(cs[1..], d);
      }
      InsertStaysDisjoint(cs[0], Sort(cs[1..]));
    }
    forall d | d in Sort(cs) ensures WellFormed(d) {
      SortMembers(cs, d);
    }
  }

  // ---- steps ---------------------------------------------------------------------------

  function Seek(s: State, ms: int): State {
    var target := TargetAt(ms, s.chunks);
    match target
    case Placeholder(_) => s.(target := target, dayMs := Some(ms), chunk := None, aspect := None)
    case Media(c, _) =>
      var crossed := s.chunk.None? || s.chunk.value.recording != c.recording;
      s.(target := target, dayMs := Some(ms), chunk := Some(c),
         aspect := if crossed then Cached(s.cache, c.recording) else s.aspect)
  }

  function FirstAnchor(cs: seq<Chunk>): Option<int> {
    if cs == [] then None else cs[0].anchor
  }

  function Snap(s: State, ms: int): State {
    var next := NextChunk(ms, s.chunks);
    if s.target == Placeholder(NothingCaptured) && next.Some? && next.value.anchor.value - ms <= SNAP_CAP
    then Seek(s, next.value.anchor.value) else s
  }

  function Load(s: State, cs: seq<Chunk>, seekTo: Option<int>): State {
    var loaded := s.(chunks := Sort(cs));
    var ms := if seekTo.Some? then seekTo else FirstAnchor(loaded.chunks);
    if ms.None? then loaded else Snap(Seek(loaded, ms.value), ms.value)
  }

  function Report(s: State, width: real, height: real, recording: string): State {
    var aspect := Resolve(width, height);
    if s.chunk.None? || s.chunk.value.recording != recording || aspect.None? then s
    else s.(cache := s.cache[recording := aspect.value], aspect := aspect)
  }

  /** The item played to its end. */
  function Ended(s: State): State {
    match s.chunk
    case None => s
    case Some(c) =>
      var next := NextChunk(c.end, s.chunks);
      Seek(s, if next.Some? then next.value.anchor.value else c.end)
  }

  function Observe(s: State, playedMs: int): State {
    if s.chunk.Some? && s.chunk.value.anchor.Some? then s.(dayMs := Some(s.chunk.value.anchor.value + playedMs)) else s
  }

  function TearDown(s: State): State {
    s.(aspect := None, chunk := None)
  }

  datatype Event =
    | Loaded(chunks: seq<Chunk>, seekTo: Option<int>)
    | Sought(ms: int)
    | Reported(width: real, height: real, recording: string)
    | PlayedToEnd
    | Observed(playedMs: int)
    | TornDown

  function Step(s: State, e: Event): State {
    match e
    case Loaded(chunks, seekTo) => Load(s, chunks, seekTo)
    case Sought(ms) => Seek(s, ms)
    case Reported(width, height, recording) => Report(s, width, height, recording)
    case PlayedToEnd => Ended(s)
    case Observed(playedMs) => Observe(s, playedMs)
    case TornDown => TearDown(s)
  }

  function Run(events: seq<Event>): State {
    if events == [] then INIT else Step(Run(events[..|events| - 1]), events[|events| - 1])
  }

  // ---- the published aspect ------------------------------------------------------------------

  /** The aspect is that on file for the recording under the playhead, and the target shows that chunk. */
  predicate Coherent(s: State) {
    && s.aspect == (if s.chunk.None? then None else Cached(s.cache, s.chunk.value.recording))
    && (s.chunk.Some? ==> s.target.Media? && s.target.chunk == s.chunk.value)
  }

  lemma SeekStaysCoherent(s: State, ms: int)
    requires Coherent(s)
    ensures Coherent(Seek(s, ms)) && Seek(s, ms).cache == s.cache
  {
  }

  lemma LoadStaysCoherent(s: State, cs: seq<Chunk>, seekTo: Option<int>)
    requires Coherent(s)
    ensures Coherent(Load(s, cs, seekTo)) && Load(s, cs, seekTo).cache == s.cache
  {
    var loaded := s.(chunks := Sort(cs));
    var ms := if seekTo.Some? then seekTo else FirstAnchor(loaded.chunks);
    if ms.Some? {
      SeekStaysCoherent(loaded, ms.value);
      var sought := Seek(loaded, ms.value);
      if NextChunk(ms.value, sought.chunks).Some? {
        SeekStaysCoherent(sought, NextChunk(ms.value, sought.chunks).value.anchor.value);
      }
    }
  }

  lemma StepStaysCoherent(s: State, e: Event)
    requires Coherent(s)
    ensures Coherent(Step(s, e))
    ensures e.Reported? || Step(s, e).cache == s.cache
  {
    match e {
      case Loaded(cs, seekTo) => LoadStaysCoherent(s, cs, seekTo);
      case Sought(ms) => SeekStaysCoherent(s, ms);
      case PlayedToEnd =>
        if s.chunk.Some? {
          var next := NextChunk(s.chunk.value.end, s.chunks);
          SeekStaysCoherent(s, if next.Some? then next.value.anchor.value else s.chunk.value.end);
        }
      case _ =>
    }
  }

  /** A size that was reported for the recording and makes a usable shape. */
  ghost predicate Witness(events: seq<Event>, k: int, recording: string, aspect: real) {
    && 0 <= k < |events| && events[k].Reported? && events[k].recording == recording
    && Resolve(events[k].width, events[k].height) == Some(aspect)
  }

  lemma {:induction false} CacheIsWitnessed(events: seq<Event>, recording: string)
    requires recording in Run(events).cache
    ensures Coherent(Run(events))
    ensures exists k :: Witness(events, k, recording, Run(events).cache[recording])
  {
    AlwaysCoherent(events);
    if events != [] {
      var n := |events| - 1;
      var before := Run(events[..n]);
      AlwaysCoherent(events[..n]);
      StepStaysCoherent(before, events[n]);
      if recording in before.cache && before.cache[recording] == Run(events).cache[recording] {
        CacheIsWitnessed(events[..n], recording);
        var k :| Witness(events[..n], k, recording, before.cache[recording]);
        assert Witness(events, k, recording, Run(events).cache[recording]);
      } else {
        assert Witness(events, n, recording, Run(events).cache[recording]);
      }
    }
  }

  lemma {:induction false} AlwaysCoherent(events: seq<Event>)
    ensures Coherent(Run(events))
  {
    if events != [] {
      AlwaysCoherent(events[..|events| - 1]);
      StepStaysCoherent(Run(events[..|events| - 1]), events[|events| - 1]);
    }
  }

  /**
   * Over every run of loads, seeks, size reports and auto-advances: an aspect is published only
   * while media is shown, and it is the shape of a usable size reported for that very recording.
   */
  lemma AspectIsEarned(events: seq<Event>)
    requires Run(events).aspect.Some?
    ensures Run(events).target.Media?
    ensures exists k :: Witness(events, k, Run(events).target.chunk.recording, Run(events).aspect.value)
  {
    AlwaysCoherent(events);
    CacheIsWitnessed(events, Run(events).target.chunk.recording);
  }

  /** The newest usable size reported for a recording while that was the one shown. */
  function Newest(events: seq<Event>, recording: string): Option<real> {
    if events == [] then None
    else
      var n := |events| - 1;
      var shown := Run(events[..n]).chunk;
      if events[n].Reported? && events[n].recording == recording
         && shown.Some? && shown.value.recording == recording
         && Resolve(events[n].width, events[n].height).Some?
      then Resolve(events[n].width, events[n].height)
      else Newest(events[..n], recording)
  }

  lemma {:induction false} CacheIsNewest(events: seq<Event>, recording: string)
    ensures Cached(Run(events).cache, recording) == Newest(events, recording)
  {
    if events != [] {
      var n := |events| - 1;
      AlwaysCoherent(events[..n]);
      CacheIsNewest(events[..n], recording);
      StepStaysCoherent(Run(events[..n]), events[n]);
    }
  }

  /** And conversely: the shape published is the newest one reported for the recording shown, while it was shown. */
  lemma AspectIsNewest(events: seq<Event>)
    ensures var s := Run(events);
            s.aspect == if s.chunk.None? then None else Newest(events, s.chunk.value.recording)
  {
    AlwaysCoherent(events);
    if Run(events).chunk.Some? {
      CacheIsNewest(events, Run(events).chunk.value.recording);
    }
  }

  /** Seeking asks the chunks for the moment; playing moves the clock only, from the first frame of the chunk shown. */
  lemma ClockExactly(s: State, ms: int, playedMs: int)
    ensures var s' := Step(s, Sought(ms));
            s'.dayMs == Some(ms) && s'.target == TargetAt(ms, s.chunks) && s'.chunks == s.chunks
            && s'.chunk == if s'.target.Media? then Some(s'.target.chunk) else None
    ensures Step(s, Observed(playedMs))
         == if s.chunk.Some? && s.chunk.value.anchor.Some?
            then s.(dayMs := Some(s.chunk.value.anchor.value + playedMs)) else s
    ensures var s' := Step(s, TornDown);
            s'.aspect.None? && s'.chunk.None? && s' == s.(aspect := None, chunk := None)
  {
  }

  // ---- where it lands -------------------------------------------------------------------------------

  lemma AnchorIsMedia(cs: seq<Chunk>, c: Chunk)
    requires Usable(cs) && c in cs && Playable(c)
    ensures TargetAt(c.anchor.value, cs) == Media(c, 0.0)
  {
    MediaExactly(c.anchor.value, cs, c);
  }

  /** At the end of a chunk the player is at the first frame of the next playable one; when there is none it parks. */
  lemma AutoAdvancePlaysTheNext(s: State, c: Chunk)
    requires s.chunk == Some(c) && c in s.chunks && Playable(c) && Usable(s.chunks)
    ensures var (s', next) := (Ended(s), NextChunk(c.end, s.chunks));
            && (next.Some? ==> s'.target == Media(next.value, 0.0) && s'.dayMs == next.value.anchor)
            && (next.None? ==> s'.target.Placeholder? && s'.dayMs == Some(c.end))
  {
    var next := NextChunk(c.end, s.chunks);
    if next.Some? {
      AnchorIsMedia(s.chunks, next.value);
    } else {
      var s' := Ended(s);
      if s'.target.Media? {
        MediaExactly(c.end, s.chunks, s'.target.chunk);
        DisjointPair(s.chunks, c, s'.target.chunk);
      }
    }
  }

  // ---- auto-advance over any chunks, overlapping or not -------------------------------------------

  /** How many chunks end after `ms`. */
  function EndingAfter(cs: seq<Chunk>, ms: int): (n: nat)
    ensures n <= |cs|
  {
    if cs == [] then 0 else (if cs[0].end > ms then 1 else 0) + EndingAfter(cs[1..], ms)
  }

  lemma {:induction false} FewerEndAfter(cs: seq<Chunk>, ms: int, ms': int)
    requires ms <= ms'
    ensures EndingAfter(cs, ms') <= EndingAfter(cs, ms)
    ensures (exists c | c in cs :: ms < c.end <= ms') ==> EndingAfter(cs, ms') < EndingAfter(cs, ms)
  {
    if cs != [] {
      FewerEndAfter(cs[1..], ms, ms');
      assert cs == [cs[0]] + cs[1..];
    }
  }

  /** At the end of a chunk the clock moves to its end or beyond, and the chunk then under it, if any, ends later. */
  lemma EndedMovesOn(s: State, c: Chunk)
    requires s.chunk == Some(c) && AllWellFormed(s.chunks)
    ensures var s' := Ended(s);
            && s'.chunks == s.chunks && s'.dayMs.Some? && s'.dayMs.value >= c.end
            && (s'.chunk.Some? ==> s'.chunk.value in s.chunks && s'.chunk.value.end > c.end)
            && (s'.chunk.None? ==> s'.target.Placeholder?)
  {
  }

  /** The player's state after so many items have played to their end. */
  function AfterEnds(s: State, n: nat): State
    decreases n
  {
    if n == 0 then s else AfterEnds(Ended(s), n - 1)
  }

  lemma {:induction false} AdvancesAreBounded(s: State, c: Chunk, n: nat)
    requires s.chunk == Some(c) && AllWellFormed(s.chunks) && n > EndingAfter(s.chunks, c.end)
    ensures AfterEnds(s, n).chunk.None? && AfterEnds(s, n).target.Placeholder?
    decreases n
  {
    var s' := Ended(s);
    EndedMovesOn(s, c);
    if s'.chunk.None? {
      StaysParked(s', n - 1);
    } else {
      FewerEndAfter(s.chunks, c.end, s'.chunk.value.end);
      AdvancesAreBounded(s', s'.chunk.value, n - 1);
    }
  }

  lemma {:induction false} StaysParked(s: State, n: nat)
    requires s.chunk.None?
    ensures AfterEnds(s, n) == s
    decreases n
  {
    if n > 0 {
      StaysParked(s, n - 1);
    }
  }

  /**
   * However its chunks overlap, a day played through comes to an end: after at most one advance
   * more than the day has chunks the player is parked, having gone from chunk to chunk by ever
   * later ends, so never to the same one twice.
   */
  lemma AutoAdvanceEnds(s: State)
    requires AllWellFormed(s.chunks) && s.chunk.Some?
    ensures AfterEnds(s, |s.chunks| + 1).chunk.None? && AfterEnds(s, |s.chunks| + 1).target.Placeholder?
    ensures forall n: nat | AfterEnds(s, n + 1).chunk.Some? ::
              AfterEnds(s, n).chunk.Some? && AfterEnds(s, n).chunk.value.end < AfterEnds(s, n + 1).chunk.value.end
  {
    AdvancesAreBounded(s, s.chunk.value, |s.chunks| + 1);
    forall n: nat | AfterEnds(s, n + 1).chunk.Some?
      ensures AfterEnds(s, n).chunk.Some?
      ensures AfterEnds(s, n).chunk.value.end < AfterEnds(s, n + 1).chunk.value.end
    {
      OneMoreEnd(s, n);
      var before := AfterEnds(s, n);
      if before.chunk.Some? {
        EndedMovesOn(before, before.chunk.value);
      }
    }
  }

  lemma {:induction false} OneMoreEnd(s: State, n: nat)
    ensures AfterEnds(s, n + 1) == Ended(AfterEnds(s, n)) && AfterEnds(s, n).chunks == s.chunks
    decreases n
  {
    if n > 0 {
      OneMoreEnd(Ended(s), n - 1);
    }
  }

  /** An advance lands on the next chunk's first frame if and only if no other chunk is asked for that moment first. */
  lemma AutoAdvanceLandsExactly(s: State, c: Chunk, next: Chunk)
    requires s.chunk == Some(c) && AllWellFormed(s.chunks) && NextChunk(c.end, s.chunks) == Some(next)
    ensures Ended(s).target == Media(next, 0.0)
       <==> Foremost(s.chunks, (d: Chunk) => Contains(d, next.anchor.value), next)
  {
    var wanted := (d: Chunk) => Contains(d, next.anchor.value);
    assert next in s.chunks && wanted(next);
    EarliestIsForemost(s.chunks, wanted);
    var found := Earliest(s.chunks, wanted).value;
    assert TargetAt(next.anchor.value, s.chunks).Media? ==> TargetAt(next.anchor.value, s.chunks).chunk == found;
    if Foremost(s.chunks, wanted, next) {
      OnlyOneIsForemost(s.chunks, wanted, next, found);
    }
  }

  lemma DisjointPair(cs: seq<Chunk>, c: Chunk, d: Chunk)
    requires Disjoint(cs) && c in cs && d in cs && c != d
    ensures c.end <= d.start || d.end <= c.start
  {
  }

  /** An initial landing finds media if there is some at that moment, or nothing there and a first frame near after. */
  lemma LandsOnMediaExactly(s: State, cs: seq<Chunk>, ms: int)
    requires Usable(cs)
    ensures Load(s, cs, Some(ms)).target.Media?
       <==> || TargetAt(ms, Sort(cs)).Media?
            || (&& TargetAt(ms, Sort(cs)) == Placeholder(NothingCaptured)
                && NextChunk(ms, Sort(cs)).Some?
                && NextChunk(ms, Sort(cs)).value.anchor.value - ms <= 120000)
    ensures Load(s, cs, Some(ms)).target
         == if TargetAt(ms, Sort(cs)).Media? || !Load(s, cs, Some(ms)).target.Media? then TargetAt(ms, Sort(cs))
            else Media(NextChunk(ms, Sort(cs)).value, 0.0)
    ensures Load(s, cs, None)
         == if Sort(cs) == [] || Sort(cs)[0].anchor.None? then s.(chunks := Sort(cs))
            else Load(s, cs, Sort(cs)[0].anchor)
  {
    SortStaysUsable(cs);
    var next := NextChunk(ms, Sort(cs));
    if next.Some? {
      AnchorIsMedia(Sort(cs), next.value);
    }
  }

  /** The target is what the day's chunks hold at the clock; without a clock, nothing. */
  predicate Fits(s: State) {
    s.target == if s.dayMs.None? then Placeholder(NothingCaptured) else TargetAt(s.dayMs.value, s.chunks)
  }

  lemma SeekFits(s: State, ms: int)
    ensures Fits(Seek(s, ms)) && Seek(s, ms).chunks == s.chunks && Seek(s, ms).dayMs == Some(ms)
  {
  }

  /**
   * Loading without a moment to seek to moves nothing when the day's first chunk has no frame, or
   * there is no chunk: the target and the clock of the day before stay. So a load ends on the new
   * day if and only if that was not so, or target and clock happen to fit the new chunks too.
   */
  lemma LoadRefreshesExactly(s: State, cs: seq<Chunk>, seekTo: Option<int>)
    ensures Load(s, cs, seekTo).chunks == Sort(cs)
    ensures Fits(Load(s, cs, seekTo))
       <==> seekTo.Some? || FirstAnchor(Sort(cs)).Some? || Fits(s.(chunks := Sort(cs)))
  {
    var loaded := s.(chunks := Sort(cs));
    var ms := if seekTo.Some? then seekTo else FirstAnchor(loaded.chunks);
    if ms.Some? {
      SeekFits(loaded, ms.value);
      var sought := Seek(loaded, ms.value);
      if NextChunk(ms.value, sought.chunks).Some? {
        SeekFits(sought, NextChunk(ms.value, sought.chunks).value.anchor.value);
      }
    }
  }

  /** On a day with nothing captured: exactly when the player was already on such a placeholder. */
  lemma EmptyDayRefreshesExactly(s: State)
    ensures Fits(Load(s, [], None)) <==> s.target == Placeholder(NothingCaptured)
    ensures Fits(INIT) && INIT.chunks == [] && INIT.dayMs == None
  {
    LoadRefreshesExactly(s, [], None);
  }

  // ---- the engine ---------------------------------------------------------------------------------------

  class Engine {
    var target: Target
    var currentDayMs: Option<int>
    var sourceAspect: Option<real>
    var chunks: seq<Chunk>
    var currentChunk: Option<Chunk>
    var aspectCache: map<string, real>

    ghost function Now(): State
      reads this
    {
      State(target, currentDayMs, sourceAspect, chunks, currentChunk, aspectCache)
    }

    constructor ()
      ensures Now() == INIT
      ensures target == Placeholder(NothingCaptured) && currentDayMs.None? && sourceAspect.None?
      ensures chunks == [] && currentChunk.None? && aspectCache == map[]
    {
      target, currentDayMs, sourceAspect := Placeholder(NothingCaptured), None, None;
      chunks, currentChunk, aspectCache := [], None, map[];
    }

    method SeekTo(ms: int)
      modifies this
      ensures Now() == Seek(old(Now()), ms)
    {
      currentDayMs := Some(ms);
      target := TargetAt(ms, chunks);
      match target {
        case Media(chunk, _) =>
          if currentChunk != Some(chunk) {
            var crossedRecording := currentChunk.None? || currentChunk.value.recording != chunk.recording;
            currentChunk := Some(chunk);
            if crossedRecording {
              sourceAspect := Cached(aspectCache, chunk.recording);
            }
          }
        case Placeholder(_) =>
          currentChunk := None;
          sourceAspect := None;
      }
    }

    method LoadDay(cs: seq<Chunk>, seekTo: Option<int>)
      modifies this
      ensures Now() == Load(old(Now()), cs, seekTo)
    {
      chunks := Sort(cs);
      var ms := if seekTo.Some? then seekTo else FirstAnchor(chunks);
      if ms.None? {
        return;
      }
      SeekTo(ms.value);
      var next := NextChunk(ms.value, chunks);
      if target == Placeholder(NothingCaptured) && next.Some? && next.value.anchor.value - ms.value <= SNAP_CAP {
        SeekTo(next.value.anchor.value);
      }
    }

    method ApplyReportedSize(width: real, height: real, recording: string)
      modifies this
      ensures Now() == Report(old(Now()), width, height, recording)
    {
      if currentChunk.None? || currentChunk.value.recording != recording {
        return;
      }
      var aspect := Resolve(width, height);
      if aspect.Some? {
        aspectCache := aspectCache[recording := aspect.value];
        sourceAspect := aspect;
      }
    }

    method ItemEnded()
      modifies this
      ensures Now() == Ended(old(Now()))
    {
      if currentChunk.None? {
        return;
      }
      var ended := currentChunk.value;
      var next := NextChunk(ended.end, chunks);
      if next.Some? {
        SeekTo(next.value.anchor.value);
      } else {
        SeekTo(ended.end);
      }
    }

    method Close()
      modifies this
      ensures Now() == TearDown(old(Now()))
    {
      sourceAspect := None;
      currentChunk := None;
    }
  }
}
