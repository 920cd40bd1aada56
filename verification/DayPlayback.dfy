/**
 * Day playback over chunked video: resolving a moment of the day to a chunk
 * and an offset, advancing from chunk to chunk, and the published state.
 */
module DayPlayback {
  import opened Wrappers

  /** Half-open `[start, end)`; `media` is false once evicted; `anchor` is the first frame written. */
  datatype Chunk = Chunk(recording: string, media: bool, start: int, end: int, anchor: Option<int>)

  datatype Reason = NothingCaptured | MediaUnavailable

  datatype Target = Media(chunk: Chunk, offsetSeconds: real) | Placeholder(reason: Reason)

  predicate Contains(c: Chunk, t: int) {
    c.start <= t < c.end
  }

  predicate Playable(c: Chunk) {
    c.media && c.anchor.Some?
  }

  // ---- building chunks --------------------------------------------------------------

  datatype Manifest = Manifest(index: int, start: int, end: int)

  function FirstFrame(frames: seq<int>, start: int, end: int): (r: Option<int>)
    ensures r.Some? ==> r.value in frames && start <= r.value < end
    ensures r.None? ==> forall f | f in frames :: !(start <= f < end)
  {
    assert frames != [] ==> frames == [frames[0]] + frames[1..];
    if frames == [] then None
    else if start <= frames[0] < end then Some(frames[0])
    else FirstFrame(frames[1..], start, end)
  }

  /** A manifest's chunk: anchored at its first frame. */
  function ChunkOf(recording: string, m: Manifest, onDisk: set<int>, frames: seq<int>): Chunk {
    Chunk(recording, m.index in onDisk, m.start, m.end, FirstFrame(frames, m.start, m.end))
  }

  function LegacyChunk(recording: string, media: bool, videoStart: Option<int>, duration: Option<int>): Option<Chunk> {
    if videoStart.None? || duration.None? || duration.value <= 0 then None
    else Some(Chunk(recording, media, videoStart.value, videoStart.value + duration.value, videoStart))
  }

  /** A playable chunk's first frame lies inside it, so it is not empty. */
  predicate WellFormed(c: Chunk) {
    Playable(c) ==> c.start <= c.anchor.value < c.end
  }

  lemma BuiltChunksAreWellFormed(
    recording: string, m: Manifest, onDisk: set<int>, frames: seq<int>,
    media: bool, videoStart: Option<int>, duration: Option<int>)
    ensures WellFormed(ChunkOf(recording, m, onDisk, frames))
    ensures var legacy := LegacyChunk(recording, media, videoStart, duration);
            legacy.Some? ==> WellFormed(legacy.value)
  {
  }

  /** The frame listed first of those inside the chunk. */
  predicate FirstInside(frames: seq<int>, start: int, end: int, k: nat) {
    && k < |frames| && start <= frames[k] < end
    && forall j | 0 <= j < k :: !(start <= frames[j] < end)
  }

  lemma {:induction false} FirstFrameExactly(frames: seq<int>, start: int, end: int, k: nat)
    requires FirstInside(frames, start, end, k)
    ensures FirstFrame(frames, start, end) == Some(frames[k])
  {
    if k > 0 {
      FirstFrameExactly(frames[1..], start, end, k - 1);
    }
  }

  /** A recording without chunks is one, from its start and for its duration, if both are known and it is not empty. */
  lemma LegacyExactly(recording: string, media: bool, videoStart: Option<int>, duration: Option<int>, c: Chunk)
    ensures LegacyChunk(recording, media, videoStart, duration) == Some(c)
       <==> && videoStart == Some(c.start) && c.anchor == Some(c.start) && c.end > c.start
            && duration == Some(c.end - c.start) && c.recording == recording && c.media == media
  {
  }

  // ---- resolving a moment ----------------------------------------------------------------

  /** The first listed of the earliest-starting chunks that satisfy a condition: `filter(...).min(by:)`. */
  function Earliest(cs: seq<Chunk>, wanted: Chunk -> bool): (r: Option<Chunk>)
    ensures r.Some? ==> r.value in cs && wanted(r.value) && forall c | c in cs && wanted(c) :: r.value.start <= c.start
    ensures r.None? ==> forall c | c in cs :: !wanted(c)
  {
    if cs == [] then None
    else
      var rest := Earliest(cs[1..], wanted);
      if wanted(cs[0]) && (rest.None? || cs[0].start <= rest.value.start) then Some(cs[0]) else rest
  }

  ghost predicate FirstAt(cs: seq<Chunk>, wanted: Chunk -> bool, c: Chunk, k: int) {
    && 0 <= k < |cs| && cs[k] == c && wanted(c)
    && forall j | 0 <= j < |cs| && wanted(cs[j]) :: if j < k then c.start < cs[j].start else c.start <= cs[j].start
  }

  /** No chunk that satisfies the condition starts before it, nor with it and listed before it. */
  ghost predicate Foremost(cs: seq<Chunk>, wanted: Chunk -> bool, c: Chunk) {
    exists k :: FirstAt(cs, wanted, c, k)
  }

  lemma {:induction false} EarliestIsForemost(cs: seq<Chunk>, wanted: Chunk -> bool)
    requires Earliest(cs, wanted).Some?
    ensures Foremost(cs, wanted, Earliest(cs, wanted).value)
  {
    var rest := Earliest(cs[1..], wanted);
    if wanted(cs[0]) && (rest.None? || cs[0].start <= rest.value.start) {
      assert FirstAt(cs, wanted, cs[0], 0);
    } else {
      EarliestIsForemost(cs[1..], wanted);
      var k :| FirstAt(cs[1..], wanted, rest.value, k);
      assert FirstAt(cs, wanted, rest.value, k + 1);
    }
  }

  lemma OnlyOneIsForemost(cs: seq<Chunk>, wanted: Chunk -> bool, c: Chunk, d: Chunk)
    requires Foremost(cs, wanted, c) && Foremost(cs, wanted, d)
    ensures c == d
  {
    var j :| FirstAt(cs, wanted, c, j);
    var k :| FirstAt(cs, wanted, d, k);
  }

  function TargetAt(t: int, cs: seq<Chunk>): Target {
    match Earliest(cs, (c: Chunk) => Contains(c, t))
    case None => Placeholder(NothingCaptured)
    case Some(c) =>
      if !c.media then Placeholder(MediaUnavailable)
      else if c.anchor.None? then Placeholder(NothingCaptured)
      else
        var offset := (t - c.anchor.value) as real / 1000.0;
        Media(c, if offset < 0.0 then 0.0 else offset)
  }

  function NextChunk(ms: int, cs: seq<Chunk>): Option<Chunk> {
    Earliest(cs, (c: Chunk) => c.start >= ms && Playable(c))
  }

  /** The chunk asked at a moment: of those that contain it the first to start, of several such the first listed. */
  ghost predicate Asked(cs: seq<Chunk>, t: int, c: Chunk) {
    Foremost(cs, (d: Chunk) => d.start <= t < d.end, c)
  }

  lemma AskedExactly(cs: seq<Chunk>, t: int, c: Chunk)
    ensures Asked(cs, t, c) <==> Earliest(cs, (d: Chunk) => Contains(d, t)) == Some(c)
  {
    var wanted, contains := (d: Chunk) => d.start <= t < d.end, (d: Chunk) => Contains(d, t);
    assert forall d, k :: FirstAt(cs, wanted, d, k) <==> FirstAt(cs, contains, d, k);
    assert Asked(cs, t, c) <==> Foremost(cs, contains, c);
    ForemostExactly(cs, contains, c);
  }

  lemma ForemostExactly(cs: seq<Chunk>, wanted: Chunk -> bool, c: Chunk)
    ensures Foremost(cs, wanted, c) <==> Earliest(cs, wanted) == Some(c)
  {
    if Earliest(cs, wanted).Some? {
      EarliestIsForemost(cs, wanted);
      if Foremost(cs, wanted, c) {
        OnlyOneIsForemost(cs, wanted, c, Earliest(cs, wanted).value);
      }
    }
  }

  /**
   * Over any chunks, overlapping or not: the chunk asked plays, from its first frame on, if its
   * media is there and it has a frame; its media gone is said; anything else is nothing captured.
   */
  lemma TargetExactly(t: int, cs: seq<Chunk>, c: Chunk)
    ensures (exists offset :: TargetAt(t, cs) == Media(c, offset)) <==> Asked(cs, t, c) && c.media && c.anchor.Some?
    ensures forall offset | TargetAt(t, cs) == Media(c, offset) ::
              1000.0 * offset == (if t >= c.anchor.value then t - c.anchor.value else 0) as real
    ensures Asked(cs, t, c) ==>
              && (TargetAt(t, cs) == Placeholder(MediaUnavailable) <==> !c.media)
              && (TargetAt(t, cs) == Placeholder(NothingCaptured) <==> c.media && c.anchor.None?)
    ensures (forall d | d in cs :: !(d.start <= t < d.end)) ==> TargetAt(t, cs) == Placeholder(NothingCaptured)
  {
    AskedExactly(cs, t, c);
    if Asked(cs, t, c) && Playable(c) {
      assert TargetAt(t, cs) == Media(c, TargetAt(t, cs).offsetSeconds);
    }
  }

  /** The next chunk is the first, by start and then by listing, that starts here or later and can play. */
  lemma NextExactly(ms: int, cs: seq<Chunk>, c: Chunk)
    ensures NextChunk(ms, cs) == Some(c)
       <==> Foremost(cs, (d: Chunk) => d.start >= ms && d.media && d.anchor.Some?, c)
    ensures NextChunk(ms, cs) == None <==> forall d | d in cs :: !(d.start >= ms && d.media && d.anchor.Some?)
  {
    var wanted := (d: Chunk) => d.start >= ms && Playable(d);
    var plays := (d: Chunk) => d.start >= ms && d.media && d.anchor.Some?;
    assert forall d, k :: FirstAt(cs, wanted, d, k) <==> FirstAt(cs, plays, d, k);
    assert Foremost(cs, plays, c) <==> Foremost(cs, wanted, c);
    ForemostExactly(cs, wanted, c);
    assert forall d: Chunk :: wanted(d) <==> d.start >= ms && d.media && d.anchor.Some?;
  }

  predicate Disjoint(cs: seq<Chunk>) {
    forall j, k | 0 <= j < k < |cs| :: cs[j].end <= cs[k].start || cs[k].end <= cs[j].start
  }

  lemma OnlyOneContains(cs: seq<Chunk>, t: int, c: Chunk)
    requires Disjoint(cs) && c in cs && Contains(c, t)
    ensures Earliest(cs, (d: Chunk) => Contains(d, t)) == Some(c)
  {
    var found := Earliest(cs, (d: Chunk) => Contains(d, t));
    assert found.Some?;
    var j :| 0 <= j < |cs| && cs[j] == c;
    var k :| 0 <= k < |cs| && cs[k] == found.value;
  }

  /**
   * Over disjoint chunks: media exactly when a playable chunk contains the moment, it is that
   * chunk, and its first frame plus the offset is the moment itself, or the first frame if that
   * is later.
   */
  lemma MediaExactly(t: int, cs: seq<Chunk>, c: Chunk)
    requires Disjoint(cs)
    ensures (TargetAt(t, cs).Media? && TargetAt(t, cs).chunk == c) <==> c in cs && Contains(c, t) && Playable(c)
    ensures TargetAt(t, cs).Media? && TargetAt(t, cs).chunk == c ==>
              c.anchor.value as real + 1000.0 * TargetAt(t, cs).offsetSeconds
              == (if t >= c.anchor.value then t else c.anchor.value) as real
  {
    if c in cs && Contains(c, t) {
      OnlyOneContains(cs, t, c);
    }
  }

  /** "Unavailable" is said exactly of an evicted recording's time, "nothing captured" of the rest. */
  lemma PlaceholderIsHonest(t: int, cs: seq<Chunk>, c: Chunk)
    requires Disjoint(cs) && c in cs && Contains(c, t)
    ensures TargetAt(t, cs) == Placeholder(MediaUnavailable) <==> !c.media
    ensures TargetAt(t, cs) == Placeholder(NothingCaptured) <==> c.media && c.anchor.None?
  {
    OnlyOneContains(cs, t, c);
  }

  /** Where chunks overlap, only the earliest-starting one is asked, whether or not it can play. */
  lemma OverlapAsksTheEarliestOnly(t: int, cs: seq<Chunk>)
    ensures TargetAt(t, cs).Media?
       <==> exists c :: Earliest(cs, (d: Chunk) => Contains(d, t)) == Some(c) && Playable(c)
  {
    var found := Earliest(cs, (d: Chunk) => Contains(d, t));
    if found.Some? && Playable(found.value) {
      assert Earliest(cs, (d: Chunk) => Contains(d, t)) == Some(found.value) && Playable(found.value);
    }
  }

  // ---- playing on ------------------------------------------------------------------------

  function Later(cs: seq<Chunk>, ms: int): nat {
    if cs == [] then 0 else (if cs[0].start >= ms then 1 else 0) + Later(cs[1..], ms)
  }

  lemma {:induction false} LaterShrinks(cs: seq<Chunk>, ms: int, ms': int)
    requires ms <= ms'
    ensures Later(cs, ms') <= Later(cs, ms)
    ensures (exists c | c in cs :: ms <= c.start < ms') ==> Later(cs, ms') < Later(cs, ms)
  {
    if cs != [] {
      LaterShrinks(cs[1..], ms, ms');
      assert cs == [cs[0]] + cs[1..];
    }
  }

  predicate AllWellFormed(cs: seq<Chunk>) {
    forall c | c in cs :: WellFormed(c)
  }

  lemma NextMovesOn(cs: seq<Chunk>, ms: int)
    requires AllWellFormed(cs) && NextChunk(ms, cs).Some?
    ensures var c := NextChunk(ms, cs).value;
            ms <= c.start < c.end && Later(cs, c.end) < Later(cs, ms)
  {
    var c := NextChunk(ms, cs).value;
    assert c in cs && ms <= c.start < c.end;
    LaterShrinks(cs, ms, c.end);
  }

  /** Auto-advance: the chunks played, one after the other, from `ms` on. */
  ghost function Played(cs: seq<Chunk>, ms: int): seq<Chunk>
    requires AllWellFormed(cs)
    decreases Later(cs, ms)
  {
    match NextChunk(ms, cs)
    case None => []
    case Some(c) =>
      NextMovesOn(cs, ms);
      [c] + Played(cs, c.end)
  }

  predicate Sorted(cs: seq<Chunk>) {
    forall j, k | 0 <= j < k < |cs| :: cs[j].start <= cs[k].start && cs[j].end <= cs[k].start
  }

  /** The playable chunks that start at `ms` or later, in the order of the day. */
  function PlayableFrom(cs: seq<Chunk>, ms: int): seq<Chunk> {
    if cs == [] then []
    else (if cs[0].start >= ms && Playable(cs[0]) then [cs[0]] else []) + PlayableFrom(cs[1..], ms)
  }

  lemma {:induction false} NextIsTheHead(cs: seq<Chunk>, ms: int)
    requires Sorted(cs)
    ensures NextChunk(ms, cs) == if PlayableFrom(cs, ms) == [] then None else Some(PlayableFrom(cs, ms)[0])
  {
    if cs != [] {
      NextIsTheHead(cs[1..], ms);
      var rest := NextChunk(ms, cs[1..]);
      if rest.Some? {
        assert rest.value in cs[1..];
        assert cs[0].start <= rest.value.start;
      }
    }
  }

  lemma {:induction false} RestIsTheTail(cs: seq<Chunk>, ms: int)
    requires Sorted(cs) && AllWellFormed(cs) && PlayableFrom(cs, ms) != []
    ensures PlayableFrom(cs, PlayableFrom(cs, ms)[0].end) == PlayableFrom(cs, ms)[1..]
  {
    var c := PlayableFrom(cs, ms)[0];
    if cs[0].start >= ms && Playable(cs[0]) {
      assert PlayableFrom(cs, ms) == [c] + PlayableFrom(cs[1..], ms);
      assert WellFormed(c) && c.end > c.start;
      AllFromOn(cs[1..], ms, c.end);
    } else {
      RestIsTheTail(cs[1..], ms);
      StartsInside(cs[1..], ms);
    }
  }

  /** Everything listed starts at both bounds or later, so the bound does not matter. */
  lemma {:induction false} AllFromOn(cs: seq<Chunk>, ms: int, ms': int)
    requires forall c | c in cs :: c.start >= ms && c.start >= ms'
    ensures PlayableFrom(cs, ms) == PlayableFrom(cs, ms')
  {
    if cs != [] {
      AllFromOn(cs[1..], ms, ms');
    }
  }

  lemma {:induction false} StartsInside(cs: seq<Chunk>, ms: int)
    ensures forall c | c in PlayableFrom(cs, ms) :: c in cs && c.start >= ms && Playable(c)
  {
    if cs != [] {
      StartsInside(cs[1..], ms);
    }
  }

  /** Playing on from any moment visits every later playable chunk exactly once, in order, and stops. */
  lemma {:induction false} PlaysEveryChunkOnce(cs: seq<Chunk>, ms: int)
    requires Sorted(cs) && AllWellFormed(cs)
    ensures Played(cs, ms) == PlayableFrom(cs, ms)
    decreases Later(cs, ms)
  {
    NextIsTheHead(cs, ms);
    if PlayableFrom(cs, ms) != [] {
      NextMovesOn(cs, ms);
      var c := PlayableFrom(cs, ms)[0];
      RestIsTheTail(cs, ms);
      PlaysEveryChunkOnce(cs, c.end);
    }
  }
}
