/**
 * Decommissioning the flat namespace: an irreversible delete loop, each step
 * gated on a staging copy and recorded in an audit log, under an environment
 * that may fail, race or lose replies at every call.
 */
module Decommission {
  import opened Wrappers
  import opened AuditLog

  const RECORDINGS := "recordings/"
  const SESSIONS := "sessions/"
  const STAGING := "import-review/"
  const CHANGED := "source changed" + " since enumeration (generation mismatch)"
  const DRY_RUN_SUFFIX := ".dryrun.jsonl"

  // ---- objects and verification ---------------------------------------------------------

  datatype Blob = Blob(
    name: string,
    generation: Option<int>,
    crc: Option<string>,
    size: Option<int>,
    contentType: Option<string>,
    md5: Option<string>)

  /** What follows the prefix, if anything does. */
  function Remainder(key: string, prefix: string): Option<string> {
    if prefix <= key && |key| > |prefix| then Some(key[|prefix|..]) else None
  }

  function StagingName(key: string): string
    requires Remainder(key, RECORDINGS).Some?
  {
    STAGING + Remainder(key, RECORDINGS).value
  }

  /** Different recordings are staged under different names, so one copy can never vouch for two. */
  lemma StagingNamesDiffer(a: string, b: string)
    requires Remainder(a, RECORDINGS).Some? && Remainder(b, RECORDINGS).Some?
    ensures StagingName(a) == StagingName(b) <==> a == b
  {
    assert a == a[..|RECORDINGS|] + a[|RECORDINGS|..] && b == b[..|RECORDINGS|] + b[|RECORDINGS|..];
    assert StagingName(a)[|STAGING|..] == a[|RECORDINGS|..] && StagingName(b)[|STAGING|..] == b[|RECORDINGS|..];
  }

  function NonEmpty(s: Option<string>): Option<string> {
    if s == Some("") then None else s
  }

  /** `verify_match`: why the copy does not vouch for the source, if it does not. */
  function Mismatch(src: Blob, dst: Blob): Option<string> {
    if src.crc.None? || dst.crc.None? then Some("crc32c unavailable")
    else if src.crc != dst.crc then Some("crc32c mismatch")
    else if src.size.Some? && dst.size.Some? && src.size != dst.size then Some("size mismatch")
    else if NonEmpty(src.contentType) != NonEmpty(dst.contentType) then Some("content_type mismatch")
    else if NonEmpty(src.md5).Some? && NonEmpty(dst.md5).Some? && src.md5 != dst.md5 then Some("md5_hash mismatch")
    else None
  }

  /** The copy holds what the source does, as far as their checksums, sizes and types can say. */
  predicate Vouches(src: Blob, copy: Blob) {
    && src.crc.Some? && copy.crc.Some? && src.crc.value == copy.crc.value
    && (src.size.Some? && copy.size.Some? ==> src.size.value == copy.size.value)
    && (src.contentType == copy.contentType || (Untyped(src) && Untyped(copy)))
    && (src.md5.Some? && src.md5.value != "" && copy.md5.Some? && copy.md5.value != "" ==>
          src.md5.value == copy.md5.value)
  }

  predicate Untyped(b: Blob) {
    b.contentType.None? || b.contentType.value == ""
  }

  /** `verify_match` has nothing to object to exactly when the copy vouches for the source. */
  lemma MismatchExactly(src: Blob, copy: Blob)
    ensures Mismatch(src, copy).None? <==> Vouches(src, copy)
  {
  }

  /** The first thing that does not agree is what is named. */
  lemma MismatchNames(src: Blob, copy: Blob)
    ensures var (named, given) := (Mismatch(src, copy), src.crc.Some? && copy.crc.Some?);
            var sized := src.size.Some? && copy.size.Some? ==> src.size == copy.size;
            var typed := src.contentType == copy.contentType || (Untyped(src) && Untyped(copy));
            && (named == Some("crc32c unavailable") <==> !given)
            && (named == Some("crc32c mismatch") <==> given && src.crc != copy.crc)
            && (named == Some("size mismatch") <==> given && src.crc == copy.crc && !sized)
            && (named == Some("content_type mismatch") <==> given && src.crc == copy.crc && sized && !typed)
            && (named == Some("md5_hash mismatch") <==>
                  given && src.crc == copy.crc && sized && typed && !Vouches(src, copy))
  {
    assert "crc32c unavailable"[7] == 'u' && "crc32c mismatch"[7] == 'm' && "crc32c mismatch"[0] == 'c';
    assert "size mismatch"[0] == 's' && "content_type mismatch"[1] == 'o' && "crc32c unavailable"[1] == 'r';
    assert "crc32c mismatch"[1] == 'r' && "content_type mismatch"[0] == 'c' && "md5_hash mismatch"[0] == 'm';
  }

  lemma RemainderExactly(key: string, prefix: string, rest: string)
    ensures Remainder(key, prefix) == Some(rest) <==> rest != "" && key == prefix + rest
  {
    if prefix <= key {
      assert key == prefix + key[|prefix|..];
    }
  }

  // ---- the environment -------------------------------------------------------------------

  /** An error of the storage service is handled; any other leaves the loop, an `OSError` or not. */
  datatype Fetch = Fetched(copy: Option<Blob>) | FetchFails(error: string) | FetchDies(os: bool)

  /** A call can fail before it reaches the store, or after it took effect there. */
  datatype Transport =
    | Works
    | FailsBefore(error: string)
    | FailsAfter(error: string)
    | DiesBefore(os: bool)
    | DiesAfter(os: bool)

  /** Writing an audit line: done, or raised with so many of its bytes on disk in the end. */
  datatype Sink = Kept | Raised(bytes: nat)

  /** How a listing ends. */
  datatype Ending = Ends | Dies(os: bool)

  datatype Recorder = Active | Idle | Unknown

  /** Everything the outside answers; the `n`-th object handled meets the `n`-th answers. */
  datatype Cloud = Cloud(
    recorder: Recorder,
    recordings: seq<Blob>,
    recordingsEnd: Ending,
    sessions: seq<Blob>,
    sessionsEnd: Ending,
    fetch: nat -> Fetch,
    live: nat -> Option<Blob>,
    transport: nat -> Transport,
    sink: nat -> Sink,
    leftRecordings: seq<Blob>,
    leftSessions: seq<Blob>,
    rescanEnd: Ending,
    closeRaises: bool)

  // ---- what a run does ---------------------------------------------------------------------

  datatype Effect =
    | Saw(src: Blob)
    | Got(staging: string, copy: Option<Blob>)
    | Destroyed(name: string, blob: Blob)
    | Wrote(line: Outcome, cut: Option<nat>)

  datatype Progress = Going | SinkFailed | Broken(os: bool)

  datatype Run = Run(outcomes: seq<Outcome>, effects: seq<Effect>, progress: Progress)

  function ErrorReason(error: string): string {
    "error: " + error
  }

  predicate IsErrorReason(reason: string) {
    "error: " <= reason
  }

  datatype Reply = Gone | Precondition | Failed(error: string) | Died(os: bool)

  /** The store's side of a delete: nothing there, a newer generation, or the object destroyed. */
  function Delete(c: Cloud, n: nat, name: string, generation: Option<int>): (Reply, seq<Effect>) {
    match c.transport(n)
    case FailsBefore(error) => (Failed(error), [])
    case FailsAfter(error) => (Failed(error), Destruction(c.live(n), name, generation))
    case DiesBefore(os) => (Died(os), [])
    case DiesAfter(os) => (Died(os), Destruction(c.live(n), name, generation))
    case Works =>
      if c.live(n).None? then (Failed("404"), [])
      else if !Deletable(c.live(n), generation) then (Precondition, [])
      else (Gone, [Destroyed(name, c.live(n).value)])
  }

  function Destruction(live: Option<Blob>, name: string, generation: Option<int>): seq<Effect> {
    if Deletable(live, generation) then [Destroyed(name, live.value)] else []
  }

  predicate Deletable(live: Option<Blob>, generation: Option<int>) {
    live.Some? && (generation.None? || live.value.generation == generation)
  }

  /** An object handled: what is said about it, or the error that left the loop. */
  datatype Handled = Said(line: Outcome) | Lost(os: bool)

  function HandledBy(name: string, reply: Reply, reason: string): Handled {
    match reply
    case Gone => Said(Outcome(name, Deleted, reason))
    case Precondition => Said(Outcome(name, KeptBack, CHANGED))
    case Failed(error) => Said(Outcome(name, KeptBack, ErrorReason(error)))
    case Died(os) => Lost(os)
  }

  /** One `recordings/` object: what is said about it, and what is done to it. */
  function Recording(c: Cloud, dryRun: bool, n: nat, src: Blob): (Handled, seq<Effect>)
    requires Remainder(src.name, RECORDINGS).Some?
  {
    var staging := StagingName(src.name);
    match c.fetch(n)
    case FetchFails(error) => (Said(Outcome(src.name, KeptBack, ErrorReason(error))), [Saw(src)])
    case FetchDies(os) => (Lost(os), [Saw(src)])
    case Fetched(copy) =>
      var seen := [Saw(src), Got(staging, copy)];
      if copy.None? then (Said(Outcome(src.name, KeptBack, "no staging copy")), seen)
      else if Mismatch(src, copy.value).Some? then
        (Said(Outcome(src.name, KeptBack, "staging unverified: " + Mismatch(src, copy.value).value)), seen)
      else if dryRun then (Said(Outcome(src.name, Planned, "verified-in-staging")), seen)
      else
        var (reply, done) := Delete(c, n, src.name, src.generation);
        (HandledBy(src.name, reply, "verified-in-staging"), seen + done)
  }

  /** One `sessions/` object. */
  function Session(c: Cloud, dryRun: bool, n: nat, src: Blob): (Handled, seq<Effect>) {
    if dryRun then (Said(Outcome(src.name, Planned, "retired session")), [Saw(src)])
    else
      var (reply, done) := Delete(c, n, src.name, None);
      (HandledBy(src.name, reply, "retired session"), [Saw(src)] + done)
  }

  /** After how many bytes the line is cut off, if it may be. */
  function CutBy(sink: Sink): Option<nat> {
    if sink.Kept? then None else Some(sink.bytes)
  }

  /** `_emit`: the outcome is kept, then recorded. */
  function Emit(c: Cloud, r: Run, done: (Handled, seq<Effect>)): Run {
    match done.0
    case Lost(os) => Run(r.outcomes, r.effects + done.1, Broken(os))
    case Said(line) =>
      var sink := c.sink(|r.outcomes|);
      Run(r.outcomes + [line], r.effects + done.1 + [Wrote(line, CutBy(sink))],
          if sink.Kept? then Going else SinkFailed)
  }

  /** The rest of a listing; a listing may break off with an error at its end. */
  function Each(c: Cloud, dryRun: bool, prefix: string, listing: seq<Blob>, end: Ending, r: Run): Run
    decreases |listing|
  {
    if !r.progress.Going? then r
    else if listing == [] then (if end.Dies? then r.(progress := Broken(end.os)) else r)
    else if Remainder(listing[0].name, prefix).None? then Each(c, dryRun, prefix, listing[1..], end, r)
    else Each(c, dryRun, prefix, listing[1..], end, Handle(c, dryRun, prefix, listing[0], r))
  }

  function Handle(c: Cloud, dryRun: bool, prefix: string, src: Blob, r: Run): Run
    requires Remainder(src.name, prefix).Some?
  {
    if prefix == RECORDINGS then Emit(c, r, Recording(c, dryRun, |r.outcomes|, src))
    else Emit(c, r, Session(c, dryRun, |r.outcomes|, src))
  }

  datatype Options = Options(
    dryRun: bool,
    confirm: bool,
    includeSessions: bool,
    sessionsBackupConfirmed: bool,
    confirmQuiesced: bool,
    auditLog: string)

  predicate Refused(o: Options, c: Cloud) {
    || c.recorder == Active
    || (c.recorder == Unknown && !o.confirmQuiesced)
    || (o.includeSessions && !o.sessionsBackupConfirmed)
  }

  const FRESH := Run([], [], Going)

  /** The delete loops of `run_decommission`. */
  function Loops(o: Options, c: Cloud): Run {
    var r := Each(c, o.dryRun, RECORDINGS, c.recordings, c.recordingsEnd, FRESH);
    if o.includeSessions then Each(c, o.dryRun, SESSIONS, c.sessions, c.sessionsEnd, r) else r
  }

  function Under(prefix: string, listing: seq<Blob>): seq<Blob> {
    if listing == [] then []
    else if Remainder(listing[0].name, prefix).Some? then [listing[0]] + Under(prefix, listing[1..])
    else Under(prefix, listing[1..])
  }

  /** The blobs the re-scan finds under the prefixes it looks at. */
  function Remaining(o: Options, c: Cloud): seq<Blob> {
    Under(RECORDINGS, c.leftRecordings) + if o.includeSessions then Under(SESSIONS, c.leftSessions) else []
  }

  function ErrorsIn(outcomes: seq<Outcome>): (n: nat)
    ensures n == 0
       <==> forall k | 0 <= k < |outcomes| ::
              !(outcomes[k].action == KeptBack && IsErrorReason(outcomes[k].reason))
  {
    if outcomes == [] then 0
    else
      var last := outcomes[|outcomes| - 1];
      ErrorsIn(outcomes[..|outcomes| - 1]) + if last.action == KeptBack && IsErrorReason(last.reason) then 1 else 0
  }

  datatype Exit = Code(code: int) | Traceback

  /** An `OSError` is taken for a failed audit log, wherever it comes from. */
  function ExitOfDeath(os: bool): Exit {
    if os then Code(1) else Traceback
  }

  /** The log is closed last, and an error of that replaces whatever was to be returned. */
  function ExitOf(o: Options, c: Cloud, r: Run): Exit {
    if c.closeRaises then Traceback
    else
      match r.progress
      case SinkFailed => Code(1)
      case Broken(os) => ExitOfDeath(os)
      case Going =>
        if !o.dryRun && c.rescanEnd.Dies? then ExitOfDeath(c.rescanEnd.os)
        else if ErrorsIn(r.outcomes) > 0 then Code(1)
        else if !o.dryRun && Remaining(o, c) != [] then Code(1)
        else Code(0)
  }

  // ---- what the effects of a run look like -----------------------------------------------------

  /** The recording at `k` was seen, and a staging copy that vouches for it fetched, just before. */
  predicate VerifiedAt(effects: seq<Effect>, k: nat)
    requires k < |effects| && effects[k].Destroyed?
  {
    && k >= 2 && effects[k - 2].Saw? && effects[k - 1].Got? && effects[k - 1].copy.Some?
    && var (src, copy, gone) := (effects[k - 2].src, effects[k - 1].copy.value, effects[k]);
       && src.name == gone.name && IsRecording(gone.name)
       && effects[k - 1].staging == "import-review/" + gone.name[|"recordings/"|..]
       && Vouches(src, copy)
       && (src.generation.Some? ==> gone.blob.generation == src.generation)
  }

  predicate IsRecording(name: string) {
    "recordings/" <= name && name != "recordings/"
  }

  predicate IsSession(name: string) {
    "sessions/" <= name && name != "sessions/"
  }

  /** The line admits the object may be gone: it says deleted, or that an error interrupted the delete. */
  predicate Admits(line: Outcome, name: string) {
    line.src == name && (line.action == Deleted || (line.action == KeptBack && "error: " <= line.reason))
  }

  /** The write went through: the whole line is on disk, its newline included. */
  predicate Whole(e: Effect) {
    e.Wrote? && e.cut.None?
  }

  /**
   * Every deletion: a live run's, gated, and recorded by the very next effect unless it is the last.
   * Every line: whole unless it is the last effect.
   */
  predicate Proper(o: Options, effects: seq<Effect>, k: nat)
    requires k < |effects|
  {
    match effects[k]
    case Destroyed(name, _) =>
      && !o.dryRun
      && (VerifiedAt(effects, k) || (o.includeSessions && IsSession(name)))
      && (k + 1 < |effects| ==> effects[k + 1].Wrote? && Admits(effects[k + 1].line, name))
    case Wrote(line, _) =>
      && (k + 1 < |effects| ==> Whole(effects[k]))
      && (line.action == Deleted ==> k > 0 && effects[k - 1].Destroyed? && effects[k - 1].name == line.src)
    case _ => true
  }

  predicate AllProper(o: Options, effects: seq<Effect>) {
    forall k | 0 <= k < |effects| :: Proper(o, effects, k)
  }

  /** Complete: the last effect is neither a deletion waiting to be recorded nor a line cut short. */
  predicate Complete(effects: seq<Effect>) {
    effects != [] ==> var last := effects[|effects| - 1]; !last.Destroyed? && (last.Wrote? ==> Whole(last))
  }

  lemma ProperExtends(o: Options, effects: seq<Effect>, block: seq<Effect>)
    requires AllProper(o, effects) && Complete(effects) && AllProper(o, block)
    requires block != [] && block[0].Saw?
    ensures AllProper(o, effects + block)
  {
    var all := effects + block;
    forall k | 0 <= k < |all| ensures Proper(o, all, k) {
      if k < |effects| {
        assert Proper(o, effects, k);
      } else {
        var j := k - |effects|;
        assert Proper(o, block, j);
        assert all[k] == block[j] && (k + 1 < |all| ==> all[k + 1] == block[j + 1]);
        if j >= 1 {
          assert all[k - 1] == block[j - 1];
        }
        if j >= 2 {
          assert all[k - 2] == block[j - 2];
        }
      }
    }
  }

  /** A block of effects, and the line that follows it if one does. */
  predicate ProperBlock(o: Options, done: (Handled, seq<Effect>), sink: Sink) {
    && done.1 != [] && done.1[0].Saw? && AllProper(o, done.1)
    && (done.0.Said? ==> AllProper(o, done.1 + [Wrote(done.0.line, CutBy(sink))]))
  }

  lemma RecordingIsProper(o: Options, c: Cloud, n: nat, src: Blob)
    requires Remainder(src.name, RECORDINGS).Some?
    ensures ProperBlock(o, Recording(c, o.dryRun, n, src), c.sink(n))
  {
  }

  lemma SessionIsProper(o: Options, c: Cloud, n: nat, src: Blob)
    requires Remainder(src.name, SESSIONS).Some? && o.includeSessions
    ensures ProperBlock(o, Session(c, o.dryRun, n, src), c.sink(n))
  {
  }

  predicate Sound(o: Options, r: Run) {
    AllProper(o, r.effects) && (r.progress.Going? ==> Complete(r.effects))
  }

  lemma EmitIsSound(o: Options, c: Cloud, r: Run, done: (Handled, seq<Effect>))
    requires Sound(o, r) && r.progress.Going? && ProperBlock(o, done, c.sink(|r.outcomes|))
    ensures Sound(o, Emit(c, r, done))
  {
    var block := done.1;
    ProperExtends(o, r.effects, block);
    if done.0.Said? {
      var wrote := Wrote(done.0.line, CutBy(c.sink(|r.outcomes|)));
      ProperExtends(o, r.effects, block + [wrote]);
      assert r.effects + block + [wrote] == r.effects + (block + [wrote]);
    }
  }

  lemma HandleIsSound(o: Options, c: Cloud, prefix: string, src: Blob, r: Run)
    requires prefix == RECORDINGS || (prefix == SESSIONS && o.includeSessions)
    requires Remainder(src.name, prefix).Some? && Sound(o, r) && r.progress.Going?
    ensures Sound(o, Handle(c, o.dryRun, prefix, src, r))
  {
    var n := |r.outcomes|;
    if prefix == RECORDINGS {
      RecordingIsProper(o, c, n, src);
      EmitIsSound(o, c, r, Recording(c, o.dryRun, n, src));
    } else {
      SessionIsProper(o, c, n, src);
      EmitIsSound(o, c, r, Session(c, o.dryRun, n, src));
    }
  }

  lemma {:induction false} EachIsSound(o: Options, c: Cloud, prefix: string, listing: seq<Blob>, end: Ending, r: Run)
    requires prefix == RECORDINGS || (prefix == SESSIONS && o.includeSessions)
    requires Sound(o, r)
    ensures Sound(o, Each(c, o.dryRun, prefix, listing, end, r))
    decreases |listing|
  {
    if r.progress.Going? && listing != [] {
      if Remainder(listing[0].name, prefix).None? {
        EachIsSound(o, c, prefix, listing[1..], end, r);
      } else {
        HandleIsSound(o, c, prefix, listing[0], r);
        EachIsSound(o, c, prefix, listing[1..], end, Handle(c, o.dryRun, prefix, listing[0], r));
      }
    }
  }

  /**
   * Whatever fails along the way: only a live run deletes; a recording only right after a
   * staging copy was fetched that vouches for it, and never a newer generation of it; a
   * session only when opted in.
   */
  lemma DeletesAreGated(o: Options, c: Cloud, k: nat)
    requires k < |Loops(o, c).effects| && Loops(o, c).effects[k].Destroyed?
    ensures !o.dryRun
    ensures VerifiedAt(Loops(o, c).effects, k)
         || (o.includeSessions && IsSession(Loops(o, c).effects[k].name))
  {
    LoopsAreSound(o, c);
    assert Proper(o, Loops(o, c).effects, k);
  }

  lemma LoopsAreSound(o: Options, c: Cloud)
    ensures Sound(o, Loops(o, c))
  {
    EachIsSound(o, c, RECORDINGS, c.recordings, c.recordingsEnd, FRESH);
    if o.includeSessions {
      var r := Each(c, o.dryRun, RECORDINGS, c.recordings, c.recordingsEnd, FRESH);
      EachIsSound(o, c, SESSIONS, c.sessions, c.sessionsEnd, r);
    }
  }

  /** Deletions that no whole line on the log admits. */
  function Unlogged(effects: seq<Effect>): nat {
    if effects == [] then 0
    else
      var n := |effects| - 1;
      match effects[n]
      case Destroyed(_, _) => Unlogged(effects[..n]) + 1
      case Wrote(line, _) =>
        if n > 0 && effects[n - 1].Destroyed? && Whole(effects[n]) && Admits(line, effects[n - 1].name)
        then Unlogged(effects[..n - 1]) else Unlogged(effects[..n])
      case _ => Unlogged(effects[..n])
  }

  /** The last effect is a deletion, or the line of one, cut short. */
  predicate Pending(effects: seq<Effect>) {
    effects != [] &&
    var n := |effects| - 1;
    effects[n].Destroyed? || (effects[n].Wrote? && !Whole(effects[n]) && n > 0 && effects[n - 1].Destroyed?)
  }

  lemma ProperPrefix(o: Options, effects: seq<Effect>, n: nat)
    requires AllProper(o, effects) && n <= |effects|
    ensures AllProper(o, effects[..n])
    ensures n < |effects| ==> (forall e | e in effects[..n] && e.Wrote? :: Whole(e))
  {
    forall k | 0 <= k < n ensures Proper(o, effects[..n], k) {
      assert Proper(o, effects, k);
    }
    forall e | n < |effects| && e in effects[..n] && e.Wrote? ensures Whole(e) {
      var k :| 0 <= k < n && effects[..n][k] == e;
      assert Proper(o, effects, k);
    }
  }

  lemma {:induction false} ProperIsLogged(o: Options, effects: seq<Effect>)
    requires AllProper(o, effects)
    ensures Unlogged(effects) == if Pending(effects) then 1 else 0
    decreases |effects|
  {
    if effects != [] {
      var n := |effects| - 1;
      ProperPrefix(o, effects, n);
      ProperIsLogged(o, effects[..n]);
      assert Proper(o, effects, n);
      if n > 0 {
        assert Proper(o, effects, n - 1);
        ProperPrefix(o, effects, n - 1);
        ProperIsLogged(o, effects[..n - 1]);
        if n > 1 {
          assert Proper(o, effects, n - 2);
        }
      }
    }
  }

  /**
   * What a run has done when it is killed after so many effects, or so many bytes into the line
   * that is the last of them.
   */
  function Killed(effects: seq<Effect>, n: nat, bytes: Option<nat>): seq<Effect>
    requires n <= |effects|
  {
    if n > 0 && effects[n - 1].Wrote? && bytes.Some?
    then effects[..n - 1] + [Wrote(effects[n - 1].line, bytes)]
    else effects[..n]
  }

  lemma KilledIsProper(o: Options, effects: seq<Effect>, n: nat, bytes: Option<nat>)
    requires AllProper(o, effects) && n <= |effects|
    ensures AllProper(o, Killed(effects, n, bytes))
  {
    ProperPrefix(o, effects, n);
    if n > 0 && effects[n - 1].Wrote? && bytes.Some? {
      ProperPrefix(o, effects, n - 1);
      LastCutShort(o, effects[..n], bytes);
      assert effects[..n][..n - 1] == effects[..n - 1];
    }
  }

  lemma LastCutShort(o: Options, effects: seq<Effect>, bytes: Option<nat>)
    requires AllProper(o, effects) && effects != [] && effects[|effects| - 1].Wrote?
    ensures AllProper(o, effects[..|effects| - 1] + [Wrote(effects[|effects| - 1].line, bytes)])
  {
    var n := |effects| - 1;
    var cut := effects[..n] + [Wrote(effects[n].line, bytes)];
    forall k | 0 <= k < |cut| ensures Proper(o, cut, k) {
      assert Proper(o, effects, k);
    }
  }

  /** A run killed at any point whatever leaves at most one deletion that no whole line of the log admits. */
  lemma AtMostOneDeletionUnlogged(o: Options, c: Cloud, n: nat, bytes: Option<nat>)
    requires n <= |Loops(o, c).effects|
    ensures Unlogged(Killed(Loops(o, c).effects, n, bytes)) <= 1
    ensures Loops(o, c).progress.Going? ==> Unlogged(Loops(o, c).effects) == 0
  {
    LoopsAreSound(o, c);
    KilledIsProper(o, Loops(o, c).effects, n, bytes);
    ProperIsLogged(o, Killed(Loops(o, c).effects, n, bytes));
    ProperIsLogged(o, Loops(o, c).effects);
  }

  /** A gate is not open: the recorder runs, or may, or sessions have no confirmed backup. */
  predicate TurnedAway(o: Options, c: Cloud) {
    || c.recorder.Active?
    || (c.recorder.Unknown? && !o.confirmQuiesced)
    || (o.includeSessions && !o.sessionsBackupConfirmed)
  }

  // ---- the account ---------------------------------------------------------------------------------

  /** A staging copy was found for the `n`-th object, and vouches for it. */
  predicate Vouched(c: Cloud, n: nat, src: Blob) {
    c.fetch(n).Fetched? && c.fetch(n).copy.Some? && Vouches(src, c.fetch(n).copy.value)
  }

  /** The object that was listed is still there when its delete arrives. */
  predicate StillThere(c: Cloud, n: nat, generation: Option<int>) {
    c.live(n).Some? && (generation.Some? ==> c.live(n).value.generation == generation)
  }

  /** The delete comes back with an error of the storage service. */
  predicate DeleteFails(c: Cloud, n: nat) {
    c.transport(n).FailsBefore? || c.transport(n).FailsAfter? || (c.transport(n).Works? && c.live(n).None?)
  }

  /** The line about the `n`-th object handled, a recording, read off the outside's answers. */
  predicate RecordingFits(c: Cloud, dryRun: bool, n: nat, src: Blob, line: Outcome) {
    && line.src == src.name
    && (line.action == Planned <==> Vouched(c, n, src) && dryRun)
    && (line.action == Deleted <==>
          Vouched(c, n, src) && !dryRun && c.transport(n).Works? && StillThere(c, n, src.generation))
    && (line.action == KeptBack && "error: " <= line.reason <==>
          c.fetch(n).FetchFails? || (Vouched(c, n, src) && !dryRun && DeleteFails(c, n)))
    && (line.action == KeptBack && line.reason == "no staging copy" <==>
          c.fetch(n).Fetched? && c.fetch(n).copy.None?)
    && (line.action == KeptBack && "staging unverified: " <= line.reason <==>
          c.fetch(n).Fetched? && c.fetch(n).copy.Some? && !Vouches(src, c.fetch(n).copy.value))
    && (line.action == KeptBack && "source changed" <= line.reason <==>
          && Vouched(c, n, src) && !dryRun && c.transport(n).Works? && c.live(n).Some?
          && !StillThere(c, n, src.generation))
    && (line.action != KeptBack ==> line.reason == "verified-in-staging")
  }

  predicate SessionFits(c: Cloud, dryRun: bool, n: nat, src: Blob, line: Outcome) {
    && line.src == src.name
    && (line.action == Planned <==> dryRun)
    && (line.action == Deleted <==> !dryRun && c.transport(n).Works? && c.live(n).Some?)
    && (line.action == KeptBack <==> !dryRun && DeleteFails(c, n))
    && (if line.action == KeptBack then "error: " <= line.reason else line.reason == "retired session")
  }

  predicate Fits(c: Cloud, dryRun: bool, prefix: string, n: nat, src: Blob, line: Outcome) {
    if prefix == RECORDINGS then RecordingFits(c, dryRun, n, src, line) else SessionFits(c, dryRun, n, src, line)
  }

  lemma RecordingIsAccounted(c: Cloud, dryRun: bool, n: nat, src: Blob)
    requires Remainder(src.name, RECORDINGS).Some? && Recording(c, dryRun, n, src).0.Said?
    ensures RecordingFits(c, dryRun, n, src, Recording(c, dryRun, n, src).0.line)
  {
    var reason := Recording(c, dryRun, n, src).0.line.reason;
    FirstCharacters(reason);
    MismatchExactly(src, if c.fetch(n).Fetched? && c.fetch(n).copy.Some? then c.fetch(n).copy.value else src);
  }

  lemma FirstCharacters(reason: string)
    ensures "error: " <= reason ==> reason[0] == 'e'
    ensures "staging unverified: " <= reason ==> |reason| > 1 && reason[0] == 's' && reason[1] == 't'
    ensures reason == "no staging copy" ==> reason[0] == 'n'
    ensures reason == CHANGED ==> reason[1] == 'o'
    ensures reason == "verified-in-staging" ==> reason[0] == 'v'
  {
  }

  lemma SessionIsAccounted(c: Cloud, dryRun: bool, n: nat, src: Blob)
    requires Session(c, dryRun, n, src).0.Said?
    ensures SessionFits(c, dryRun, n, src, Session(c, dryRun, n, src).0.line)
  {
  }

  /** The lines from `n` on are about these objects, one each, in their order. */
  predicate Accounts(c: Cloud, dryRun: bool, prefix: string, objects: seq<Blob>, n: nat, lines: seq<Outcome>) {
    && |lines| == n + |objects|
    && forall k | 0 <= k < |objects| :: Fits(c, dryRun, prefix, n + k, objects[k], lines[n + k])
  }

  lemma OneMoreAccounted(
    c: Cloud, dryRun: bool, prefix: string, first: Blob, rest: seq<Blob>, n: nat, lines: seq<Outcome>)
    requires n < |lines| && Fits(c, dryRun, prefix, n, first, lines[n])
    requires Accounts(c, dryRun, prefix, rest, n + 1, lines)
    ensures Accounts(c, dryRun, prefix, [first] + rest, n, lines)
  {
    var objects := [first] + rest;
    forall k | 0 <= k < |objects| ensures Fits(c, dryRun, prefix, n + k, objects[k], lines[n + k]) {
      if k > 0 {
        assert objects[k] == rest[k - 1] && n + k == n + 1 + (k - 1);
      }
    }
  }

  lemma HandledIsAccounted(c: Cloud, dryRun: bool, prefix: string, src: Blob, r: Run)
    requires prefix == RECORDINGS || prefix == SESSIONS
    requires Remainder(src.name, prefix).Some? && Handle(c, dryRun, prefix, src, r).progress.Going?
    ensures var outcomes := Handle(c, dryRun, prefix, src, r).outcomes;
            && |outcomes| == |r.outcomes| + 1 && r.outcomes == outcomes[..|r.outcomes|]
            && Fits(c, dryRun, prefix, |r.outcomes|, src, outcomes[|r.outcomes|])
  {
    var n := |r.outcomes|;
    if prefix == RECORDINGS {
      RecordingIsAccounted(c, dryRun, n, src);
    } else {
      SessionIsAccounted(c, dryRun, n, src);
    }
  }

  lemma {:induction false} EachAccounts(
    c: Cloud, dryRun: bool, prefix: string, listing: seq<Blob>, end: Ending, r: Run)
    requires prefix == RECORDINGS || prefix == SESSIONS
    requires Each(c, dryRun, prefix, listing, end, r).progress.Going?
    ensures var (n, outcomes) := (|r.outcomes|, Each(c, dryRun, prefix, listing, end, r).outcomes);
            && n <= |outcomes| && outcomes[..n] == r.outcomes
            && Accounts(c, dryRun, prefix, Under(prefix, listing), n, outcomes)
            && end.Ends?
    decreases |listing|
  {
    if listing != [] {
      if Remainder(listing[0].name, prefix).None? {
        EachAccounts(c, dryRun, prefix, listing[1..], end, r);
      } else {
        var r' := Handle(c, dryRun, prefix, listing[0], r);
        var n, outcomes := |r.outcomes|, Each(c, dryRun, prefix, listing, end, r).outcomes;
        EachGoes(c, dryRun, prefix, listing[1..], end, r');
        HandledIsAccounted(c, dryRun, prefix, listing[0], r);
        EachAccounts(c, dryRun, prefix, listing[1..], end, r');
        assert outcomes[n] == outcomes[..n + 1][n] && outcomes[..n] == outcomes[..n + 1][..n];
        OneMoreAccounted(c, dryRun, prefix, listing[0], Under(prefix, listing[1..]), n, outcomes);
      }
    }
  }

  lemma EachGoes(c: Cloud, dryRun: bool, prefix: string, listing: seq<Blob>, end: Ending, r: Run)
    ensures Each(c, dryRun, prefix, listing, end, r).progress.Going? ==> r.progress.Going?
  {
  }

  /**
   * A run that gets to its end has accounted for every object listed under its prefixes, once each
   * and in their order, and what it says of each is what the outside's answers make of it.
   */
  lemma EveryObjectIsAccountedFor(o: Options, c: Cloud)
    requires Loops(o, c).progress.Going?
    ensures var (recordings, lines) := (Under("recordings/", c.recordings), Loops(o, c).outcomes);
            && |recordings| <= |lines| && c.recordingsEnd.Ends?
            && Accounts(c, o.dryRun, "recordings/", recordings, 0, lines[..|recordings|])
            && (if o.includeSessions
                then c.sessionsEnd.Ends?
                     && Accounts(c, o.dryRun, "sessions/", Under("sessions/", c.sessions), |recordings|, lines)
                else |lines| == |recordings|)
  {
    var r := Each(c, o.dryRun, RECORDINGS, c.recordings, c.recordingsEnd, FRESH);
    if o.includeSessions {
      EachGoes(c, o.dryRun, SESSIONS, c.sessions, c.sessionsEnd, r);
      EachAccounts(c, o.dryRun, SESSIONS, c.sessions, c.sessionsEnd, r);
    }
    EachAccounts(c, o.dryRun, RECORDINGS, c.recordings, c.recordingsEnd, FRESH);
    assert r.outcomes[..|r.outcomes|] == r.outcomes;
  }

  predicate TransportDies(c: Cloud, n: nat) {
    c.transport(n).DiesBefore? || c.transport(n).DiesAfter?
  }

  /** An error that is none of the storage service's comes up while the `n`-th object is handled. */
  predicate DiesAt(c: Cloud, dryRun: bool, prefix: string, n: nat, src: Blob) {
    if prefix == "recordings/"
    then c.fetch(n).FetchDies? || (Vouched(c, n, src) && !dryRun && TransportDies(c, n))
    else !dryRun && TransportDies(c, n)
  }

  /** It does not, and the object's line is written. */
  predicate SurvivesAt(c: Cloud, dryRun: bool, prefix: string, n: nat, src: Blob) {
    c.sink(n).Kept? && !DiesAt(c, dryRun, prefix, n, src)
  }

  /** So it is with all of these objects, handled from the `n`-th on. */
  predicate Survived(c: Cloud, dryRun: bool, prefix: string, objects: seq<Blob>, n: nat) {
    forall k | 0 <= k < |objects| :: SurvivesAt(c, dryRun, prefix, n + k, objects[k])
  }

  lemma SurvivedFirst(c: Cloud, dryRun: bool, prefix: string, first: Blob, rest: seq<Blob>, n: nat)
    ensures Survived(c, dryRun, prefix, [first] + rest, n)
       <==> SurvivesAt(c, dryRun, prefix, n, first) && Survived(c, dryRun, prefix, rest, n + 1)
  {
    var all := [first] + rest;
    if Survived(c, dryRun, prefix, all, n) {
      assert SurvivesAt(c, dryRun, prefix, n + 0, all[0]);
      forall k | 0 <= k < |rest| ensures SurvivesAt(c, dryRun, prefix, n + 1 + k, rest[k]) {
        assert all[k + 1] == rest[k] && n + (k + 1) == n + 1 + k;
      }
    } else {
      var k :| 0 <= k < |all| && !SurvivesAt(c, dryRun, prefix, n + k, all[k]);
      if k > 0 {
        assert all[k] == rest[k - 1] && n + k == n + 1 + (k - 1);
      }
    }
  }

  lemma HandleGoesExactly(c: Cloud, dryRun: bool, prefix: string, src: Blob, r: Run)
    requires prefix == RECORDINGS || prefix == SESSIONS
    requires Remainder(src.name, prefix).Some? && r.progress.Going?
    ensures var (n, r') := (|r.outcomes|, Handle(c, dryRun, prefix, src, r));
            && (r'.progress.Going? <==> SurvivesAt(c, dryRun, prefix, n, src))
            && (r'.progress.Going? ==> |r'.outcomes| == n + 1)
  {
    MismatchExactly(src, if c.fetch(|r.outcomes|).Fetched? && c.fetch(|r.outcomes|).copy.Some?
                         then c.fetch(|r.outcomes|).copy.value else src);
    assert "recordings/"[0] != "sessions/"[0];
  }

  lemma {:induction false} EachGoesExactly(
    c: Cloud, dryRun: bool, prefix: string, listing: seq<Blob>, end: Ending, r: Run)
    requires prefix == RECORDINGS || prefix == SESSIONS
    ensures Each(c, dryRun, prefix, listing, end, r).progress.Going?
       <==> && r.progress.Going? && end.Ends?
            && Survived(c, dryRun, prefix, Under(prefix, listing), |r.outcomes|)
    decreases |listing|
  {
    if r.progress.Going? && listing != [] {
      if Remainder(listing[0].name, prefix).None? {
        EachGoesExactly(c, dryRun, prefix, listing[1..], end, r);
      } else {
        HandleGoesExactly(c, dryRun, prefix, listing[0], r);
        EachGoesExactly(c, dryRun, prefix, listing[1..], end, Handle(c, dryRun, prefix, listing[0], r));
        SurvivedFirst(c, dryRun, prefix, listing[0], Under(prefix, listing[1..]), |r.outcomes|);
      }
    }
  }

  /** The loops get to their end if and only if both listings do, no call dies and every line is written. */
  lemma RunsToItsEndExactly(o: Options, c: Cloud)
    ensures var recordings := Under("recordings/", c.recordings);
            Loops(o, c).progress.Going?
            <==> && c.recordingsEnd.Ends? && Survived(c, o.dryRun, "recordings/", recordings, 0)
                 && (o.includeSessions ==>
                       && c.sessionsEnd.Ends?
                       && Survived(c, o.dryRun, "sessions/", Under("sessions/", c.sessions), |recordings|))
  {
    var r := Each(c, o.dryRun, RECORDINGS, c.recordings, c.recordingsEnd, FRESH);
    EachGoesExactly(c, o.dryRun, RECORDINGS, c.recordings, c.recordingsEnd, FRESH);
    if r.progress.Going? {
      EachAccounts(c, o.dryRun, RECORDINGS, c.recordings, c.recordingsEnd, FRESH);
    }
    if o.includeSessions {
      EachGoesExactly(c, o.dryRun, SESSIONS, c.sessions, c.sessionsEnd, r);
    }
  }

  /** A run that stops early stopped at the line that could not be written, or at the call or listing that died. */
  predicate StopsFor(c: Cloud, r: Run) {
    match r.progress
    case Going => true
    case SinkFailed => r.outcomes != [] && c.sink(|r.outcomes| - 1).Raised?
    case Broken(os) =>
      || c.fetch(|r.outcomes|) == FetchDies(os) || c.transport(|r.outcomes|) in {DiesBefore(os), DiesAfter(os)}
      || c.recordingsEnd == Dies(os) || c.sessionsEnd == Dies(os)
  }

  lemma {:induction false} EachStopsFor(
    c: Cloud, dryRun: bool, prefix: string, listing: seq<Blob>, end: Ending, r: Run)
    requires StopsFor(c, r) && (end == c.recordingsEnd || end == c.sessionsEnd)
    ensures StopsFor(c, Each(c, dryRun, prefix, listing, end, r))
    decreases |listing|
  {
    if r.progress.Going? && listing != [] {
      if Remainder(listing[0].name, prefix).None? {
        EachStopsFor(c, dryRun, prefix, listing[1..], end, r);
      } else {
        EachStopsFor(c, dryRun, prefix, listing[1..], end, Handle(c, dryRun, prefix, listing[0], r));
      }
    }
  }

  lemma StopsForAReason(o: Options, c: Cloud)
    ensures StopsFor(c, Loops(o, c))
  {
    EachStopsFor(c, o.dryRun, RECORDINGS, c.recordings, c.recordingsEnd, FRESH);
    var r := Each(c, o.dryRun, RECORDINGS, c.recordings, c.recordingsEnd, FRESH);
    EachStopsFor(c, o.dryRun, SESSIONS, c.sessions, c.sessionsEnd, r);
  }

  /** Listed under a prefix means named with something behind it, and nothing of that is passed over. */
  lemma {:induction false} UnderExactly(prefix: string, listing: seq<Blob>)
    ensures Under(prefix, listing)
         == if listing == [] then []
            else Under(prefix, listing[..|listing| - 1])
                 + if prefix <= listing[|listing| - 1].name && prefix != listing[|listing| - 1].name
                   then [listing[|listing| - 1]] else []
  {
    if |listing| > 1 {
      UnderExactly(prefix, listing[1..]);
      assert listing[1..][..|listing| - 2] == listing[..|listing| - 1][1..];
    }
  }

  /** An object is gone from the store exactly if its delete took effect there, whatever came back. */
  lemma DestroyedExactly(c: Cloud, dryRun: bool, n: nat, src: Blob, e: Effect)
    requires e.Destroyed?
    ensures var takesEffect := !c.transport(n).FailsBefore? && !c.transport(n).DiesBefore?;
            && (e in Session(c, dryRun, n, src).1 <==>
                  !dryRun && takesEffect && c.live(n).Some? && e == Destroyed(src.name, c.live(n).value))
            && (Remainder(src.name, "recordings/").Some? ==>
                  (e in Recording(c, dryRun, n, src).1 <==>
                     && !dryRun && Vouched(c, n, src) && takesEffect && StillThere(c, n, src.generation)
                     && e == Destroyed(src.name, c.live(n).value)))
  {
  }

  // ---- the exit ------------------------------------------------------------------------------------

  /** Exit 0 of a live run: nothing is left under the prefixes it covers, and no error interrupted a delete. */
  lemma ExitZeroExactly(o: Options, c: Cloud)
    ensures ExitOf(o, c, Loops(o, c)) == Code(0)
       <==> && Loops(o, c).progress.Going? && !c.closeRaises
            && (forall k | 0 <= k < |Loops(o, c).outcomes| ::
                  !(Loops(o, c).outcomes[k].action == KeptBack && "error: " <= Loops(o, c).outcomes[k].reason))
            && (!o.dryRun ==>
                  c.rescanEnd.Ends? && forall b | b in c.leftRecordings :: Remainder(b.name, RECORDINGS).None?)
            && (!o.dryRun && o.includeSessions ==> forall b | b in c.leftSessions :: Remainder(b.name, SESSIONS).None?)
  {
    NothingUnder(RECORDINGS, c.leftRecordings);
    NothingUnder(SESSIONS, c.leftSessions);
  }

  lemma {:induction false} NothingUnder(prefix: string, listing: seq<Blob>)
    ensures Under(prefix, listing) == [] <==> forall b | b in listing :: Remainder(b.name, prefix).None?
  {
    if listing != [] {
      NothingUnder(prefix, listing[1..]);
      assert listing == [listing[0]] + listing[1..];
    }
  }

  /** Only a known generation pins the delete: without one, whatever is live by then is destroyed. */
  lemma PinnedExactly(generation: Option<int>)
    ensures (forall live: Option<Blob> | Deletable(live, generation) :: live.value.generation == generation)
       <==> generation.Some?
  {
    if generation.None? {
      var newer := Some(Blob("recordings/a", Some(1), None, None, None, None));
      assert Deletable(newer, generation);
    }
  }

  // ---- the audit files ---------------------------------------------------------------------------

  type Files = map<string, string>

  function Content(files: Files, path: string): string {
    if path in files then files[path] else ""
  }

  function Beginning(s: string, bytes: nat): string {
    if bytes < |s| then s[..bytes] else s
  }

  function TextOf(e: Effect): string {
    if !e.Wrote? then "" else if e.cut.None? then LineOf(e.line) else Beginning(LineOf(e.line), e.cut.value)
  }

  /** What one write leaves on disk: its whole line, or as many bytes of it as got out. */
  lemma WrittenExactly(line: Outcome, sink: Sink)
    ensures TextOf(Wrote(line, CutBy(sink)))
         == if sink.Kept? || sink.bytes >= |LineOf(line)| then LineOf(line) else LineOf(line)[..sink.bytes]
    ensures LineOf(line) == Record(line) + "\n"
  {
  }

  /** The bytes these effects put on the log. */
  function Text(effects: seq<Effect>): string {
    if effects == [] then "" else Text(effects[..|effects| - 1]) + TextOf(effects[|effects| - 1])
  }

  function AuditPath(o: Options): string {
    if o.dryRun then o.auditLog + DRY_RUN_SUFFIX else o.auditLog
  }

  /** What the loops of this invocation do; none if it is refused before them. */
  function EffectsOf(o: Options, c: Cloud): seq<Effect> {
    if Refused(o, c) then [] else Loops(o, c).effects
  }

  /**
   * The files after an invocation that was killed when so many bytes of its log were out; a dry run
   * truncates first.
   */
  function FilesAfter(o: Options, c: Cloud, bytes: nat, files: Files): Files {
    if !o.dryRun && !o.confirm then files
    else
      var kept := if o.dryRun then "" else Content(files, AuditPath(o));
      files[AuditPath(o) := kept + Beginning(Text(EffectsOf(o, c)), bytes)]
  }

  datatype Invocation = Invocation(options: Options, cloud: Cloud, bytes: nat)

  function FilesAfterAll(runs: seq<Invocation>, files: Files): Files
    decreases |runs|
  {
    if runs == [] then files
    else FilesAfterAll(runs[1..], FilesAfter(runs[0].options, runs[0].cloud, runs[0].bytes, files))
  }

  predicate Overwrites(o: Options, path: string) {
    o.dryRun && o.auditLog + DRY_RUN_SUFFIX == path
  }

  ghost predicate Extends(files: Files, files': Files, path: string) {
    Content(files, path) <= Content(files', path)
  }

  lemma InvocationExtends(o: Options, c: Cloud, bytes: nat, files: Files, path: string)
    requires !Overwrites(o, path)
    ensures Extends(files, FilesAfter(o, c, bytes, files), path)
  {
  }

  /** Through any runs, crashes and failures, a log only grows, provided no dry run's preview is named like it. */
  lemma {:induction false} LogsOnlyGrow(runs: seq<Invocation>, files: Files, path: string)
    requires forall k | 0 <= k < |runs| :: !Overwrites(runs[k].options, path)
    ensures Extends(files, FilesAfterAll(runs, files), path)
    decreases |runs|
  {
    if runs != [] {
      var next := FilesAfter(runs[0].options, runs[0].cloud, runs[0].bytes, files);
      InvocationExtends(runs[0].options, runs[0].cloud, runs[0].bytes, files, path);
      LogsOnlyGrow(runs[1..], next, path);
    }
  }

  ghost predicate NeverShortens(o: Options, c: Cloud, bytes: nat, path: string) {
    forall files: Files :: Extends(files, FilesAfter(o, c, bytes, files), path)
  }

  /** The proviso is exactly what is needed: a dry run does overwrite a live log of that name. */
  lemma PreviewOverwritesExactly(o: Options, c: Cloud, bytes: nat, path: string)
    ensures NeverShortens(o, c, bytes, path) <==> !Overwrites(o, path)
  {
    if !Overwrites(o, path) {
      forall files: Files ensures Extends(files, FilesAfter(o, c, bytes, files), path) {
        InvocationExtends(o, c, bytes, files, path);
      }
    } else {
      var written := Content(FilesAfter(o, c, bytes, map[]), path);
      var files: Files := map[path := written + "\n"];
      assert Content(FilesAfter(o, c, bytes, files), path) == written;
      assert !Extends(files, FilesAfter(o, c, bytes, files), path);
    }
  }

  // ---- every line of the log can be read --------------------------------------------------------

  function Logged(effects: seq<Effect>): seq<Outcome> {
    if effects == [] then []
    else
      var before, last := Logged(effects[..|effects| - 1]), effects[|effects| - 1];
      if last.Wrote? then before + [last.line] else before
  }

  lemma {:induction false} WholeText(effects: seq<Effect>)
    requires forall e | e in effects && e.Wrote? :: Whole(e)
    ensures Text(effects) == LinesOf(Logged(effects))
  {
    if effects != [] {
      var n := |effects| - 1;
      WholeText(effects[..n]);
      assert effects[n] in effects;
      if effects[n].Wrote? {
        LinesOfOneMore(Logged(effects[..n]), effects[n].line);
      }
    }
  }

  lemma PrefixAfter(before: string, part: string, whole: string, all: string)
    requires part <= whole && all == before + whole
    ensures before + part <= all
  {
  }

  lemma TextOfIsABeginning(e: Effect)
    requires e.Wrote?
    ensures TextOf(e) <= LineOf(e.line)
  {
    BeginningOfBeginning(LineOf(e.line), LineOf(e.line), if e.cut.Some? then e.cut.value else 0);
  }

  lemma TextIsABeginning(o: Options, effects: seq<Effect>)
    requires AllProper(o, effects)
    ensures Text(effects) <= LinesOf(Logged(effects))
  {
    if effects != [] {
      var n := |effects| - 1;
      ProperPrefix(o, effects, n);
      WholeText(effects[..n]);
      if effects[n].Wrote? {
        LoggedOneMore(effects);
      } else {
        assert Text(effects[..n]) + "" == Text(effects[..n]);
      }
      LastText(effects, LinesOf(Logged(effects)));
    }
  }

  lemma LoggedOneMore(effects: seq<Effect>)
    requires effects != [] && effects[|effects| - 1].Wrote?
    ensures var (before, line) := (effects[..|effects| - 1], effects[|effects| - 1].line);
            LinesOf(Logged(effects)) == LinesOf(Logged(before)) + LineOf(line)
  {
    LinesOfOneMore(Logged(effects[..|effects| - 1]), effects[|effects| - 1].line);
  }

  lemma LastText(effects: seq<Effect>, all: string)
    requires effects != []
    requires var (before, e) := (effects[..|effects| - 1], effects[|effects| - 1]);
             all == Text(before) + if e.Wrote? then LineOf(e.line) else ""
    ensures Text(effects) <= all
  {
    var before, e := effects[..|effects| - 1], effects[|effects| - 1];
    if e.Wrote? {
      TextOfIsABeginning(e);
      PrefixAfter(Text(before), TextOf(e), LineOf(e.line), all);
    }
  }

  lemma BeginningOfBeginning(s: string, t: string, bytes: nat)
    requires s <= t
    ensures Beginning(s, bytes) <= t
  {
  }

  /** What an invocation adds to the file at this path. */
  function Added(run: Invocation, path: string): string {
    var (o, c) := (run.options, run.cloud);
    if (o.dryRun || o.confirm) && AuditPath(o) == path then Beginning(Text(EffectsOf(o, c)), run.bytes) else ""
  }

  lemma AddedIsABeginning(run: Invocation, path: string)
    ensures Added(run, path) <= LinesOf(Logged(EffectsOf(run.options, run.cloud)))
  {
    var effects := EffectsOf(run.options, run.cloud);
    LoopsAreSound(run.options, run.cloud);
    TextIsABeginning(run.options, effects);
    BeginningOfBeginning(Text(effects), LinesOf(Logged(effects)), run.bytes);
  }

  lemma InvocationAdds(run: Invocation, files: Files, path: string)
    requires !Overwrites(run.options, path)
    ensures Content(FilesAfter(run.options, run.cloud, run.bytes, files), path)
         == Content(files, path) + Added(run, path)
  {
    assert Content(files, path) + "" == Content(files, path);
  }

  /** No invocation that completes a line began on a log whose last line was unfinished. */
  predicate NoneGlued(runs: seq<Invocation>, files: Files, path: string)
    decreases |runs|
  {
    runs == []
    || (&& (OnBoundary(Content(files, path)) || CompletesNoLine(Added(runs[0], path)))
        && NoneGlued(runs[1..], FilesAfter(runs[0].options, runs[0].cloud, runs[0].bytes, files), path))
  }

  /**
   * Through any runs, kills, full disks and other failures: every complete line of a log is one of
   * the records written if and only if it was so at first, and no run went on writing after an
   * unfinished line.
   */
  lemma {:induction false} LogStaysReadableExactly(runs: seq<Invocation>, files: Files, path: string)
    requires forall k | 0 <= k < |runs| :: !Overwrites(runs[k].options, path)
    ensures AllReadable(Content(FilesAfterAll(runs, files), path))
       <==> AllReadable(Content(files, path)) && NoneGlued(runs, files, path)
    decreases |runs|
  {
    if runs != [] {
      var run := runs[0];
      var next := FilesAfter(run.options, run.cloud, run.bytes, files);
      InvocationAdds(run, files, path);
      AddedIsABeginning(run, path);
      AppendedIsReadableExactly(
        Content(files, path), Added(run, path), Logged(EffectsOf(run.options, run.cloud)));
      LogStaysReadableExactly(runs[1..], next, path);
    }
  }

  /** Only a failed write or a kill leaves a line unfinished: errors of the storage service do not. */
  lemma {:induction false} EachWritesWhole(
    c: Cloud, dryRun: bool, prefix: string, listing: seq<Blob>, end: Ending, r: Run)
    requires prefix == RECORDINGS || prefix == SESSIONS
    requires forall e | e in r.effects && e.Wrote? :: Whole(e)
    ensures var r' := Each(c, dryRun, prefix, listing, end, r);
            !r'.progress.SinkFailed? ==> forall e | e in r'.effects && e.Wrote? :: Whole(e)
    decreases |listing|
  {
    if r.progress.Going? && listing != [] {
      if Remainder(listing[0].name, prefix).None? {
        EachWritesWhole(c, dryRun, prefix, listing[1..], end, r);
      } else {
        var r' := Handle(c, dryRun, prefix, listing[0], r);
        BlocksAreSilent(c, dryRun, |r.outcomes|, listing[0]);
        if !r'.progress.SinkFailed? {
          EachWritesWhole(c, dryRun, prefix, listing[1..], end, r');
        }
      }
    }
  }

  lemma {:induction false} EachLogsItsOutcomes(
    c: Cloud, dryRun: bool, prefix: string, listing: seq<Blob>, end: Ending, r: Run)
    requires prefix == RECORDINGS || prefix == SESSIONS
    requires Logged(r.effects) == r.outcomes
    ensures Logged(Each(c, dryRun, prefix, listing, end, r).effects)
         == Each(c, dryRun, prefix, listing, end, r).outcomes
    decreases |listing|
  {
    if r.progress.Going? && listing != [] {
      if Remainder(listing[0].name, prefix).None? {
        EachLogsItsOutcomes(c, dryRun, prefix, listing[1..], end, r);
      } else {
        var n, src := |r.outcomes|, listing[0];
        BlocksAreSilent(c, dryRun, n, src);
        var done := if prefix == RECORDINGS then Recording(c, dryRun, n, src) else Session(c, dryRun, n, src);
        SilentBlockLogsNothing(r.effects, done.1);
        if done.0.Said? {
          LoggedWith(r.effects + done.1, Wrote(done.0.line, CutBy(c.sink(n))));
        }
        EachLogsItsOutcomes(c, dryRun, prefix, listing[1..], end, Handle(c, dryRun, prefix, src, r));
      }
    }
  }

  lemma LoggedWith(effects: seq<Effect>, e: Effect)
    ensures Logged(effects + [e]) == Logged(effects) + if e.Wrote? then [e.line] else []
  {
    assert (effects + [e])[..|effects|] == effects;
  }

  lemma {:induction false} SilentBlockLogsNothing(effects: seq<Effect>, block: seq<Effect>)
    requires forall e | e in block :: !e.Wrote?
    ensures Logged(effects + block) == Logged(effects)
    decreases |block|
  {
    if block == [] {
      assert effects + block == effects;
    } else {
      var n := |block| - 1;
      SilentBlockLogsNothing(effects, block[..n]);
      LoggedWith(effects + block[..n], block[n]);
      OneMore(effects, block);
    }
  }

  /** The log of a run whose every write went through: what was there, then the account, a line each. */
  lemma LogIsTheAccount(o: Options, c: Cloud, files: Files)
    requires (o.dryRun || o.confirm) && !TurnedAway(o, c) && !Loops(o, c).progress.SinkFailed?
    ensures var path := if o.dryRun then o.auditLog + ".dryrun.jsonl" else o.auditLog;
            var kept := if !o.dryRun && path in files then files[path] else "";
            FilesAfter(o, c, |Text(EffectsOf(o, c))|, files) == files[path := kept + LinesOf(Loops(o, c).outcomes)]
  {
    var r := Each(c, o.dryRun, RECORDINGS, c.recordings, c.recordingsEnd, FRESH);
    EachLogsItsOutcomes(c, o.dryRun, RECORDINGS, c.recordings, c.recordingsEnd, FRESH);
    if o.includeSessions {
      EachLogsItsOutcomes(c, o.dryRun, SESSIONS, c.sessions, c.sessionsEnd, r);
    }
    LoopsWriteWhole(o, c);
    WholeText(Loops(o, c).effects);
  }

  /** Turned away at a gate a run does nothing but open its log; without a flag it does not even that. */
  lemma TurnedAwayDoesNothing(o: Options, c: Cloud, bytes: nat, files: Files)
    ensures TurnedAway(o, c) ==> EffectsOf(o, c) == []
    ensures TurnedAway(o, c) && o.dryRun ==>
              FilesAfter(o, c, bytes, files) == files[o.auditLog + ".dryrun.jsonl" := ""]
    ensures TurnedAway(o, c) && !o.dryRun && o.confirm ==>
              FilesAfter(o, c, bytes, files)
              == files[o.auditLog := if o.auditLog in files then files[o.auditLog] else ""]
    ensures !o.dryRun && !o.confirm ==> FilesAfter(o, c, bytes, files) == files
  {
    assert Text([]) == "" && Beginning("", bytes) == "";
    assert Content(files, o.auditLog) + "" == Content(files, o.auditLog);
  }

  lemma LoopsWriteWhole(o: Options, c: Cloud)
    requires !Loops(o, c).progress.SinkFailed?
    ensures forall e | e in Loops(o, c).effects && e.Wrote? :: Whole(e)
  {
    EachWritesWhole(c, o.dryRun, RECORDINGS, c.recordings, c.recordingsEnd, FRESH);
    var r := Each(c, o.dryRun, RECORDINGS, c.recordings, c.recordingsEnd, FRESH);
    if o.includeSessions {
      if !r.progress.SinkFailed? {
        EachWritesWhole(c, o.dryRun, SESSIONS, c.sessions, c.sessionsEnd, r);
      }
    }
  }

  lemma UnkilledRunEndsItsLines(o: Options, c: Cloud, log: string)
    requires OnBoundary(log) && !Loops(o, c).progress.SinkFailed?
    ensures OnBoundary(log + Text(Loops(o, c).effects))
  {
    LoopsWriteWhole(o, c);
    WholeText(Loops(o, c).effects);
    LinesEndOnBoundary(log, Logged(Loops(o, c).effects));
  }

  lemma BlocksAreSilent(c: Cloud, dryRun: bool, n: nat, src: Blob)
    ensures forall e | e in Session(c, dryRun, n, src).1 :: !e.Wrote?
    ensures Remainder(src.name, RECORDINGS).Some? ==> forall e | e in Recording(c, dryRun, n, src).1 :: !e.Wrote?
  {
  }

  // ---- the script ----------------------------------------------------------------------------------

  lemma TextOfOneMore(effects: seq<Effect>, e: Effect)
    ensures Text(effects + [e]) == Text(effects) + TextOf(e)
  {
    assert (effects + [e])[..|effects|] == effects;
  }

  lemma SilentOne(effects: seq<Effect>, e: Effect)
    requires !e.Wrote?
    ensures Text(effects + [e]) == Text(effects)
  {
    TextOfOneMore(effects, e);
    assert Text(effects) + "" == Text(effects);
  }

  lemma OneMore<T>(a: seq<T>, b: seq<T>)
    requires b != []
    ensures a + b == a + b[..|b| - 1] + [b[|b| - 1]]
  {
  }

  lemma {:induction false} SilentBlock(effects: seq<Effect>, block: seq<Effect>)
    requires forall e | e in block :: !e.Wrote?
    ensures Text(effects + block) == Text(effects)
    decreases |block|
  {
    if block == [] {
      assert effects + block == effects;
    } else {
      var n := |block| - 1;
      SilentBlock(effects, block[..n]);
      SilentOne(effects + block[..n], block[n]);
      OneMore(effects, block);
    }
  }

  class Disk {
    var files: Files

    constructor (files: Files)
      ensures this.files == files
    {
      this.files := files;
    }

    /** `_open_audit_log`: a live run appends, a dry run starts its preview over. */
    method OpenAuditLog(path: string, dryRun: bool)
      modifies this
      ensures files == old(files)[path := if dryRun then "" else Content(old(files), path)]
    {
      files := files[path := if dryRun || path !in files then "" else files[path]];
    }

    /** `_record`, and whether it raised; the line may be cut short then. */
    method Record(path: string, line: Outcome, sink: Sink) returns (raised: bool)
      requires path in files
      modifies this
      ensures files == old(files)[path := old(files)[path] + TextOf(Wrote(line, CutBy(sink)))]
      ensures raised == !sink.Kept?
    {
      var text := LineOf(line);
      match sink {
        case Kept =>
          files := files[path := files[path] + text];
        case Raised(bytes) =>
          files := files[path := files[path] + Beginning(text, bytes)];
      }
      raised := !sink.Kept?;
    }
  }

  /** One object: its delete, then its line on the log. */
  method HandleOne(
    o: Options, c: Cloud, prefix: string, src: Blob, before: Run, disk: Disk, path: string,
    ghost base: Files, ghost prior: string)
    returns (r: Run)
    requires Remainder(src.name, prefix).Some?
    requires disk.files == base[path := prior + Text(before.effects)]
    modifies disk
    ensures r == Handle(c, o.dryRun, prefix, src, before)
    ensures disk.files == base[path := prior + Text(r.effects)]
  {
    var n := |before.outcomes|;
    var done := if prefix == RECORDINGS then Recording(c, o.dryRun, n, src) else Session(c, o.dryRun, n, src);
    BlocksAreSilent(c, o.dryRun, n, src);
    SilentBlock(before.effects, done.1);
    match done.0 {
      case Lost(os) =>
        r := Run(before.outcomes, before.effects + done.1, Broken(os));
      case Said(line) =>
        var raised := disk.Record(path, line, c.sink(n));
        LineAdded(base, path, prior, before.effects + done.1, Wrote(line, CutBy(c.sink(n))));
        r := Run(before.outcomes + [line], before.effects + done.1 + [Wrote(line, CutBy(c.sink(n)))],
                 if raised then SinkFailed else Going);
    }
  }

  lemma LineAdded(base: Files, path: string, prior: string, effects: seq<Effect>, wrote: Effect)
    ensures base[path := prior + Text(effects)][path := prior + Text(effects) + TextOf(wrote)]
         == base[path := prior + Text(effects + [wrote])]
  {
    TextOfOneMore(effects, wrote);
    Regroup(prior, Text(effects), TextOf(wrote));
  }

  lemma Regroup(a: string, b: string, c: string)
    ensures a + b + c == a + (b + c)
  {
  }

  /** One listing's loop. */
  method DeleteListed(
    o: Options, c: Cloud, prefix: string, listing: seq<Blob>, end: Ending,
    start: Run, disk: Disk, path: string, ghost base: Files, ghost prior: string)
    returns (r: Run)
    requires disk.files == base[path := prior + Text(start.effects)]
    modifies disk
    ensures r == Each(c, o.dryRun, prefix, listing, end, start)
    ensures disk.files == base[path := prior + Text(r.effects)]
  {
    r := start;
    var i := 0;
    while r.progress.Going? && i < |listing|
      invariant 0 <= i <= |listing|
      invariant Each(c, o.dryRun, prefix, listing[i..], end, r) == Each(c, o.dryRun, prefix, listing, end, start)
      invariant disk.files == base[path := prior + Text(r.effects)]
    {
      assert listing[i..][1..] == listing[i + 1..] && listing[i..][0] == listing[i];
      if Remainder(listing[i].name, prefix).Some? {
        r := HandleOne(o, c, prefix, listing[i], r, disk, path, base, prior);
      }
      i := i + 1;
    }
    if r.progress.Going? && end.Dies? {
      r := r.(progress := Broken(end.os));
    }
  }

  function ExitCode(o: Options, c: Cloud): Exit {
    if !o.dryRun && !o.confirm then Code(2)
    else if Refused(o, c) then (if c.closeRaises then Traceback else Code(2))
    else ExitOf(o, c, Loops(o, c))
  }

  /** An error that is no `OSError` escapes: from a loop, from the re-scan of a live run, or from closing the log. */
  ghost predicate Escapes(o: Options, c: Cloud) {
    || c.closeRaises
    || (&& !TurnedAway(o, c)
        && (|| Loops(o, c).progress == Broken(false)
            || (Loops(o, c).progress.Going? && !o.dryRun && c.rescanEnd == Dies(false))))
  }

  /** Every exit of the script, by the flags, the gates and the run. */
  lemma ExitsExactly(o: Options, c: Cloud)
    ensures var exit := ExitCode(o, c);
            && (exit == Code(2) <==> (!o.dryRun && !o.confirm) || (TurnedAway(o, c) && !c.closeRaises))
            && (exit == Traceback <==> (o.dryRun || o.confirm) && Escapes(o, c))
            && (exit == Code(0) <==>
                  && (o.dryRun || o.confirm) && !TurnedAway(o, c) && !c.closeRaises && Loops(o, c).progress.Going?
                  && (forall line | line in Loops(o, c).outcomes ::
                        !(line.action.KeptBack? && "error: " <= line.reason))
                  && (!o.dryRun ==>
                        c.rescanEnd.Ends? && forall b | b in c.leftRecordings :: !IsRecording(b.name))
                  && (!o.dryRun && o.includeSessions ==> forall b | b in c.leftSessions :: !IsSession(b.name)))
            && (exit in {Code(0), Code(1), Code(2), Traceback})
  {
    ExitZeroExactly(o, c);
  }

  /** The script: open the log, check the gates, delete, re-scan, close the log, report. */
  method RunScript(o: Options, c: Cloud, disk: Disk) returns (exit: Exit)
    modifies disk
    ensures exit == ExitCode(o, c)
    ensures disk.files == FilesAfter(o, c, |Text(EffectsOf(o, c))|, old(disk.files))
  {
    if !o.dryRun && !o.confirm {
      return Code(2);
    }
    var path := AuditPath(o);
    ghost var prior := if o.dryRun then "" else Content(disk.files, path);
    ghost var base := disk.files;
    disk.OpenAuditLog(path, o.dryRun);
    assert prior + Text([]) == prior;
    if c.recorder == Active || (c.recorder == Unknown && !o.confirmQuiesced)
       || (o.includeSessions && !o.sessionsBackupConfirmed) {
      return if c.closeRaises then Traceback else Code(2);
    }
    var r := DeleteListed(o, c, RECORDINGS, c.recordings, c.recordingsEnd, FRESH, disk, path, base, prior);
    if o.includeSessions {
      r := DeleteListed(o, c, SESSIONS, c.sessions, c.sessionsEnd, r, disk, path, base, prior);
    }
    return ExitOf(o, c, r);
  }
}
