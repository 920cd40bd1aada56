/**
 * Exporting a clip: a subprocess's event lines, its exit, a cancel and an
 * inactivity watchdog, of which the first to end the export wins.
 */
module ClipExport {
  import opened Wrappers

  datatype Reason = NoFramesInRange | MaskedVideoRequired | ClipBusy | NotEligible | TrimFailed | Unknown

  function ReasonOf(raw: Option<string>): Reason {
    if raw == Some("no_frames_in_range") then NoFramesInRange
    else if raw == Some("masked_video_required") then MaskedVideoRequired
    else if raw == Some("clip_busy") then ClipBusy
    else if raw == Some("not_eligible") then NotEligible
    else if raw == Some("trim_failed") then TrimFailed
    else Unknown
  }

  datatype Progress = Progress(done: int, total: int, fraction: real)

  function Quotient(done: real, total: real): (q: real)
    requires total > 0.0
    ensures q * total == done
    ensures (q < 0.0 <==> done < 0.0) && (q == 0.0 <==> done == 0.0)
    ensures (q < 1.0 <==> done < total) && (q == 1.0 <==> done == total)
  {
    var q := done / total;
    assert q * total == done;
    Compare(q, 0.0, total);
    Compare(q, 1.0, total);
    q
  }

  lemma Compare(a: real, b: real, unit: real)
    requires unit > 0.0
    ensures a < b <==> a * unit < b * unit
    ensures a == b <==> a * unit == b * unit
  {
    if a < b {
      assert (b - a) * unit > 0.0;
    } else if a > b {
      assert (a - b) * unit > 0.0;
    }
  }

  /** `progressSnapshot`. */
  function Snapshot(done: int, total: int): (p: Progress)
    ensures 0.0 <= p.fraction <= 1.0 && p.done == done && p.total == total
    ensures p.fraction == 0.0 <==> done <= 0 || total <= 0
    ensures p.fraction == 1.0 <==> 0 < total <= done
    ensures 0 <= done <= total && total > 0 ==> p.fraction * (total as real) == done as real
  {
    var fraction := if total > 0 then Quotient(done as real, total as real) else 0.0;
    Progress(done, total, if fraction < 0.0 then 0.0 else if fraction > 1.0 then 1.0 else fraction)
  }

  /** Any other text, and none, is unknown. */
  lemma ReasonExactly(raw: Option<string>)
    ensures ReasonOf(raw) == NoFramesInRange <==> raw == Some("no_frames_in_range")
    ensures ReasonOf(raw) == MaskedVideoRequired <==> raw == Some("masked_video_required")
    ensures ReasonOf(raw) == ClipBusy <==> raw == Some("clip_busy")
    ensures ReasonOf(raw) == NotEligible <==> raw == Some("not_eligible")
    ensures ReasonOf(raw) == TrimFailed <==> raw == Some("trim_failed")
  {
    assert "no_frames_in_range"[1] == 'o' && "not_eligible"[2] == 't' && "no_frames_in_range"[2] == '_';
    assert "no_frames_in_range"[0] == 'n' && "not_eligible"[0] == 'n';
    assert "masked_video_required"[0] == 'm' && "clip_busy"[0] == 'c' && "trim_failed"[0] == 't';
  }

  datatype Export =
    | Idle
    | Exporting(progress: Progress)
    | Succeeded(path: string)
    | Failed(reason: Reason, retryable: bool)
    | Cancelled

  predicate Terminal(e: Export) {
    e.Succeeded? || e.Failed? || e.Cancelled?
  }

  /** A line that parsed. */
  datatype Line =
    | ClipStarted
    | ClipProgress(done: Option<int>, total: Option<int>)
    | ClipDone(path: Option<string>)
    | ClipFailed(reason: Option<string>, retryable: Option<bool>)
    | Other

  // ---- the controller, and the processes it has started -----------------------------------

  /** `process` names the attempt whose handle is held; `watchdog` says that one is asleep and not cancelled. */
  datatype State = State(
    status: Export,
    process: Option<nat>,
    latched: bool,
    done: int,
    total: int,
    hint: string,
    watchdog: bool)

  /**
   * Attempts are numbered from 1; a process dies, and later its exit is reported. A watchdog that
   * woke up uncancelled is past its guard, and fires later whatever happens in between: `past` has
   * the attempt during which each such one woke up.
   */
  datatype World = World(
    attempts: nat,
    spawned: set<nat>,
    dead: set<nat>,
    exited: set<nat>,
    signalled: set<nat>,
    past: multiset<nat>)

  datatype Event =
    | Start(outPath: string, spawns: bool)
    | Says(attempt: nat, line: Line)
    | Dies(attempt: nat)
    | Exits(attempt: nat)
    | Cancel
    | Wakes
    | Fires(attempt: nat)

  const INIT := (State(Idle, None, false, 0, 0, "", false), World(0, {}, {}, {}, {}, multiset{}))

  function StartStep(s: State, attempt: nat, outPath: string, spawns: bool): State {
    if s.status.Exporting? then s
    else if spawns then State(Exporting(Snapshot(0, 0)), Some(attempt), false, 0, 0, outPath, true)
    else State(Failed(TrimFailed, false), s.process, true, 0, 0, outPath, s.watchdog)
  }

  function LineStep(s: State, line: Line): State {
    if s.latched then s
    else
      match line
      case ClipStarted =>
        s.(watchdog := true, status := if s.status.Exporting? then s.status else Exporting(Snapshot(s.done, s.total)))
      case ClipProgress(done, total) =>
        var d, t := if done.Some? then done.value else s.done, if total.Some? then total.value else s.total;
        s.(watchdog := true, done := d, total := t, status := Exporting(Snapshot(d, t)))
      case ClipDone(path) =>
        s.(watchdog := false, latched := true, status := Succeeded(if path.Some? then path.value else s.hint))
      case ClipFailed(reason, retryable) =>
        var r := ReasonOf(reason);
        s.(watchdog := false, latched := true,
           status := Failed(r, if retryable.Some? then retryable.value else r == ClipBusy))
      case Other => s.(watchdog := true)
  }

  function ExitStep(s: State): State {
    var gone := s.(process := None, watchdog := false);
    if s.latched then gone else gone.(latched := true, status := Failed(Unknown, false))
  }

  function CancelStep(s: State, dead: set<nat>): State {
    var disarmed := s.(watchdog := false);
    if s.process.None? || s.process.value in dead || s.latched then disarmed
    else disarmed.(latched := true, status := Cancelled)
  }

  function FireStep(s: State): State {
    if s.latched || !s.status.Exporting? then s
    else s.(latched := true, status := Failed(TrimFailed, false))
  }

  function Step(s: State, w: World, e: Event): State {
    match e
    case Start(outPath, spawns) => StartStep(s, w.attempts + 1, outPath, spawns)
    case Says(_, line) => LineStep(s, line)
    case Dies(_) => s
    case Exits(_) => ExitStep(s)
    case Cancel => CancelStep(s, w.dead)
    case Wakes => s.(watchdog := false)
    case Fires(_) => FireStep(s)
  }

  function WorldStep(s: State, w: World, e: Event): World {
    match e
    case Start(_, spawns) =>
      if s.status.Exporting? || !spawns then w
      else w.(attempts := w.attempts + 1, spawned := w.spawned + {w.attempts + 1})
    case Dies(attempt) => w.(dead := w.dead + {attempt})
    case Exits(attempt) => w.(exited := w.exited + {attempt})
    case Cancel =>
      if s.process.Some? && s.process.value !in w.dead then w.(signalled := w.signalled + {s.process.value}) else w
    case Wakes => w.(past := w.past + multiset{w.attempts})
    case Fires(attempt) =>
      var fired := w.(past := w.past - multiset{attempt});
      if !s.latched && s.status.Exporting? && s.process.Some?
      then fired.(signalled := fired.signalled + {s.process.value}) else fired
    case Says(_, _) => w
  }

  /** Lines come from a process until its exit is reported; a watchdog past its guard can no longer be cancelled. */
  predicate Possible(s: State, w: World, e: Event) {
    match e
    case Says(attempt, _) => attempt in w.spawned && attempt !in w.exited
    case Dies(attempt) => attempt in w.spawned && attempt !in w.dead
    case Exits(attempt) => attempt in w.dead && attempt !in w.exited
    case Wakes => s.watchdog
    case Fires(attempt) => attempt in w.past
    case _ => true
  }

  function Run(from: (State, World), events: seq<Event>): (State, World) {
    if events == [] then from
    else
      var (s, w) := Run(from, events[..|events| - 1]);
      var e := events[|events| - 1];
      (Step(s, w, e), WorldStep(s, w, e))
  }

  predicate Legal(from: (State, World), events: seq<Event>) {
    events == [] ||
    (&& Legal(from, events[..|events| - 1])
     && Possible(Run(from, events[..|events| - 1]).0, Run(from, events[..|events| - 1]).1, events[|events| - 1]))
  }

  // ---- what one event does ------------------------------------------------------------------

  /** The process says how the clip failed; whether to try again it may leave to the reason. */
  predicate SaysFailed(e: Event, reason: Reason, retryable: bool) {
    && e.Says? && e.line.ClipFailed? && reason == ReasonOf(e.line.reason)
    && (e.line.retryable == Some(retryable) || (e.line.retryable.None? && (retryable <==> reason == ClipBusy)))
  }

  /** What ends an export in progress, and how. */
  lemma EndsExactly(s: State, w: World, e: Event)
    requires Sound(s, w) && Possible(s, w, e) && s.status.Exporting?
    ensures var after := Step(s, w, e).status;
            && (forall path :: after == Succeeded(path) <==>
                  e.Says? && e.line.ClipDone?
                  && (e.line.path == Some(path) || (e.line.path.None? && path == s.hint)))
            && (forall reason, retryable :: after == Failed(reason, retryable) <==>
                  || SaysFailed(e, reason, retryable)
                  || (e.Exits? && reason == Unknown && !retryable)
                  || (e.Fires? && reason == TrimFailed && !retryable))
            && (after == Cancelled <==> e.Cancel? && w.attempts !in w.dead)
            && !after.Idle?
  {
  }

  /** An export in progress shows the newest counts it was told; a line that gives none changes none. */
  lemma ProgressIsTold(s: State, w: World, e: Event)
    requires Sound(s, w) && s.status.Exporting? && Step(s, w, e).status.Exporting?
    ensures var (s', told) := (Step(s, w, e), e.Says? && e.line.ClipProgress?);
            && s'.done == (if told && e.line.done.Some? then e.line.done.value else s.done)
            && s'.total == (if told && e.line.total.Some? then e.line.total.value else s.total)
            && s'.hint == s.hint && s'.process == s.process
            && s'.status == if told then Exporting(Snapshot(s'.done, s'.total)) else s.status
  {
  }

  /** A start that finds no export in progress begins one from nothing, or fails at once; else it does nothing. */
  lemma StartsExactly(s: State, w: World, outPath: string, spawns: bool)
    ensures var s' := Step(s, w, Start(outPath, spawns));
            && (s.status.Exporting? ==> s' == s)
            && (!s.status.Exporting? ==> s'.hint == outPath && s'.done == s'.total == 0)
            && (!s.status.Exporting? && spawns ==>
                  s'.status == Exporting(Progress(0, 0, 0.0)) && s'.process == Some(w.attempts + 1) && s'.watchdog)
            && (!s.status.Exporting? && !spawns ==> s'.status == Failed(TrimFailed, false) && s'.process == s.process)
  {
  }

  /** The watchdog starts over at every line of an export in progress, and is off once that ends or is cancelled. */
  lemma WatchdogExactly(s: State, w: World, e: Event)
    requires Sound(s, w) && s.status.Exporting?
    ensures var s' := Step(s, w, e);
            && (e.Says? && s'.status.Exporting? ==> s'.watchdog)
            && (e.Says? && !s'.status.Exporting? ==> !s'.watchdog)
            && (e.Exits? || e.Cancel? || e.Wakes? ==> !s'.watchdog)
            && (e.Dies? || e.Start? || e.Fires? ==> s'.watchdog == s.watchdog)
  {
  }

  /** A process is told to stop by a cancel that finds it alive, or by a watchdog that fires on an export. */
  lemma SignalledExactly(s: State, w: World, e: Event, attempt: nat)
    requires attempt !in w.signalled
    ensures attempt in WorldStep(s, w, e).signalled
       <==> && s.process == Some(attempt)
            && ((e.Cancel? && attempt !in w.dead) || (e.Fires? && s.status.Exporting? && !s.latched))
  {
  }

  /** Which watchdogs are past their guard: each wakes once for the attempt of the moment, and fires once. */
  lemma PastExactly(s: State, w: World, e: Event, attempt: nat)
    requires Possible(s, w, e)
    ensures WorldStep(s, w, e).past[attempt]
         == w.past[attempt] + (if e.Wakes? && attempt == w.attempts then 1 else 0)
                            - (if e == Fires(attempt) then 1 else 0)
  {
  }

  // ---- what every run keeps -----------------------------------------------------------------

  /**
   * The latch is set exactly in a terminal state. An export in progress holds the newest
   * attempt's handle, its exit is still to come, and the watchdog is armed, or one of this attempt
   * is past its guard, or the process is dead already, so something will end it.
   */
  predicate Sound(s: State, w: World) {
    && (s.latched <==> Terminal(s.status))
    && (s.status.Idle? ==> w.spawned == {} && s.process.None?)
    && (s.status.Exporting? ==> && s.process == Some(w.attempts) && w.attempts in w.spawned && w.attempts !in w.exited
                                && (s.watchdog || w.attempts in w.past || w.attempts in w.dead))
    && (forall a | a in w.spawned :: a <= w.attempts)
    && (forall a | a in w.past :: a <= w.attempts)
    && w.dead <= w.spawned && w.exited <= w.dead
  }

  lemma ReportStaysSound(s: State, w: World, e: Event)
    requires Sound(s, w) && Possible(s, w, e) && (e.Says? || e.Exits? || e.Dies?)
    ensures Sound(Step(s, w, e), WorldStep(s, w, e))
  {
  }

  lemma WatchdogStaysSound(s: State, w: World, e: Event)
    requires Sound(s, w) && Possible(s, w, e) && (e.Wakes? || e.Fires?)
    ensures Sound(Step(s, w, e), WorldStep(s, w, e))
  {
  }

  lemma StepStaysSound(s: State, w: World, e: Event)
    requires Sound(s, w) && Possible(s, w, e)
    ensures Sound(Step(s, w, e), WorldStep(s, w, e))
  {
    if e.Says? || e.Exits? || e.Dies? {
      ReportStaysSound(s, w, e);
    } else if e.Wakes? || e.Fires? {
      WatchdogStaysSound(s, w, e);
    }
  }

  lemma {:induction false} AlwaysSound(events: seq<Event>)
    requires Legal(INIT, events)
    ensures Sound(Run(INIT, events).0, Run(INIT, events).1)
  {
    if events != [] {
      var before := events[..|events| - 1];
      AlwaysSound(before);
      StepStaysSound(Run(INIT, before).0, Run(INIT, before).1, events[|events| - 1]);
    }
  }

  /** No export is ever stuck: a watchdog or the exit that is still to come ends it, whichever is first. */
  lemma NeverWedged(events: seq<Event>)
    requires Legal(INIT, events) && Run(INIT, events).0.status.Exporting?
    ensures var (s, w) := Run(INIT, events);
            && Terminal(Step(s, w, Fires(w.attempts)).status) && Terminal(Step(s, w, Exits(w.attempts)).status)
            && (Possible(s, w, Wakes) || Possible(s, w, Fires(w.attempts)) || Possible(s, w, Exits(w.attempts)))
            && Possible(Step(s, w, Wakes), WorldStep(s, w, Wakes), Fires(w.attempts))
  {
    AlwaysSound(events);
  }

  predicate NoStart(events: seq<Event>) {
    forall k | 0 <= k < |events| :: !events[k].Start?
  }

  lemma {:induction false} FirstTerminalWins(from: (State, World), events: seq<Event>)
    requires Sound(from.0, from.1) && Terminal(from.0.status) && NoStart(events)
    ensures Run(from, events).0.status == from.0.status && Run(from, events).0.latched
  {
    if events != [] {
      FirstTerminalWins(from, events[..|events| - 1]);
    }
  }

  /** A failure offers a retry only if the process said so, or said nothing about it and was busy. */
  lemma RetryIsToldOrBusy(s: State, w: World, e: Event)
    requires Sound(s, w) && !s.status.Failed? && Step(s, w, e).status.Failed?
    ensures Step(s, w, e).status.retryable
       <==> && e.Says? && e.line.ClipFailed?
            && (e.line.retryable == Some(true) || (e.line.retryable.None? && e.line.reason == Some("clip_busy")))
  {
  }

  // ---- where an outcome comes from --------------------------------------------------------------

  ghost predicate ChosenAt(events: seq<Event>, k: int, path: string) {
    0 <= k < |events| && events[k].Start? && events[k].outPath == path
  }

  ghost predicate Chosen(events: seq<Event>, path: string) {
    exists k :: ChosenAt(events, k, path)
  }

  lemma StillChosen(events: seq<Event>, e: Event, path: string)
    requires Chosen(events, path)
    ensures Chosen(events + [e], path)
  {
    var k :| ChosenAt(events, k, path);
    assert ChosenAt(events + [e], k, path);
  }

  lemma HintStays(s: State, w: World, e: Event)
    requires Sound(s, w) && Possible(s, w, e) && !(e.Start? && !s.status.Exporting?)
    ensures Step(s, w, e).hint == s.hint && (s.status.Idle? ==> Step(s, w, e).status.Idle?)
  {
  }

  lemma {:induction false} HintWasChosen(events: seq<Event>)
    requires Legal(INIT, events) && !Run(INIT, events).0.status.Idle?
    ensures Chosen(events, Run(INIT, events).0.hint)
  {
    if events != [] {
      var before, e := events[..|events| - 1], events[|events| - 1];
      assert events == before + [e];
      AlwaysSound(before);
      if e.Start? && !Run(INIT, before).0.status.Exporting? {
        assert ChosenAt(events, |events| - 1, Run(INIT, events).0.hint);
      } else {
        HintStays(Run(INIT, before).0, Run(INIT, before).1, e);
        HintWasChosen(before);
        StillChosen(before, e, Run(INIT, before).0.hint);
      }
    }
  }

  /** A process reported the clip done, at this path or, not naming one, at a path that was chosen. */
  ghost predicate DoneAt(events: seq<Event>, k: int, path: string) {
    && 0 <= k < |events| && events[k].Says? && events[k].line.ClipDone?
    && (events[k].line.path == Some(path) || (events[k].line.path.None? && Chosen(events[..k], path)))
  }

  ghost predicate Earned(events: seq<Event>, status: Export) {
    match status
    case Succeeded(path) => exists k :: DoneAt(events, k, path)
    case Cancelled => Cancel in events
    case _ => true
  }

  lemma StillEarned(events: seq<Event>, e: Event, status: Export)
    requires Earned(events, status)
    ensures Earned(events + [e], status)
  {
    if status.Succeeded? {
      var k :| DoneAt(events, k, status.path);
      assert (events + [e])[..k] == events[..k];
      assert DoneAt(events + [e], k, status.path);
    }
  }

  /** Over every run: success names the file a process reported, or that was chosen; "cancelled" follows a cancel. */
  lemma {:induction false} OutcomeIsEarned(events: seq<Event>)
    requires Legal(INIT, events)
    ensures Earned(events, Run(INIT, events).0.status)
  {
    if events != [] {
      var before, e := events[..|events| - 1], events[|events| - 1];
      var (s, s') := (Run(INIT, before).0, Run(INIT, events).0);
      assert events == before + [e];
      AlwaysSound(before);
      if s'.status == s.status {
        OutcomeIsEarned(before);
        StillEarned(before, e, s.status);
      } else if s'.status.Succeeded? {
        HintWasChosen(before);
        assert events[..|events| - 1] == before;
        assert DoneAt(events, |events| - 1, s'.status.path);
      }
    }
  }

  // ---- callbacks of an earlier attempt ------------------------------------------------------------

  /** A process of an earlier attempt is heard of, or a watchdog of one fires. */
  predicate Foreign(w: World, e: Event) {
    (e.Says? || e.Dies? || e.Exits? || e.Fires?) && e.attempt != w.attempts
  }

  /** Until the next start: a last event that is foreign leaves the status as it was before it. */
  ghost predicate Unmoved(s: State, w: World, late: seq<Event>) {
    late != [] && Foreign(w, late[|late| - 1])
    ==> Run((s, w), late).0.status == Run((s, w), late[..|late| - 1]).0.status
  }

  ghost predicate ForeignProof(s: State, w: World) {
    forall late | NoStart(late) && Legal((s, w), late) :: Unmoved(s, w, late)
  }

  /** Some earlier process has still to report, or some earlier watchdog, past its guard, to fire. */
  ghost predicate Outstanding(w: World) {
    || (exists a :: a in w.spawned && a !in w.exited && a != w.attempts)
    || (exists a :: a in w.past && a != w.attempts)
  }

  lemma NobodyElseCan(s: State, w: World, e: Event)
    requires !Outstanding(w) && w.dead <= w.spawned && w.exited <= w.dead && !e.Start? && Possible(s, w, e)
    ensures !Foreign(w, e)
    ensures var w' := WorldStep(s, w, e);
            w'.attempts == w.attempts && !Outstanding(w') && w'.dead <= w'.spawned && w'.exited <= w'.dead
  {
  }

  lemma {:induction false} NobodyElseComes(s: State, w: World, late: seq<Event>)
    requires !Outstanding(w) && w.dead <= w.spawned && w.exited <= w.dead && NoStart(late) && Legal((s, w), late)
    ensures late != [] ==> !Foreign(w, late[|late| - 1])
    ensures var w' := Run((s, w), late).1;
            w'.attempts == w.attempts && !Outstanding(w') && w'.dead <= w'.spawned && w'.exited <= w'.dead
  {
    if late != [] {
      var before := late[..|late| - 1];
      NobodyElseComes(s, w, before);
      NobodyElseCan(Run((s, w), before).0, Run((s, w), before).1, late[|late| - 1]);
    }
  }

  lemma OneForeign(s: State, w: World, e: Event)
    requires Foreign(w, e) && Possible(s, w, e) && Step(s, w, e).status != s.status
    ensures !ForeignProof(s, w)
  {
    var late := [e];
    assert late[..|late| - 1] == [] && late[|late| - 1] == e;
    assert Run((s, w), []) == (s, w) && Legal((s, w), []);
    assert Legal((s, w), late) && Run((s, w), late).0 == Step(s, w, e);
    assert NoStart(late) && !Unmoved(s, w, late);
  }

  /**
   * Neither the callbacks nor the watchdogs carry an attempt number. From now until it is started
   * again an export is safe from those of earlier attempts, whatever else happens, if and only if
   * no earlier process has still to report and no earlier watchdog is past its guard.
   */
  lemma ForeignProofExactly(s: State, w: World)
    requires Sound(s, w) && s.status.Exporting?
    ensures ForeignProof(s, w) <==> !Outstanding(w)
  {
    if !Outstanding(w) {
      forall late | NoStart(late) && Legal((s, w), late) ensures Unmoved(s, w, late) {
        NobodyElseComes(s, w, late);
      }
    } else if exists a :: a in w.past && a != w.attempts {
      var a :| a in w.past && a != w.attempts;
      OneForeign(s, w, Fires(a));
    } else {
      var a :| a in w.spawned && a !in w.exited && a != w.attempts;
      OneForeign(s, w, Says(a, ClipDone(Some(""))));
    }
  }

  lemma RunOneMore(events: seq<Event>, e: Event)
    ensures Run(INIT, events + [e])
         == (Step(Run(INIT, events).0, Run(INIT, events).1, e), WorldStep(Run(INIT, events).0, Run(INIT, events).1, e))
    ensures Legal(INIT, events + [e])
       <==> Legal(INIT, events) && Possible(Run(INIT, events).0, Run(INIT, events).1, e)
  {
    assert (events + [e])[..|events|] == events;
  }

  lemma CancelledAndStartedAgain() returns (events: seq<Event>)
    ensures Legal(INIT, events)
    ensures var (s, w) := Run(INIT, events);
            s.status.Exporting? && !s.latched && w.spawned == {1, 2} && w.dead == {} && w.exited == {}
            && w.signalled == {1}
  {
    events := [];
    RunOneMore(events, Start("a", true));
    events := events + [Start("a", true)];
    RunOneMore(events, Cancel);
    events := events + [Cancel];
    RunOneMore(events, Start("b", true));
    events := events + [Start("b", true)];
  }

  /** Cancel, start again, and the first process's exit fails the second export, whose process runs on unheld. */
  lemma LateExitFailsTheNextExport() returns (events: seq<Event>)
    ensures Legal(INIT, events)
    ensures var (s, w) := Run(INIT, events);
            s.status == Failed(Unknown, false) && 2 in w.spawned && 2 !in w.dead && 2 !in w.signalled
            && Step(s, w, Cancel).status == s.status && WorldStep(s, w, Cancel) == w
  {
    events := CancelledAndStartedAgain();
    RunOneMore(events, Dies(1));
    events := events + [Dies(1)];
    RunOneMore(events, Exits(1));
    events := events + [Exits(1)];
  }

  lemma FirstExportEnds() returns (events: seq<Event>)
    ensures Legal(INIT, events) && Terminal(Run(INIT, events).0.status)
    ensures var w := Run(INIT, events).1;
            w.attempts == 1 && w.spawned == w.exited == {1} && 1 in w.past && w.signalled == {}
  {
    events := [];
    RunOneMore(events, Start("a", true));
    events := events + [Start("a", true)];
    RunOneMore(events, Wakes);
    events := events + [Wakes];
    RunOneMore(events, Dies(1));
    events := events + [Dies(1)];
    RunOneMore(events, Exits(1));
    events := events + [Exits(1)];
  }

  /** The first export is over and its process gone, and its watchdog, just past its guard, kills the second one's. */
  lemma LateWatchdogKillsTheNextExport() returns (events: seq<Event>)
    ensures Legal(INIT, events)
    ensures var (s, w) := Run(INIT, events);
            s.status == Failed(TrimFailed, false) && w.spawned == {1, 2} && w.exited == {1} && w.signalled == {2}
  {
    events := FirstExportEnds();
    RunOneMore(events, Start("b", true));
    events := events + [Start("b", true)];
    RunOneMore(events, Fires(1));
    events := events + [Fires(1)];
  }

  // ---- the controller -----------------------------------------------------------------------------------

  class ClipExportController {
    var state: Export
    var process: Option<nat>
    var sawTerminalEvent: bool
    var framesDone: int
    var framesTotal: int
    var outPathHint: string
    var watchdogArmed: bool

    ghost function Now(): State
      reads this
    {
      State(state, process, sawTerminalEvent, framesDone, framesTotal, outPathHint, watchdogArmed)
    }

    constructor ()
      ensures Now() == INIT.0
      ensures state == Idle && process.None? && !sawTerminalEvent && framesDone == framesTotal == 0 && !watchdogArmed
    {
      state, process, sawTerminalEvent := Idle, None, false;
      framesDone, framesTotal, outPathHint, watchdogArmed := 0, 0, "", false;
    }

    method Begin(attempt: nat, outPath: string, spawns: bool)
      modifies this
      ensures Now() == StartStep(old(Now()), attempt, outPath, spawns)
    {
      if state.Exporting? {
        return;
      }
      sawTerminalEvent := false;
      framesDone, framesTotal, outPathHint := 0, 0, outPath;
      state := Exporting(Snapshot(framesDone, framesTotal));
      if spawns {
        process := Some(attempt);
        watchdogArmed := true;
      } else {
        sawTerminalEvent := true;
        state := Failed(TrimFailed, false);
      }
    }

    method HandleLine(line: Line)
      modifies this
      ensures Now() == LineStep(old(Now()), line)
    {
      if sawTerminalEvent {
        return;
      }
      watchdogArmed := true;
      match line {
        case ClipStarted =>
          if !state.Exporting? {
            state := Exporting(Snapshot(framesDone, framesTotal));
          }
        case ClipProgress(done, total) =>
          if done.Some? {
            framesDone := done.value;
          }
          if total.Some? {
            framesTotal := total.value;
          }
          state := Exporting(Snapshot(framesDone, framesTotal));
        case ClipDone(path) =>
          sawTerminalEvent := true;
          watchdogArmed := false;
          state := Succeeded(if path.Some? then path.value else outPathHint);
        case ClipFailed(reason, retryable) =>
          sawTerminalEvent := true;
          watchdogArmed := false;
          var r := ReasonOf(reason);
          state := Failed(r, if retryable.Some? then retryable.value else r == ClipBusy);
        case Other =>
      }
    }

    method HandleTerminated()
      modifies this
      ensures Now() == ExitStep(old(Now()))
    {
      process := None;
      watchdogArmed := false;
      if !sawTerminalEvent {
        sawTerminalEvent := true;
        state := Failed(Unknown, false);
      }
    }

    method CancelExport(dead: set<nat>)
      modifies this
      ensures Now() == CancelStep(old(Now()), dead)
    {
      watchdogArmed := false;
      if process.None? || process.value in dead {
        return;
      }
      if !sawTerminalEvent {
        sawTerminalEvent := true;
        state := Cancelled;
      }
    }

    method FireInactivityTimeout()
      modifies this
      ensures Now() == FireStep(old(Now()))
    {
      if sawTerminalEvent || !state.Exporting? {
        return;
      }
      sawTerminalEvent := true;
      state := Failed(TrimFailed, false);
    }
  }
}
