/**
 * The model download: status reads, the poll loop that makes them, and what
 * the surfaces may show while reads fail or after a cancel. Reads and cancels
 * interleave at every await.
 */
module ModelDownload {
  import opened Wrappers

  datatype Download =
    | Nothing
    | Downloading(done: int, total: int)
    | Installed
    | Failed(reason: string)
    | Cancelled

  /** `model status`, decoded; `None` in place of it is a read that failed. */
  datatype Report = Report(state: string, done: int, total: int, reason: Option<string>, installed: bool)

  function DownloadOf(r: Report): Download {
    if r.state == "idle" && r.installed then Installed
    else if r.state == "downloading" then Downloading(r.done, r.total)
    else if r.state == "installed" then Installed
    else if r.state == "failed" then Failed(if r.reason.Some? then r.reason.value else "unknown")
    else if r.state == "cancelled" then Cancelled
    else Nothing
  }

  /** A state the surfaces do not know reads as nothing to say. */
  lemma DownloadExactly(r: Report)
    ensures DownloadOf(r) == Installed <==> r.state == "installed" || (r.state == "idle" && r.installed)
    ensures forall done, total ::
              DownloadOf(r) == Downloading(done, total) <==>
                r.state == "downloading" && r.done == done && r.total == total
    ensures forall reason ::
              DownloadOf(r) == Failed(reason) <==>
                r.state == "failed" && (r.reason == Some(reason) || (r.reason.None? && reason == "unknown"))
    ensures DownloadOf(r) == Cancelled <==> r.state == "cancelled"
  {
    assert "idle"[0] == 'i' && "downloading"[0] == 'd' && "failed"[0] == 'f' && "cancelled"[0] == 'c';
    assert "installed"[0] == 'i' && "installed"[1] == 'n' && "idle"[1] == 'd';
  }

  // ---- the controller's state --------------------------------------------------------

  /** `loop` is the poll loop that runs. */
  datatype State = State(
    download: Download,
    failures: nat,
    unreachable: bool,
    loop: Option<nat>,
    loops: nat)

  const INIT := State(Nothing, 0, false, None, 0)

  const STALE_THRESHOLD := 2

  /** `isDownloadProgressStale`. */
  predicate Stale(s: State) {
    s.download.Downloading? && s.failures >= if s.loop.Some? then STALE_THRESHOLD else 1
  }

  datatype Offer = Done | Bar(done: int, total: int) | Stalled | Unavailable | Retry(reason: string) | Start

  /** `ModelDownloadOffer.render`. */
  function Render(s: State): Offer {
    match s.download
    case Installed => Done
    case Downloading(done, total) => if Stale(s) then Stalled else Bar(done, total)
    case Failed(reason) => Retry(reason)
    case Nothing => if s.unreachable then Unavailable else Start
    case Cancelled => if s.unreachable then Unavailable else Start
  }

  // ---- steps, one per stretch between awaits --------------------------------------------

  /** Every call of the command line begins and later comes back. */
  datatype Event =
    | RefreshBegun
    | Refreshed(report: Option<Report>)
    | Tick(loop: nat)
    | Polled(loop: nat, report: Option<Report>)
    | DownloadBegun
    | DownloadVerb(ok: bool)
    | DownloadRefreshed(report: Option<Report>)
    | CancelBegun
    | CancelVerb(ok: bool)
    | CancelRefreshed(report: Option<Report>)

  function StartPolling(s: State): State {
    if s.download.Downloading? && s.loop.None? then s.(loop := Some(s.loops + 1), loops := s.loops + 1) else s
  }

  function Refresh(s: State, report: Option<Report>): State {
    match report
    case Some(r) => StartPolling(s.(download := DownloadOf(r), unreachable := false, failures := 0))
    case None => s.(unreachable := true, failures := s.failures + 1)
  }

  function Verb(s: State, ok: bool): State {
    s.(failures := if ok then 0 else s.failures + 1)
  }

  function Poll(s: State, report: Option<Report>): State {
    var after := Refresh(s, report);
    if after.download.Downloading? then after else after.(loop := None)
  }

  function Step(s: State, e: Event): State {
    match e
    case RefreshBegun => s
    case Refreshed(report) => Refresh(s, report)
    case Tick(_) => s
    case Polled(_, report) => Poll(s, report)
    case DownloadBegun => s
    case DownloadVerb(ok) => Verb(s, ok)
    case DownloadRefreshed(report) => StartPolling(Refresh(s, report))
    case CancelBegun => s.(loop := None)
    case CancelVerb(ok) => Verb(s, ok)
    case CancelRefreshed(report) => Refresh(s, report).(loop := None)
  }

  /**
   * What is under way: a pane's reads, the loops (stopped or not) whose read is, the verbs of
   * downloads and of cancels, and the reads that follow those.
   */
  datatype Calls = Calls(
    refreshes: nat,
    polls: set<nat>,
    downloadVerbs: nat,
    downloadReads: nat,
    cancelVerbs: nat,
    cancelReads: nat)

  const IDLE := Calls(0, {}, 0, 0, 0, 0)

  /** Only the running loop begins a read, one at a time; whatever was begun comes back, once. */
  predicate Possible(s: State, c: Calls, e: Event) {
    match e
    case Refreshed(_) => c.refreshes > 0
    case Tick(loop) => s.loop == Some(loop) && loop !in c.polls
    case Polled(loop, _) => loop in c.polls
    case DownloadVerb(_) => c.downloadVerbs > 0
    case DownloadRefreshed(_) => c.downloadReads > 0
    case CancelVerb(_) => c.cancelVerbs > 0
    case CancelRefreshed(_) => c.cancelReads > 0
    case _ => true
  }

  function CallStep(c: Calls, e: Event): Calls {
    match e
    case RefreshBegun => c.(refreshes := c.refreshes + 1)
    case Refreshed(_) => if c.refreshes > 0 then c.(refreshes := c.refreshes - 1) else c
    case Tick(loop) => c.(polls := c.polls + {loop})
    case Polled(loop, _) => c.(polls := c.polls - {loop})
    case DownloadBegun => c.(downloadVerbs := c.downloadVerbs + 1)
    case DownloadVerb(_) =>
      if c.downloadVerbs > 0 then c.(downloadVerbs := c.downloadVerbs - 1, downloadReads := c.downloadReads + 1) else c
    case DownloadRefreshed(_) => if c.downloadReads > 0 then c.(downloadReads := c.downloadReads - 1) else c
    case CancelBegun => c.(cancelVerbs := c.cancelVerbs + 1)
    case CancelVerb(_) =>
      if c.cancelVerbs > 0 then c.(cancelVerbs := c.cancelVerbs - 1, cancelReads := c.cancelReads + 1) else c
    case CancelRefreshed(_) => if c.cancelReads > 0 then c.(cancelReads := c.cancelReads - 1) else c
  }

  function Run(from: (State, Calls), events: seq<Event>): (State, Calls) {
    if events == [] then from
    else
      var (s, c) := Run(from, events[..|events| - 1]);
      (Step(s, events[|events| - 1]), CallStep(c, events[|events| - 1]))
  }

  predicate Legal(from: (State, Calls), events: seq<Event>) {
    events == [] ||
    (&& Legal(from, events[..|events| - 1])
     && Possible(Run(from, events[..|events| - 1]).0, Run(from, events[..|events| - 1]).1, events[|events| - 1]))
  }

  const ATFIRST := (INIT, IDLE)

  /** How many of the events are of a kind. */
  function Count(events: seq<Event>, kind: Event -> bool): nat {
    if events == [] then 0
    else Count(events[..|events| - 1], kind) + if kind(events[|events| - 1]) then 1 else 0
  }

  /** How many more of one kind than of another. */
  function More(events: seq<Event>, kind: Event -> bool, other: Event -> bool): int {
    Count(events, kind) - Count(events, other)
  }

  /** What is under way has begun and not come back, and only that; a verb goes on to a read. */
  lemma {:induction false} CallsAreUnderWay(events: seq<Event>)
    requires Legal(ATFIRST, events)
    ensures var c := Run(ATFIRST, events).1;
            && c.refreshes == More(events, (e: Event) => e.RefreshBegun?, (e: Event) => e.Refreshed?)
            && c.downloadVerbs == More(events, (e: Event) => e.DownloadBegun?, (e: Event) => e.DownloadVerb?)
            && c.downloadReads == More(events, (e: Event) => e.DownloadVerb?, (e: Event) => e.DownloadRefreshed?)
            && c.cancelVerbs == More(events, (e: Event) => e.CancelBegun?, (e: Event) => e.CancelVerb?)
            && c.cancelReads == More(events, (e: Event) => e.CancelVerb?, (e: Event) => e.CancelRefreshed?)
  {
    if events != [] {
      CallsAreUnderWay(events[..|events| - 1]);
    }
  }

  lemma {:induction false} PollsAreUnderWay(events: seq<Event>, loop: nat)
    requires Legal(ATFIRST, events)
    ensures (if loop in Run(ATFIRST, events).1.polls then 1 else 0)
         == More(events, (e: Event) => e == Tick(loop), (e: Event) => e.Polled? && e.loop == loop)
  {
    if events != [] {
      PollsAreUnderWay(events[..|events| - 1], loop);
    }
  }

  // ---- the state is the history --------------------------------------------------------------

  /** The outcome of a status read, if the event is one that comes back. */
  function ReadOf(e: Event): Option<Option<Report>> {
    match e
    case Refreshed(report) => Some(report)
    case Polled(_, report) => Some(report)
    case DownloadRefreshed(report) => Some(report)
    case CancelRefreshed(report) => Some(report)
    case _ => None
  }

  /** A call of the command line came back, having worked or not. */
  predicate Worked(e: Event) {
    (ReadOf(e).Some? && ReadOf(e).value.Some?) || ((e.DownloadVerb? || e.CancelVerb?) && e.ok)
  }

  predicate Missed(e: Event) {
    ReadOf(e) == Some(None) || ((e.DownloadVerb? || e.CancelVerb?) && !e.ok)
  }

  /** The newest read there was. */
  function LastRead(events: seq<Event>): Option<Option<Report>> {
    if events == [] then None
    else if ReadOf(events[|events| - 1]).Some? then ReadOf(events[|events| - 1])
    else LastRead(events[..|events| - 1])
  }

  /** What the newest read that worked said. */
  function LastGood(events: seq<Event>): Option<Report> {
    if events == [] then None
    else
      match ReadOf(events[|events| - 1])
      case Some(Some(r)) => Some(r)
      case _ => LastGood(events[..|events| - 1])
  }

  /** How many calls have failed since one worked. */
  function MissesSince(events: seq<Event>): nat {
    if events == [] then 0
    else
      var e := events[|events| - 1];
      if Worked(e) then 0 else MissesSince(events[..|events| - 1]) + if Missed(e) then 1 else 0
  }

  /**
   * Whatever interleaved: what is shown is what the last good read said, the daemon counts as
   * unreachable exactly while the last read failed, and the misses are those since a call worked.
   */
  lemma {:induction false} StateIsTheHistory(events: seq<Event>)
    ensures var s := Run(ATFIRST, events).0;
            && s.download == (if LastGood(events).None? then Nothing else DownloadOf(LastGood(events).value))
            && (s.unreachable <==> LastRead(events) == Some(None))
            && s.failures == MissesSince(events)
  {
    if events != [] {
      StateIsTheHistory(events[..|events| - 1]);
    }
  }

  /** A loop that finds nothing to wait for ends; one is started by a good read of a download without one. */
  lemma LoopExactly(s: State, e: Event)
    ensures var s' := Step(s, e);
            && (s'.loop.Some? && s.loop.None? <==>
                  && (e.Refreshed? || e.Polled? || e.DownloadRefreshed?) && s.loop.None? && s'.download.Downloading?
                  && (ReadOf(e) != Some(None) || e.DownloadRefreshed?))
            && (s'.loop.None? && s.loop.Some? <==>
                  && s.loop.Some?
                  && (e.CancelBegun? || e.CancelRefreshed? || (e.Polled? && !s'.download.Downloading?)))
            && (s'.loop.Some? && s.loop.Some? ==> s'.loop == s.loop)
            && (s'.loop.Some? && s.loop.None? ==> s'.loop == Some(s.loops + 1) && s'.loops == s.loops + 1)
  {
  }

  /** What the surfaces offer, by what is known. */
  lemma OfferExactly(s: State)
    ensures Render(s) == Done <==> s.download == Installed
    ensures forall reason :: Render(s) == Retry(reason) <==> s.download == Failed(reason)
    ensures forall done, total :: Render(s) == Bar(done, total) ==> s.download == Downloading(done, total)
    ensures Render(s) == Stalled || Render(s).Bar? <==> s.download.Downloading?
    ensures Render(s) == Unavailable <==> s.unreachable && s.download in {Nothing, Cancelled}
    ensures Render(s) == Start <==> !s.unreachable && s.download in {Nothing, Cancelled}
  {
  }

  // ---- no frozen bar ------------------------------------------------------------------------

  /** A cancel began or ended, and neither a read that worked nor a new start has come since. */
  predicate CancelledSince(events: seq<Event>) {
    events != [] &&
    match events[|events| - 1]
    case CancelBegun => true
    case CancelRefreshed(_) => true
    case Refreshed(Some(_)) => false
    case Polled(_, Some(_)) => false
    case DownloadRefreshed(_) => false
    case _ => CancelledSince(events[..|events| - 1])
  }

  lemma {:induction false} UnpolledExactlyAfterCancel(events: seq<Event>)
    ensures Run(ATFIRST, events).0.download.Downloading? ==>
              (Run(ATFIRST, events).0.loop.None? <==> CancelledSince(events))
  {
    if events != [] {
      UnpolledExactlyAfterCancel(events[..|events| - 1]);
    }
  }

  /**
   * A bar that nothing moves is shown only after a cancel whose every call worked while the
   * status still read "downloading". Whenever the last call failed, a shown bar has its loop
   * running and is at its first miss; from the next one on it reads as stalled.
   */
  lemma FrozenBarExactly(events: seq<Event>)
    ensures var s := Run(ATFIRST, events).0;
            && (Render(s).Bar? && s.loop.None?
                <==> s.download.Downloading? && s.failures == 0 && CancelledSince(events))
            && (Render(s).Bar? && s.failures > 0
                <==> s.download.Downloading? && s.failures == 1 && !CancelledSince(events))
  {
    UnpolledExactlyAfterCancel(events);
  }

  // ---- a cancel that does not stick -----------------------------------------------------------

  /** What was begun coming back, including the read a verb goes on to; nothing new is begun. */
  predicate ComesBack(e: Event) {
    || e.Refreshed? || e.Polled? || e.DownloadVerb? || e.DownloadRefreshed? || e.CancelVerb? || e.CancelRefreshed?
  }

  predicate AllComeBack(events: seq<Event>) {
    forall k | 0 <= k < |events| :: ComesBack(events[k])
  }

  ghost predicate StaysStopped(s: State, c: Calls) {
    forall late | AllComeBack(late) && Legal((s, c), late) :: Run((s, c), late).0.loop.None?
  }

  /** No read is under way, nor a verb that a read will follow, except a cancel's. */
  predicate NothingReads(c: Calls) {
    c.refreshes == 0 && c.polls == {} && c.downloadVerbs == 0 && c.downloadReads == 0
  }

  lemma {:induction false} OnlyCancelsComeBack(s: State, c: Calls, late: seq<Event>)
    requires s.loop.None? && NothingReads(c) && AllComeBack(late) && Legal((s, c), late)
    ensures Run((s, c), late).0.loop.None? && NothingReads(Run((s, c), late).1)
  {
    if late != [] {
      OnlyCancelsComeBack(s, c, late[..|late| - 1]);
      assert ComesBack(late[|late| - 1]);
    }
  }

  const GOING := Some(Report("downloading", 1, 2, None, false))

  lemma OneComesBack(s: State, c: Calls, e: Event)
    requires ComesBack(e) && Possible(s, c, e) && Step(s, e).loop.Some?
    ensures !StaysStopped(s, c)
  {
    var late := [e];
    assert late[..|late| - 1] == [] && late[|late| - 1] == e;
    assert Legal((s, c), []) && Run((s, c), []) == (s, c);
    assert Legal((s, c), late) && Run((s, c), late).0 == Step(s, e);
    assert AllComeBack(late);
  }

  lemma VerbThenRead(s: State, c: Calls)
    requires c.downloadVerbs > 0
    ensures !StaysStopped(s, c)
  {
    var verb, read := DownloadVerb(true), DownloadRefreshed(GOING);
    var late := [verb, read];
    assert late[..1] == [verb] && [verb][..0] == [];
    assert Legal((s, c), []) && Run((s, c), []) == (s, c);
    assert Legal((s, c), [verb]) && Run((s, c), [verb]) == (Step(s, verb), CallStep(c, verb));
    assert Legal((s, c), late) && Run((s, c), late).0 == Step(Step(s, verb), read);
    assert AllComeBack(late);
  }

  /**
   * When a cancel ends, the loop stays stopped, whatever was begun before comes back, if and
   * only if no status read of any kind was under way, nor a download's verb, which a read
   * follows. Other cancels do no harm.
   */
  lemma CancelSticksExactly(s: State, c: Calls, report: Option<Report>)
    requires Possible(s, c, CancelRefreshed(report))
    ensures StaysStopped(Step(s, CancelRefreshed(report)), CallStep(c, CancelRefreshed(report))) <==> NothingReads(c)
  {
    var e := CancelRefreshed(report);
    var s', c' := Step(s, e), CallStep(c, e);
    if NothingReads(c) {
      forall late | AllComeBack(late) && Legal((s', c'), late) ensures Run((s', c'), late).0.loop.None? {
        OnlyCancelsComeBack(s', c', late);
      }
    } else if c.refreshes > 0 {
      OneComesBack(s', c', Refreshed(GOING));
    } else if c.downloadReads > 0 {
      OneComesBack(s', c', DownloadRefreshed(GOING));
    } else if c.downloadVerbs > 0 {
      VerbThenRead(s', c');
    } else {
      var loop :| loop in c'.polls;
      OneComesBack(s', c', Polled(loop, GOING));
    }
  }

  lemma RunOneMore(events: seq<Event>, e: Event)
    ensures Run(ATFIRST, events + [e]) == (Step(Run(ATFIRST, events).0, e), CallStep(Run(ATFIRST, events).1, e))
    ensures Legal(ATFIRST, events + [e])
       <==> Legal(ATFIRST, events) && Possible(Run(ATFIRST, events).0, Run(ATFIRST, events).1, e)
  {
    assert (events + [e])[..|events|] == events;
  }

  lemma PollUnderWay() returns (events: seq<Event>)
    ensures Legal(ATFIRST, events) && |events| == 3
    ensures Run(ATFIRST, events).0.download.Downloading? && 1 in Run(ATFIRST, events).1.polls
    ensures Run(ATFIRST, events).1.cancelVerbs == 0
  {
    events := [];
    RunOneMore(events, RefreshBegun);
    events := events + [RefreshBegun];
    RunOneMore(events, Refreshed(GOING));
    events := events + [Refreshed(GOING)];
    assert Run(ATFIRST, events).0.loop == Some(1) && Run(ATFIRST, events).1.polls == {};
    RunOneMore(events, Tick(1));
    events := events + [Tick(1)];
  }

  lemma CancelledDuringAPoll() returns (events: seq<Event>)
    ensures Legal(ATFIRST, events) && |events| == 6 && events[|events| - 1].CancelRefreshed?
    ensures Run(ATFIRST, events).0.loop.None? && 1 in Run(ATFIRST, events).1.polls
  {
    events := PollUnderWay();
    RunOneMore(events, CancelBegun);
    events := events + [CancelBegun];
    RunOneMore(events, CancelVerb(true));
    events := events + [CancelVerb(true)];
    RunOneMore(events, CancelRefreshed(GOING));
    events := events + [CancelRefreshed(GOING)];
  }

  /** Such a read can be under way: the user cancels during a poll, and polling resumes. */
  lemma PollingResumesAfterCancel() returns (events: seq<Event>)
    ensures Legal(ATFIRST, events) && |events| > 1 && events[|events| - 1].Polled?
    ensures events[|events| - 2].CancelRefreshed? && Run(ATFIRST, events[..|events| - 1]).0.loop.None?
    ensures Run(ATFIRST, events).0.loop.Some?
  {
    var before := CancelledDuringAPoll();
    RunOneMore(before, Polled(1, GOING));
    events := before + [Polled(1, GOING)];
    assert events[..|events| - 1] == before;
  }

  // ---- what an outage costs ------------------------------------------------------------------------

  function Shift(n: nat): (r: nat)
    ensures r >= 1
  {
    if n == 0 then 1 else 2 * Shift(n - 1)
  }

  /** `nextPollDelayNanos`, in seconds. */
  function Delay(failures: nat): (d: nat)
    ensures 1 <= d <= 30
  {
    var overage: int := failures - STALE_THRESHOLD;
    if overage < 0 then 1
    else
      var shift := if overage + 1 < 5 then overage + 1 else 5;
      if Shift(shift) < 30 then Shift(shift) else 30
  }

  lemma {:induction false} ShiftGrows(n: nat)
    ensures Shift(n + 5) >= 32 && Shift(5) == 32 && Shift(4) == 16 && Shift(3) == 8 && Shift(2) == 4 && Shift(1) == 2
  {
    assert Shift(1) == 2;
    assert Shift(2) == 4;
    assert Shift(3) == 8;
    assert Shift(4) == 16;
    if n > 0 {
      ShiftGrows(n - 1);
    }
  }

  /** The published curve: 30 seconds, or 2 to the number of failures less one if that is sooner. */
  lemma DelayIsTheCurve(failures: nat)
    requires failures >= 1
    ensures Delay(failures) == if Shift(failures - 1) < 30 then Shift(failures - 1) else 30
  {
    if failures >= 6 {
      ShiftGrows(failures - 6);
    } else {
      ShiftGrows(0);
    }
  }

  /** Seconds slept before the `n`-th read of an outage. */
  function Slept(n: nat): nat {
    if n == 0 then 0 else Slept(n - 1) + Delay(n - 1)
  }

  lemma {:induction false} SleptIs(n: nat)
    ensures Slept(n) == (if n == 0 then 0 else if n <= 6 then Shift(n - 1) else 32 + 30 * (n - 6))
  {
    ShiftGrows(0);
    if n > 0 {
      SleptIs(n - 1);
      if n > 6 {
        ShiftGrows(n - 7);
      }
    }
  }

  /** How many reads, each a subprocess, an outage of so many seconds can cost. */
  function Spawns(seconds: nat): nat {
    if seconds < 1 then 0
    else if seconds < 2 then 1
    else if seconds < 4 then 2
    else if seconds < 8 then 3
    else if seconds < 16 then 4
    else if seconds < 32 then 5
    else 6 + (seconds - 32) / 30
  }

  lemma SpawnsExactly(seconds: nat, n: nat)
    ensures Slept(n) <= seconds <==> n <= Spawns(seconds)
  {
    SleptIs(n);
    ShiftGrows(0);
    if n <= 6 {
      assert n == 0 || n == 1 || n == 2 || n == 3 || n == 4 || n == 5 || n == 6;
    }
  }

  /** The poll loop through an outage that begins right after a good read; reads take time too. */
  method PollThroughOutage(seconds: nat, took: nat -> nat) returns (spawned: nat)
    ensures spawned <= Spawns(seconds)
    ensures (forall k :: took(k) == 0) ==> spawned == Spawns(seconds)
  {
    var clock := 0;
    spawned := 0;
    while clock + Delay(spawned) <= seconds
      invariant Slept(spawned) <= clock
      invariant spawned <= Spawns(seconds)
      invariant (forall k :: took(k) == 0) ==> clock == Slept(spawned)
      decreases seconds - clock
    {
      SpawnsExactly(seconds, spawned + 1);
      clock := clock + Delay(spawned) + took(spawned);
      spawned := spawned + 1;
    }
    SpawnsExactly(seconds, spawned + 1);
  }

  // ---- the controller ----------------------------------------------------------------------------------

  class ModelDownloadController {
    var state: Download
    var consecutiveCliFailures: nat
    var daemonUnreachable: bool
    var pollTask: Option<nat>
    var loops: nat

    ghost function Now(): State
      reads this
    {
      State(state, consecutiveCliFailures, daemonUnreachable, pollTask, loops)
    }

    constructor ()
      ensures Now() == INIT
      ensures state == Nothing && consecutiveCliFailures == 0 && !daemonUnreachable && pollTask.None?
    {
      state, consecutiveCliFailures, daemonUnreachable, pollTask, loops := Nothing, 0, false, None, 0;
    }

    method StartPollingIfNeeded()
      modifies this
      ensures Now() == StartPolling(old(Now()))
    {
      if state.Downloading? && pollTask.None? {
        loops := loops + 1;
        pollTask := Some(loops);
      }
    }

    method StopPolling()
      modifies this`pollTask
      ensures pollTask.None?
    {
      pollTask := None;
    }

    /** What `refreshStatus` does once its read has come back. */
    method FinishRefresh(report: Option<Report>)
      modifies this
      ensures Now() == Refresh(old(Now()), report)
    {
      match report {
        case Some(r) =>
          state := DownloadOf(r);
          daemonUnreachable := false;
          consecutiveCliFailures := 0;
          StartPollingIfNeeded();
        case None =>
          daemonUnreachable := true;
          consecutiveCliFailures := consecutiveCliFailures + 1;
      }
    }

    method FinishVerb(ok: bool)
      modifies this
      ensures Now() == Verb(old(Now()), ok)
    {
      consecutiveCliFailures := if ok then 0 else consecutiveCliFailures + 1;
    }

    method FinishPoll(report: Option<Report>)
      modifies this
      ensures Now() == Poll(old(Now()), report)
    {
      FinishRefresh(report);
      if !state.Downloading? {
        StopPolling();
      }
    }

    method FinishDownload(report: Option<Report>)
      modifies this
      ensures Now() == Step(old(Now()), DownloadRefreshed(report))
    {
      FinishRefresh(report);
      StartPollingIfNeeded();
    }

    method BeginCancel()
      modifies this
      ensures Now() == Step(old(Now()), CancelBegun)
    {
      StopPolling();
    }

    method FinishCancel(report: Option<Report>)
      modifies this
      ensures Now() == Step(old(Now()), CancelRefreshed(report))
    {
      FinishRefresh(report);
      StopPolling();
    }
  }
}
