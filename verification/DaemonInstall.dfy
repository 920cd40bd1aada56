/**
 * Installing the background daemon: registration, approval, and polling a
 * daemon that may be absent, stale or slow to be replaced.
 */
module DaemonInstall {
  import opened Wrappers

  type Version = string

  datatype Status = Enabled | NeedsApproval | NotFound | NotRegistered | Unrecognised

  datatype Reason =
    | PlistWriteFailed
    | BootstrapFailed
    | SigningInvalid
    | DiskFull
    | VersionMismatch
    | Unknown

  /** What a register or refresh call comes back with. */
  datatype Registration = Registered(status: Status) | Threw(reason: Reason)

  datatype State =
    | Idle
    | Registering
    | Polling
    | PollingFailed
    | InstalledAndRunning
    | RequiresApproval
    | InstallFailed(reason: Reason)

  /** How the outside world will behave: every answer it will give, and how long each probe takes. */
  datatype Script = Script(
    expected: Option<Version>,
    answers: nat -> Option<Version>,
    probeTime: nat -> nat,
    statuses: nat -> Status,
    registered: Registration,
    refreshed: Registration,
    kickstartWorks: bool)

  /** What the controller has done to the outside world so far, and the time. */
  datatype Sys = Sys(clock: nat, probes: nat, statusReads: nat, kicks: nat, bootouts: nat, refreshes: nat)

  datatype Timing = Timing(
    timeout: nat, interval: nat, approvalTimeout: nat, approvalInterval: nat, convergence: nat)

  /** The sleeps make progress. Without it neither poll need ever end; see `ZeroIntervalNeverEnds`. */
  predicate Ticks(t: Timing) {
    t.interval > 0 && t.approvalInterval > 0
  }

  predicate Accepts(w: Script, v: Version) {
    w.expected == None || w.expected == Some(v)
  }

  // ---- polling ------------------------------------------------------------

  datatype Found = Running(version: Version) | Mismatch(version: Version) | TimedOut

  datatype Turn = Stop(found: Found, sys: Sys) | Again(sys: Sys, last: Option<Version>)

  /** One probe, and either an outcome or a sleep. */
  function PollTurn(
    w: Script, interval: nat, deadline: nat, converge: bool, s: Sys, last: Option<Version>): Turn
  {
    var s' := s.(clock := s.clock + w.probeTime(s.probes), probes := s.probes + 1);
    var slept := s'.(clock := s'.clock + interval);
    match w.answers(s.probes)
    case Some(v) =>
      if Accepts(w, v) then Stop(Running(v), s')
      else if converge && s'.clock < deadline then Again(slept, Some(v))
      else Stop(Mismatch(v), s')
    case None =>
      if s'.clock < deadline then Again(slept, last)
      else Stop(if last.Some? then Mismatch(last.value) else TimedOut, s')
  }

  function PollFrom(
    w: Script, interval: nat, deadline: nat, converge: bool, s: Sys, last: Option<Version>): (Found, Sys)
    requires interval > 0
    decreases if s.clock < deadline then deadline - s.clock else 0
  {
    match PollTurn(w, interval, deadline, converge, s, last)
    case Stop(found, s') => (found, s')
    case Again(s', last') => PollFrom(w, interval, deadline, converge, s', last')
  }

  function Poll(w: Script, t: Timing, converge: bool, s: Sys): (Found, Sys)
    requires Ticks(t)
  {
    PollFrom(w, t.interval, s.clock + Budget(t, converge), converge, s, None)
  }

  function Budget(t: Timing, converge: bool): nat {
    if converge then t.convergence else t.timeout
  }

  /** Probes are bounded by the budget: at most one more than the intervals that fit it, rounded up. */
  lemma {:induction false} PollProbesBounded(
    w: Script, interval: nat, deadline: nat, converge: bool, s: Sys, last: Option<Version>)
    requires interval > 0
    ensures var s' := PollFrom(w, interval, deadline, converge, s, last).1;
            var left := if s.clock < deadline then deadline - s.clock else 0;
            1 <= s'.probes - s.probes && (s'.probes - s.probes - 1) * interval <= left + interval - 1
    decreases if s.clock < deadline then deadline - s.clock else 0
  {
    match PollTurn(w, interval, deadline, converge, s, last)
    case Stop(_, s') =>
      assert s'.probes == s.probes + 1;
    case Again(s', last') =>
      PollProbesBounded(w, interval, deadline, converge, s', last');
  }

  predicate SawWrong(w: Script, s: Sys, s': Sys, v: Version) {
    !Accepts(w, v) && exists k | s.probes <= k < s'.probes :: w.answers(k) == Some(v)
  }

  predicate Silent(w: Script, s: Sys, s': Sys) {
    forall k | s.probes <= k < s'.probes :: w.answers(k) == None
  }

  /** Nothing but the clock and the probe count moves while polling. */
  predicate OnlyPolled(s: Sys, s': Sys) {
    s'.probes > s.probes && s' == s.(clock := s'.clock, probes := s'.probes)
  }

  /**
   * What each poll outcome proves about the daemon: running means the last probe
   * answered with an accepted version and no earlier one did; a mismatch means some
   * probe answered with a wrong version; a timeout means no probe was answered at all.
   */
  lemma {:induction false} PollOutcomeIsEarned(
    w: Script, interval: nat, deadline: nat, converge: bool, s: Sys, last: Option<Version>, start: Sys)
    requires interval > 0
    requires start.probes == s.probes || OnlyPolled(start, s)
    requires s == start.(clock := s.clock, probes := s.probes)
    requires last.Some? ==> SawWrong(w, start, s, last.value)
    requires last.None? ==> Silent(w, start, s)
    requires forall k | start.probes <= k < s.probes :: w.answers(k).Some? ==> !Accepts(w, w.answers(k).value)
    ensures var (found, s') := PollFrom(w, interval, deadline, converge, s, last);
            && OnlyPolled(start, s')
            && (forall k | start.probes <= k < s'.probes - 1 ::
                  w.answers(k).Some? ==> !Accepts(w, w.answers(k).value))
            && match found
               case Running(v) => Accepts(w, v) && w.answers(s'.probes - 1) == Some(v)
               case Mismatch(v) =>
                 && SawWrong(w, start, s', v)
                 && (w.answers(s'.probes - 1).Some? ==> !Accepts(w, w.answers(s'.probes - 1).value))
               case TimedOut => Silent(w, start, s')
    decreases if s.clock < deadline then deadline - s.clock else 0
  {
    match PollTurn(w, interval, deadline, converge, s, last)
    case Stop(found, s') =>
      assert w.answers(s'.probes - 1) == w.answers(s.probes);
      if last.Some? {
        var k :| start.probes <= k < s.probes && w.answers(k) == Some(last.value);
        assert k < s'.probes;
      }
    case Again(s', last') =>
      if last'.Some? {
        var k :| start.probes <= k < s'.probes && w.answers(k) == Some(last'.value) by {
          if w.answers(s.probes).Some? {
            assert w.answers(s.probes) == last';
          }
        }
        assert SawWrong(w, start, s', last'.value);
      }
      PollOutcomeIsEarned(w, interval, deadline, converge, s', last', start);
  }

  // ---- where a poll stops ---------------------------------------------------

  /** When the probe after `n` earlier ones comes back. */
  function AnsweredAt(w: Script, interval: nat, s: Sys, n: nat): nat {
    if n == 0 then s.clock + w.probeTime(s.probes)
    else AnsweredAt(w, interval, s, n - 1) + interval + w.probeTime(s.probes + n)
  }

  lemma {:induction false} OneProbeLater(w: Script, interval: nat, s: Sys, n: nat)
    ensures var next := s.(clock := s.clock + w.probeTime(s.probes) + interval, probes := s.probes + 1);
            AnsweredAt(w, interval, next, n) == AnsweredAt(w, interval, s, n + 1)
  {
    if n > 0 {
      OneProbeLater(w, interval, s, n - 1);
    }
  }

  /** The probe with this many before it settles nothing, and there is time for another. */
  predicate GoesOn(w: Script, interval: nat, deadline: nat, converge: bool, s: Sys, n: nat) {
    var answer := w.answers(s.probes + n);
    && AnsweredAt(w, interval, s, n) < deadline
    && (answer.Some? ==> converge && w.expected.Some? && answer != w.expected)
  }

  /** The last version answered before this probe, if there was one. */
  function LastBefore(w: Script, s: Sys, n: nat, last: Option<Version>): Option<Version> {
    if n == 0 then last
    else if w.answers(s.probes + n - 1).Some? then w.answers(s.probes + n - 1)
    else LastBefore(w, s, n - 1, last)
  }

  lemma {:induction false} LastBeforeLater(w: Script, s: Sys, next: Sys, n: nat, last: Option<Version>)
    requires next.probes == s.probes + 1
    ensures LastBefore(w, next, n, if w.answers(s.probes).Some? then w.answers(s.probes) else last)
         == LastBefore(w, s, n + 1, last)
  {
    if n > 0 {
      LastBeforeLater(w, s, next, n - 1, last);
    }
  }

  /** The poll stopped at the probe with `n` before it, with this outcome. */
  predicate StoppedAt(
    w: Script, interval: nat, deadline: nat, converge: bool, s: Sys, last: Option<Version>,
    n: nat, found: Found, s': Sys)
  {
    var answer := w.answers(s.probes + n);
    && (forall j: nat | j < n :: GoesOn(w, interval, deadline, converge, s, j))
    && !GoesOn(w, interval, deadline, converge, s, n)
    && s' == s.(clock := AnsweredAt(w, interval, s, n), probes := s.probes + n + 1)
    && (if answer.Some? then
          found == if w.expected.None? || answer == w.expected then Running(answer.value) else Mismatch(answer.value)
        else
          found == if LastBefore(w, s, n, last).Some? then Mismatch(LastBefore(w, s, n, last).value) else TimedOut)
  }

  /**
   * A poll is over at the first probe that is accepted, that is answered wrongly when there is no
   * waiting for a replacement, or that comes back at or after the deadline; the outcome is that
   * probe's answer, or without one the last wrong version there was.
   */
  lemma {:induction false} PollStops(
    w: Script, interval: nat, deadline: nat, converge: bool, s: Sys, last: Option<Version>) returns (n: nat)
    requires interval > 0
    ensures var (found, s') := PollFrom(w, interval, deadline, converge, s, last);
            StoppedAt(w, interval, deadline, converge, s, last, n, found, s')
    decreases if s.clock < deadline then deadline - s.clock else 0
  {
    if GoesOn(w, interval, deadline, converge, s, 0) {
      var (next, later) := Onward(w, interval, s, last);
      assert PollTurn(w, interval, deadline, converge, s, last) == Again(next, later);
      var m := PollStops(w, interval, deadline, converge, next, later);
      n := m + 1;
      var (found, s') := PollFrom(w, interval, deadline, converge, next, later);
      StoppedLater(w, interval, deadline, converge, s, last, m, found, s');
    } else {
      n := 0;
    }
  }

  /** The state and the last version after a probe that settles nothing, and the sleep. */
  function Onward(w: Script, interval: nat, s: Sys, last: Option<Version>): (Sys, Option<Version>) {
    (s.(clock := s.clock + w.probeTime(s.probes) + interval, probes := s.probes + 1),
     if w.answers(s.probes).Some? then w.answers(s.probes) else last)
  }

  lemma GoesOnLater(w: Script, interval: nat, deadline: nat, converge: bool, s: Sys, n: nat)
    ensures GoesOn(w, interval, deadline, converge, Onward(w, interval, s, None).0, n)
         == GoesOn(w, interval, deadline, converge, s, n + 1)
  {
    OneProbeLater(w, interval, s, n);
  }

  lemma StoppedLater(
    w: Script, interval: nat, deadline: nat, converge: bool, s: Sys, last: Option<Version>,
    m: nat, found: Found, s': Sys)
    requires GoesOn(w, interval, deadline, converge, s, 0)
    requires var (next, later) := Onward(w, interval, s, last);
             StoppedAt(w, interval, deadline, converge, next, later, m, found, s')
    ensures StoppedAt(w, interval, deadline, converge, s, last, m + 1, found, s')
  {
    var next := Onward(w, interval, s, last).0;
    forall j: nat | j < m + 1 ensures GoesOn(w, interval, deadline, converge, s, j) {
      if j > 0 {
        GoesOnLater(w, interval, deadline, converge, s, j - 1);
        assert GoesOn(w, interval, deadline, converge, next, j - 1);
      }
    }
    GoesOnLater(w, interval, deadline, converge, s, m);
    OneProbeLater(w, interval, s, m);
    LastBeforeLater(w, s, next, m, last);
  }

  /** The poll stopped somewhere, by this deadline. */
  ghost predicate Stopped(
    w: Script, interval: nat, deadline: nat, converge: bool, s: Sys, found: Found, s': Sys)
  {
    exists n: nat :: StoppedAt(w, interval, deadline, converge, s, None, n, found, s')
  }

  /** The first poll and the one after a kickstart have the plain budget and fail fast; the last one waits. */
  lemma PollStopsExactly(w: Script, t: Timing, converge: bool, s: Sys)
    requires Ticks(t)
    ensures var (found, s') := Poll(w, t, converge, s);
            var deadline := s.clock + if converge then t.convergence else t.timeout;
            Stopped(w, t.interval, deadline, converge, s, found, s')
  {
    var deadline := s.clock + if converge then t.convergence else t.timeout;
    var n := PollStops(w, t.interval, deadline, converge, s, None);
    var (found, s') := Poll(w, t, converge, s);
    assert StoppedAt(w, t.interval, deadline, converge, s, None, n, found, s');
  }

  function Turns(
    n: nat, w: Script, interval: nat, deadline: nat, converge: bool, s: Sys, last: Option<Version>): Turn
  {
    var turn := PollTurn(w, interval, deadline, converge, s, last);
    if n == 0 || turn.Stop? then turn
    else Turns(n - 1, w, interval, deadline, converge, turn.sys, turn.last)
  }

  /** With a zero interval and a silent daemon the clock stands still, and no number of turns is enough. */
  lemma {:induction false} ZeroIntervalNeverEnds(n: nat, w: Script, deadline: nat, converge: bool, s: Sys)
    requires s.clock < deadline && (forall k :: w.answers(k) == None && w.probeTime(k) == 0)
    ensures Turns(n, w, 0, deadline, converge, s, None).Again?
  {
    if n > 0 {
      var turn := PollTurn(w, 0, deadline, converge, s, None);
      assert turn == Again(s.(probes := s.probes + 1), None);
      ZeroIntervalNeverEnds(n - 1, w, deadline, converge, turn.sys);
    }
  }

  // ---- the whole installation ----------------------------------------------

  datatype Approval = Approved | StillPending | Gone

  function AwaitFrom(w: Script, interval: nat, deadline: nat, s: Sys): (Approval, Sys)
    requires interval > 0
    decreases if s.clock < deadline then deadline - s.clock else 0
  {
    var s' := s.(statusReads := s.statusReads + 1);
    match w.statuses(s.statusReads)
    case Enabled => (Approved, s')
    case NotFound | NotRegistered => (Gone, s')
    case NeedsApproval | Unrecognised =>
      if s'.clock >= deadline then (StillPending, s')
      else AwaitFrom(w, interval, deadline, s'.(clock := s'.clock + interval))
  }

  function Await(w: Script, t: Timing, s: Sys): (Approval, Sys)
    requires Ticks(t)
  {
    AwaitFrom(w, t.approvalInterval, s.clock + t.approvalTimeout, s)
  }

  /** The status read with this many before it says enabled or gone, which ends the wait for approval. */
  predicate Decisive(w: Script, s: Sys, k: nat) {
    w.statuses(s.statusReads + k) in {Enabled, NotFound, NotRegistered}
  }

  /** The read with this many before it is the first decisive one. */
  predicate FirstDecisive(w: Script, s: Sys, k: nat) {
    Decisive(w, s, k) && forall j: nat | j < k :: !Decisive(w, s, j)
  }

  /** No read before this one was made at or after the deadline. */
  predicate InTime(s: Sys, interval: nat, deadline: nat, k: nat) {
    k == 0 || s.clock + (k - 1) * interval < deadline
  }

  predicate WaitsOn(w: Script, s: Sys, interval: nat, deadline: nat, k: nat) {
    !Decisive(w, s, k) && s.clock + k * interval < deadline
  }

  lemma {:induction false} AwaitStops(w: Script, interval: nat, deadline: nat, s: Sys) returns (k: nat)
    requires interval > 0
    ensures forall j: nat | j < k :: WaitsOn(w, s, interval, deadline, j)
    ensures !WaitsOn(w, s, interval, deadline, k)
    ensures var status := w.statuses(s.statusReads + k);
            AwaitFrom(w, interval, deadline, s)
            == (if status == Enabled then Approved
                else if status == NotFound || status == NotRegistered then Gone
                else StillPending,
                s.(statusReads := s.statusReads + k + 1, clock := s.clock + k * interval))
    decreases if s.clock < deadline then deadline - s.clock else 0
  {
    if WaitsOn(w, s, interval, deadline, 0) {
      var next := s.(statusReads := s.statusReads + 1, clock := s.clock + interval);
      var m := AwaitStops(w, interval, deadline, next);
      k := m + 1;
      forall j: nat | j <= m
        ensures WaitsOn(w, s, interval, deadline, j + 1) == WaitsOn(w, next, interval, deadline, j)
      {
        Spread(j, interval);
      }
      forall j: nat | j < k ensures WaitsOn(w, s, interval, deadline, j) {
        if j > 0 {
          assert WaitsOn(w, next, interval, deadline, j - 1);
        }
      }
      Spread(m, interval);
    } else {
      k := 0;
    }
  }

  lemma Spread(j: nat, interval: nat)
    ensures (j + 1) * interval == j * interval + interval
  {
  }

  lemma Monotonic(j: nat, k: nat, interval: nat)
    requires j <= k
    ensures j * interval <= k * interval
  {
  }

  /** The wait ended at this read, which was the first decisive one and came in time. */
  predicate DecidedBy(w: Script, t: Timing, s: Sys, k: nat, s': Sys) {
    && FirstDecisive(w, s, k) && InTime(s, t.approvalInterval, s.clock + t.approvalTimeout, k)
    && s' == s.(statusReads := s.statusReads + k + 1, clock := s.clock + k * t.approvalInterval)
  }

  /**
   * The wait for approval, from the statuses alone: it is decided by the first status that says
   * enabled or gone, if no earlier read was made at or after the deadline, and is pending otherwise.
   */
  lemma AwaitExactly(w: Script, t: Timing, s: Sys)
    requires Ticks(t)
    ensures var (approval, s') := Await(w, t, s);
            && (approval == Approved <==>
                  exists k: nat :: DecidedBy(w, t, s, k, s') && w.statuses(s.statusReads + k) == Enabled)
            && (approval == Gone <==>
                  exists k: nat :: DecidedBy(w, t, s, k, s')
                                   && w.statuses(s.statusReads + k) in {NotFound, NotRegistered})
            && (approval == StillPending <==>
                  !exists k: nat ::
                      FirstDecisive(w, s, k) && InTime(s, t.approvalInterval, s.clock + t.approvalTimeout, k))
  {
    var deadline := s.clock + t.approvalTimeout;
    var k := AwaitStops(w, t.approvalInterval, deadline, s);
    var s' := Await(w, t, s).1;
    assert InTime(s, t.approvalInterval, deadline, k) by {
      if k > 0 {
        assert WaitsOn(w, s, t.approvalInterval, deadline, k - 1);
      }
    }
    forall j: nat | j < k ensures !Decisive(w, s, j) {
      assert WaitsOn(w, s, t.approvalInterval, deadline, j);
    }
    if Decisive(w, s, k) {
      assert DecidedBy(w, t, s, k, s');
      assert forall j: nat | FirstDecisive(w, s, j) :: j == k;
    } else {
      forall j: nat | FirstDecisive(w, s, j) ensures !InTime(s, t.approvalInterval, deadline, j) {
        assert j > k;
        Monotonic(k, j - 1, t.approvalInterval);
      }
    }
  }

  function KickAndRepoll(w: Script, t: Timing, s: Sys): (bool, Sys)
    requires Ticks(t)
  {
    var s' := s.(kicks := s.kicks + 1);
    if !w.kickstartWorks then (false, s')
    else
      var (found, s'') := Poll(w, t, false, s');
      (found.Running?, s'')
  }

  function Handle(w: Script, t: Timing, status: Status, s: Sys, mayRefresh: bool, prior: Option<Version>): (State, Sys)
    requires Ticks(t)
    decreases mayRefresh, 1, status != Enabled
  {
    match status
    case Enabled =>
      var (found, s') := Poll(w, t, !mayRefresh, s);
      (match found
       case Running(_) => (InstalledAndRunning, s')
       case TimedOut =>
         if mayRefresh then
           var (back, s'') := KickAndRepoll(w, t, s');
           if back then (InstalledAndRunning, s'') else Refresh(w, t, s'', None)
         else (if prior.Some? then InstallFailed(VersionMismatch) else PollingFailed, s')
       case Mismatch(v) =>
         if mayRefresh then Refresh(w, t, s'.(bootouts := s'.bootouts + 1), Some(v))
         else (InstallFailed(VersionMismatch), s'))
    case NeedsApproval =>
      var (approval, s') := Await(w, t, s);
      (match approval
       case Approved => Handle(w, t, Enabled, s', mayRefresh, prior)
       case StillPending => (RequiresApproval, s')
       case Gone => (InstallFailed(Unknown), s'))
    case NotFound => (InstallFailed(PlistWriteFailed), s)
    case NotRegistered => (InstallFailed(BootstrapFailed), s)
    case Unrecognised => (InstallFailed(Unknown), s)
  }

  function Refresh(w: Script, t: Timing, s: Sys, prior: Option<Version>): (State, Sys)
    requires Ticks(t)
    decreases true, 0, false
  {
    var s' := s.(refreshes := s.refreshes + 1);
    match w.refreshed
    case Threw(reason) => (InstallFailed(reason), s')
    case Registered(status) => Handle(w, t, status, s', false, prior)
  }

  function Install(w: Script, t: Timing, s: Sys): (State, Sys)
    requires Ticks(t)
  {
    match w.registered
    case Threw(reason) => (InstallFailed(reason), s)
    case Registered(status) => Handle(w, t, status, s, true, None)
  }

  predicate Polled(w: Script, t: Timing, converge: bool, s: Sys, found: Found, s': Sys)
    requires Ticks(t)
  {
    Poll(w, t, converge, s) == (found, s')
  }

  lemma PollFacts(w: Script, t: Timing, converge: bool, s: Sys)
    requires Ticks(t)
    ensures var (found, s') := Poll(w, t, converge, s);
            && OnlyPolled(s, s')
            && (found.Running? <==> LastAnswerAccepted(w, s'))
            && (s'.probes - s.probes - 1) * t.interval <= Budget(t, converge) + t.interval - 1
            && (found.TimedOut? ==> Silent(w, s, s'))
            && (found.Mismatch? ==> SawWrong(w, s, s', found.version))
  {
    PollOutcomeIsEarned(w, t.interval, s.clock + Budget(t, converge), converge, s, None, s);
    PollProbesBounded(w, t.interval, s.clock + Budget(t, converge), converge, s, None);
  }

  /** The last probe that was sent reached a daemon of an accepted version. */
  predicate LastAnswerAccepted(w: Script, s: Sys) {
    s.probes > 0 && w.answers(s.probes - 1).Some? && Accepts(w, w.answers(s.probes - 1).value)
  }

  lemma {:induction false} AwaitOnlyReads(w: Script, interval: nat, deadline: nat, s: Sys)
    requires interval > 0
    ensures var s' := AwaitFrom(w, interval, deadline, s).1;
            s' == s.(clock := s'.clock, statusReads := s'.statusReads)
    decreases if s.clock < deadline then deadline - s.clock else 0
  {
    if w.statuses(s.statusReads) in {NeedsApproval, Unrecognised} && s.clock < deadline {
      AwaitOnlyReads(w, interval, deadline,
                     s.(statusReads := s.statusReads + 1, clock := s.clock + interval));
    }
  }

  /** Where the poll after a registration starts from; `None` if that registration never becomes enabled. */
  function PollStart(w: Script, t: Timing, r: Registration, s: Sys): Option<Sys>
    requires Ticks(t)
  {
    if r.Threw? then None
    else if r.status == Enabled then Some(s)
    else if r.status == NeedsApproval && Await(w, t, s).0 == Approved then Some(Await(w, t, s).1)
    else None
  }

  lemma PollStartFacts(w: Script, t: Timing, r: Registration, s: Sys)
    requires Ticks(t)
    ensures var start := PollStart(w, t, r, s);
            start.Some? ==>
              start.value == s.(clock := start.value.clock, statusReads := start.value.statusReads)
  {
    AwaitOnlyReads(w, t.approvalInterval, s.clock + t.approvalTimeout, s);
  }

  lemma EnabledSecondPass(w: Script, t: Timing, s: Sys, prior: Option<Version>)
    requires Ticks(t)
    ensures var (found, end) := Poll(w, t, true, s);
            Handle(w, t, Enabled, s, false, prior) == (match found
              case Running(_) => InstalledAndRunning
              case Mismatch(_) => InstallFailed(VersionMismatch)
              case TimedOut => if prior.Some? then InstallFailed(VersionMismatch) else PollingFailed, end)
  {
  }

  lemma NoSecondPoll(w: Script, t: Timing, s: Sys, prior: Option<Version>)
    requires Ticks(t) && PollStart(w, t, w.refreshed, s.(refreshes := s.refreshes + 1)).None?
    ensures var (state, s') := Refresh(w, t, s, prior);
            && s' == s.(clock := s'.clock, statusReads := s'.statusReads, refreshes := s.refreshes + 1)
            && (state.InstallFailed? || state.RequiresApproval?)
  {
    var s1 := s.(refreshes := s.refreshes + 1);
    AwaitOnlyReads(w, t.approvalInterval, s1.clock + t.approvalTimeout, s1);
  }

  lemma SecondPoll(w: Script, t: Timing, s: Sys, prior: Option<Version>)
    requires Ticks(t) && PollStart(w, t, w.refreshed, s.(refreshes := s.refreshes + 1)).Some?
    ensures Refresh(w, t, s, prior)
         == Handle(w, t, Enabled, PollStart(w, t, w.refreshed, s.(refreshes := s.refreshes + 1)).value, false, prior)
  {
  }

  /** The second pass: one converging poll, whose silence counts as a mismatch if a wrong version led here. */
  lemma SecondPass(w: Script, t: Timing, s: Sys, prior: Option<Version>)
    requires Ticks(t)
    ensures var (state, s') := Refresh(w, t, s, prior);
            var start := PollStart(w, t, w.refreshed, s.(refreshes := s.refreshes + 1));
            && s'.refreshes == s.refreshes + 1 && s'.bootouts == s.bootouts && s'.kicks == s.kicks
            && (start.None? ==>
                  s'.probes == s.probes && (state.InstallFailed? || state.RequiresApproval?))
            && (start.Some? ==>
                  var (found, end) := Poll(w, t, true, start.value);
                  s' == end && state == match found
                    case Running(_) => InstalledAndRunning
                    case Mismatch(_) => InstallFailed(VersionMismatch)
                    case TimedOut => if prior.Some? then InstallFailed(VersionMismatch) else PollingFailed)
  {
    var s1 := s.(refreshes := s.refreshes + 1);
    PollStartFacts(w, t, w.refreshed, s1);
    var start := PollStart(w, t, w.refreshed, s1);
    if start.Some? {
      SecondPoll(w, t, s, prior);
      EnabledSecondPass(w, t, start.value, prior);
      PollFacts(w, t, true, start.value);
    } else {
      NoSecondPoll(w, t, s, prior);
    }
  }

  /** The first pass, read off its fail-fast poll. */
  lemma FirstPass(w: Script, t: Timing, s: Sys)
    requires Ticks(t)
    ensures var (state, s') := Install(w, t, s);
            var start := PollStart(w, t, w.registered, s);
            && (start.None? ==>
                  && (state.InstallFailed? || state.RequiresApproval?)
                  && s' == s.(clock := s'.clock, statusReads := s'.statusReads))
            && (start.Some? ==>
                  var (found, s1) := Poll(w, t, false, start.value);
                  var (back, s2) := KickAndRepoll(w, t, s1);
                  (state, s') == match found
                    case Running(_) => (InstalledAndRunning, s1)
                    case TimedOut => if back then (InstalledAndRunning, s2) else Refresh(w, t, s2, None)
                    case Mismatch(v) => Refresh(w, t, s1.(bootouts := s1.bootouts + 1), Some(v)))
  {
    AwaitOnlyReads(w, t.approvalInterval, s.clock + t.approvalTimeout, s);
  }

  /** The outcome of the first, fail-fast poll, if the installation gets that far. */
  function FirstPoll(w: Script, t: Timing, s: Sys): Option<(Found, Sys)>
    requires Ticks(t)
  {
    var start := PollStart(w, t, w.registered, s);
    if start.None? then None else Some(Poll(w, t, false, start.value))
  }

  lemma KickFacts(w: Script, t: Timing, s: Sys)
    requires Ticks(t)
    ensures var (back, s') := KickAndRepoll(w, t, s);
            && s' == s.(clock := s'.clock, probes := s'.probes, kicks := s.kicks + 1)
            && s'.probes >= s.probes
            && (back ==> LastAnswerAccepted(w, s'))
            && (!back && s'.probes > s.probes ==> !LastAnswerAccepted(w, s'))
            && (s'.probes - s.probes - 1) * t.interval <= t.timeout + t.interval - 1
  {
    PollFacts(w, t, false, s.(kicks := s.kicks + 1));
  }

  /**
   * The daemon is declared running exactly when the very last probe reached an accepted
   * version; registration is refreshed at most once, and a daemon is booted out only on
   * the way to that refresh, after the first poll met a wrong version.
   */
  lemma RunningIsEarned(w: Script, t: Timing, s: Sys)
    requires Ticks(t)
    ensures var (state, s') := Install(w, t, s);
            && (state == InstalledAndRunning <==> s'.probes > s.probes && LastAnswerAccepted(w, s'))
            && s'.refreshes <= s.refreshes + 1
            && s'.kicks <= s.kicks + 1
            && s'.bootouts - s.bootouts <= s'.refreshes - s.refreshes
            && (s'.bootouts == s.bootouts + 1 <==>
                  FirstPoll(w, t, s).Some? && FirstPoll(w, t, s).value.0.Mismatch?)
            && s'.bootouts <= s.bootouts + 1
  {
    FirstPass(w, t, s);
    PollStartFacts(w, t, w.registered, s);
    var start := PollStart(w, t, w.registered, s);
    if start.Some? {
      PollFacts(w, t, false, start.value);
      var (found, s1) := Poll(w, t, false, start.value);
      KickFacts(w, t, s1);
      var before := if found.TimedOut? then KickAndRepoll(w, t, s1).1 else s1.(bootouts := s1.bootouts + 1);
      SecondPassFacts(w, t, before, if found.Mismatch? then Some(found.version) else None);
      if found.TimedOut? {
        assert !LastAnswerAccepted(w, s1);
      }
    }
  }

  lemma SecondPassFacts(w: Script, t: Timing, s: Sys, prior: Option<Version>)
    requires Ticks(t)
    ensures var (state, s') := Refresh(w, t, s, prior);
            && s'.probes >= s.probes
            && (state == InstalledAndRunning <==> s'.probes > s.probes && LastAnswerAccepted(w, s'))
            && s'.refreshes == s.refreshes + 1 && s'.bootouts == s.bootouts && s'.kicks == s.kicks
            && (s'.probes - s.probes - 1) * t.interval <= t.convergence + t.interval - 1
            && (state == PollingFailed ==> prior.None? && Silent(w, s, s'))
  {
    SecondPass(w, t, s, prior);
    PollStartFacts(w, t, w.refreshed, s.(refreshes := s.refreshes + 1));
    var start := PollStart(w, t, w.refreshed, s.(refreshes := s.refreshes + 1));
    if start.Some? {
      PollFacts(w, t, true, start.value);
      var (found, s') := Poll(w, t, true, start.value);
      assert Refresh(w, t, s, prior).1 == s' && start.value.probes == s.probes;
      assert Silent(w, start.value, s') ==> Silent(w, s, s');
    }
  }

  /** Every installation ends within a number of probes fixed by its budgets. */
  lemma InstallProbesBounded(w: Script, t: Timing, s: Sys)
    requires Ticks(t)
    ensures var s' := Install(w, t, s).1;
            (s'.probes - s.probes) * t.interval <= 2 * t.timeout + t.convergence + 6 * t.interval - 3
  {
    FirstPass(w, t, s);
    PollStartFacts(w, t, w.registered, s);
    var start := PollStart(w, t, w.registered, s);
    if start.Some? {
      PollFacts(w, t, false, start.value);
      var (found, s1) := Poll(w, t, false, start.value);
      KickFacts(w, t, s1);
      var s2 := if found.TimedOut? then KickAndRepoll(w, t, s1).1 else s1.(bootouts := s1.bootouts + 1);
      SecondPassFacts(w, t, s2, if found.Mismatch? then Some(found.version) else None);
      var s3 := Refresh(w, t, s2, if found.Mismatch? then Some(found.version) else None).1;
      ThreeSpans(t.interval, s1.probes - s.probes, s2.probes - s1.probes, s3.probes - s2.probes);
    }
  }

  lemma ThreeSpans(unit: nat, a: int, b: int, c: int)
    ensures (a + b + c) * unit == (a - 1) * unit + (b - 1) * unit + (c - 1) * unit + 3 * unit
    ensures a * unit == (a - 1) * unit + unit && (a + b) * unit == (a - 1) * unit + (b - 1) * unit + 2 * unit
  {
  }

  /**
   * A wrong version met by the first poll is never reported as silence. What it leads to is
   * decided by the reinstall: if that registration becomes enabled, the daemon is running or the
   * mismatch is reported; otherwise the registration's own failure or a pending approval is.
   */
  lemma FirstMismatchIsNeverForgotten(w: Script, t: Timing, s: Sys)
    requires Ticks(t) && FirstPoll(w, t, s).Some? && FirstPoll(w, t, s).value.0.Mismatch?
    ensures var (state, s') := Install(w, t, s);
            var s1 := FirstPoll(w, t, s).value.1;
            var booted := s1.(bootouts := s1.bootouts + 1, refreshes := s1.refreshes + 1);
            var reinstalled := PollStart(w, t, w.refreshed, booted);
            && state != PollingFailed
            && (reinstalled.Some? ==>
                  state == if LastAnswerAccepted(w, s') then InstalledAndRunning else InstallFailed(VersionMismatch))
            && (reinstalled.None? ==> state.InstallFailed? || state == RequiresApproval)
  {
    FirstPass(w, t, s);
    var (found, s1) := FirstPoll(w, t, s).value;
    SecondPass(w, t, s1.(bootouts := s1.bootouts + 1), Some(found.version));
    var reinstalled := PollStart(w, t, w.refreshed, s1.(bootouts := s1.bootouts + 1, refreshes := s1.refreshes + 1));
    if reinstalled.Some? {
      PollFacts(w, t, true, reinstalled.value);
    }
  }

  predicate Answered(w: Script, s: Sys, s': Sys) {
    exists k | s.probes <= k < s'.probes :: w.answers(k).Some?
  }

  /**
   * A wrong version met only by the poll after the kickstart, however, is dropped: an
   * installation that ends in "did not respond" has been answered exactly when that
   * poll met a wrong version.
   */
  lemma PollingFailedWasAnsweredOnlyAfterKickstart(w: Script, t: Timing, s: Sys)
    requires Ticks(t) && Install(w, t, s).0 == PollingFailed
    ensures FirstPoll(w, t, s).Some? && FirstPoll(w, t, s).value.0.TimedOut?
    ensures var s1 := FirstPoll(w, t, s).value.1;
            Answered(w, s, Install(w, t, s).1)
            <==> w.kickstartWorks && Poll(w, t, false, s1.(kicks := s1.kicks + 1)).0.Mismatch?
  {
    FirstPass(w, t, s);
    PollStartFacts(w, t, w.registered, s);
    var start := PollStart(w, t, w.registered, s);
    PollFacts(w, t, false, start.value);
    var (found, s1) := Poll(w, t, false, start.value);
    if found.Mismatch? {
      SecondPassFacts(w, t, s1.(bootouts := s1.bootouts + 1), Some(found.version));
    } else {
      KickFacts(w, t, s1);
      PollFacts(w, t, false, s1.(kicks := s1.kicks + 1));
      var s2 := KickAndRepoll(w, t, s1).1;
      SecondPassFacts(w, t, s2, None);
      var again := Poll(w, t, false, s1.(kicks := s1.kicks + 1)).0;
      if w.kickstartWorks && again.Mismatch? {
        var k :| s1.probes <= k < s2.probes && w.answers(k) == Some(again.version);
        assert w.answers(k).Some?;
      }
    }
  }

  /** Such an installation: silence, a stale daemon woken by the kickstart, silence again. */
  lemma StaleDaemonReportedAsSilent()
    ensures var w := Script(Some("2"), k => if k == 1 then Some("1") else None, k => 0, k => Enabled,
                            Registered(Enabled), Registered(Enabled), true);
            var t := Timing(0, 1, 0, 1, 0);
            var s := Sys(0, 0, 0, 0, 0, 0);
            Install(w, t, s) == (PollingFailed, Sys(0, 3, 0, 1, 0, 1)) && SawWrong(w, s, Install(w, t, s).1, "1")
  {
    var w := Script(Some("2"), k => if k == 1 then Some("1") else None, k => 0, k => Enabled,
                    Registered(Enabled), Registered(Enabled), true);
    var t := Timing(0, 1, 0, 1, 0);
    var s := Sys(0, 0, 0, 0, 0, 0);
    var s1, s2 := Sys(0, 1, 0, 0, 0, 0), Sys(0, 2, 0, 1, 0, 0);
    assert Poll(w, t, false, s) == (TimedOut, s1);
    assert Poll(w, t, false, s1.(kicks := 1)) == (Mismatch("1"), s2);
    assert Poll(w, t, true, s2.(refreshes := 1)) == (TimedOut, Sys(0, 3, 0, 1, 0, 1));
    assert w.answers(1) == Some("1");
  }

  // ---- the whole course, from the registrations and the polls -------------------------------

  /** The registration is enabled, or is approved in time; polling starts here. */
  ghost predicate EnabledFrom(w: Script, t: Timing, r: Registration, s: Sys, start: Sys) {
    || (r == Registered(Enabled) && start == s)
    || (r == Registered(NeedsApproval)
        && exists k: nat :: DecidedBy(w, t, s, k, start) && w.statuses(s.statusReads + k) == Enabled)
  }

  lemma PollStartExactly(w: Script, t: Timing, r: Registration, s: Sys, start: Sys)
    requires Ticks(t)
    ensures PollStart(w, t, r, s) == Some(start) <==> EnabledFrom(w, t, r, s, start)
  {
    AwaitExactly(w, t, s);
    if r == Registered(NeedsApproval) && EnabledFrom(w, t, r, s, start) {
      var k: nat :| DecidedBy(w, t, s, k, start) && w.statuses(s.statusReads + k) == Enabled;
      OneDecision(w, t, s, k);
    }
  }

  lemma OneDecision(w: Script, t: Timing, s: Sys, k: nat)
    requires Ticks(t)
    requires FirstDecisive(w, s, k) && InTime(s, t.approvalInterval, s.clock + t.approvalTimeout, k)
    ensures DecidedBy(w, t, s, k, Await(w, t, s).1)
    ensures Await(w, t, s).0 == if w.statuses(s.statusReads + k) == Enabled then Approved else Gone
  {
    AwaitExactly(w, t, s);
    assert forall j: nat | FirstDecisive(w, s, j) :: j == k;
  }

  /** How a registration that never becomes enabled ends. */
  predicate RefusedAs(r: Registration, wait: Approval, state: State) {
    && (r.Threw? ==> state == InstallFailed(r.reason))
    && (r == Registered(NotFound) ==> state == InstallFailed(PlistWriteFailed))
    && (r == Registered(NotRegistered) ==> state == InstallFailed(BootstrapFailed))
    && (r == Registered(Unrecognised) ==> state == InstallFailed(Unknown))
    && (r == Registered(NeedsApproval) ==>
          state == if wait == StillPending then RequiresApproval else InstallFailed(Unknown))
  }

  /** The second registration, made here: refused, or polled until it converges or its time is up. */
  predicate ReinstallEnds(w: Script, t: Timing, s: Sys, mismatched: bool, state: State, s': Sys)
    requires Ticks(t)
  {
    var start := PollStart(w, t, w.refreshed, s);
    && (start.None? ==> RefusedAs(w.refreshed, Await(w, t, s).0, state))
    && (start.Some? ==>
          var (found, end) := Poll(w, t, true, start.value);
          && s' == end
          && (state == InstalledAndRunning <==> found.Running?)
          && (state == PollingFailed <==> found.TimedOut? && !mismatched)
          && (state == InstallFailed(VersionMismatch) <==> found.Mismatch? || (found.TimedOut? && mismatched)))
  }

  lemma ReinstallExactly(w: Script, t: Timing, s: Sys, prior: Option<Version>)
    requires Ticks(t)
    ensures var (state, s') := Refresh(w, t, s, prior);
            ReinstallEnds(w, t, s.(refreshes := s.refreshes + 1), prior.Some?, state, s')
  {
    SecondPass(w, t, s, prior);
    var start := PollStart(w, t, w.refreshed, s.(refreshes := s.refreshes + 1));
    if start.Some? {
      match Poll(w, t, true, start.value).0
      case Running(_) =>
      case Mismatch(_) =>
      case TimedOut =>
    }
  }

  /**
   * The whole course. A registration that is refused says why. Otherwise the daemon is polled: a
   * wrong version is booted out and reinstalled; silence is answered with a kickstart and, if that
   * does not bring the daemon up, with a reinstall.
   */
  lemma InstallationExactly(w: Script, t: Timing, s: Sys)
    requires Ticks(t)
    ensures var (state, s') := Install(w, t, s);
            var start := PollStart(w, t, w.registered, s);
            && (start.None? ==> s'.probes == s.probes && RefusedAs(w.registered, Await(w, t, s).0, state))
            && (start.Some? ==>
                  var (found, s1) := Poll(w, t, false, start.value);
                  var (again, s2) := Poll(w, t, false, s1.(kicks := s1.kicks + 1));
                  && (found.Running? ==> (state, s') == (InstalledAndRunning, s1))
                  && (found.Mismatch? ==>
                        ReinstallEnds(w, t, s1.(bootouts := s1.bootouts + 1, refreshes := s1.refreshes + 1),
                                      true, state, s'))
                  && (found.TimedOut? && w.kickstartWorks && again.Running? ==>
                        (state, s') == (InstalledAndRunning, s2))
                  && (found.TimedOut? && w.kickstartWorks && !again.Running? ==>
                        ReinstallEnds(w, t, s2.(refreshes := s2.refreshes + 1), false, state, s'))
                  && (found.TimedOut? && !w.kickstartWorks ==>
                        ReinstallEnds(w, t, s1.(kicks := s1.kicks + 1, refreshes := s1.refreshes + 1),
                                      false, state, s')))
  {
    FirstPass(w, t, s);
    var start := PollStart(w, t, w.registered, s);
    if start.Some? {
      var (found, s1) := Poll(w, t, false, start.value);
      if found.Mismatch? {
        ReinstallExactly(w, t, s1.(bootouts := s1.bootouts + 1), Some(found.version));
      } else if found.TimedOut? {
        ReinstallExactly(w, t, KickAndRepoll(w, t, s1).1, None);
      }
    }
  }

  /** Approval is needed, and the first status that settles it says enabled and comes in time. */
  ghost predicate ApprovedInTime(w: Script, t: Timing, s: Sys, k: nat) {
    && w.registered == Registered(NeedsApproval)
    && FirstDecisive(w, s, k) && w.statuses(s.statusReads + k) == Enabled
    && InTime(s, t.approvalInterval, s.clock + t.approvalTimeout, k)
  }

  /** The next probe reaches a daemon of the expected version, or of any if none is expected. */
  predicate NextProbeAccepted(w: Script, s: Sys) {
    w.answers(s.probes).Some? && (w.expected.None? || w.answers(s.probes) == w.expected)
  }

  /** Approved in time and answered at once: running, after these reads and one probe. */
  lemma ApprovedInTimeRuns(w: Script, t: Timing, s: Sys, k: nat)
    requires Ticks(t) && ApprovedInTime(w, t, s, k) && NextProbeAccepted(w, s)
    ensures Install(w, t, s)
         == (InstalledAndRunning,
             s.(statusReads := s.statusReads + k + 1, probes := s.probes + 1,
                clock := s.clock + k * t.approvalInterval + w.probeTime(s.probes)))
  {
    OneDecision(w, t, s, k);
  }

  // ---- the controller -------------------------------------------------------

  /** The service manager, the probe, `launchctl` and the clock, following a script. */
  class Host {
    const script: Script
    var sys: Sys

    constructor (script: Script)
      ensures this.script == script && sys == Sys(0, 0, 0, 0, 0, 0)
    {
      this.script, sys := script, Sys(0, 0, 0, 0, 0, 0);
    }

    method Probe() returns (answer: Option<Version>)
      modifies this
      ensures answer == script.answers(old(sys.probes))
      ensures sys
           == old(sys).(clock := old(sys.clock) + script.probeTime(old(sys.probes)), probes := old(sys.probes) + 1)
    {
      answer := script.answers(sys.probes);
      sys := sys.(clock := sys.clock + script.probeTime(sys.probes), probes := sys.probes + 1);
    }

    method Sleep(interval: nat)
      modifies this
      ensures sys == old(sys).(clock := old(sys.clock) + interval)
    {
      sys := sys.(clock := sys.clock + interval);
    }

    method CurrentStatus() returns (status: Status)
      modifies this
      ensures status == script.statuses(old(sys.statusReads))
      ensures sys == old(sys).(statusReads := old(sys.statusReads) + 1)
    {
      status := script.statuses(sys.statusReads);
      sys := sys.(statusReads := sys.statusReads + 1);
    }
  }

  /** The latch every controller in the process shares. */
  class InstallLatch {
    var inFlight: bool

    constructor ()
      ensures !inFlight
    {
      inFlight := false;
    }
  }

  class DaemonInstallController {
    var state: State
    const host: Host
    const latch: InstallLatch

    constructor (host: Host, latch: InstallLatch)
      ensures state == Idle && this.host == host && this.latch == latch
    {
      state, this.host, this.latch := Idle, host, latch;
    }

    /** Single-flight: a late-comer touches nothing; the winner runs to its outcome and frees the latch. */
    method InstallDaemon(t: Timing)
      requires Ticks(t)
      modifies this, host, latch
      ensures old(latch.inFlight) ==> latch.inFlight && state == old(state) && host.sys == old(host.sys)
      ensures !old(latch.inFlight) ==>
                !latch.inFlight && (state, host.sys) == Install(host.script, t, old(host.sys))
      ensures forall k: nat | ApprovedInTime(host.script, t, old(host.sys), k) ::
                !old(latch.inFlight) && NextProbeAccepted(host.script, old(host.sys)) ==> state == InstalledAndRunning
    {
      forall k: nat
        | ApprovedInTime(host.script, t, host.sys, k) && NextProbeAccepted(host.script, host.sys)
        ensures Install(host.script, t, host.sys).0 == InstalledAndRunning
      {
        ApprovedInTimeRuns(host.script, t, host.sys, k);
      }
      if latch.inFlight {
        return;
      }
      latch.inFlight := true;
      state := Registering;
      match host.script.registered {
        case Threw(reason) =>
          state := InstallFailed(reason);
        case Registered(status) =>
          HandleRegisteredStatus(t, status, true, None);
      }
      latch.inFlight := false;
    }

    method HandleRegisteredStatus(t: Timing, status: Status, mayRefresh: bool, prior: Option<Version>)
      requires Ticks(t)
      modifies this, host
      ensures (state, host.sys) == Handle(host.script, t, status, old(host.sys), mayRefresh, prior)
      decreases mayRefresh, 1, status != Enabled
    {
      match status {
        case Enabled =>
          var found := PollDaemon(t, !mayRefresh);
          match found {
            case Running(_) =>
            case TimedOut =>
              if mayRefresh {
                var back := KickstartAndRepoll(t);
                if !back {
                  RefreshRegistration(t, None);
                }
              } else if prior.Some? {
                state := InstallFailed(VersionMismatch);
              }
            case Mismatch(v) =>
              if mayRefresh {
                host.sys := host.sys.(bootouts := host.sys.bootouts + 1);
                RefreshRegistration(t, Some(v));
              } else {
                state := InstallFailed(VersionMismatch);
              }
          }
        case NeedsApproval =>
          state := RequiresApproval;
          var approval := WaitForApproval(t);
          match approval {
            case Approved => HandleRegisteredStatus(t, Enabled, mayRefresh, prior);
            case StillPending =>
            case Gone => state := InstallFailed(Unknown);
          }
        case NotFound => state := InstallFailed(PlistWriteFailed);
        case NotRegistered => state := InstallFailed(BootstrapFailed);
        case Unrecognised => state := InstallFailed(Unknown);
      }
    }

    method RefreshRegistration(t: Timing, prior: Option<Version>)
      requires Ticks(t)
      modifies this, host
      ensures (state, host.sys) == Refresh(host.script, t, old(host.sys), prior)
      decreases true, 0, false
    {
      state := Registering;
      host.sys := host.sys.(refreshes := host.sys.refreshes + 1);
      match host.script.refreshed {
        case Threw(reason) => state := InstallFailed(reason);
        case Registered(status) => HandleRegisteredStatus(t, status, false, prior);
      }
    }

    method KickstartAndRepoll(t: Timing) returns (back: bool)
      requires Ticks(t)
      modifies this, host
      ensures (back, host.sys) == KickAndRepoll(host.script, t, old(host.sys))
      ensures back ==> state == InstalledAndRunning
    {
      host.sys := host.sys.(kicks := host.sys.kicks + 1);
      if !host.script.kickstartWorks {
        return false;
      }
      var found := PollDaemon(t, false);
      return found.Running?;
    }

    method WaitForApproval(t: Timing) returns (approval: Approval)
      requires Ticks(t)
      modifies host
      ensures (approval, host.sys) == Await(host.script, t, old(host.sys))
    {
      var deadline := host.sys.clock + t.approvalTimeout;
      while true
        invariant AwaitFrom(host.script, t.approvalInterval, deadline, host.sys)
               == Await(host.script, t, old(host.sys))
        decreases if host.sys.clock < deadline then deadline - host.sys.clock else 0
      {
        var status := host.CurrentStatus();
        if status == Enabled {
          return Approved;
        }
        if status == NotFound || status == NotRegistered {
          return Gone;
        }
        if host.sys.clock >= deadline {
          return StillPending;
        }
        host.Sleep(t.approvalInterval);
      }
    }

    method PollDaemon(t: Timing, converge: bool) returns (found: Found)
      requires Ticks(t)
      modifies this, host
      ensures (found, host.sys) == Poll(host.script, t, converge, old(host.sys))
      ensures state == match found
                       case Running(_) => InstalledAndRunning
                       case Mismatch(_) => Polling
                       case TimedOut => PollingFailed
    {
      state := Polling;
      var deadline := host.sys.clock + Budget(t, converge);
      var lastMismatch: Option<Version> := None;
      while true
        invariant state == Polling
        invariant PollFrom(host.script, t.interval, deadline, converge, host.sys, lastMismatch)
               == Poll(host.script, t, converge, old(host.sys))
        decreases if host.sys.clock < deadline then deadline - host.sys.clock else 0
      {
        var answer := host.Probe();
        if answer.Some? {
          var version := answer.value;
          if host.script.expected.Some? && version != host.script.expected.value {
            if converge && host.sys.clock < deadline {
              lastMismatch := Some(version);
              host.Sleep(t.interval);
              continue;
            }
            return Mismatch(version);
          }
          state := InstalledAndRunning;
          return Running(version);
        }
        if host.sys.clock >= deadline {
          if lastMismatch.Some? {
            return Mismatch(lastMismatch.value);
          }
          state := PollingFailed;
          return TimedOut;
        }
        host.Sleep(t.interval);
      }
    }
  }
}
