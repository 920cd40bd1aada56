/** Browser sign-in over every interleaving of callers, callbacks, cancels and timeouts. */
module SignInFlow {
  import opened Wrappers
  import opened CloudAuth

  // ---- one live attempt ---------------------------------------------------------------

  predicate Coherent(l: Login) {
    && (l.flow.InProgress? <==> l.handle.Some?)
    && (l.handle.Some? ==> l.handle.value == l.gen)
    && (l.watchdog <==> l.flow.InProgress?)
    && (l.waiting.Some? ==> l.flow.InProgress?)
  }

  /** Every process launched has exited, was sent a termination signal, or is the one we hold. */
  ghost predicate Accounted(s: State, w: World) {
    && (forall g | g in w.spawned ::
          g <= s.login.gen && (g in w.exited || g in s.out.killed || s.login.handle == Some(g)))
    && w.exited <= w.spawned
    && (forall g | g in s.out.killed :: g < s.login.gen)
    && (s.login.handle.Some? ==> s.login.handle.value in w.spawned && s.login.handle.value !in w.exited)
  }

  /** The events that drive a sign-in; the others leave it alone. */
  predicate Drives(e: Event) {
    e.Start? || e.Line? || e.Exited? || e.TimedOut? || e.Cancel?
  }

  lemma OthersLeaveItAlone(s: State, w: World, e: Event)
    requires !Drives(e)
    ensures Step(s, e).login == s.login
    ensures Step(s, e).out.answers == s.out.answers && Step(s, e).out.killed == s.out.killed
    ensures WorldStep(w, s, e).spawned == w.spawned && WorldStep(w, s, e).exited == w.exited
  {
  }

  lemma StepStaysCoherent(s: State, e: Event)
    requires Coherent(s.login)
    ensures Coherent(Step(s, e).login)
  {
    if !Drives(e) {
      OthersLeaveItAlone(s, QUIET, e);
    }
  }

  lemma ExitStaysAccounted(s: State, w: World, e: Event)
    requires Coherent(s.login) && Accounted(s, w) && Possible(w, e) && e.Exited?
    ensures Accounted(Step(s, e), WorldStep(w, s, e))
  {
  }

  lemma StepStaysAccounted(s: State, w: World, e: Event)
    requires Coherent(s.login) && Accounted(s, w) && Possible(w, e)
    ensures Accounted(Step(s, e), WorldStep(w, s, e))
  {
    if !Drives(e) {
      OthersLeaveItAlone(s, w, e);
    } else if e.Exited? {
      ExitStaysAccounted(s, w, e);
    }
  }

  lemma {:induction false} AtMostOneLiveSignIn(events: seq<Event>)
    requires Legal(events)
    ensures Coherent(Run(events).0.login) && Accounted(Run(events).0, Run(events).1)
  {
    if events != [] {
      var before, e := events[..|events| - 1], events[|events| - 1];
      AtMostOneLiveSignIn(before);
      StepStaysCoherent(Run(before).0, e);
      StepStaysAccounted(Run(before).0, Run(before).1, e);
    }
  }

  // ---- late callbacks ---------------------------------------------------------------------

  /** A callback captured by an attempt that is no longer the current one. */
  predicate Stale(s: State, e: Event) {
    match e
    case Line(gen, _) => gen != s.login.gen
    case Exited(gen, _, _) => gen != s.login.gen
    case TimedOut(gen) => gen != s.login.gen
    case Minted(gen, _) => gen != s.billing.gen
    case _ => false
  }

  /** The run without the stale callbacks. */
  function Fresh(events: seq<Event>): seq<Event> {
    if events == [] then []
    else
      var before, e := events[..|events| - 1], events[|events| - 1];
      if Stale(Run(before).0, e) then Fresh(before) else Fresh(before) + [e]
  }

  /** Dropping every stale callback from a run changes nothing about where it ends. */
  lemma {:induction false} StaleCallbacksLeaveNoTrace(events: seq<Event>)
    ensures Run(Fresh(events)).0 == Run(events).0
  {
    if events != [] {
      var before, e := events[..|events| - 1], events[|events| - 1];
      StaleCallbacksLeaveNoTrace(before);
      if !Stale(Run(before).0, e) {
        assert (Fresh(before) + [e])[..|Fresh(before)|] == Fresh(before);
      }
    }
  }

  // ---- completions ---------------------------------------------------------------------------

  /** Everybody who asked to be told, in order. */
  function Asked(events: seq<Event>): seq<nat> {
    if events == [] then []
    else
      var before, e := Asked(events[..|events| - 1]), events[|events| - 1];
      if e.Start? && e.caller.Some? then before + [e.caller.value] else before
  }

  function Callers(answers: seq<Answer>): (r: seq<nat>)
    ensures |r| == |answers| && forall k | 0 <= k < |r| :: r[k] == answers[k].caller
  {
    seq(|answers|, k requires 0 <= k < |answers| => answers[k].caller)
  }

  /** How often `c` has been told, plus once if it is still waiting. */
  function Owed(out: Out, waiting: Option<nat>, c: nat): nat {
    multiset(Callers(out.answers))[c] + if waiting == Some(c) then 1 else 0
  }

  lemma TellingSettles(out: Out, caller: Option<nat>, ok: bool, c: nat)
    ensures Owed(Tell(out, caller, ok), None, c) == Owed(out, caller, c)
  {
    if caller.Some? {
      assert Callers(Tell(out, caller, ok).answers) == Callers(out.answers) + [caller.value];
    }
  }

  lemma TellingAnother(out: Out, waiting: Option<nat>, caller: Option<nat>, ok: bool, c: nat)
    ensures Owed(Tell(out, caller, ok), waiting, c) == Owed(out, waiting, c) + if caller == Some(c) then 1 else 0
  {
    if caller.Some? {
      assert Callers(Tell(out, caller, ok).answers) == Callers(out.answers) + [caller.value];
    }
  }

  function OwedIn(s: State, c: nat): nat {
    Owed(s.out, s.login.waiting, c)
  }

  lemma StartOwes(s: State, caller: Option<nat>, spawn: Spawn, c: nat)
    requires Coherent(s.login)
    ensures OwedIn(StartStep(s, caller, spawn), c) == OwedIn(s, c) + if caller == Some(c) then 1 else 0
  {
    TellingAnother(s.out, s.login.waiting, caller, true, c);
    TellingAnother(s.out, s.login.waiting, caller, false, c);
  }

  lemma OthersOweNothing(s: State, e: Event, c: nat)
    requires !e.Start?
    ensures OwedIn(Step(s, e), c) == OwedIn(s, c)
  {
    if !Drives(e) {
      OthersLeaveItAlone(s, QUIET, e);
    } else {
      TellingSettles(s.out, s.login.waiting, true, c);
      TellingSettles(s.out, s.login.waiting, false, c);
      TellingSettles(Signalled(s.out, s.login.handle), s.login.waiting, false, c);
    }
  }

  /**
   * Conservation of completions: every request has been answered exactly once, except that of
   * the attempt still in progress, which has not been answered yet.
   */
  lemma {:induction false} EveryCallerIsAnsweredOnce(events: seq<Event>, c: nat)
    requires Legal(events)
    ensures multiset(Asked(events))[c] == OwedIn(Run(events).0, c)
    ensures !Run(events).0.login.flow.InProgress? ==> Run(events).0.login.waiting.None?
  {
    AtMostOneLiveSignIn(events);
    if events != [] {
      var before, e := events[..|events| - 1], events[|events| - 1];
      AtMostOneLiveSignIn(before);
      EveryCallerIsAnsweredOnce(before, c);
      if e.Start? {
        StartOwes(Run(before).0, e.caller, e.spawn, c);
      } else {
        OthersOweNothing(Run(before).0, e, c);
      }
    }
  }

  /** Who is told "signed in": a caller who already is, or the one whose own process said so. */
  predicate TellsSuccess(s: State, e: Event) {
    || (e.Start? && s.account.status.SignedIn?)
    || (e.Exited? && e.gen == s.login.gen && e.code == 0 && StatusOf(Latest(s.login.lines)).SignedIn?)
  }

  /** "Signed in" is told when and only when it is so, and what was told is not taken back. */
  lemma ToldOnlyTheTruth(s: State, e: Event)
    ensures var (before, after) := (s.out.answers, Step(s, e).out.answers);
            && |before| <= |after| <= |before| + 1
            && after[..|before|] == before
            && (|after| > |before| ==> after[|before|].ok == TellsSuccess(s, e))
    ensures TellsSuccess(s, e) ==> Step(s, e).account.status.SignedIn?
  {
    if !Drives(e) {
      OthersLeaveItAlone(s, QUIET, e);
    }
  }

  // ---- whose output counts ---------------------------------------------------------------------

  /** Everything the process of attempt `gen` wrote, in the order it arrived. */
  function LinesOf(events: seq<Event>, gen: nat): seq<Option<Envelope>> {
    if events == [] then []
    else
      var before, e := LinesOf(events[..|events| - 1], gen), events[|events| - 1];
      if e.Line? && e.gen == gen then before + [e.line] else before
  }

  lemma GenerationsGrow(s: State, e: Event)
    ensures Step(s, e).login.gen >= s.login.gen
  {
    if !Drives(e) {
      OthersLeaveItAlone(s, QUIET, e);
    }
  }

  lemma {:induction false} NoLinesFromTheFuture(events: seq<Event>, gen: nat)
    requires Legal(events) && gen > Run(events).0.login.gen
    ensures LinesOf(events, gen) == []
  {
    if events != [] {
      var before := events[..|events| - 1];
      AtMostOneLiveSignIn(before);
      GenerationsGrow(Run(before).0, events[|events| - 1]);
      NoLinesFromTheFuture(before, gen);
    }
  }

  lemma StaysTheSameAttempt(s: State, e: Event)
    requires Coherent(s.login) && Step(s, e).login.flow.InProgress? && !Launches(s, e)
    ensures s.login.flow.InProgress? && Step(s, e).login.gen == s.login.gen
    ensures Step(s, e).login.lines
         == if e.Line? && e.gen == s.login.gen then s.login.lines + [e.line] else s.login.lines
  {
    if !Drives(e) {
      OthersLeaveItAlone(s, QUIET, e);
    }
  }

  /** While an attempt is live, the lines kept are its own process's, all of them and no others. */
  lemma {:induction false} OnlyOwnLinesAreKept(events: seq<Event>)
    requires Legal(events) && Run(events).0.login.flow.InProgress?
    ensures Run(events).0.login.lines == LinesOf(events, Run(events).0.login.gen)
  {
    if events != [] {
      var before, e := events[..|events| - 1], events[|events| - 1];
      var s := Run(before).0;
      AtMostOneLiveSignIn(before);
      if Launches(s, e) {
        NoLinesFromTheFuture(before, s.login.gen + 1);
      } else {
        StaysTheSameAttempt(s, e);
        OnlyOwnLinesAreKept(before);
      }
    }
  }

  /**
   * A login process's exit signs the user in if and only if it is the live attempt's process,
   * it exits cleanly, and the newest envelope it wrote itself says so.
   */
  lemma SignedInOnlyByItsOwnWord(events: seq<Event>, e: Event)
    requires Legal(events + [e]) && e.Exited? && !Run(events).0.account.status.SignedIn?
    ensures Run(events + [e]).0.account.status.SignedIn?
       <==> && Run(events).0.login.handle == Some(e.gen) && e.code == 0
            && StatusOf(Latest(LinesOf(events, e.gen))).SignedIn?
  {
    assert (events + [e])[..|events|] == events;
    AtMostOneLiveSignIn(events);
    var s := Run(events).0;
    if e.gen == s.login.gen {
      assert s.login.handle == Some(e.gen);
      OnlyOwnLinesAreKept(events);
    }
  }
}
