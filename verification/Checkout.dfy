/** The pending checkout over every run: what keeps it, what clears it, and where a late answer slips through. */
module Checkout {
  import opened Wrappers
  import opened CloudAuth
  import SignIn = SignInFlow

  // ---- pending, target and the newest attempt ------------------------------------------

  /** A checkout is pending exactly while a paid target is stored: the newest attempt's. */
  ghost predicate Sound(b: Billing, w: World) {
    && (b.pending <==> b.target.Some?)
    && (b.target.Some? ==> b.gen in w.attempts && b.target.value == w.attempts[b.gen].tier && b.target.value != NoTier)
    && (forall g | g in w.attempts :: g <= b.gen)
    && (forall g | g in w.mints :: g in w.attempts)
  }

  /** The events that touch the checkout; the others leave it alone. */
  predicate Concerns(e: Event) {
    || e.Exited? || e.Refreshed? || e.ForceRefreshed? || e.Returned? || e.Checkout? || e.Minted? || e.LoggedOut?
  }

  lemma OthersLeaveItAlone(s: State, w: World, e: Event)
    requires !Concerns(e)
    ensures var (b, b') := (s.billing, Step(s, e).billing);
            b'.pending == b.pending && b'.target == b.target && b'.gen == b.gen
    ensures WorldStep(w, s, e).attempts == w.attempts && WorldStep(w, s, e).mints == w.mints
  {
  }

  lemma StepStaysSound(s: State, w: World, e: Event)
    requires Sound(s.billing, w)
    ensures Sound(Step(s, e).billing, WorldStep(w, s, e))
  {
    if !Concerns(e) {
      OthersLeaveItAlone(s, w, e);
    }
  }

  lemma {:induction false} PendingExactlyWithATarget(events: seq<Event>)
    ensures Sound(Run(events).0.billing, Run(events).1)
  {
    if events != [] {
      var before := events[..|events| - 1];
      PendingExactlyWithATarget(before);
      StepStaysSound(Run(before).0, Run(before).1, events[|events| - 1]);
    }
  }

  predicate Begins(e: Event) {
    e.Checkout? && e.tier != NoTier
  }

  /** The tier of the newest attempt. */
  function Newest(events: seq<Event>): Option<Tier> {
    if events == [] then None
    else if Begins(events[|events| - 1]) then Some(events[|events| - 1].tier)
    else Newest(events[..|events| - 1])
  }

  lemma TargetMoves(s: State, e: Event)
    requires !Begins(e)
    ensures Step(s, e).billing.target == s.billing.target || Step(s, e).billing.target == None
  {
    if !Concerns(e) {
      OthersLeaveItAlone(s, QUIET, e);
    }
  }

  lemma {:induction false} TargetIsTheNewestAttempts(events: seq<Event>)
    ensures Run(events).0.billing.target.Some? ==> Run(events).0.billing.target == Newest(events)
  {
    if events != [] {
      var before, e := events[..|events| - 1], events[|events| - 1];
      TargetIsTheNewestAttempts(before);
      if !Begins(e) {
        TargetMoves(Run(before).0, e);
      }
    }
  }

  // ---- what clears it -----------------------------------------------------------------------

  /** The envelope the event recomputes the entitlement from, if it does. */
  function Delivered(s: State, e: Event): Option<Option<Envelope>> {
    match e
    case Refreshed(Replied(env), _) => Some(env)
    case ForceRefreshed(Replied(env), _) => if env.Some? && env.value.signedIn == Some(true) then Some(env) else None
    case Returned(Replied(env), _) => if env.Some? && env.value.signedIn == Some(true) then Some(env) else None
    case Exited(gen, code, _) =>
      var env := Latest(s.login.lines);
      if gen == s.login.gen && code == 0 && StatusOf(env).SignedIn? then Some(env) else None
    case _ => None
  }

  /** It reports that tier, and is not an offline guess. */
  predicate Reports(env: Option<Envelope>, tier: Tier) {
    var status := StatusOf(env);
    TierOf(env, status) == tier && !(status.SignedIn? && status.stale)
  }

  predicate Clears(s: State, e: Event) {
    || (e.Minted? && e.gen == s.billing.gen && !Opens(e.mint))
    || e.LoggedOut?
    || (Delivered(s, e).Some? && s.billing.target.Some? && Reports(Delivered(s, e).value, s.billing.target.value))
  }

  /** A reported tier always reads as live: the trial's end date and the clock never matter to it. */
  lemma AnyReportedTierIsLive(env: Option<Envelope>, now: int, paywall: bool, tier: Tier)
    requires tier != NoTier
    ensures var a := AccountOf(env, now, paywall);
            Reports(env, tier) <==> a.tier == tier && !a.trial.Indeterminate? && !a.trial.Lapsed?
  {
  }

  lemma DeliverySettles(s: State, e: Event, env: Option<Envelope>, target: Tier)
    requires s.billing.target == Some(target) && target != NoTier && s.billing.pending
    requires Delivered(s, e) == Some(env)
    ensures !Step(s, e).billing.pending <==> Reports(env, target)
  {
    AnyReportedTierIsLive(env, e.now, PaywallOf(env, s.account.paywall), target);
    AnyReportedTierIsLive(env, e.now, PaywallOf(env, false), target);
  }

  lemma NothingDelivered(s: State, e: Event)
    requires Delivered(s, e).None? && !Begins(e) && s.billing.pending
    ensures !Step(s, e).billing.pending <==> Clears(s, e)
  {
    if !Concerns(e) {
      OthersLeaveItAlone(s, QUIET, e);
    }
  }

  /** A pending checkout ends on its own mint failure, on its own tier's report, or on sign-out: never otherwise. */
  lemma PendingClearsExactly(s: State, w: World, e: Event)
    requires Sound(s.billing, w) && s.billing.pending
    ensures !Step(s, e).billing.pending <==> Clears(s, e)
  {
    if Delivered(s, e).Some? {
      DeliverySettles(s, e, Delivered(s, e).value, s.billing.target.value);
    } else if !Begins(e) {
      NothingDelivered(s, e);
    }
  }

  lemma OnlyACheckoutBegins(s: State, e: Event)
    requires !s.billing.pending && Step(s, e).billing.pending
    ensures Begins(e)
  {
    if !Concerns(e) {
      OthersLeaveItAlone(s, QUIET, e);
    }
  }

  ghost predicate ClearedAt(events: seq<Event>, j: int) {
    0 <= j < |events| && Clears(Run(events[..j]).0, events[j])
  }

  ghost predicate BegunAndOpen(events: seq<Event>, k: int) {
    0 <= k < |events| && Begins(events[k]) && forall j | k < j < |events| :: !ClearedAt(events, j)
  }

  lemma EarlierClearsAreTheSame(events: seq<Event>, j: int)
    requires events != [] && j < |events| - 1
    ensures ClearedAt(events[..|events| - 1], j) <==> ClearedAt(events, j)
  {
    if j >= 0 {
      assert events[..|events| - 1][..j] == events[..j];
    }
  }

  lemma OpenCarriesOver(events: seq<Event>, k: int)
    requires events != [] && k < |events| - 1
    ensures BegunAndOpen(events, k)
       <==> BegunAndOpen(events[..|events| - 1], k) && !ClearedAt(events, |events| - 1)
  {
    var before := events[..|events| - 1];
    forall j | j < |before| ensures ClearedAt(before, j) <==> ClearedAt(events, j) {
      EarlierClearsAreTheSame(events, j);
    }
    if BegunAndOpen(before, k) && !ClearedAt(events, |before|) {
      forall j | k < j < |events| ensures !ClearedAt(events, j) {
        assert j < |before| || j == |before|;
      }
    }
    if BegunAndOpen(events, k) {
      forall j | k < j < |before| ensures !ClearedAt(before, j) {
        assert !ClearedAt(events, j);
      }
      assert !ClearedAt(events, |before|);
    }
  }

  /** Whatever happens in a run: pending at its end means some checkout began and nothing has cleared it since. */
  lemma {:induction false} PendingExactlyUntilCleared(events: seq<Event>)
    ensures Run(events).0.billing.pending <==> exists k :: BegunAndOpen(events, k)
  {
    if events != [] {
      var n := |events| - 1;
      var before, e := events[..n], events[n];
      PendingExactlyUntilCleared(before);
      PendingExactlyWithATarget(before);
      var (s, w) := Run(before);
      forall k | k < n ensures BegunAndOpen(events, k) <==> BegunAndOpen(before, k) && !Clears(s, e) {
        OpenCarriesOver(events, k);
      }
      assert BegunAndOpen(events, n) <==> Begins(e);
      if s.billing.pending {
        var k :| BegunAndOpen(before, k);
        PendingClearsExactly(s, w, e);
        assert !Clears(s, e) ==> BegunAndOpen(events, k);
        assert Begins(e) ==> !Clears(s, e);
      } else if Step(s, e).billing.pending {
        OnlyACheckoutBegins(s, e);
      }
    }
  }

  // ---- whose checkout is it ----------------------------------------------------------------------

  function Uid(status: Status): Option<string> {
    if status.SignedIn? then status.uid else None
  }

  /** The account seen signed in last, forgotten only by a sign-out. */
  function Holder(events: seq<Event>): Option<string> {
    if events == [] then None
    else
      var before, e := events[..|events| - 1], events[|events| - 1];
      if e.LoggedOut? then None
      else if Uid(Run(events).0.account.status).Some? then Uid(Run(events).0.account.status)
      else Holder(before)
  }

  /** Up to here one account takes over from another without a sign-out between them. */
  predicate TakesOver(events: seq<Event>, j: nat)
    requires j < |events|
  {
    var (before, after) := (Holder(events[..j]), Holder(events[..j + 1]));
    before.Some? && after.Some? && before != after
  }

  ghost predicate NoTakeover(events: seq<Event>, k: nat) {
    forall j: nat | k <= j < |events| :: !TakesOver(events, j)
  }

  lemma OnePrefix(events: seq<Event>, n: nat, m: nat)
    requires n <= m <= |events|
    ensures events[..m][..n] == events[..n]
  {
  }

  lemma OpenInPrefix(events: seq<Event>, k: nat)
    requires events != [] && k < |events| - 1 && BegunAndOpen(events, k)
    ensures BegunAndOpen(events[..|events| - 1], k) && !ClearedAt(events, |events| - 1)
  {
    OpenCarriesOver(events, k);
  }

  lemma NoTakeoverInPrefix(events: seq<Event>, k: nat)
    requires events != [] && NoTakeover(events, k)
    ensures NoTakeover(events[..|events| - 1], k)
  {
    var before := events[..|events| - 1];
    forall j: nat | k <= j < |before| ensures !TakesOver(before, j) {
      OnePrefix(events, j, |before|);
      OnePrefix(events, j + 1, |before|);
      assert !TakesOver(events, j);
    }
  }

  /** While a checkout is open nobody signs out, so whoever began it is still the account seen last. */
  lemma {:induction false} HolderStays(events: seq<Event>, k: nat, uid: string)
    requires BegunAndOpen(events, k) && NoTakeover(events, k)
    requires Uid(Run(events[..k]).0.account.status) == Some(uid)
    ensures Holder(events) == Some(uid)
    decreases |events|
  {
    var n := |events| - 1;
    var e := events[n];
    if k == n {
      assert Run(events).0.account == Run(events[..n]).0.account;
    } else {
      OpenInPrefix(events, k);
      NoTakeoverInPrefix(events, k);
      OnePrefix(events, k, n);
      HolderStays(events[..n], k, uid);
      assert !e.LoggedOut?;
      assert events[..n + 1] == events;
      assert !TakesOver(events, n);
    }
  }

  /** The event's envelope settles the checkout that is pending after `events`. */
  predicate Settles(events: seq<Event>, e: Event) {
    && Delivered(Run(events).0, e).Some?
    && Run(events).0.billing.pending && !Run(events + [e]).0.billing.pending
  }

  lemma TakesOverNow(events: seq<Event>, e: Event)
    ensures TakesOver(events + [e], |events|)
       <==> Holder(events).Some? && Holder(events + [e]).Some? && Holder(events) != Holder(events + [e])
  {
    var all, n := events + [e], |events|;
    assert all[..n] == events && all[..n + 1] == all;
  }

  lemma HolderAfter(events: seq<Event>, e: Event)
    requires Delivered(Run(events).0, e).Some?
    ensures var (status, holder) := (Run(events + [e]).0.account.status, Holder(events + [e]));
            && status == StatusOf(Delivered(Run(events).0, e).value)
            && holder == if Uid(status).Some? then Uid(status) else Holder(events)
  {
    assert (events + [e])[..|events|] == events;
  }

  /**
   * A checkout was begun by a signed-in account, and up to the envelope that settles it no account
   * took over from another without a sign-out between them, whatever else happened: sign-outs that
   * just happen, refreshes, other attempts' answers. Then that envelope is the same account's or
   * names nobody, unless the takeover happens with it.
   */
  lemma {:induction false} SettledByItsStarter(events: seq<Event>, k: nat, e: Event, uid: string)
    requires BegunAndOpen(events, k) && Uid(Run(events[..k]).0.account.status) == Some(uid)
    requires NoTakeover(events, k) && Settles(events, e)
    ensures var settler := Uid(StatusOf(Delivered(Run(events).0, e).value));
            settler == Some(uid) || settler.None? <==> !TakesOver(events + [e], |events|)
  {
    HolderStays(events, k, uid);
    HolderAfter(events, e);
    TakesOverNow(events, e);
  }

  // ---- runs ------------------------------------------------------------------------------------

  function Report(uid: string, tier: Option<string>): Envelope {
    Envelope(Some(true), Some(true), Some(uid), None, None, tier, None, None, None)
  }

  function Gone(tier: Option<string>): Envelope {
    Envelope(Some(true), Some(false), None, None, None, tier, None, None, None)
  }

  lemma RunOneMore(events: seq<Event>, e: Event)
    ensures Run(events + [e]) == (Step(Run(events).0, e), WorldStep(Run(events).1, Run(events).0, e))
    ensures Legal(events + [e]) <==> Legal(events) && Possible(Run(events).1, e)
  {
    assert (events + [e])[..|events|] == events;
  }

  predicate NoSignOut(events: seq<Event>) {
    forall k | 0 <= k < |events| :: !events[k].SignOut? && !events[k].LoggedOut?
  }

  /** A whole refresh, begun and answered. */
  lemma Read(events: seq<Event>, env: Envelope) returns (later: seq<Event>)
    requires Legal(events)
    ensures Legal(later) && |later| == |events| + 2 && (NoSignOut(events) ==> NoSignOut(later))
    ensures later[..|later| - 1] == events + [RefreshBegun]
    ensures Run(later) == (RefreshedStep(Run(events).0, Replied(Some(env)), 0), Run(events).1)
    ensures Run(later[..|later| - 1]).0 == Run(events).0
  {
    var e := Refreshed(Replied(Some(env)), 0);
    RunOneMore(events, RefreshBegun);
    var begun := events + [RefreshBegun];
    RunOneMore(begun, e);
    later := begun + [e];
    assert later[..|later| - 1] == begun;
  }

  lemma AdaSignsIn() returns (events: seq<Event>)
    ensures Legal(events) && NoSignOut(events)
    ensures Run(events).1 == QUIET && Run(events).0.billing == INIT.billing
    ensures Run(events).0.account.status == SignedIn(Some("ada"), false)
  {
    events := Read([], Report("ada", None));
  }

  lemma AdaChecksOut() returns (events: seq<Event>)
    ensures Legal(events) && NoSignOut(events)
    ensures Run(events).0.billing == Billing(true, Some(Cloud), 1, false, None)
    ensures Run(events).1.attempts == map[1 := Attempt(Cloud, SignedIn(Some("ada"), false))]
  {
    var before := AdaSignsIn();
    RunOneMore(before, Event.Checkout(Cloud));
    events := before + [Event.Checkout(Cloud)];
  }

  lemma AdaWaits() returns (events: seq<Event>)
    ensures Legal(events) && NoSignOut(events)
    ensures Run(events).0.billing == Billing(true, Some(Cloud), 1, false, None)
    ensures Run(events).1.attempts == map[1 := Attempt(Cloud, SignedIn(Some("ada"), false))]
  {
    var before := AdaChecksOut();
    events := Read(before, Gone(None));
  }

  /** Ada's session lapses on its own after she starts a checkout; Bob, a subscriber, signs in and settles it. */
  lemma AnotherAccountSettlesIt() returns (events: seq<Event>)
    ensures Legal(events) && |events| > 0 && NoSignOut(events)
    ensures Run(events[..|events| - 1]).0.billing.pending
    ensures var (s, w) := Run(events);
            && !s.billing.pending && s.account.status == SignedIn(Some("bob"), false)
            && w.attempts == map[1 := Attempt(Cloud, SignedIn(Some("ada"), false))]
  {
    var before := AdaWaits();
    events := Read(before, Report("bob", Some("cloud")));
  }

  /** Or nobody is signed in any more, and a tier the command line still reports settles it. */
  lemma NobodySettlesIt() returns (events: seq<Event>)
    ensures Legal(events) && |events| > 0 && NoSignOut(events)
    ensures Run(events[..|events| - 1]).0.billing.pending
    ensures var (s, w) := Run(events);
            && !s.billing.pending && s.account.status == SignedOut && s.account.tier == Cloud
            && w.attempts == map[1 := Attempt(Cloud, SignedIn(Some("ada"), false))]
  {
    var before := AdaChecksOut();
    events := Read(before, Gone(Some("cloud")));
  }

  // ---- answers that come after the checkout settled ---------------------------------------------------

  /** No answer a mint can still give changes anything. */
  ghost predicate MintsAreOver(s: State, w: World) {
    forall gen: nat, mint: Mint | Possible(w, Minted(gen, mint)) :: MintedStep(s, gen, mint) == s
  }

  /**
   * Settling does not make the attempt's own request stale: its answer still opens the page or
   * surfaces its error. Once nothing is pending, no mint answer can change anything if and only
   * if the newest attempt's request has been answered.
   */
  lemma SettledIsOverExactly(s: State, w: World)
    requires Sound(s.billing, w) && !s.billing.pending
    ensures MintsAreOver(s, w) <==> s.billing.gen !in w.mints
  {
    var gen := s.billing.gen;
    if gen in w.mints {
      var mint := MintReplied(Some(MintEnvelope(None, Some(Url(true, "https://pay")), None)));
      assert Possible(w, Minted(gen, mint));
      assert |MintedStep(s, gen, mint).out.urls| == |s.out.urls| + 1;
    }
  }

  const PAGE_IS_MINTED := Minted(1, MintReplied(Some(MintEnvelope(None, Some(Url(true, "https://pay")), None))))

  lemma AdaHasPaid() returns (events: seq<Event>)
    ensures Legal(events)
    ensures var (s, w) := Run(events);
            !s.billing.pending && s.billing.gen == 1 && s.out.urls == [] && 1 in w.mints
  {
    RunOneMore([], Event.Checkout(Cloud));
    var one := [] + [Event.Checkout(Cloud)];
    assert Run(one).0.billing.target == Some(Cloud) && Run(one).0.billing.gen == 1;
    events := Read(one, Report("ada", Some("cloud")));
  }

  /** The page opens although the purchase is already known to have gone through. */
  lemma PageOpensAfterSettling() returns (events: seq<Event>)
    ensures Legal(events) && |events| > 0 && |Run(events).0.out.urls| == 1
    ensures var before := events[..|events| - 1];
            Run(before).0.out.urls == [] && !Run(before).0.billing.pending
  {
    var before := AdaHasPaid();
    RunOneMore(before, PAGE_IS_MINTED);
    events := before + [PAGE_IS_MINTED];
    assert events[..|events| - 1] == before;
  }

  // ---- sign-out and what is under way -----------------------------------------------------------------

  function RunFrom(s: State, w: World, late: seq<Event>): State
    decreases |late|
  {
    if late == [] then s else RunFrom(Step(s, late[0]), WorldStep(w, s, late[0]), late[1..])
  }

  /** The callbacks of what was begun, and what they go on to; everything else is begun anew. */
  predicate Late(e: Event) {
    || e.Line? || e.Exited? || e.TimedOut? || e.Refreshed? || e.ForceRefreshed? || e.Reconciled? || e.Returned?
    || e.Minted? || e.PortalMinted? || e.LoggedOut?
  }

  /** Nothing but callbacks, each of which can come when it does. */
  predicate AllLate(s: State, w: World, late: seq<Event>)
    decreases |late|
  {
    late == [] ||
    (Late(late[0]) && Possible(w, late[0]) && AllLate(Step(s, late[0]), WorldStep(w, s, late[0]), late[1..]))
  }

  predicate Wiped(b: Billing) {
    !b.pending && b.target.None? && !b.portal && b.error.None?
  }

  /** Everything sign-out clears: the status, what it entitles to, and the browser's business. */
  predicate Cleared(s: State) {
    && s.account.status == SignedOut && s.account.tier == NoTier && s.account.trial == Indeterminate
    && Wiped(s.billing)
  }

  ghost predicate StaysWiped(s: State, w: World) {
    forall late | AllLate(s, w, late) :: Wiped(RunFrom(s, w, late).billing)
  }

  ghost predicate StaysCleared(s: State, w: World) {
    forall late | AllLate(s, w, late) :: Cleared(RunFrom(s, w, late))
  }

  /** No status read of any kind is under way, nor a reconcile, which one follows. */
  predicate NothingReads(c: Calls) {
    c.refreshes == 0 && c.forces == 0 && c.reconciles == 0 && c.visits == 0
  }

  /** Nothing under way can write to the billing state: no portal request, no login, only stale mints. */
  ghost predicate Quiet(s: State, w: World) {
    && Wiped(s.billing) && w.calls.portals == 0 && (forall g | g in w.mints :: g < s.billing.gen)
    && !s.login.flow.InProgress? && SignIn.Coherent(s.login) && SignIn.Accounted(s, w)
  }

  /** Nor to the account. */
  ghost predicate Calm(s: State, w: World) {
    Quiet(s, w) && Cleared(s) && NothingReads(w.calls)
  }

  lemma ExitOfNobody(s: State, w: World, e: Event)
    requires Quiet(s, w) && e.Exited? && Possible(w, e)
    ensures e.gen != s.login.gen
  {
  }

  lemma LateKeepsQuiet(s: State, w: World, e: Event)
    requires Quiet(s, w) && Late(e) && Possible(w, e)
    ensures Quiet(Step(s, e), WorldStep(w, s, e))
  {
    SignIn.StepStaysCoherent(s, e);
    SignIn.StepStaysAccounted(s, w, e);
    if e.Exited? {
      ExitOfNobody(s, w, e);
    }
  }

  lemma LateKeepsCalm(s: State, w: World, e: Event)
    requires Calm(s, w) && Late(e) && Possible(w, e)
    ensures Calm(Step(s, e), WorldStep(w, s, e))
  {
    LateKeepsQuiet(s, w, e);
    if e.Exited? {
      ExitOfNobody(s, w, e);
    }
  }

  lemma {:induction false} QuietStaysWiped(s: State, w: World, late: seq<Event>)
    requires Quiet(s, w) && AllLate(s, w, late)
    ensures Wiped(RunFrom(s, w, late).billing)
    decreases |late|
  {
    if late != [] {
      LateKeepsQuiet(s, w, late[0]);
      QuietStaysWiped(Step(s, late[0]), WorldStep(w, s, late[0]), late[1..]);
    }
  }

  lemma {:induction false} CalmStaysCleared(s: State, w: World, late: seq<Event>)
    requires Calm(s, w) && AllLate(s, w, late)
    ensures Cleared(RunFrom(s, w, late))
    decreases |late|
  {
    if late != [] {
      LateKeepsCalm(s, w, late[0]);
      CalmStaysCleared(Step(s, late[0]), WorldStep(w, s, late[0]), late[1..]);
    }
  }

  lemma OneLate(s: State, w: World, e: Event)
    requires Late(e) && Possible(w, e)
    ensures !Wiped(Step(s, e).billing) ==> !StaysWiped(s, w) && !StaysCleared(s, w)
    ensures !Cleared(Step(s, e)) ==> !StaysCleared(s, w)
  {
    var late := [e];
    assert late[1..] == [];
    assert AllLate(s, w, late);
    assert RunFrom(s, w, late) == Step(s, e);
  }

  const ADA_IS_BACK := Replied(Some(Report("ada", Some("cloud"))))

  lemma LateThenMore(s: State, w: World, e: Event)
    requires Late(e) && Possible(w, e) && !StaysCleared(Step(s, e), WorldStep(w, s, e))
    ensures !StaysCleared(s, w)
  {
    var rest :| AllLate(Step(s, e), WorldStep(w, s, e), rest)
             && !Cleared(RunFrom(Step(s, e), WorldStep(w, s, e), rest));
    var late := [e] + rest;
    assert late[0] == e && late[1..] == rest;
    assert AllLate(s, w, late);
  }

  lemma SignOutLeavesTheRest(s: State, w: World)
    requires SignIn.Coherent(s.login) && SignIn.Accounted(s, w)
    ensures var (out, w') := (SignOutStep(s), WorldStep(w, s, LoggedOut));
            && SignIn.Coherent(out.login) && SignIn.Accounted(out, w')
            && w'.mints == w.mints && w'.calls == w.calls.(logouts := Less(w.calls.logouts))
  {
  }

  /**
   * Sign-out wipes the billing state, and a checkout request still under way cannot write to it
   * again. A portal request can, having no generation, and so can a login, which sign-out leaves
   * running. So that state stays wiped, whatever callbacks arrive, if and only if neither was
   * under way.
   */
  lemma SignOutStaysWipedExactly(s: State, w: World)
    requires Sound(s.billing, w) && SignIn.Coherent(s.login) && SignIn.Accounted(s, w)
    ensures Wiped(SignOutStep(s).billing)
    ensures StaysWiped(SignOutStep(s), WorldStep(w, s, LoggedOut))
       <==> w.calls.portals == 0 && !s.login.flow.InProgress?
  {
    var out, w' := SignOutStep(s), WorldStep(w, s, LoggedOut);
    SignOutLeavesTheRest(s, w);
    if w.calls.portals > 0 {
      OneLate(out, w', PortalMinted(MintThrew(true)));
    } else if s.login.flow.InProgress? {
      OneLate(out, w', TimedOut(s.login.gen));
    } else {
      forall late | AllLate(out, w', late) ensures Wiped(RunFrom(out, w', late).billing) {
        QuietStaysWiped(out, w', late);
      }
    }
  }

  /**
   * It clears the account too, which any status read still under way can bring back: none of them
   * has a generation. So everything stays cleared, whatever callbacks arrive, if and only if no
   * status read, no reconcile, no portal request and no login was under way.
   */
  lemma SignOutStaysClearedExactly(s: State, w: World)
    requires Sound(s.billing, w) && SignIn.Coherent(s.login) && SignIn.Accounted(s, w)
    ensures Cleared(SignOutStep(s))
    ensures StaysCleared(SignOutStep(s), WorldStep(w, s, LoggedOut))
       <==> NothingReads(w.calls) && w.calls.portals == 0 && !s.login.flow.InProgress?
  {
    var out, w' := SignOutStep(s), WorldStep(w, s, LoggedOut);
    SignOutLeavesTheRest(s, w);
    if w.calls.refreshes > 0 {
      OneLate(out, w', Refreshed(ADA_IS_BACK, 0));
    } else if w.calls.forces > 0 {
      OneLate(out, w', ForceRefreshed(ADA_IS_BACK, 0));
    } else if w.calls.visits > 0 {
      OneLate(out, w', Returned(ADA_IS_BACK, 0));
    } else if w.calls.reconciles > 0 {
      OneLate(out, WorldStep(w', out, Reconciled), ForceRefreshed(ADA_IS_BACK, 0));
      LateThenMore(out, w', Reconciled);
    } else if w.calls.portals > 0 {
      OneLate(out, w', PortalMinted(MintThrew(true)));
    } else if s.login.flow.InProgress? {
      OneLate(out, w', TimedOut(s.login.gen));
    } else {
      forall late | AllLate(out, w', late) ensures Cleared(RunFrom(out, w', late)) {
        CalmStaysCleared(out, w', late);
      }
    }
  }

  /** Every reachable state is one the condition speaks of. */
  lemma SignOutStaysClearedAfterAnyRun(events: seq<Event>)
    requires Legal(events + [LoggedOut])
    ensures var (s, w) := Run(events + [LoggedOut]);
            Cleared(s)
            && (StaysCleared(s, w)
                <==> NothingReads(w.calls) && w.calls.portals == 0 && !s.login.flow.InProgress?)
  {
    RunOneMore(events, LoggedOut);
    PendingExactlyWithATarget(events);
    SignIn.AtMostOneLiveSignIn(events);
    SignOutStaysClearedExactly(Run(events).0, Run(events).1);
  }
}
