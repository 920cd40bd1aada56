/**
 * The cloud account controller: browser sign-in, entitlement refreshes and the
 * hosted checkout, each of whose callbacks may arrive late. `Step` is the
 * specification, one case per callback; the class does the same in place.
 */
module CloudAuth {
  import opened Wrappers

  // ---- what the command line reports ------------------------------------------------

  datatype Envelope = Envelope(
    ok: Option<bool>,
    signedIn: Option<bool>,
    uid: Option<string>,
    stale: Option<bool>,
    subscribed: Option<bool>,
    tier: Option<string>,
    trialEnd: Option<int>,
    paywall: Option<bool>,
    error: Option<string>)

  datatype Status = Unresolved | SignedOut | SignedIn(uid: Option<string>, stale: bool)

  function StatusOf(env: Option<Envelope>): Status {
    if env.Some? && env.value.ok != Some(false) && env.value.signedIn == Some(true)
    then SignedIn(env.value.uid, env.value.stale == Some(true))
    else SignedOut
  }

  datatype Tier = NoTier | LocalPro | Cloud

  function TierOfClaim(claim: Option<string>): Tier {
    if claim == Some("local") then LocalPro else if claim == Some("cloud") then Cloud else NoTier
  }

  /** A signed-in account that reports `subscribed` and no tier at all counts as Cloud. */
  function TierOf(env: Option<Envelope>, status: Status): Tier {
    if env.None? then NoTier
    else if status.SignedIn? && env.value.tier.None? && env.value.subscribed == Some(true) then Cloud
    else TierOfClaim(env.value.tier)
  }

  datatype Trial = Indeterminate | Subscribed | Active(days: int) | NearExpiry(days: int) | LastDay(hours: int) | Lapsed

  function TrialOf(tier: Tier, trialEnd: Option<int>, stale: bool, now: int): Trial {
    if stale then Indeterminate
    else if trialEnd.Some? && trialEnd.value > now then
      var remaining := trialEnd.value - now;
      if remaining / 3600 < 24 then LastDay(remaining / 3600)
      else
        var days := (remaining + 86399) / 86400;
        if days <= 3 then NearExpiry(days) else Active(days)
    else if tier != NoTier then Subscribed
    else Lapsed
  }

  /**
   * The urgency shown is the time that is left: whole hours, rounded down, on the last day;
   * else days, rounded up. "Lapsed" is only said without a tier and without a running trial.
   */
  lemma TrialIsHonest(tier: Tier, trialEnd: Option<int>, stale: bool, now: int)
    ensures match TrialOf(tier, trialEnd, stale, now)
            case Indeterminate => stale
            case Subscribed => !stale && tier != NoTier && (trialEnd.None? || trialEnd.value <= now)
            case Lapsed => !stale && tier == NoTier && (trialEnd.None? || trialEnd.value <= now)
            case LastDay(hours) =>
              && trialEnd.Some? && now < trialEnd.value < now + 86400
              && now + 3600 * hours <= trialEnd.value < now + 3600 * (hours + 1)
            case NearExpiry(days) =>
              && trialEnd.Some? && now + 86400 <= trialEnd.value <= now + 3 * 86400
              && now + 86400 * (days - 1) < trialEnd.value <= now + 86400 * days
            case Active(days) =>
              && trialEnd.Some? && now + 3 * 86400 < trialEnd.value
              && now + 86400 * (days - 1) < trialEnd.value <= now + 86400 * days
  {
  }

  datatype Copy = NoSubscription | NotSignedIn | Network | Unknown

  function CopyOfCode(code: Option<string>): Copy {
    if code == Some("no_subscription") then NoSubscription
    else if code == Some("not_signed_in") then NotSignedIn
    else if code == Some("network") then Network
    else Unknown
  }

  function CopyOfError(timedOut: bool): Copy {
    if timedOut then Network else Unknown
  }

  datatype Url = Url(https: bool, text: string)

  datatype MintEnvelope = MintEnvelope(ok: Option<bool>, url: Option<Url>, code: Option<string>)

  datatype Mint = MintThrew(timedOut: bool) | MintReplied(env: Option<MintEnvelope>)

  /** The browser is visited: not a refusal, and an https address. */
  predicate Opens(m: Mint) {
    && m.MintReplied? && m.env.Some? && m.env.value.ok != Some(false)
    && m.env.value.url.Some? && m.env.value.url.value.https
  }

  function CopyOfMint(m: Mint): Copy {
    match m
    case MintThrew(timedOut) => CopyOfError(timedOut)
    case MintReplied(env) => CopyOfCode(if env.Some? then env.value.code else None)
  }

  // ---- state ---------------------------------------------------------------------------

  datatype Account = Account(status: Status, tier: Tier, trial: Trial, paywall: bool)

  datatype Flow = Idle | InProgress | Failed(reason: string)

  /** The sign-in attempt: `gen` is the current generation, `waiting` the caller to be told. */
  datatype Login = Login(
    flow: Flow,
    handle: Option<nat>,
    lines: seq<Option<Envelope>>,
    gen: nat,
    watchdog: bool,
    waiting: Option<nat>)

  datatype Billing = Billing(pending: bool, target: Option<Tier>, gen: nat, portal: bool, error: Option<Copy>)

  datatype Answer = Answer(caller: nat, ok: bool)

  /** What has left the controller: completions called, processes signalled, pages opened. */
  datatype Out = Out(answers: seq<Answer>, killed: set<nat>, urls: seq<Url>)

  datatype State = State(account: Account, login: Login, billing: Billing, out: Out)

  const INIT := State(
    Account(Unresolved, NoTier, Indeterminate, false),
    Login(Idle, None, [], 0, false, None),
    Billing(false, None, 0, false, None),
    Out([], {}, []))

  datatype Spawn = Spawned | SpawnFailed(reason: string, timedOut: bool)

  datatype Reply = Threw | Replied(env: Option<Envelope>)

  /** What the user and the application do, and how each call of the command line comes back. */
  datatype Event =
    | Start(caller: Option<nat>, spawn: Spawn)
    | Line(gen: nat, line: Option<Envelope>)
    | Exited(gen: nat, code: int, now: int)
    | TimedOut(gen: nat)
    | Cancel
    | RefreshBegun
    | Refreshed(reply: Reply, now: int)
    | ForceBegun
    | ForceRefreshed(reply: Reply, now: int)
    | ReconcileBegun
    | Reconciled
    | ReturnBegun
    | Returned(reply: Reply, now: int)
    | Checkout(tier: Tier)
    | Minted(gen: nat, mint: Mint)
    | Portal
    | PortalMinted(mint: Mint)
    | SignOut(uploading: bool)
    | LoggedOut
    | DismissError

  // ---- steps -----------------------------------------------------------------------------

  function Tell(out: Out, caller: Option<nat>, ok: bool): Out {
    if caller.Some? then out.(answers := out.answers + [Answer(caller.value, ok)]) else out
  }

  function Settle(b: Billing, a: Account): Billing {
    if b.pending && b.target == Some(a.tier) && !a.trial.Indeterminate? && !a.trial.Lapsed?
    then b.(pending := false, target := None)
    else b
  }

  /** The account an envelope describes. */
  function AccountOf(env: Option<Envelope>, now: int, paywall: bool): Account {
    var status := StatusOf(env);
    var tier := TierOf(env, status);
    var trialEnd := if env.Some? then env.value.trialEnd else None;
    Account(status, tier, TrialOf(tier, trialEnd, status.SignedIn? && status.stale, now), paywall)
  }

  /** `applyEntitlement`, with the status that goes with it. */
  function Apply(s: State, a: Account): State {
    s.(account := a, billing := Settle(s.billing, a))
  }

  function PaywallOf(env: Option<Envelope>, otherwise: bool): bool {
    if env.Some? && env.value.paywall.Some? then env.value.paywall.value else otherwise
  }

  function StartStep(s: State, caller: Option<nat>, spawn: Spawn): State {
    if s.account.status.SignedIn? then s.(out := Tell(s.out, caller, true))
    else if s.login.flow.InProgress? then s.(out := Tell(s.out, caller, false))
    else
      var gen := s.login.gen + 1;
      match spawn
      case Spawned =>
        s.(login := Login(InProgress, Some(gen), [], gen, true, caller), billing := s.billing.(error := None))
      case SpawnFailed(reason, timedOut) =>
        State(s.account,
              Login(Failed(reason), None, [], gen, s.login.watchdog, None),
              s.billing.(error := Some(CopyOfError(timedOut))),
              Tell(s.out, caller, false))
  }

  function LineStep(s: State, gen: nat, line: Option<Envelope>): State {
    if gen == s.login.gen then s.(login := s.login.(lines := s.login.lines + [line])) else s
  }

  function Latest(lines: seq<Option<Envelope>>): Option<Envelope> {
    if lines == [] then None
    else if lines[|lines| - 1].Some? then lines[|lines| - 1]
    else Latest(lines[..|lines| - 1])
  }

  function FailureReason(env: Option<Envelope>): string {
    if env.Some? && env.value.error.Some? && env.value.error.value != "" then env.value.error.value
    else "Sign-in failed or was cancelled."
  }

  /** The attempt is over: nobody waits, no process is held, no watchdog runs. */
  function Over(l: Login, flow: Flow): Login {
    Login(flow, None, l.lines, l.gen, false, None)
  }

  function SignedInState(s: State, env: Option<Envelope>, now: int): State {
    var a := AccountOf(env, now, PaywallOf(env, s.account.paywall));
    State(a, Over(s.login, Idle), Settle(s.billing, a), Tell(s.out, s.login.waiting, true))
  }

  function ExitedStep(s: State, gen: nat, code: int, now: int): State {
    if gen != s.login.gen then s
    else
      var env := Latest(s.login.lines);
      if code == 0 && StatusOf(env).SignedIn? then SignedInState(s, env, now)
      else
        State(s.account,
              Over(s.login, Failed(FailureReason(env))),
              s.billing.(error := Some(Unknown)),
              Tell(s.out, s.login.waiting, false))
  }

  function Signalled(out: Out, handle: Option<nat>): Out {
    if handle.Some? then out.(killed := out.killed + {handle.value}) else out
  }

  /** The attempt is abandoned: its process is signalled and its callbacks are made stale. */
  function Abandoned(s: State, flow: Flow, error: Option<Copy>): State {
    State(s.account,
          Over(s.login.(gen := s.login.gen + 1), flow),
          s.billing.(error := error),
          Tell(Signalled(s.out, s.login.handle), s.login.waiting, false))
  }

  function TimedOutStep(s: State, gen: nat): State {
    if gen != s.login.gen || !s.login.flow.InProgress? then s
    else Abandoned(s, Failed("Sign-in timed out."), Some(Network))
  }

  function CancelStep(s: State): State {
    match s.login.flow
    case InProgress => Abandoned(s, Idle, s.billing.error)
    case Failed(_) =>
      State(s.account, s.login.(flow := Idle, waiting := None), s.billing.(error := None),
            Tell(s.out, s.login.waiting, false))
    case Idle => s
  }

  function RefreshedStep(s: State, reply: Reply, now: int): State {
    match reply
    case Threw => s.(account := Account(SignedOut, NoTier, Indeterminate, false))
    case Replied(env) => Apply(s, AccountOf(env, now, PaywallOf(env, false)))
  }

  function ForceRefreshedStep(s: State, reply: Reply, now: int): State {
    match reply
    case Threw => s
    case Replied(env) =>
      var paywall := PaywallOf(env, s.account.paywall);
      if env.Some? && env.value.signedIn == Some(true) then Apply(s, AccountOf(env, now, paywall))
      else s.(account := s.account.(paywall := paywall))
  }

  function CheckoutStep(s: State, tier: Tier): State {
    if tier == NoTier then s
    else s.(billing := Billing(true, Some(tier), s.billing.gen + 1, s.billing.portal, None))
  }

  function MintedStep(s: State, gen: nat, mint: Mint): State {
    if gen != s.billing.gen then s
    else if Opens(mint) then s.(out := s.out.(urls := s.out.urls + [mint.env.value.url.value]))
    else s.(billing := Billing(false, None, gen, s.billing.portal, Some(CopyOfMint(mint))))
  }

  function PortalMintedStep(s: State, mint: Mint): State {
    if Opens(mint) then
      s.(billing := s.billing.(portal := true), out := s.out.(urls := s.out.urls + [mint.env.value.url.value]))
    else s.(billing := s.billing.(error := Some(CopyOfMint(mint))))
  }

  /** The rest of `signOut`, once the logout has come back. */
  function SignOutStep(s: State): State {
    s.(account := Account(SignedOut, NoTier, Indeterminate, s.account.paywall),
       billing := Billing(false, None, s.billing.gen + 1, false, None))
  }

  function Step(s: State, e: Event): State {
    match e
    case Start(caller, spawn) => StartStep(s, caller, spawn)
    case Line(gen, line) => LineStep(s, gen, line)
    case Exited(gen, code, now) => ExitedStep(s, gen, code, now)
    case TimedOut(gen) => TimedOutStep(s, gen)
    case Cancel => CancelStep(s)
    case Refreshed(reply, now) => RefreshedStep(s, reply, now)
    case ForceRefreshed(reply, now) => ForceRefreshedStep(s, reply, now)
    case Returned(reply, now) =>
      var r := ForceRefreshedStep(s, reply, now);
      r.(billing := r.billing.(portal := false))
    case Checkout(tier) => CheckoutStep(s, tier)
    case Minted(gen, mint) => MintedStep(s, gen, mint)
    case Portal => s.(billing := s.billing.(error := None))
    case PortalMinted(mint) => PortalMintedStep(s, mint)
    case LoggedOut => SignOutStep(s)
    case DismissError => s.(billing := s.billing.(error := None))
    case _ => s
  }

  // ---- the world around it -------------------------------------------------------------------

  datatype Attempt = Attempt(tier: Tier, who: Status)

  /** How many calls of each kind are under way; a reconcile is followed by a forced read. */
  datatype Calls = Calls(portals: nat, refreshes: nat, forces: nat, reconciles: nat, visits: nat, logouts: nat)

  /** Which processes and requests have been started, and which have not answered yet. */
  datatype World = World(
    spawned: set<nat>,
    exited: set<nat>,
    attempts: map<nat, Attempt>,
    mints: set<nat>,
    calls: Calls)

  const QUIET := World({}, {}, map[], {}, Calls(0, 0, 0, 0, 0, 0))

  predicate Launches(s: State, e: Event) {
    e.Start? && e.spawn.Spawned? && !s.account.status.SignedIn? && !s.login.flow.InProgress?
  }

  function Less(n: nat): nat {
    if n > 0 then n - 1 else 0
  }

  /** The browser's return is only followed up while something is pending, a sign-out only without an upload. */
  function CallStep(c: Calls, s: State, e: Event): Calls {
    match e
    case Portal => c.(portals := c.portals + 1)
    case PortalMinted(_) => c.(portals := Less(c.portals))
    case RefreshBegun => c.(refreshes := c.refreshes + 1)
    case Refreshed(_, _) => c.(refreshes := Less(c.refreshes))
    case ForceBegun => c.(forces := c.forces + 1)
    case ForceRefreshed(_, _) => c.(forces := Less(c.forces))
    case ReconcileBegun => c.(reconciles := c.reconciles + 1)
    case Reconciled => c.(reconciles := Less(c.reconciles), forces := c.forces + 1)
    case ReturnBegun => if s.billing.pending || s.billing.portal then c.(visits := c.visits + 1) else c
    case Returned(_, _) => c.(visits := Less(c.visits))
    case SignOut(uploading) => if uploading then c else c.(logouts := c.logouts + 1)
    case LoggedOut => c.(logouts := Less(c.logouts))
    case _ => c
  }

  function WorldStep(w: World, s: State, e: Event): World {
    match e
    case Start(_, _) => if Launches(s, e) then w.(spawned := w.spawned + {s.login.gen + 1}) else w
    case Exited(gen, _, _) => w.(exited := w.exited + {gen})
    case Checkout(tier) =>
      if tier == NoTier then w
      else
        var gen := s.billing.gen + 1;
        w.(attempts := w.attempts[gen := Attempt(tier, s.account.status)], mints := w.mints + {gen})
    case Minted(gen, _) => w.(mints := w.mints - {gen})
    case _ => w.(calls := CallStep(w.calls, s, e))
  }

  /** A process writes and exits (once) after it was launched; whatever was begun comes back, once. */
  predicate Possible(w: World, e: Event) {
    match e
    case Line(gen, _) => gen in w.spawned
    case Exited(gen, _, _) => gen in w.spawned && gen !in w.exited
    case Minted(gen, _) => gen in w.mints
    case PortalMinted(_) => w.calls.portals > 0
    case Refreshed(_, _) => w.calls.refreshes > 0
    case ForceRefreshed(_, _) => w.calls.forces > 0
    case Reconciled => w.calls.reconciles > 0
    case Returned(_, _) => w.calls.visits > 0
    case LoggedOut => w.calls.logouts > 0
    case _ => true
  }

  function Run(events: seq<Event>): (State, World) {
    if events == [] then (INIT, QUIET)
    else
      var (s, w) := Run(events[..|events| - 1]);
      var e := events[|events| - 1];
      (Step(s, e), WorldStep(w, s, e))
  }

  predicate Legal(events: seq<Event>) {
    events == [] ||
    (Legal(events[..|events| - 1]) && Possible(Run(events[..|events| - 1]).1, events[|events| - 1]))
  }

  /** How many of the events are of a kind. */
  function Count(events: seq<Event>, kind: Event -> bool): nat {
    if events == [] then 0
    else Count(events[..|events| - 1], kind) + if kind(events[|events| - 1]) then 1 else 0
  }

  /** How many more of one kind than of another. */
  function More(events: seq<Event>, kind: Event -> bool, other: Event -> bool): int {
    Count(events, kind) - Count(events, other)
  }

  lemma OneMoreCall(w: World, s: State, e: Event)
    requires Possible(w, e)
    ensures var (c, c') := (w.calls, WorldStep(w, s, e).calls);
            && c'.portals == c.portals + (if e.Portal? then 1 else 0) - (if e.PortalMinted? then 1 else 0)
            && c'.refreshes == c.refreshes + (if e.RefreshBegun? then 1 else 0) - (if e.Refreshed? then 1 else 0)
            && c'.reconciles == c.reconciles + (if e.ReconcileBegun? then 1 else 0) - (if e.Reconciled? then 1 else 0)
            && c'.forces == c.forces + (if e.ForceBegun? || e.Reconciled? then 1 else 0)
                            - (if e.ForceRefreshed? then 1 else 0)
            && c'.logouts == c.logouts + (if e == SignOut(false) then 1 else 0) - (if e.LoggedOut? then 1 else 0)
  {
  }

  /** What is under way has begun and not come back, and only that. */
  lemma {:induction false} RefreshesUnderWay(events: seq<Event>)
    requires Legal(events)
    ensures Run(events).1.calls.refreshes
         == More(events, (e: Event) => e.RefreshBegun?, (e: Event) => e.Refreshed?)
  {
    if events != [] {
      var before := events[..|events| - 1];
      RefreshesUnderWay(before);
      OneMoreCall(Run(before).1, Run(before).0, events[|events| - 1]);
    }
  }

  /** A process is launched by a start that begins, a page asked for by a checkout; each exits or answers once. */
  lemma WorldExactly(w: World, s: State, e: Event, gen: nat)
    ensures var w' := WorldStep(w, s, e);
            && (gen in w'.spawned <==>
                  || gen in w.spawned
                  || (&& e.Start? && e.spawn == Spawned && gen == s.login.gen + 1
                      && !s.account.status.SignedIn? && s.login.flow != InProgress))
            && (gen in w'.exited <==> gen in w.exited || (e.Exited? && e.gen == gen))
            && (gen in w'.mints <==>
                  || (e.Checkout? && e.tier != NoTier && gen == s.billing.gen + 1)
                  || (gen in w.mints && !(e.Minted? && e.gen == gen)))
  {
  }

  /** How often the browser's return found something awaited. */
  function Visits(events: seq<Event>): nat {
    if events == [] then 0
    else
      var before, e := events[..|events| - 1], events[|events| - 1];
      var awaited := Run(before).0.billing.pending || Run(before).0.billing.portal;
      Visits(before) + if e.ReturnBegun? && awaited then 1 else 0
  }

  lemma {:induction false} VisitsUnderWay(events: seq<Event>)
    requires Legal(events)
    ensures Run(events).1.calls.visits == Visits(events) - Count(events, (e: Event) => e.Returned?)
  {
    if events != [] {
      VisitsUnderWay(events[..|events| - 1]);
    }
  }

  /** A reconcile goes on to a forced read. */
  lemma {:induction false} ForcesUnderWay(events: seq<Event>)
    requires Legal(events)
    ensures Run(events).1.calls.forces
         == More(events, (e: Event) => e.ForceBegun? || e.Reconciled?, (e: Event) => e.ForceRefreshed?)
  {
    if events != [] {
      var before := events[..|events| - 1];
      ForcesUnderWay(before);
      OneMoreCall(Run(before).1, Run(before).0, events[|events| - 1]);
    }
  }

  lemma {:induction false} ReconcilesUnderWay(events: seq<Event>)
    requires Legal(events)
    ensures Run(events).1.calls.reconciles
         == More(events, (e: Event) => e.ReconcileBegun?, (e: Event) => e.Reconciled?)
  {
    if events != [] {
      var before := events[..|events| - 1];
      ReconcilesUnderWay(before);
      OneMoreCall(Run(before).1, Run(before).0, events[|events| - 1]);
    }
  }

  lemma {:induction false} PortalsUnderWay(events: seq<Event>)
    requires Legal(events)
    ensures Run(events).1.calls.portals
         == More(events, (e: Event) => e.Portal?, (e: Event) => e.PortalMinted?)
  {
    if events != [] {
      var before := events[..|events| - 1];
      PortalsUnderWay(before);
      OneMoreCall(Run(before).1, Run(before).0, events[|events| - 1]);
    }
  }

  lemma {:induction false} LogoutsUnderWay(events: seq<Event>)
    requires Legal(events)
    ensures Run(events).1.calls.logouts
         == More(events, (e: Event) => e == SignOut(false), (e: Event) => e.LoggedOut?)
  {
    if events != [] {
      var before := events[..|events| - 1];
      LogoutsUnderWay(before);
      OneMoreCall(Run(before).1, Run(before).0, events[|events| - 1]);
    }
  }

  // ---- what is said, field by field ------------------------------------------------------------

  /** The newest line that parses is the one after which none does. */
  lemma {:induction false} LatestExactly(lines: seq<Option<Envelope>>, env: Envelope)
    ensures Latest(lines) == Some(env) <==> exists k :: IsLatest(lines, k, env)
  {
    if lines != [] {
      var n := |lines| - 1;
      LatestExactly(lines[..n], env);
      if lines[n] == Some(env) {
        assert IsLatest(lines, n, env);
      } else if lines[n].None? {
        assert forall k :: IsLatest(lines, k, env) <==> IsLatest(lines[..n], k, env);
      }
    }
  }

  predicate IsLatest(lines: seq<Option<Envelope>>, k: int, env: Envelope) {
    0 <= k < |lines| && lines[k] == Some(env) && forall j | k < j < |lines| :: lines[j].None?
  }

  predicate SaysSignedIn(env: Option<Envelope>) {
    env.Some? && env.value.ok != Some(false) && env.value.signedIn == Some(true)
  }

  /** Who an envelope says is signed in, and at which tier: an unknown tier is none, an absent one may be implied. */
  lemma EnvelopeExactly(env: Option<Envelope>)
    ensures var status := StatusOf(env);
            && (SaysSignedIn(env) ==> status == SignedIn(env.value.uid, env.value.stale == Some(true)))
            && (!SaysSignedIn(env) ==> status == SignedOut)
            && (TierOf(env, status) == LocalPro <==> env.Some? && env.value.tier == Some("local"))
            && (TierOf(env, status) == Cloud <==>
                  env.Some?
                  && (env.value.tier == Some("cloud")
                      || (env.value.tier.None? && env.value.subscribed == Some(true) && SaysSignedIn(env))))
  {
    assert "local"[0] == 'l' && "cloud"[0] == 'c';
  }

  /** The account as this envelope has it. */
  predicate AsReported(a: Account, env: Option<Envelope>, now: int, otherwise: bool) {
    && a.status == StatusOf(env)
    && a.tier == TierOf(env, StatusOf(env))
    && a.trial == TrialOf(a.tier, if env.Some? then env.value.trialEnd else None,
                          SaysSignedIn(env) && env.value.stale == Some(true), now)
    && a.paywall == if env.Some? && env.value.paywall.Some? then env.value.paywall.value else otherwise
  }

  /** The live attempt's own process exits cleanly, having said it is signed in. */
  predicate SignsIn(s: State, e: Event) {
    e.Exited? && e.gen == s.login.gen && e.code == 0 && SaysSignedIn(Latest(s.login.lines))
  }

  /** A read that a failure or a signed-out answer leaves without effect on the account, the paywall aside. */
  predicate Forced(e: Event) {
    e.ForceRefreshed? || e.Returned?
  }

  /** Where the account comes from: nothing else ever touches it. */
  lemma AccountExactly(s: State, e: Event)
    ensures var (a, a') := (s.account, Step(s, e).account);
            if e.Refreshed? then
              (if e.reply.Threw? then a' == Account(SignedOut, NoTier, Indeterminate, false)
               else AsReported(a', e.reply.env, e.now, false))
            else if Forced(e) && e.reply.Replied? && e.reply.env.Some? then
              (if e.reply.env.value.signedIn == Some(true) then AsReported(a', e.reply.env, e.now, a.paywall)
               else a' == a.(paywall := a'.paywall) && a'.paywall == (e.reply.env.value.paywall == Some(true)
                                                                     || (e.reply.env.value.paywall.None? && a.paywall)))
            else if SignsIn(s, e) then AsReported(a', Latest(s.login.lines), e.now, a.paywall)
            else if e.LoggedOut? then a' == Account(SignedOut, NoTier, Indeterminate, a.paywall)
            else a' == a
  {
  }

  /** A refusal is worded by its code, if it is one of the known ones; a call that failed, by whether it timed out. */
  lemma CopyExactly(m: Mint)
    ensures var code := if m.MintReplied? && m.env.Some? then m.env.value.code else None;
            && (CopyOfMint(m) == NoSubscription <==> code == Some("no_subscription"))
            && (CopyOfMint(m) == NotSignedIn <==> code == Some("not_signed_in"))
            && (CopyOfMint(m) == Network <==> code == Some("network") || (m.MintThrew? && m.timedOut))
  {
    assert "no_subscription"[2] == '_' && "not_signed_in"[2] == 't' && "network"[1] == 'e';
    assert "no_subscription"[1] == 'o' && "not_signed_in"[1] == 'o';
  }

  /** The start is not turned away: nobody is signed in, and no attempt is in progress. */
  predicate Begins(s: State, e: Event) {
    e.Start? && !s.account.status.SignedIn? && !s.login.flow.InProgress?
  }

  predicate Expires(s: State, e: Event) {
    e.TimedOut? && e.gen == s.login.gen && s.login.flow.InProgress?
  }

  predicate FailsToSignIn(s: State, e: Event) {
    e.Exited? && e.gen == s.login.gen && !SignsIn(s, e)
  }

  /** A page that could not be minted: this checkout's, or a portal's. */
  predicate MintFails(s: State, e: Event) {
    ((e.Minted? && e.gen == s.billing.gen) || e.PortalMinted?) && !Opens(e.mint)
  }

  /** The error shown, after each event. */
  lemma ErrorExactly(s: State, e: Event)
    ensures var (error, error') := (s.billing.error, Step(s, e).billing.error);
            if Begins(s, e) then
              error' == if e.spawn.Spawned? then None else if e.spawn.timedOut then Some(Network) else Some(Unknown)
            else if Expires(s, e) then error' == Some(Network)
            else if FailsToSignIn(s, e) then error' == Some(Unknown)
            else if MintFails(s, e) then error' == Some(CopyOfMint(e.mint))
            else if (e.Cancel? && s.login.flow.Failed?) || (e.Checkout? && e.tier != NoTier)
                    || e.Portal? || e.LoggedOut? || e.DismissError?
            then error' == None
            else error' == error
  {
  }

  /** The words of a failed sign-in are the command line's own, if it gave any. */
  predicate InItsWords(reason: string, env: Option<Envelope>) {
    if env.Some? && env.value.error.Some? && env.value.error.value != "" then reason == env.value.error.value
    else reason == "Sign-in failed or was cancelled."
  }

  /** The sign-in flow and its generation, after each event. */
  lemma FlowExactly(s: State, e: Event)
    ensures var (l, l') := (s.login, Step(s, e).login);
            && l'.gen == l.gen + (if Begins(s, e) || Expires(s, e) || (e.Cancel? && l.flow.InProgress?) then 1 else 0)
            && if Begins(s, e) then
                 l'.flow == if e.spawn.Spawned? then InProgress else Failed(e.spawn.reason)
               else if Expires(s, e) then l'.flow == Failed("Sign-in timed out.")
               else if FailsToSignIn(s, e) then
                 l'.flow.Failed? && InItsWords(l'.flow.reason, Latest(l.lines))
               else if SignsIn(s, e) || e.Cancel? then l'.flow == Idle
               else l'.flow == l.flow
  {
  }

  /** A browser page opens for the current checkout or a portal, if the answer is an https address and no refusal. */
  lemma PagesExactly(s: State, e: Event)
    ensures var (urls, urls') := (s.out.urls, Step(s, e).out.urls);
            if (e.Minted? && e.gen == s.billing.gen) || e.PortalMinted? then
              if e.mint.MintReplied? && e.mint.env.Some? && e.mint.env.value.ok != Some(false)
                 && e.mint.env.value.url.Some? && e.mint.env.value.url.value.https
              then urls' == urls + [e.mint.env.value.url.value] else urls' == urls
            else urls' == urls
  {
  }

  /** A process is signalled when its attempt is cancelled or times out: only the one that is held. */
  lemma SignalsExactly(s: State, e: Event)
    ensures var (killed, killed') := (s.out.killed, Step(s, e).out.killed);
            killed' == if (Expires(s, e) || (e.Cancel? && s.login.flow.InProgress?)) && s.login.handle.Some?
                       then killed + {s.login.handle.value} else killed
  {
  }

  /**
   * A portal's return is awaited from the page's opening to the visit; a checkout's number grows
   * with each checkout and with sign-out.
   */
  lemma BillingExactly(s: State, e: Event)
    ensures var (b, b') := (s.billing, Step(s, e).billing);
            && (b'.portal <==>
                  (e.PortalMinted? && Opens(e.mint)) || (b.portal && !e.Returned? && !e.LoggedOut?))
            && b'.gen == b.gen + if (e.Checkout? && e.tier != NoTier) || e.LoggedOut? then 1 else 0
  {
  }

  /** Coming back from the browser is followed up only if something is awaited, a sign-out only with no upload. */
  lemma FollowedUpExactly(w: World, s: State, e: Event)
    ensures WorldStep(w, s, e).calls.visits > w.calls.visits
       <==> e.ReturnBegun? && (s.billing.pending || s.billing.portal)
    ensures WorldStep(w, s, e).calls.logouts > w.calls.logouts <==> e.SignOut? && !e.uploading
  {
  }

  // ---- the controller ----------------------------------------------------------------------------

  class CloudAuthController {
    var status: Status
    var tier: Tier
    var trialState: Trial
    var paywallEnabled: bool
    var signInFlow: Flow
    var loginHandle: Option<nat>
    var loginStdout: seq<Option<Envelope>>
    var loginGeneration: nat
    var watchdogArmed: bool
    var pendingResult: Option<nat>
    var checkoutPending: bool
    var checkoutTargetTier: Option<Tier>
    var checkoutGeneration: nat
    var portalReturnPending: bool
    var accountError: Option<Copy>
    var out: Out

    ghost function TheAccount(): Account
      reads this
    {
      Account(status, tier, trialState, paywallEnabled)
    }

    ghost function TheLogin(): Login
      reads this
    {
      Login(signInFlow, loginHandle, loginStdout, loginGeneration, watchdogArmed, pendingResult)
    }

    ghost function TheBilling(): Billing
      reads this
    {
      Billing(checkoutPending, checkoutTargetTier, checkoutGeneration, portalReturnPending, accountError)
    }

    ghost function Now(): State
      reads this
    {
      State(TheAccount(), TheLogin(), TheBilling(), out)
    }

    constructor ()
      ensures Now() == INIT
      ensures status == Unresolved && tier == NoTier && trialState == Indeterminate && !paywallEnabled
      ensures signInFlow == Idle && loginHandle.None? && loginStdout == [] && !watchdogArmed && pendingResult.None?
      ensures !checkoutPending && checkoutTargetTier.None? && !portalReturnPending && accountError.None?
    {
      status, tier, trialState, paywallEnabled := Unresolved, NoTier, Indeterminate, false;
      signInFlow, loginHandle, loginStdout, loginGeneration := Idle, None, [], 0;
      watchdogArmed, pendingResult := false, None;
      checkoutPending, checkoutTargetTier, checkoutGeneration := false, None, 0;
      portalReturnPending, accountError := false, None;
      out := Out([], {}, []);
    }

    /** `finishResult`: the completion is called once and dropped. */
    method FinishResult(ok: bool)
      modifies this`pendingResult, this`out
      ensures pendingResult == None && out == Tell(old(out), old(pendingResult), ok)
    {
      var result := pendingResult;
      pendingResult := None;
      out := Tell(out, result, ok);
    }

    method ApplyEntitlement(env: Option<Envelope>, now: int)
      requires status == StatusOf(env)
      modifies this`tier, this`trialState, this`checkoutPending, this`checkoutTargetTier
      ensures TheAccount() == AccountOf(env, now, paywallEnabled)
      ensures TheBilling() == Settle(old(TheBilling()), TheAccount())
    {
      tier := TierOf(env, status);
      trialState := TrialOf(
        tier, if env.Some? then env.value.trialEnd else None, status.SignedIn? && status.stale, now);
      SettleCheckoutPendingIfResolved();
    }

    method SettleCheckoutPendingIfResolved()
      modifies this`checkoutPending, this`checkoutTargetTier
      ensures TheBilling() == Settle(old(TheBilling()), TheAccount())
    {
      if !checkoutPending || checkoutTargetTier.None? || tier != checkoutTargetTier.value {
        return;
      }
      match trialState {
        case Indeterminate =>
        case Lapsed =>
        case _ =>
          checkoutPending := false;
          checkoutTargetTier := None;
      }
    }

    method StartSignIn(caller: Option<nat>, spawn: Spawn)
      modifies this
      ensures Now() == StartStep(old(Now()), caller, spawn)
    {
      if status.SignedIn? {
        out := Tell(out, caller, true);
        return;
      }
      if signInFlow.InProgress? {
        out := Tell(out, caller, false);
        return;
      }
      BeginLogin(caller);
      match spawn {
        case Spawned =>
          loginHandle := Some(loginGeneration);
          watchdogArmed := true;
        case SpawnFailed(reason, timedOut) =>
          FailLaunch(reason, timedOut);
      }
    }

    method BeginLogin(caller: Option<nat>)
      modifies this`signInFlow, this`accountError, this`loginStdout, this`pendingResult, this`loginGeneration
      ensures signInFlow == InProgress && accountError.None? && loginStdout == []
      ensures pendingResult == caller && loginGeneration == old(loginGeneration) + 1
    {
      signInFlow := InProgress;
      accountError := None;
      loginStdout := [];
      pendingResult := caller;
      loginGeneration := loginGeneration + 1;
    }

    method FailLaunch(reason: string, timedOut: bool)
      modifies this`loginHandle, this`signInFlow, this`accountError, this`pendingResult, this`out
      ensures loginHandle.None? && signInFlow == Failed(reason) && accountError == Some(CopyOfError(timedOut))
      ensures pendingResult.None? && out == Tell(old(out), old(pendingResult), false)
    {
      loginHandle := None;
      signInFlow := Failed(reason);
      accountError := Some(CopyOfError(timedOut));
      FinishResult(false);
    }

    method AppendLoginStdout(line: Option<Envelope>, generation: nat)
      modifies this`loginStdout
      ensures Now() == LineStep(old(Now()), generation, line)
    {
      if generation == loginGeneration {
        loginStdout := loginStdout + [line];
      }
    }

    /** The newest line that parses, found by scanning back from the end. */
    method LatestLoginEnvelope() returns (env: Option<Envelope>)
      ensures env == Latest(loginStdout)
    {
      var i := |loginStdout|;
      assert loginStdout[..i] == loginStdout;
      while i > 0
        invariant 0 <= i <= |loginStdout|
        invariant Latest(loginStdout[..i]) == Latest(loginStdout)
      {
        i := i - 1;
        assert loginStdout[..i + 1][..i] == loginStdout[..i];
        if loginStdout[i].Some? {
          return loginStdout[i];
        }
      }
      return None;
    }

    /** The success half of `handleLoginTerminated`. */
    method CompleteSignIn(env: Option<Envelope>, now: int)
      requires StatusOf(env).SignedIn? && loginHandle.None? && !watchdogArmed
      modifies this
      ensures Now() == SignedInState(old(Now()), env, now)
    {
      status := StatusOf(env);
      ApplyEntitlement(env, now);
      paywallEnabled := PaywallOf(env, paywallEnabled);
      signInFlow := Idle;
      FinishResult(true);
    }

    method HandleLoginTerminated(exitCode: int, generation: nat, now: int)
      modifies this
      ensures Now() == ExitedStep(old(Now()), generation, exitCode, now)
    {
      if generation != loginGeneration {
        return;
      }
      watchdogArmed := false;
      loginHandle := None;
      var env := LatestLoginEnvelope();
      if exitCode == 0 && StatusOf(env).SignedIn? {
        CompleteSignIn(env, now);
        return;
      }
      FailSignIn(FailureReason(env));
    }

    method FailSignIn(reason: string)
      modifies this`signInFlow, this`accountError, this`pendingResult, this`out
      ensures signInFlow == Failed(reason) && accountError == Some(Unknown)
      ensures pendingResult.None? && out == Tell(old(out), old(pendingResult), false)
    {
      signInFlow := Failed(reason);
      accountError := Some(Unknown);
      FinishResult(false);
    }

    method Abandon(flow: Flow)
      modifies this`loginGeneration, this`watchdogArmed, this`loginHandle
      modifies this`signInFlow, this`pendingResult, this`out
      ensures TheLogin() == Over(old(TheLogin()).(gen := old(loginGeneration) + 1), flow)
      ensures out == Tell(Signalled(old(out), old(loginHandle)), old(pendingResult), false)
    {
      loginGeneration := loginGeneration + 1;
      watchdogArmed := false;
      out := Signalled(out, loginHandle);
      loginHandle := None;
      signInFlow := flow;
      FinishResult(false);
    }

    method HandleLoginTimedOut(generation: nat)
      modifies this
      ensures Now() == TimedOutStep(old(Now()), generation)
    {
      if generation == loginGeneration && signInFlow.InProgress? {
        accountError := Some(Network);
        Abandon(Failed("Sign-in timed out."));
      }
    }

    method CancelSignIn()
      modifies this
      ensures Now() == CancelStep(old(Now()))
    {
      match signInFlow {
        case InProgress =>
          Abandon(Idle);
        case Failed(_) =>
          signInFlow := Idle;
          accountError := None;
          FinishResult(false);
        case Idle =>
      }
    }

    method ClearEntitlement()
      modifies this`tier, this`trialState
      ensures tier == NoTier && trialState == Indeterminate
    {
      tier := NoTier;
      trialState := Indeterminate;
    }

    method Refresh(reply: Reply, now: int)
      modifies this
      ensures Now() == RefreshedStep(old(Now()), reply, now)
    {
      match reply {
        case Replied(env) =>
          status := StatusOf(env);
          ApplyEntitlement(env, now);
          paywallEnabled := PaywallOf(env, false);
        case Threw =>
          status := SignedOut;
          ClearEntitlement();
          paywallEnabled := false;
      }
    }

    method RefreshEntitlement(reply: Reply, now: int)
      modifies this
      ensures Now() == ForceRefreshedStep(old(Now()), reply, now)
    {
      match reply {
        case Threw =>
        case Replied(env) =>
          if env.Some? && env.value.signedIn == Some(true) {
            status := StatusOf(env);
            ApplyEntitlement(env, now);
          }
          paywallEnabled := PaywallOf(env, paywallEnabled);
      }
    }

    /** The rest of `refreshAfterBrowserReturnIfPending`, once its gate let it through. */
    method FinishBrowserReturn(reply: Reply, now: int)
      modifies this
      ensures Now() == Step(old(Now()), Returned(reply, now))
    {
      RefreshEntitlement(reply, now);
      portalReturnPending := false;
    }

    method StartCheckout(chosen: Tier)
      modifies this
      ensures Now() == CheckoutStep(old(Now()), chosen)
    {
      if chosen == NoTier {
        return;
      }
      accountError := None;
      checkoutPending := true;
      checkoutTargetTier := Some(chosen);
      checkoutGeneration := checkoutGeneration + 1;
    }

    method FinishMint(generation: nat, mint: Mint)
      modifies this
      ensures Now() == MintedStep(old(Now()), generation, mint)
    {
      if generation != checkoutGeneration {
        return;
      }
      if Opens(mint) {
        out := out.(urls := out.urls + [mint.env.value.url.value]);
        return;
      }
      checkoutPending := false;
      checkoutTargetTier := None;
      accountError := Some(CopyOfMint(mint));
    }

    method FinishPortalMint(mint: Mint)
      modifies this
      ensures Now() == PortalMintedStep(old(Now()), mint)
    {
      if Opens(mint) {
        out := out.(urls := out.urls + [mint.env.value.url.value]);
        portalReturnPending := true;
        return;
      }
      accountError := Some(CopyOfMint(mint));
    }

    /** The rest of `signOut`, once its gate let it through and the logout has come back, well or not. */
    method FinishSignOut()
      modifies this`status, this`tier, this`trialState, this`checkoutPending, this`checkoutTargetTier
      modifies this`checkoutGeneration, this`portalReturnPending, this`accountError
      ensures Now() == SignOutStep(old(Now()))
    {
      status := SignedOut;
      ClearEntitlement();
      checkoutGeneration := checkoutGeneration + 1;
      checkoutPending := false;
      checkoutTargetTier := None;
      portalReturnPending := false;
      accountError := None;
    }
  }
}
