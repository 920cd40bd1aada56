/**
 * Entitlement claims: the per-account grant or revoke, and the bulk migration
 * of legacy subscribers, which may be interrupted and run again.
 */
module Entitlement {
  import opened Wrappers

  /** A custom-claim value, as Python sees it. */
  datatype Value = Null | Flag(b: bool) | Number(n: int) | Text(s: string)

  type Claims = map<string, Value>

  type Accounts = map<string, Claims>

  predicate Truthy(v: Value) {
    match v
    case Null => false
    case Flag(b) => b
    case Number(n) => n != 0
    case Text(s) => s != ""
  }

  function Get(claims: Claims, key: string): Value {
    if key in claims then claims[key] else Null
  }

  predicate Legacy(claims: Claims) {
    Truthy(Get(claims, "subscribed")) && !Truthy(Get(claims, "tier"))
  }

  // ---- grant and revoke -----------------------------------------------------------------

  /** The tiers `set_entitlement` writes; `None` revokes. */
  datatype Paid = Local | Cloud

  function TierName(tier: Option<Paid>): string {
    match tier
    case None => "none"
    case Some(Local) => "local"
    case Some(Cloud) => "cloud"
  }

  function Entitled(claims: Claims, tier: Option<Paid>): Claims {
    claims["tier" := Text(TierName(tier))]["subscribed" := Flag(tier == Some(Cloud))]
  }

  /** The claims say this tier, in the words the daemon and the website look for. */
  predicate Holds(claims: Claims, tier: Option<Paid>) {
    && "tier" in claims && "subscribed" in claims
    && (claims["tier"] == Text("none") <==> tier == None)
    && (claims["tier"] == Text("local") <==> tier == Some(Local))
    && (claims["tier"] == Text("cloud") <==> tier == Some(Cloud))
    && claims["subscribed"] == Flag(tier == Some(Cloud))
  }

  lemma EntitledHolds(claims: Claims, tier: Option<Paid>)
    ensures Holds(Entitled(claims, tier), tier) && SameOtherwise(claims, Entitled(claims, tier))
  {
    assert "none"[0] == 'n' && "local"[0] == 'l' && "cloud"[0] == 'c';
  }

  // ---- the migration -----------------------------------------------------------------------

  /** What the migration owes one account. */
  function Migrate(claims: Claims): Claims {
    if Legacy(claims) then claims["tier" := Text("cloud")] else claims
  }

  /** Nothing, as Python sees it: absent, `False`, zero or the empty text. */
  predicate Falsy(v: Value) {
    v == Null || v == Flag(false) || v == Number(0) || v == Text("")
  }

  /**
   * A subscriber without a tier is given the cloud tier and nothing else; everyone else keeps the
   * claims they have.
   */
  lemma MigrateExactly(claims: Claims)
    ensures var owed := "subscribed" in claims && !Falsy(claims["subscribed"])
                        && ("tier" !in claims || Falsy(claims["tier"]));
            && (Migrate(claims) != claims <==> owed)
            && (owed ==>
                  && "tier" in Migrate(claims) && Migrate(claims)["tier"] == Text("cloud")
                  && forall key | key != "tier" ::
                       && (key in Migrate(claims) <==> key in claims)
                       && (key in claims ==> Migrate(claims)[key] == claims[key]))
  {
    if Legacy(claims) {
      assert Migrate(claims)["tier"] == Text("cloud");
    }
  }

  function MigrateAll(accounts: Accounts): Accounts {
    map uid | uid in accounts :: Migrate(accounts[uid])
  }

  /** The accounts named in `uids` migrated, the others as they were. */
  function MigrateSome(accounts: Accounts, uids: seq<string>): Accounts {
    map uid | uid in accounts :: if uid in uids then Migrate(accounts[uid]) else accounts[uid]
  }

  /** A user as listed: the claims are those of the page it came on. */
  datatype User = User(uid: string, claims: Claims)

  function Matched(listing: seq<User>): seq<string> {
    if listing == [] then []
    else
      var before, last := Matched(listing[..|listing| - 1]), listing[|listing| - 1];
      if Legacy(last.claims) then before + [last.uid] else before
  }

  /** The page's claims, with the tier added, written back for every match. */
  function WriteBack(accounts: Accounts, listing: seq<User>): Accounts {
    if listing == [] then accounts
    else
      var before, last := WriteBack(accounts, listing[..|listing| - 1]), listing[|listing| - 1];
      if Legacy(last.claims) then before[last.uid := last.claims["tier" := Text("cloud")]] else before
  }

  /** Firebase's user directory. */
  class Directory {
    var accounts: Accounts

    constructor (accounts: Accounts)
      ensures this.accounts == accounts
    {
      this.accounts := accounts;
    }

    method SetCustomUserClaims(uid: string, claims: Claims)
      modifies this
      ensures accounts == old(accounts)[uid := claims]
    {
      accounts := accounts[uid := claims];
    }
  }

  /** `set_entitlement`: `None` for an account that does not exist. */
  method SetEntitlement(directory: Directory, uid: string, tier: Option<Paid>) returns (found: bool)
    modifies directory
    ensures found == (uid in old(directory.accounts))
    ensures directory.accounts
         == if found then old(directory.accounts)[uid := Entitled(old(directory.accounts)[uid], tier)]
            else old(directory.accounts)
    ensures found ==>
              && Holds(directory.accounts[uid], tier)
              && SameOtherwise(old(directory.accounts)[uid], directory.accounts[uid])
    ensures found ==>
              forall other | other in old(directory.accounts) && other != uid ::
                other in directory.accounts && directory.accounts[other] == old(directory.accounts)[other]
  {
    if uid !in directory.accounts {
      return false;
    }
    var claims := directory.accounts[uid];
    claims := claims["tier" := Text(TierName(tier))];
    claims := claims["subscribed" := Flag(TierName(tier) == "cloud")];
    assert TierName(tier) == "cloud" <==> tier == Some(Cloud);
    EntitledHolds(directory.accounts[uid], tier);
    directory.SetCustomUserClaims(uid, claims);
    return true;
  }

  /** `backfill_grandfathered` over a listing, or over as much of it as was reached. */
  method BackfillGrandfathered(directory: Directory, listing: seq<User>, dryRun: bool) returns (matched: seq<string>)
    modifies directory
    ensures matched == Matched(listing)
    ensures directory.accounts
         == if dryRun then old(directory.accounts) else WriteBack(old(directory.accounts), listing)
  {
    matched := [];
    ghost var before := directory.accounts;
    var i := 0;
    while i < |listing|
      invariant 0 <= i <= |listing|
      invariant matched == Matched(listing[..i])
      invariant directory.accounts == if dryRun then before else WriteBack(before, listing[..i])
    {
      assert listing[..i + 1][..i] == listing[..i];
      var claims := listing[i].claims;
      if Truthy(Get(claims, "subscribed")) && !Truthy(Get(claims, "tier")) {
        if !dryRun {
          claims := claims["tier" := Text("cloud")];
          directory.SetCustomUserClaims(listing[i].uid, claims);
        }
        matched := matched + [listing[i].uid];
      }
      i := i + 1;
    }
    assert listing[..i] == listing;
  }

  // ---- pages that are current --------------------------------------------------------------------

  /** No account twice, and every page as the accounts are now. */
  predicate Current(accounts: Accounts, listing: seq<User>) {
    && (forall k | 0 <= k < |listing| :: listing[k].uid in accounts && accounts[listing[k].uid] == listing[k].claims)
    && (forall j, k | 0 <= j < k < |listing| :: listing[j].uid != listing[k].uid)
  }

  function Uids(listing: seq<User>): (r: seq<string>)
    ensures |r| == |listing| && forall k | 0 <= k < |r| :: r[k] == listing[k].uid
  {
    seq(|listing|, k requires 0 <= k < |listing| => listing[k].uid)
  }

  /** From current pages the loop does to each listed account exactly what the migration owes it. */
  lemma {:induction false} CurrentPagesMigrate(accounts: Accounts, listing: seq<User>)
    requires Current(accounts, listing)
    ensures WriteBack(accounts, listing) == MigrateSome(accounts, Uids(listing))
  {
    if listing == [] {
      assert MigrateSome(accounts, []) == accounts;
    } else {
      var n := |listing| - 1;
      CurrentPagesMigrate(accounts, listing[..n]);
      assert Uids(listing) == Uids(listing[..n]) + [listing[n].uid];
    }
  }

  /** The list, which a dry run returns too, names exactly the accounts whose claims the run changes. */
  lemma {:induction false} MatchedAreThoseChanged(accounts: Accounts, listing: seq<User>, uid: string)
    requires Current(accounts, listing) && uid in accounts
    ensures uid in Matched(listing)
       <==> uid in WriteBack(accounts, listing) && WriteBack(accounts, listing)[uid] != accounts[uid]
  {
    CurrentPagesMigrate(accounts, listing);
    MatchedAreLegacy(accounts, listing, uid);
    if Legacy(accounts[uid]) {
      assert Migrate(accounts[uid])["tier"] == Text("cloud");
    }
  }

  lemma {:induction false} MatchedAreLegacy(accounts: Accounts, listing: seq<User>, uid: string)
    requires Current(accounts, listing) && uid in accounts
    ensures uid in Matched(listing) <==> uid in Uids(listing) && Legacy(accounts[uid])
  {
    if listing != [] {
      var n := |listing| - 1;
      MatchedAreLegacy(accounts, listing[..n], uid);
      assert Uids(listing) == Uids(listing[..n]) + [listing[n].uid];
    }
  }

  // ---- running it again ------------------------------------------------------------------------

  lemma MigratingTwice(claims: Claims)
    ensures Migrate(Migrate(claims)) == Migrate(claims) && !Legacy(Migrate(claims))
  {
  }

  function Joined(runs: seq<seq<User>>): seq<User> {
    if runs == [] then [] else Joined(runs[..|runs| - 1]) + runs[|runs| - 1]
  }

  /** One run after another, each as far as it got. */
  function Rerun(accounts: Accounts, runs: seq<seq<User>>): Accounts {
    if runs == [] then accounts else WriteBack(Rerun(accounts, runs[..|runs| - 1]), runs[|runs| - 1])
  }

  lemma {:induction false} WriteBackOfConcat(accounts: Accounts, a: seq<User>, b: seq<User>)
    ensures WriteBack(accounts, a + b) == WriteBack(WriteBack(accounts, a), b)
  {
    if b == [] {
      assert a + b == a;
    } else {
      var n := |b| - 1;
      assert (a + b)[..|a| + n] == a + b[..n];
      WriteBackOfConcat(accounts, a, b[..n]);
    }
  }

  lemma {:induction false} RerunIsOneRun(accounts: Accounts, runs: seq<seq<User>>)
    ensures Rerun(accounts, runs) == WriteBack(accounts, Joined(runs))
  {
    if runs != [] {
      var n := |runs| - 1;
      RerunIsOneRun(accounts, runs[..n]);
      WriteBackOfConcat(accounts, Joined(runs[..n]), runs[n]);
    }
  }

  /** A page shows an account as it was before the first run, or as it is when its turn comes. */
  ghost predicate ReadAt(accounts: Accounts, listing: seq<User>, k: nat)
    requires k < |listing|
  {
    var (page, now) := (listing[k], WriteBack(accounts, listing[..k]));
    page.uid in accounts && page.uid in now && (page.claims == accounts[page.uid] || page.claims == now[page.uid])
  }

  /** Pages as any number of runs can have read them: stale or not, and an account as often as may be. */
  ghost predicate AsRead(accounts: Accounts, listing: seq<User>) {
    forall k | 0 <= k < |listing| :: ReadAt(accounts, listing, k)
  }

  lemma AsReadSoFar(accounts: Accounts, listing: seq<User>, n: nat)
    requires AsRead(accounts, listing) && n <= |listing|
    ensures AsRead(accounts, listing[..n])
  {
    forall k | 0 <= k < n ensures ReadAt(accounts, listing[..n], k) {
      assert ReadAt(accounts, listing, k);
      assert listing[..n][..k] == listing[..k];
    }
  }

  lemma MigrateOneMore(accounts: Accounts, uids: seq<string>, uid: string, claims: Claims)
    requires uid in accounts
    requires claims == accounts[uid] || claims == MigrateSome(accounts, uids)[uid]
    ensures MigrateSome(accounts, uids + [uid])
         == var now := MigrateSome(accounts, uids);
            if Legacy(claims) then now[uid := claims["tier" := Text("cloud")]] else now
  {
    MigratingTwice(accounts[uid]);
  }

  /** However stale its pages, a run never does more or less to the accounts it reaches than the migration owes them. */
  lemma {:induction false} RunsMigrate(accounts: Accounts, listing: seq<User>)
    requires AsRead(accounts, listing)
    ensures WriteBack(accounts, listing) == MigrateSome(accounts, Uids(listing))
  {
    if listing == [] {
      assert MigrateSome(accounts, []) == accounts;
    } else {
      var n := |listing| - 1;
      AsReadSoFar(accounts, listing, n);
      RunsMigrate(accounts, listing[..n]);
      assert ReadAt(accounts, listing, n);
      assert Uids(listing) == Uids(listing[..n]) + [listing[n].uid];
      MigrateOneMore(accounts, Uids(listing[..n]), listing[n].uid, listing[n].claims);
    }
  }

  /**
   * Confluence: any runs of the loop, each broken off anywhere, over listings in any order and of
   * any age, end where one full run would as soon as every account has had a turn.
   */
  lemma InterruptedRunsConverge(accounts: Accounts, runs: seq<seq<User>>)
    requires AsRead(accounts, Joined(runs))
    ensures Rerun(accounts, runs) == MigrateAll(accounts)
       <==> forall uid | uid in accounts && Legacy(accounts[uid]) :: uid in Uids(Joined(runs))
  {
    RerunIsOneRun(accounts, runs);
    RunsMigrate(accounts, Joined(runs));
    var reached := Uids(Joined(runs));
    forall uid | uid in accounts
      ensures MigrateSome(accounts, reached)[uid] == Migrate(accounts[uid])
         <==> (Legacy(accounts[uid]) ==> uid in reached)
    {
      MigratingTwice(accounts[uid]);
    }
    if Rerun(accounts, runs) == MigrateAll(accounts) {
      forall uid | uid in accounts && Legacy(accounts[uid]) ensures uid in reached {
        assert MigrateAll(accounts)[uid] == Migrate(accounts[uid]);
      }
    } else {
      assert MigrateSome(accounts, reached).Keys == MigrateAll(accounts).Keys == accounts.Keys;
    }
  }

  /** After a full run nobody is left to migrate: a second one reports nobody and changes nothing. */
  lemma {:induction false} SecondRunMigratesNobody(accounts: Accounts, listing: seq<User>)
    requires Current(MigrateAll(accounts), listing)
    ensures Matched(listing) == [] && WriteBack(MigrateAll(accounts), listing) == MigrateAll(accounts)
  {
    if listing != [] {
      var n := |listing| - 1;
      SecondRunMigratesNobody(accounts, listing[..n]);
      MigratingTwice(accounts[listing[n].uid]);
    }
  }

  // ---- what every operation keeps -----------------------------------------------------------------

  /** Once there is a tier, `subscribed` is its shadow. */
  predicate Consistent(claims: Claims) {
    Truthy(Get(claims, "tier")) ==> (Truthy(Get(claims, "subscribed")) <==> Get(claims, "tier") == Text("cloud"))
  }

  datatype Op = Set(uid: string, tier: Option<Paid>) | Backfill(listing: seq<User>)

  function Do(accounts: Accounts, op: Op): Accounts {
    match op
    case Set(uid, tier) => if uid in accounts then accounts[uid := Entitled(accounts[uid], tier)] else accounts
    case Backfill(listing) => WriteBack(accounts, listing)
  }

  function DoAll(accounts: Accounts, ops: seq<Op>): Accounts
    decreases |ops|
  {
    if ops == [] then accounts else DoAll(Do(accounts, ops[0]), ops[1..])
  }

  /** No account is decided on between a backfill's pages and its writes. */
  ghost predicate Undisturbed(accounts: Accounts, ops: seq<Op>)
    decreases |ops|
  {
    ops == []
    || ((ops[0].Backfill? ==> AsRead(accounts, ops[0].listing)) && Undisturbed(Do(accounts, ops[0]), ops[1..]))
  }

  /** Only the entitlement claims are ever touched. */
  ghost predicate SameOtherwise(before: Claims, after: Claims) {
    forall key :: key != "tier" && key != "subscribed" ==>
      (key in after <==> key in before) && (key in before ==> after[key] == before[key])
  }

  lemma OneOpKeeps(accounts: Accounts, op: Op, uid: string)
    requires uid in accounts && Consistent(accounts[uid])
    requires op.Backfill? ==> AsRead(accounts, op.listing)
    ensures uid in Do(accounts, op) && Consistent(Do(accounts, op)[uid])
    ensures SameOtherwise(accounts[uid], Do(accounts, op)[uid])
  {
    if op.Backfill? {
      RunsMigrate(accounts, op.listing);
    }
  }

  lemma {:induction false} EveryOpKeeps(accounts: Accounts, ops: seq<Op>, uid: string)
    requires uid in accounts && Consistent(accounts[uid]) && Undisturbed(accounts, ops)
    ensures uid in DoAll(accounts, ops) && Consistent(DoAll(accounts, ops)[uid])
    ensures SameOtherwise(accounts[uid], DoAll(accounts, ops)[uid])
    decreases |ops|
  {
    if ops != [] {
      OneOpKeeps(accounts, ops[0], uid);
      EveryOpKeeps(Do(accounts, ops[0]), ops[1..], uid);
    }
  }

  /** Whatever was last granted or revoked by hand: backfills that list accounts later leave it alone. */
  lemma BackfillsRespectDecisions(accounts: Accounts, uid: string, tier: Option<Paid>, runs: seq<seq<User>>)
    requires uid in accounts && AsRead(Do(accounts, Set(uid, tier)), Joined(runs))
    ensures var after := Rerun(Do(accounts, Set(uid, tier)), runs);
            && uid in after && after[uid] == Entitled(accounts[uid], tier)
            && Holds(after[uid], tier) && SameOtherwise(accounts[uid], after[uid])
  {
    EntitledHolds(accounts[uid], tier);
    var decided := Do(accounts, Set(uid, tier));
    RerunIsOneRun(decided, runs);
    RunsMigrate(decided, Joined(runs));
    assert !Legacy(decided[uid]);
  }

  // ---- a decision between an account's page and its turn ------------------------------------------

  /** The loop's turns, interleaved with decisions; a page may be of any age. */
  datatype Step = Decide(uid: string, tier: Option<Paid>) | Turn(page: User)

  function Apply(accounts: Accounts, step: Step): Accounts {
    match step
    case Decide(uid, tier) => Do(accounts, Set(uid, tier))
    case Turn(page) => WriteBack(accounts, [page])
  }

  function ApplyAll(accounts: Accounts, steps: seq<Step>): Accounts {
    if steps == [] then accounts else Apply(ApplyAll(accounts, steps[..|steps| - 1]), steps[|steps| - 1])
  }

  function Turns(listing: seq<User>): (r: seq<Step>)
    ensures |r| == |listing| && forall k | 0 <= k < |r| :: r[k] == Turn(listing[k])
  {
    seq(|listing|, k requires 0 <= k < |listing| => Turn(listing[k]))
  }

  lemma OneTurn(accounts: Accounts, page: User)
    ensures WriteBack(accounts, [page])
         == if Legacy(page.claims) then accounts[page.uid := page.claims["tier" := Text("cloud")]] else accounts
  {
    assert [page][..0] == [];
    assert WriteBack(accounts, []) == accounts;
  }

  /** Undisturbed, the turns are the loop. */
  lemma {:induction false} LoopIsItsTurns(accounts: Accounts, listing: seq<User>)
    ensures ApplyAll(accounts, Turns(listing)) == WriteBack(accounts, listing)
  {
    if listing != [] {
      var n := |listing| - 1;
      assert Turns(listing)[..n] == Turns(listing[..n]);
      LoopIsItsTurns(accounts, listing[..n]);
      OneTurn(WriteBack(accounts, listing[..n]), listing[n]);
    }
  }

  predicate SameEntitlement(a: Claims, b: Claims) {
    Get(a, "tier") == Get(b, "tier") && (Truthy(Get(a, "subscribed")) <==> Truthy(Get(b, "subscribed")))
  }

  /** The step writes a legacy page of this account. */
  predicate Overwrites(step: Step, uid: string) {
    step.Turn? && step.page.uid == uid && Legacy(step.page.claims)
  }

  predicate Respected(accounts: Accounts, uid: string, tier: Option<Paid>) {
    uid in accounts && SameEntitlement(accounts[uid], Entitled(accounts[uid], tier))
  }

  lemma OverwritingGrantsCloud(accounts: Accounts, step: Step, uid: string, tier: Option<Paid>)
    requires Overwrites(step, uid)
    ensures Respected(Apply(accounts, step), uid, tier) <==> tier == Some(Cloud)
  {
    OneTurn(accounts, step.page);
    assert TierName(tier) == "cloud" <==> tier == Some(Cloud);
  }

  lemma OthersLeaveItAlone(accounts: Accounts, step: Step, uid: string)
    requires uid in accounts && !Overwrites(step, uid) && !(step.Decide? && step.uid == uid)
    ensures uid in Apply(accounts, step) && Apply(accounts, step)[uid] == accounts[uid]
  {
    if step.Turn? {
      OneTurn(accounts, step.page);
    }
  }

  /**
   * The listing is read page by page, so a page may be older than an account's turn, and its write
   * puts the page's claims back with the tier added. The last decision on an account survives all
   * turns after it, whatever else happens in between, if and only if it granted Cloud, or none of
   * those turns has a legacy page of the account.
   */
  lemma {:induction false} DecisionSurvivesExactly(
    accounts: Accounts, uid: string, tier: Option<Paid>, after: seq<Step>)
    requires uid in accounts && forall k | 0 <= k < |after| :: !(after[k].Decide? && after[k].uid == uid)
    ensures Respected(ApplyAll(Apply(accounts, Decide(uid, tier)), after), uid, tier)
       <==> tier == Some(Cloud) || forall k | 0 <= k < |after| :: !Overwrites(after[k], uid)
    ensures uid in ApplyAll(Apply(accounts, Decide(uid, tier)), after)
  {
    var decided := Apply(accounts, Decide(uid, tier));
    if after != [] {
      var n := |after| - 1;
      DecisionSurvivesExactly(accounts, uid, tier, after[..n]);
      var before := ApplyAll(decided, after[..n]);
      if Overwrites(after[n], uid) {
        OverwritingGrantsCloud(before, after[n], uid, tier);
      } else {
        OthersLeaveItAlone(before, after[n], uid);
      }
    }
  }
}
