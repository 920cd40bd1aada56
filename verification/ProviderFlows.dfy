/**
 * Writing the provider settings: the controller's seams over the command line,
 * the pane's taps, and the connect sheet's ordered plans, with every write and
 * every read-back free to fail.
 */
module ProviderFlows {
  import opened Wrappers
  import opened Text
  import opened ProviderSelection

  datatype Disk = Disk(
    provider: string,
    cloud: Option<string>,
    endpoint: Option<string>,
    keys: set<Vendor>,
    clis: set<Vendor>)

  /** A write that throws may still have been stored. */
  datatype Write = Done | Refused | Lost

  /** How every write and read will go, and which endpoints the daemon classifies as local. */
  datatype Script = Script(write: nat -> Write, read: nat -> bool, isLocal: string -> bool)

  datatype Failure = WriteFailed | ReadFailed

  /**
   * The controller, the disk behind it, every disk state there has been, and whether a write the
   * pane had to see was ever followed by a read-back that failed.
   */
  datatype Pane = Pane(
    settings: Settings,
    error: Option<Failure>,
    disk: Disk,
    writes: nat,
    loads: nat,
    history: seq<Disk>,
    blind: bool)

  function Classified(w: Script, endpoint: Option<string>): Option<string> {
    if endpoint.None? then None else if w.isLocal(endpoint.value) then Some("LOCAL") else Some("REMOTE")
  }

  function ReadBack(w: Script, d: Disk): Settings {
    Settings(d.provider, d.cloud, d.endpoint, Classified(w, d.endpoint), d.keys, d.clis)
  }

  /** A new endpoint, a key gone, or a choice that was stored although its write was reported as failed. */
  predicate MustBeSeen(write: Write, was: Disk, now: Disk) {
    || now.endpoint != was.endpoint
    || !(was.keys <= now.keys)
    || (write.Lost? && now.provider == LOCAL_SERVER && was.provider != LOCAL_SERVER)
    || (write.Lost? && now.cloud.Some? && now.cloud != was.cloud)
  }

  // ---- the controller's seams -----------------------------------------------------------

  function Call(w: Script, p: Pane, d: Disk): (Pane, bool) {
    var write := w.write(p.writes);
    var stored := if write.Refused? then p.disk else d;
    var blind := p.blind || (MustBeSeen(write, p.disk, stored) && !w.read(p.loads));
    (p.(disk := stored, writes := p.writes + 1, history := p.history + [stored], blind := blind), write.Done?)
  }

  function Refresh(w: Script, p: Pane): Pane {
    if w.read(p.loads) then p.(settings := ReadBack(w, p.disk), error := None, loads := p.loads + 1)
    else p.(error := Some(ReadFailed), loads := p.loads + 1)
  }

  /** Reconcile first: a read that works would wipe the error. */
  function Fail(w: Script, p: Pane): Pane {
    Refresh(w, p).(error := Some(WriteFailed))
  }

  function SelectLocal(w: Script, p: Pane, value: string): (Pane, bool) {
    var (p1, cleared) := Call(w, p, p.disk.(cloud := None));
    if !cleared then (Fail(w, p1), false)
    else
      var (p2, stored) := Call(w, p1, p1.disk.(provider := value));
      if !stored then (Fail(w, p2), false)
      else (Refresh(w, p2.(settings := p.settings.(provider := value, cloud := None), error := None)), true)
  }

  function SelectCloud(w: Script, p: Pane, value: string): (Pane, bool) {
    var cloud := NormalizedCloud(Some(value));
    var (p1, stored) := Call(w, p, p.disk.(cloud := cloud));
    if !stored then (Fail(w, p1), false)
    else (Refresh(w, p1.(settings := p.settings.(cloud := cloud), error := None)), true)
  }

  function Stored(url: string): Option<string> {
    if Trim(url) == "" || Trim(url) == "none" then None else Some(Trim(url))
  }

  function SetEndpoint(w: Script, p: Pane, url: string): (Pane, bool) {
    var (p1, stored) := Call(w, p, p.disk.(endpoint := Stored(url)));
    if !stored then (Fail(w, p1), false) else (Refresh(w, p1.(error := None)), true)
  }

  function StoreKey(w: Script, p: Pane, v: Vendor): (Pane, bool) {
    var (p1, stored) := Call(w, p, p.disk.(keys := p.disk.keys + {v}));
    if !stored then (Fail(w, p1), false) else (Refresh(w, p1).(error := None), true)
  }

  function ClearKey(w: Script, p: Pane, v: Vendor): (Pane, bool) {
    var (p1, stored) := Call(w, p, p.disk.(keys := p.disk.keys - {v}));
    if !stored then (Fail(w, p1), false) else (Refresh(w, p1.(error := None)), true)
  }

  // ---- taps and plans -----------------------------------------------------------------------

  /** `tapRow`: the plan's instructions, dispatched through the seams. */
  function Tap(w: Script, p: Pane, k: Kind): Pane {
    var plan := TapWrites(k, p.settings);
    if plan == [] then p
    else if |plan| == 2 && plan[0].SetProvider? && plan[1].SetCloud? then
      var (healed, ok) := SelectLocal(w, p, plan[0].value);
      if ok then SelectCloud(w, healed, plan[1].id).0 else healed
    else
      match plan[|plan| - 1]
      case SetProvider(value) => SelectLocal(w, p, value).0
      case SetCloud(id) => SelectCloud(w, p, id).0
      case ClearCloud => p
  }

  /** The plan's shapes, spelled out. */
  lemma TapIs(w: Script, p: Pane, k: Kind)
    ensures TapWrites(k, p.settings) == [] ==> Tap(w, p, k) == p
    ensures TapWrites(k, p.settings) != [] && !k.Byo? ==> Tap(w, p, k) == SelectLocal(w, p, RowOf(k)).0
    ensures TapWrites(k, p.settings) != [] && k.Byo? && Mappable(p.settings)
            ==> Tap(w, p, k) == SelectCloud(w, p, k.id).0
    ensures TapWrites(k, p.settings) != [] && k.Byo? && !Mappable(p.settings)
            ==> var (healed, ok) := SelectLocal(w, p, ON_DEVICE);
                Tap(w, p, k) == if ok then SelectCloud(w, healed, k.id).0 else healed
  {
  }

  function ConnectKey(w: Script, p: Pane, v: Vendor): Pane {
    var (stored, ok) := StoreKey(w, p, v);
    if ok then SelectCloud(w, stored, KeyId(v)).0 else stored
  }

  /** `disconnectPlan`, run: deselect first. */
  function Disconnect(w: Script, p: Pane, v: Vendor): Pane {
    if p.settings.cloud == Some(KeyId(v)) then
      var (reset, ok) := SelectLocal(w, p, ON_DEVICE);
      if ok then ClearKey(w, reset, v).0 else reset
    else ClearKey(w, p, v).0
  }

  /** `endpointWritePlan`, run: reset the provider first. */
  function WriteEndpoint(w: Script, p: Pane, url: string): (Pane, bool) {
    if p.settings.provider == LOCAL_SERVER then
      var (reset, ok) := SelectLocal(w, p, ON_DEVICE);
      if ok then SetEndpoint(w, reset, url) else (reset, false)
    else SetEndpoint(w, p, url)
  }

  function SaveEndpoint(w: Script, p: Pane, draft: string): Pane {
    if Trim(draft) == "" then p
    else
      var (written, ok) := WriteEndpoint(w, p, Trim(draft));
      if ok && written.settings.classification == Some("LOCAL")
      then SelectLocal(w, written, LOCAL_SERVER).0 else written
  }

  /** The same while another choice is in flight: the reset bounces and ends it, the selection at its end bounces. */
  function SaveInFlight(w: Script, p: Pane, draft: string): Pane {
    if Trim(draft) == "" || p.settings.provider == LOCAL_SERVER then p else SetEndpoint(w, p, Trim(draft)).0
  }

  datatype Op =
    | TapRow(row: Row)
    | Connect(vendor: Vendor)
    | Delegate(vendor: Vendor)
    | Forget(vendor: Vendor)
    | Save(draft: string)
    | Clear

  function Perform(w: Script, p: Pane, op: Op): Pane {
    match op
    case TapRow(row) => if row in Rows(p.settings) && row.selectable then Tap(w, p, row.kind) else p
    case Connect(v) => ConnectKey(w, p, v)
    case Delegate(v) => SelectCloud(w, p, CliId(v)).0
    case Forget(v) => Disconnect(w, p, v)
    case Save(draft) => SaveEndpoint(w, p, draft)
    case Clear => WriteEndpoint(w, p, "").0
  }

  function PerformAll(w: Script, p: Pane, ops: seq<Op>): Pane
    decreases |ops|
  {
    if ops == [] then p else PerformAll(w, Perform(w, p, ops[0]), ops[1..])
  }

  // ---- every disk state is safe ---------------------------------------------------------------

  predicate LocalOnDisk(w: Script, d: Disk) {
    d.endpoint.Some? && w.isLocal(d.endpoint.value) && Trim(d.endpoint.value) != ""
  }

  /** The local server is active only with a local endpoint, a vendor selected only with its key. */
  predicate Safe(w: Script, d: Disk) {
    && (d.provider == LOCAL_SERVER ==> LocalOnDisk(w, d))
    && (d.cloud == Some(KeyId(OpenAI)) ==> OpenAI in d.keys)
    && (d.cloud == Some(KeyId(Anthropic)) ==> Anthropic in d.keys)
    && (d.cloud == Some(KeyId(Gemini)) ==> Gemini in d.keys)
  }

  /** Safe now, and in every state before. */
  ghost predicate AlwaysSafe(w: Script, p: Pane) {
    Safe(w, p.disk) && forall k | 0 <= k < |p.history| :: Safe(w, p.history[k])
  }

  ghost predicate ShowsTheDisk(w: Script, p: Pane) {
    p.settings == ReadBack(w, p.disk)
  }

  /** What is shown may be out of date, but never where a decision hangs on it. */
  predicate Cautious(w: Script, s: Settings, d: Disk) {
    && s.endpoint == d.endpoint && s.classification == Classified(w, d.endpoint)
    && s.keys <= d.keys
    && (d.provider == LOCAL_SERVER ==> s.provider == LOCAL_SERVER)
    && (d.cloud.Some? ==> s.cloud == d.cloud)
  }

  ghost predicate Sound(w: Script, p: Pane) {
    p.blind || (AlwaysSafe(w, p) && Cautious(w, p.settings, p.disk))
  }

  lemma SelectLocalIsSafe(w: Script, p: Pane, value: string)
    requires Sound(w, p)
    requires value == LOCAL_SERVER && !p.blind ==> LocalOnDisk(w, p.disk)
    ensures var (p', ok) := SelectLocal(w, p, value);
            && Sound(w, p') && p'.disk.endpoint == p.disk.endpoint && p'.disk.keys == p.disk.keys
            && (ok ==> p'.disk.provider == value && p'.disk.cloud == None)
            && (p.blind ==> p'.blind)
  {
    var (p1, cleared) := Call(w, p, p.disk.(cloud := None));
    if cleared {
      var (p2, stored) := Call(w, p1, p1.disk.(provider := value));
    }
  }

  lemma SelectCloudIsSafe(w: Script, p: Pane, v: Vendor, value: string)
    requires Sound(w, p)
    requires (value == KeyId(v) && (!p.blind ==> v in p.disk.keys)) || value == CliId(v)
    ensures Sound(w, SelectCloud(w, p, value).0)
  {
    IdsAreNormal(v);
  }

  lemma SetEndpointIsSafe(w: Script, p: Pane, url: string)
    requires Sound(w, p) && (!p.blind ==> p.disk.provider != LOCAL_SERVER)
    ensures Sound(w, SetEndpoint(w, p, url).0)
    ensures SetEndpoint(w, p, url).1 ==> SetEndpoint(w, p, url).0.disk.endpoint == Stored(url)
  {
  }

  lemma ClearKeyIsSafe(w: Script, p: Pane, v: Vendor)
    requires Sound(w, p) && (!p.blind ==> p.disk.cloud != Some(KeyId(v)))
    ensures Sound(w, ClearKey(w, p, v).0)
  {
  }

  lemma StoreKeyIsSafe(w: Script, p: Pane, v: Vendor)
    requires Sound(w, p)
    ensures Sound(w, StoreKey(w, p, v).0)
    ensures StoreKey(w, p, v).1 ==> v in StoreKey(w, p, v).0.disk.keys
  {
  }

  lemma TrimIsIdempotent(s: string)
    ensures Trim(Trim(s)) == Trim(s)
  {
  }

  lemma WriteEndpointIsSafe(w: Script, p: Pane, url: string)
    requires Sound(w, p)
    ensures Sound(w, WriteEndpoint(w, p, url).0)
    ensures WriteEndpoint(w, p, url).1 ==> WriteEndpoint(w, p, url).0.disk.endpoint == Stored(url)
  {
    if p.settings.provider == LOCAL_SERVER {
      SelectLocalIsSafe(w, p, ON_DEVICE);
      var (reset, ok) := SelectLocal(w, p, ON_DEVICE);
      if ok {
        SetEndpointIsSafe(w, reset, url);
      }
    } else {
      SetEndpointIsSafe(w, p, url);
    }
  }

  lemma SaveEndpointIsSafe(w: Script, p: Pane, draft: string)
    requires Sound(w, p)
    ensures Sound(w, SaveEndpoint(w, p, draft))
  {
    if Trim(draft) != "" {
      WriteEndpointIsSafe(w, p, Trim(draft));
      var (written, ok) := WriteEndpoint(w, p, Trim(draft));
      if ok && written.settings.classification == Some("LOCAL") {
        TrimIsIdempotent(draft);
        SelectLocalIsSafe(w, written, LOCAL_SERVER);
      }
    }
  }

  lemma RowVendor(s: Settings, r: Row) returns (v: Vendor)
    requires r in Rows(s) && r.selectable && r.kind.Byo?
    ensures (r.kind.id == KeyId(v) && v in s.keys) || r.kind.id == CliId(v)
  {
    RowsAre(s, r);
    v := if VendorRow(s, OpenAI, r) then OpenAI else if VendorRow(s, Anthropic, r) then Anthropic else Gemini;
  }

  lemma TapIsSafe(w: Script, p: Pane, r: Row)
    requires Sound(w, p) && r in Rows(p.settings) && r.selectable
    ensures Sound(w, Tap(w, p, r.kind))
  {
    TapIs(w, p, r.kind);
    if r.kind.Byo? {
      var v := RowVendor(p.settings, r);
      SelectCloudIsSafe(w, p, v, r.kind.id);
      SelectLocalIsSafe(w, p, ON_DEVICE);
      var (healed, ok) := SelectLocal(w, p, ON_DEVICE);
      SelectCloudIsSafe(w, healed, v, r.kind.id);
    } else {
      SelectableLocalRow(p.settings, r);
      SelectLocalIsSafe(w, p, RowOf(r.kind));
    }
  }

  lemma PerformIsSafe(w: Script, p: Pane, op: Op)
    requires Sound(w, p)
    ensures Sound(w, Perform(w, p, op))
  {
    match op {
      case TapRow(row) =>
        if row in Rows(p.settings) && row.selectable {
          TapIsSafe(w, p, row);
        }
      case Connect(v) =>
        StoreKeyIsSafe(w, p, v);
        var (stored, ok) := StoreKey(w, p, v);
        if ok {
          SelectCloudIsSafe(w, stored, v, KeyId(v));
        }
      case Delegate(v) =>
        SelectCloudIsSafe(w, p, v, CliId(v));
      case Forget(v) =>
        if p.settings.cloud == Some(KeyId(v)) {
          SelectLocalIsSafe(w, p, ON_DEVICE);
          var (reset, ok) := SelectLocal(w, p, ON_DEVICE);
          if ok {
            ClearKeyIsSafe(w, reset, v);
          }
        } else {
          ClearKeyIsSafe(w, p, v);
        }
      case Save(draft) => SaveEndpointIsSafe(w, p, draft);
      case Clear => WriteEndpointIsSafe(w, p, "");
    }
  }

  lemma {:induction false} RunIsSound(w: Script, p: Pane, ops: seq<Op>)
    requires Sound(w, p)
    ensures Sound(w, PerformAll(w, p, ops))
    decreases |ops|
  {
    if ops != [] {
      PerformIsSafe(w, p, ops[0]);
      RunIsSound(w, Perform(w, p, ops[0]), ops[1..]);
    }
  }

  /**
   * Any sequence of taps, connects, disconnects and endpoint writes, whichever of their writes
   * fail or are lost and whichever of the other read-backs fail: as long as a read-back works after
   * each endpoint stored, each key removed and each choice stored by a write reported as failed,
   * every state the disk goes through is safe.
   */
  lemma {:induction false} EveryDiskStateIsSafe(w: Script, p: Pane, ops: seq<Op>)
    requires AlwaysSafe(w, p) && Cautious(w, p.settings, p.disk)
    ensures !PerformAll(w, p, ops).blind ==> AlwaysSafe(w, PerformAll(w, p, ops))
  {
    RunIsSound(w, p, ops);
  }

  // ---- when a read-back fails: exactly which operations are safe -----------------------------------

  ghost predicate WritesWork(w: Script) {
    forall k :: w.write(k) == Done
  }

  /** What a row promises is on disk. */
  predicate Stands(w: Script, d: Disk, k: Kind) {
    match k
    case OnDevice => true
    case LocalServer => LocalOnDisk(w, d)
    case Byo(id) => forall v: Vendor :: id == KeyId(v) ==> v in d.keys
  }

  lemma KeyStandsExactly(w: Script, d: Disk, v: Vendor)
    ensures Stands(w, d, Byo(KeyId(v))) <==> Row(KeyId(v), Byo(KeyId(v)), true) in Rows(ReadBack(w, d))
  {
    RowsAre(ReadBack(w, d), Row(KeyId(v), Byo(KeyId(v)), true));
  }

  lemma LocalStandsExactly(w: Script, d: Disk)
    ensures Stands(w, d, LocalServer) <==> Row(LOCAL_SERVER, LocalServer, true) in Rows(ReadBack(w, d))
  {
    RowsAre(ReadBack(w, d), Row(LOCAL_SERVER, LocalServer, true));
  }

  /** That is: the row, were it read back now, would be listed and selectable. */
  lemma StandsExactly(w: Script, d: Disk, v: Vendor)
    ensures Stands(w, d, Byo(KeyId(v))) <==> Row(KeyId(v), Byo(KeyId(v)), true) in Rows(ReadBack(w, d))
    ensures Stands(w, d, LocalServer) <==> Row(LOCAL_SERVER, LocalServer, true) in Rows(ReadBack(w, d))
    ensures Stands(w, d, Byo(CliId(v)))
  {
    KeyStandsExactly(w, d, v);
    LocalStandsExactly(w, d);
  }

  /** Which read-back the endpoint write ends with, and the classification shown if it fails. */
  function EndpointRead(p: Pane): nat {
    if p.settings.provider == LOCAL_SERVER then p.loads + 1 else p.loads
  }

  function ShownBefore(w: Script, p: Pane): Option<string> {
    if p.settings.provider == LOCAL_SERVER && w.read(p.loads) then Classified(w, p.disk.endpoint)
    else p.settings.classification
  }

  predicate ResetsInTime(p: Pane) {
    p.disk.provider == LOCAL_SERVER ==> p.settings.provider == LOCAL_SERVER
  }

  predicate SafeToSave(w: Script, p: Pane, draft: string) {
    || Trim(draft) == ""
    || Classified(w, Stored(draft)) == Some("LOCAL")
    || (ResetsInTime(p) && (w.read(EndpointRead(p)) || ShownBefore(w, p) != Some("LOCAL")))
  }

  /** What has to be on disk, or to be shown as it is on disk, before an operation. */
  predicate SafeToDo(w: Script, p: Pane, op: Op) {
    match op
    case TapRow(row) =>
      row in Rows(p.settings) && row.selectable && TapWrites(row.kind, p.settings) != []
      ==> Stands(w, p.disk, row.kind)
    case Connect(_) => true
    case Delegate(_) => true
    case Forget(v) => p.disk.cloud == Some(KeyId(v)) ==> p.settings.cloud == Some(KeyId(v))
    case Save(draft) => SafeToSave(w, p, draft)
    case Clear => ResetsInTime(p)
  }

  /** Nothing is forgotten: an operation only adds to the history, and what it leaves on disk is in it. */
  ghost predicate Remembers(p: Pane, q: Pane) {
    p.history <= q.history && (q.disk == p.disk || q.disk in q.history)
  }

  lemma SelectLocalRemembers(w: Script, p: Pane, value: string)
    ensures Remembers(p, SelectLocal(w, p, value).0)
  {
    var (p1, cleared) := Call(w, p, p.disk.(cloud := None));
    assert Remembers(p, p1);
    var (p2, stored) := Call(w, p1, p1.disk.(provider := value));
    assert Remembers(p, p2);
  }

  lemma SelectCloudRemembers(w: Script, p: Pane, value: string)
    ensures Remembers(p, SelectCloud(w, p, value).0)
  {
  }

  lemma SetEndpointRemembers(w: Script, p: Pane, url: string)
    ensures Remembers(p, SetEndpoint(w, p, url).0)
  {
  }

  lemma KeySeamsRemember(w: Script, p: Pane, v: Vendor)
    ensures Remembers(p, StoreKey(w, p, v).0) && Remembers(p, ClearKey(w, p, v).0)
  {
  }

  lemma WriteEndpointRemembers(w: Script, p: Pane, url: string)
    ensures Remembers(p, WriteEndpoint(w, p, url).0)
  {
    SelectLocalRemembers(w, p, ON_DEVICE);
    SetEndpointRemembers(w, p, url);
    SetEndpointRemembers(w, SelectLocal(w, p, ON_DEVICE).0, url);
  }

  lemma SaveEndpointRemembers(w: Script, p: Pane, draft: string)
    ensures Remembers(p, SaveEndpoint(w, p, draft))
  {
    WriteEndpointRemembers(w, p, Trim(draft));
    SelectLocalRemembers(w, WriteEndpoint(w, p, Trim(draft)).0, LOCAL_SERVER);
  }

  lemma TapRemembers(w: Script, p: Pane, k: Kind)
    ensures Remembers(p, Tap(w, p, k))
  {
    TapIs(w, p, k);
    SelectLocalRemembers(w, p, if k.Byo? then ON_DEVICE else RowOf(k));
    SelectCloudRemembers(w, p, RowOf(k));
    SelectCloudRemembers(w, SelectLocal(w, p, ON_DEVICE).0, RowOf(k));
  }

  lemma PerformRemembers(w: Script, p: Pane, op: Op)
    ensures Remembers(p, Perform(w, p, op))
  {
    match op {
      case TapRow(row) => TapRemembers(w, p, row.kind);
      case Connect(v) =>
        KeySeamsRemember(w, p, v);
        SelectCloudRemembers(w, StoreKey(w, p, v).0, KeyId(v));
      case Delegate(v) => SelectCloudRemembers(w, p, CliId(v));
      case Forget(v) =>
        SelectLocalRemembers(w, p, ON_DEVICE);
        KeySeamsRemember(w, p, v);
        KeySeamsRemember(w, SelectLocal(w, p, ON_DEVICE).0, v);
      case Save(draft) => SaveEndpointRemembers(w, p, draft);
      case Clear => WriteEndpointRemembers(w, p, "");
    }
  }

  lemma {:induction false} RunRemembers(w: Script, p: Pane, ops: seq<Op>)
    ensures Remembers(p, PerformAll(w, p, ops))
    decreases |ops|
  {
    if ops != [] {
      PerformRemembers(w, p, ops[0]);
      RunRemembers(w, Perform(w, p, ops[0]), ops[1..]);
    }
  }

  lemma UnsafeStaysUnsafe(w: Script, p: Pane, q: Pane, r: Pane)
    requires AlwaysSafe(w, p) && Remembers(p, q) && Remembers(q, r)
    ensures AlwaysSafe(w, r) ==> AlwaysSafe(w, q)
  {
    if AlwaysSafe(w, r) {
      forall k | 0 <= k < |q.history| ensures Safe(w, q.history[k]) {
        assert q.history[k] == r.history[k];
      }
    }
  }

  lemma SelectLocalExactly(w: Script, p: Pane, value: string)
    requires WritesWork(w) && AlwaysSafe(w, p)
    ensures var (p', ok) := SelectLocal(w, p, value);
            && ok && p'.disk == p.disk.(cloud := None, provider := value) && p'.loads == p.loads + 1
            && p'.settings.classification
               == (if w.read(p.loads) then Classified(w, p.disk.endpoint) else p.settings.classification)
            && (AlwaysSafe(w, p') <==> (value == LOCAL_SERVER ==> LocalOnDisk(w, p.disk)))
  {
    var (p1, cleared) := Call(w, p, p.disk.(cloud := None));
    var (p2, stored) := Call(w, p1, p1.disk.(provider := value));
    assert p2.history == p.history + [p1.disk, p2.disk];
    assert AlwaysSafe(w, p1);
  }

  lemma SelectCloudExactly(w: Script, p: Pane, id: string)
    requires WritesWork(w) && AlwaysSafe(w, p) && NormalizedCloud(Some(id)) == Some(id)
    ensures AlwaysSafe(w, SelectCloud(w, p, id).0) <==> Stands(w, p.disk, Byo(id))
  {
    var (p1, stored) := Call(w, p, p.disk.(cloud := Some(id)));
    assert p1.history[|p.history|] == p1.disk;
    assert Safe(w, p1.disk) <==> Stands(w, p.disk, Byo(id));
  }

  lemma SetEndpointExactly(w: Script, p: Pane, url: string)
    requires WritesWork(w) && AlwaysSafe(w, p)
    ensures var (p', ok) := SetEndpoint(w, p, url);
            && ok && p'.disk == p.disk.(endpoint := Stored(url))
            && p'.settings.classification
               == (if w.read(p.loads) then Classified(w, Stored(url)) else p.settings.classification)
            && (AlwaysSafe(w, p')
                <==> (p.disk.provider == LOCAL_SERVER ==> Classified(w, Stored(url)) == Some("LOCAL")))
  {
    var (p1, stored) := Call(w, p, p.disk.(endpoint := Stored(url)));
    assert p1.history[|p.history|] == p1.disk;
    TrimIsIdempotent(url);
  }

  lemma ClearKeyExactly(w: Script, p: Pane, v: Vendor)
    requires WritesWork(w) && AlwaysSafe(w, p)
    ensures AlwaysSafe(w, ClearKey(w, p, v).0) <==> p.disk.cloud != Some(KeyId(v))
  {
    var (p1, stored) := Call(w, p, p.disk.(keys := p.disk.keys - {v}));
    assert p1.history[|p.history|] == p1.disk;
  }

  lemma WriteEndpointExactly(w: Script, p: Pane, url: string)
    requires WritesWork(w) && AlwaysSafe(w, p)
    ensures var (p', ok) := WriteEndpoint(w, p, url);
            && ok && p'.disk.endpoint == Stored(url)
            && p'.settings.classification
               == (if w.read(EndpointRead(p)) then Classified(w, Stored(url)) else ShownBefore(w, p))
            && (AlwaysSafe(w, p') <==> ResetsInTime(p) || Classified(w, Stored(url)) == Some("LOCAL"))
  {
    if p.settings.provider == LOCAL_SERVER {
      SelectLocalExactly(w, p, ON_DEVICE);
      SetEndpointExactly(w, SelectLocal(w, p, ON_DEVICE).0, url);
    } else {
      SetEndpointExactly(w, p, url);
    }
  }

  lemma {:induction false} SaveIsSafeExactly(w: Script, p: Pane, draft: string)
    requires WritesWork(w) && AlwaysSafe(w, p)
    ensures AlwaysSafe(w, SaveEndpoint(w, p, draft)) <==> SafeToSave(w, p, draft)
  {
    if Trim(draft) != "" {
      TrimIsIdempotent(draft);
      WriteEndpointExactly(w, p, Trim(draft));
      var (written, ok) := WriteEndpoint(w, p, Trim(draft));
      if written.settings.classification == Some("LOCAL") {
        WriteEndpointRemembers(w, p, Trim(draft));
        SelectLocalRemembers(w, written, LOCAL_SERVER);
        UnsafeStaysUnsafe(w, p, written, SelectLocal(w, written, LOCAL_SERVER).0);
        if AlwaysSafe(w, written) {
          SelectLocalExactly(w, written, LOCAL_SERVER);
        }
      }
    }
  }

  lemma TapIsSafeExactly(w: Script, p: Pane, r: Row)
    requires WritesWork(w) && AlwaysSafe(w, p) && r in Rows(p.settings) && r.selectable
    requires TapWrites(r.kind, p.settings) != []
    ensures AlwaysSafe(w, Tap(w, p, r.kind)) <==> Stands(w, p.disk, r.kind)
  {
    if r.kind.Byo? {
      RowIdsAreNormal(p.settings, r);
      SelectCloudExactly(w, p, r.id);
      SelectLocalExactly(w, p, ON_DEVICE);
      SelectCloudExactly(w, SelectLocal(w, p, ON_DEVICE).0, r.id);
    } else {
      SelectLocalExactly(w, p, RowOf(r.kind));
    }
  }

  lemma StoreKeyExactly(w: Script, p: Pane, v: Vendor)
    requires WritesWork(w) && AlwaysSafe(w, p)
    ensures var (p', ok) := StoreKey(w, p, v);
            ok && AlwaysSafe(w, p') && p'.disk == p.disk.(keys := p.disk.keys + {v})
  {
  }

  lemma DelegateIsSafe(w: Script, p: Pane, v: Vendor)
    requires WritesWork(w) && AlwaysSafe(w, p)
    ensures AlwaysSafe(w, SelectCloud(w, p, CliId(v)).0)
  {
    IdsAreNormal(v);
    SelectCloudExactly(w, p, CliId(v));
  }

  lemma ConnectIsSafe(w: Script, p: Pane, v: Vendor)
    requires WritesWork(w) && AlwaysSafe(w, p)
    ensures AlwaysSafe(w, ConnectKey(w, p, v))
  {
    StoreKeyExactly(w, p, v);
    IdsAreNormal(v);
    SelectCloudExactly(w, StoreKey(w, p, v).0, KeyId(v));
  }

  /**
   * With every write working, from any pane however out of date: an operation takes the disk
   * through safe states only, if and only if what it relies on is on disk.
   */
  lemma {:induction false} OpIsSafeExactly(w: Script, p: Pane, op: Op)
    requires WritesWork(w) && AlwaysSafe(w, p)
    ensures AlwaysSafe(w, Perform(w, p, op)) <==> SafeToDo(w, p, op)
  {
    match op {
      case TapRow(row) =>
        if row in Rows(p.settings) && row.selectable && TapWrites(row.kind, p.settings) != [] {
          TapIsSafeExactly(w, p, row);
        }
      case Connect(v) => ConnectIsSafe(w, p, v);
      case Delegate(v) => DelegateIsSafe(w, p, v);
      case Forget(v) =>
        SelectLocalExactly(w, p, ON_DEVICE);
        ClearKeyExactly(w, p, v);
        ClearKeyExactly(w, SelectLocal(w, p, ON_DEVICE).0, v);
      case Save(draft) => SaveIsSafeExactly(w, p, draft);
      case Clear => WriteEndpointExactly(w, p, "");
    }
  }

  ghost predicate AllSafeToDo(w: Script, p: Pane, ops: seq<Op>)
    decreases |ops|
  {
    ops == [] || (SafeToDo(w, p, ops[0]) && AllSafeToDo(w, Perform(w, p, ops[0]), ops[1..]))
  }

  /** So a whole run is safe throughout if and only if each of its operations is safe where it is done. */
  lemma {:induction false} RunIsSafeExactly(w: Script, p: Pane, ops: seq<Op>)
    requires WritesWork(w) && AlwaysSafe(w, p)
    ensures AlwaysSafe(w, PerformAll(w, p, ops)) <==> AllSafeToDo(w, p, ops)
    decreases |ops|
  {
    if ops != [] {
      var next := Perform(w, p, ops[0]);
      OpIsSafeExactly(w, p, ops[0]);
      PerformRemembers(w, p, ops[0]);
      RunRemembers(w, next, ops[1..]);
      UnsafeStaysUnsafe(w, p, next, PerformAll(w, next, ops[1..]));
      if AlwaysSafe(w, next) {
        RunIsSafeExactly(w, next, ops[1..]);
      }
    }
  }

  /**
   * One failed read-back is enough: clear the endpoint, and the row it left behind can still be
   * tapped, which activates a local server that has no endpoint.
   */
  lemma StaleLocalRowIsUnsafe(w: Script, p: Pane, row: Row)
    requires WritesWork(w) && AlwaysSafe(w, p) && ShowsTheDisk(w, p) && !w.read(p.loads)
    requires row in Rows(p.settings) && row.selectable && row.kind.LocalServer?
    requires p.settings.provider != LOCAL_SERVER
    ensures AlwaysSafe(w, Perform(w, p, Clear))
    ensures !AlwaysSafe(w, Perform(w, Perform(w, p, Clear), TapRow(row)))
  {
    OpIsSafeExactly(w, p, Clear);
    var cleared := Perform(w, p, Clear);
    assert cleared.settings == p.settings && cleared.disk.endpoint == None;
    OpIsSafeExactly(w, cleared, TapRow(row));
  }

  /** And so with a key that was removed. */
  lemma StaleKeyRowIsUnsafe(w: Script, p: Pane, row: Row, v: Vendor)
    requires WritesWork(w) && AlwaysSafe(w, p) && ShowsTheDisk(w, p) && !w.read(p.loads)
    requires row in Rows(p.settings) && row.selectable && row.kind == Byo(KeyId(v))
    requires NormalizedCloud(p.settings.cloud) != Some(KeyId(v))
    ensures AlwaysSafe(w, Perform(w, p, Forget(v)))
    ensures !AlwaysSafe(w, Perform(w, Perform(w, p, Forget(v)), TapRow(row)))
  {
    IdsAreNormal(v);
    OpIsSafeExactly(w, p, Forget(v));
    var forgotten := Perform(w, p, Forget(v));
    assert forgotten.settings == p.settings && v !in forgotten.disk.keys;
    OpIsSafeExactly(w, forgotten, TapRow(row));
  }

  // ---- one pick at a time -----------------------------------------------------------------------

  /** Whatever fails: no disk state of a local pick has the new provider beside a cloud provider. */
  lemma LocalPickNeverMixes(w: Script, p: Pane, value: string, k: nat)
    requires |p.history| <= k < |SelectLocal(w, p, value).0.history|
    ensures var d := SelectLocal(w, p, value).0.history[k];
            d.provider == p.disk.provider || (d.provider == value && d.cloud.None?)
  {
  }

  lemma SelectLocalStores(w: Script, p: Pane, value: string)
    requires WritesWork(w)
    ensures SelectLocal(w, p, value).1
    ensures SelectLocal(w, p, value).0.disk == p.disk.(cloud := None, provider := value)
  {
  }

  lemma SelectCloudStores(w: Script, p: Pane, id: string)
    requires WritesWork(w)
    ensures SelectCloud(w, p, id).0.disk == p.disk.(cloud := NormalizedCloud(Some(id)))
  {
  }

  lemma CloudTapStores(w: Script, p: Pane, id: string)
    requires WritesWork(w) && ShowsTheDisk(w, p) && NormalizedCloud(Some(id)) == Some(id)
    ensures ReadBack(w, Tap(w, p, Byo(id)).disk) == AllWritten(p.settings, TapWrites(Byo(id), p.settings))
  {
    TwoWritten(p.settings, SetProvider(ON_DEVICE), SetCloud(id));
    SelectLocalStores(w, p, ON_DEVICE);
    SelectCloudStores(w, p, id);
    SelectCloudStores(w, SelectLocal(w, p, ON_DEVICE).0, id);
  }

  lemma LocalTapStores(w: Script, p: Pane, k: Kind)
    requires WritesWork(w) && ShowsTheDisk(w, p) && !k.Byo?
    ensures ReadBack(w, Tap(w, p, k).disk) == AllWritten(p.settings, TapWrites(k, p.settings))
  {
    TwoWritten(p.settings, ClearCloud, SetProvider(RowOf(k)));
    SelectLocalStores(w, p, RowOf(k));
  }

  /** The seams, all writes working, store exactly what the plan says. */
  lemma TapStoresThePlan(w: Script, p: Pane, r: Row)
    requires WritesWork(w) && ShowsTheDisk(w, p) && r in Rows(p.settings) && r.selectable
    ensures ReadBack(w, Tap(w, p, r.kind).disk) == AllWritten(p.settings, TapWrites(r.kind, p.settings))
  {
    if r.kind.Byo? {
      RowIdsAreNormal(p.settings, r);
      CloudTapStores(w, p, r.id);
    } else {
      LocalTapStores(w, p, r.kind);
    }
  }

  lemma CloudTapShows(w: Script, p: Pane, id: string)
    requires WritesWork(w) && ShowsTheDisk(w, p) && NormalizedCloud(Some(id)) == Some(id)
    ensures Tap(w, p, Byo(id)).settings == AllWritten(p.settings, TapWrites(Byo(id), p.settings))
  {
    TwoWritten(p.settings, SetProvider(ON_DEVICE), SetCloud(id));
  }

  lemma LocalTapShows(w: Script, p: Pane, k: Kind)
    requires WritesWork(w) && ShowsTheDisk(w, p) && !k.Byo?
    ensures Tap(w, p, k).settings == AllWritten(p.settings, TapWrites(k, p.settings))
  {
    TwoWritten(p.settings, ClearCloud, SetProvider(RowOf(k)));
  }

  /** So a tap that goes through shows its row selected, read back or not, and tapping again writes nothing. */
  lemma TapEndsSelected(w: Script, p: Pane, r: Row)
    requires WritesWork(w) && ShowsTheDisk(w, p) && r in Rows(p.settings) && r.selectable
    requires TapWrites(r.kind, p.settings) != []
    ensures var p' := Tap(w, p, r.kind);
            ShowsTheDisk(w, p') && Render(p'.settings) == Rendered(r.id, false) && Tap(w, p', r.kind) == p'
  {
    TapStoresThePlan(w, p, r);
    TapConverges(p.settings, r);
    if r.kind.Byo? {
      RowIdsAreNormal(p.settings, r);
      CloudTapShows(w, p, r.id);
    } else {
      LocalTapShows(w, p, r.kind);
    }
  }

  ghost predicate ReadsWork(w: Script) {
    forall k :: w.read(k)
  }

  lemma SelectionsReadBack(w: Script, p: Pane, value: string)
    requires ReadsWork(w)
    ensures ShowsTheDisk(w, SelectLocal(w, p, value).0) && ShowsTheDisk(w, SelectCloud(w, p, value).0)
  {
  }

  lemma OthersReadBack(w: Script, p: Pane, url: string, v: Vendor)
    requires ReadsWork(w)
    ensures ShowsTheDisk(w, SetEndpoint(w, p, url).0)
    ensures ShowsTheDisk(w, StoreKey(w, p, v).0) && ShowsTheDisk(w, ClearKey(w, p, v).0)
  {
  }

  lemma EndpointReadsBack(w: Script, p: Pane, url: string)
    requires ReadsWork(w)
    ensures ShowsTheDisk(w, WriteEndpoint(w, p, url).0)
  {
    SelectionsReadBack(w, p, ON_DEVICE);
    OthersReadBack(w, p, url, OpenAI);
    OthersReadBack(w, SelectLocal(w, p, ON_DEVICE).0, url, OpenAI);
  }

  lemma TapReadsBack(w: Script, p: Pane, k: Kind)
    requires ReadsWork(w) && ShowsTheDisk(w, p)
    ensures ShowsTheDisk(w, Tap(w, p, k))
  {
    TapIs(w, p, k);
    SelectionsReadBack(w, p, RowOf(k));
    SelectionsReadBack(w, p, ON_DEVICE);
    SelectionsReadBack(w, SelectLocal(w, p, ON_DEVICE).0, RowOf(k));
  }

  lemma PerformReadsBack(w: Script, p: Pane, op: Op)
    requires ReadsWork(w) && ShowsTheDisk(w, p)
    ensures ShowsTheDisk(w, Perform(w, p, op))
  {
    match op {
      case TapRow(row) => TapReadsBack(w, p, row.kind);
      case Connect(v) =>
        OthersReadBack(w, p, "", v);
        SelectionsReadBack(w, StoreKey(w, p, v).0, KeyId(v));
      case Delegate(v) => SelectionsReadBack(w, p, CliId(v));
      case Forget(v) =>
        SelectionsReadBack(w, p, ON_DEVICE);
        OthersReadBack(w, p, "", v);
        OthersReadBack(w, SelectLocal(w, p, ON_DEVICE).0, "", v);
      case Save(draft) =>
        EndpointReadsBack(w, p, Trim(draft));
        SelectionsReadBack(w, WriteEndpoint(w, p, Trim(draft)).0, LOCAL_SERVER);
      case Clear => EndpointReadsBack(w, p, "");
    }
  }

  /** When every read-back works, the pane shows what is on disk after any run, whichever writes fail. */
  lemma {:induction false} PaneShowsTheDisk(w: Script, p: Pane, ops: seq<Op>)
    requires ReadsWork(w) && ShowsTheDisk(w, p)
    ensures ShowsTheDisk(w, PerformAll(w, p, ops))
    decreases |ops|
  {
    if ops != [] {
      PerformReadsBack(w, p, ops[0]);
      PaneShowsTheDisk(w, Perform(w, p, ops[0]), ops[1..]);
    }
  }

  /** One write: stored unless it was refused, and remembered; and whether something it changed goes unseen. */
  lemma CallExactly(w: Script, p: Pane, d: Disk)
    ensures var ((q, ok), write) := (Call(w, p, d), w.write(p.writes));
            && (ok <==> write == Done)
            && q.disk == (if write == Refused then p.disk else d)
            && q == p.(disk := q.disk, writes := p.writes + 1, history := p.history + [q.disk], blind := q.blind)
            && (q.blind <==>
                  || p.blind
                  || (&& !w.read(p.loads)
                      && (|| q.disk.endpoint != p.disk.endpoint
                          || (exists v :: v in p.disk.keys && v !in q.disk.keys)
                          || (write == Lost && q.disk.provider == "local-server" != p.disk.provider)
                          || (write == Lost && q.disk.cloud.Some? && q.disk.cloud != p.disk.cloud))))
  {
  }

  lemma ClassifiedExactly(w: Script, endpoint: Option<string>)
    ensures Classified(w, endpoint) == Some("LOCAL") <==> endpoint.Some? && w.isLocal(endpoint.value)
    ensures Classified(w, endpoint) == Some("REMOTE") <==> endpoint.Some? && !w.isLocal(endpoint.value)
  {
    assert "LOCAL"[0] != "REMOTE"[0];
  }

  // ---- what an operation stores, and what it reports ------------------------------------------------

  lemma SelectLocalReports(w: Script, p: Pane, value: string)
    ensures var (p', ok) := SelectLocal(w, p, value);
            && Reports(w, p, p', 2) && (ok <==> p'.writes == p.writes + 2 && w.write(p.writes + 1).Done?)
            && (p'.writes == p.writes + 2 <==> w.write(p.writes).Done?)
  {
  }

  /** A key that was stored is reported as stored even if it cannot be read back. */
  lemma StoreKeyReports(w: Script, p: Pane, v: Vendor)
    ensures var (p', ok) := StoreKey(w, p, v);
            && p'.writes == p.writes + 1 && (ok <==> w.write(p.writes).Done?)
            && p'.error == if w.write(p.writes).Done? then None else Some(WriteFailed)
  {
  }

  /**
   * The writes were made one after the other, none after one that failed; and the error shown is
   * the last write's, or else the last read-back's.
   */
  predicate Reports(w: Script, p: Pane, q: Pane, most: nat) {
    && p.writes < q.writes <= p.writes + most && p.loads < q.loads
    && (forall k | p.writes <= k < q.writes - 1 :: w.write(k).Done?)
    && q.error == (if !w.write(q.writes - 1).Done? then Some(WriteFailed)
                   else if !w.read(q.loads - 1) then Some(ReadFailed) else None)
  }

  lemma ReportsInTurn(w: Script, p: Pane, q: Pane, r: Pane, most: nat, more: nat)
    requires p.writes < q.writes <= p.writes + most && p.loads < q.loads
    requires forall k | p.writes <= k < q.writes :: w.write(k).Done?
    requires Reports(w, q, r, more)
    ensures Reports(w, p, r, most + more)
  {
  }

  /** A local pick first, and if it goes through, something else. */
  lemma AfterLocalPick(w: Script, p: Pane, value: string, q: Pane, more: nat)
    requires var (reset, ok) := SelectLocal(w, p, value);
             if ok then Reports(w, reset, q, more) else q == reset
    ensures Reports(w, p, q, 2 + more)
  {
    SelectLocalReports(w, p, value);
    if SelectLocal(w, p, value).1 {
      ReportsInTurn(w, p, SelectLocal(w, p, value).0, q, 2, more);
    }
  }

  lemma EndpointReports(w: Script, p: Pane, url: string)
    ensures Reports(w, p, SetEndpoint(w, p, url).0, 1) && (SetEndpoint(w, p, url).1 <==> w.write(p.writes).Done?)
  {
  }

  lemma ResetThenEndpoint(w: Script, p: Pane, url: string)
    requires p.settings.provider == LOCAL_SERVER
    ensures Reports(w, p, WriteEndpoint(w, p, url).0, 3)
  {
    var reset := SelectLocal(w, p, ON_DEVICE).0;
    EndpointReports(w, reset, url);
    AfterLocalPick(w, p, ON_DEVICE, WriteEndpoint(w, p, url).0, 1);
  }

  lemma WriteEndpointReports(w: Script, p: Pane, url: string)
    ensures Reports(w, p, WriteEndpoint(w, p, url).0, 3)
    ensures WriteEndpoint(w, p, url).1 ==> w.write(WriteEndpoint(w, p, url).0.writes - 1).Done?
  {
    if p.settings.provider == LOCAL_SERVER {
      ResetThenEndpoint(w, p, url);
      EndpointReports(w, SelectLocal(w, p, ON_DEVICE).0, url);
    } else {
      EndpointReports(w, p, url);
    }
  }

  lemma SaveReports(w: Script, p: Pane, draft: string)
    requires Trim(draft) != ""
    ensures Reports(w, p, SaveEndpoint(w, p, draft), 5)
  {
    WriteEndpointReports(w, p, Trim(draft));
    var (written, ok) := WriteEndpoint(w, p, Trim(draft));
    if ok && written.settings.classification == Some("LOCAL") {
      SelectLocalReports(w, written, LOCAL_SERVER);
      ReportsInTurn(w, p, written, SaveEndpoint(w, p, draft), 3, 2);
    }
  }

  lemma HealReports(w: Script, p: Pane, id: string)
    ensures var (healed, ok) := SelectLocal(w, p, ON_DEVICE);
            Reports(w, p, if ok then SelectCloud(w, healed, id).0 else healed, 3)
  {
    var (healed, ok) := SelectLocal(w, p, ON_DEVICE);
    CloudReports(w, healed, id);
    AfterLocalPick(w, p, ON_DEVICE, if ok then SelectCloud(w, healed, id).0 else healed, 1);
  }

  lemma CloudReports(w: Script, p: Pane, id: string)
    ensures Reports(w, p, SelectCloud(w, p, id).0, 1) && (SelectCloud(w, p, id).1 <==> w.write(p.writes).Done?)
  {
  }

  lemma TapReports(w: Script, p: Pane, k: Kind)
    requires TapWrites(k, p.settings) != []
    ensures Reports(w, p, Tap(w, p, k), 3)
  {
    TapIs(w, p, k);
    if !k.Byo? {
      SelectLocalReports(w, p, RowOf(k));
    } else if Mappable(p.settings) {
      CloudReports(w, p, k.id);
    } else {
      HealReports(w, p, k.id);
    }
  }

  lemma ClearReports(w: Script, p: Pane, v: Vendor)
    ensures Reports(w, p, ClearKey(w, p, v).0, 1) && (ClearKey(w, p, v).1 <==> w.write(p.writes).Done?)
  {
  }

  lemma ForgetReports(w: Script, p: Pane, v: Vendor)
    ensures Reports(w, p, Disconnect(w, p, v), 3)
  {
    if p.settings.cloud == Some(KeyId(v)) {
      ClearReports(w, SelectLocal(w, p, ON_DEVICE).0, v);
      AfterLocalPick(w, p, ON_DEVICE, Disconnect(w, p, v), 1);
    } else {
      ClearReports(w, p, v);
    }
  }

  lemma ConnectReports(w: Script, p: Pane, v: Vendor)
    requires w.write(p.writes).Done?
    ensures Reports(w, p, ConnectKey(w, p, v), 2)
  {
    var stored := StoreKey(w, p, v).0;
    CloudReports(w, stored, KeyId(v));
    ReportsInTurn(w, p, stored, ConnectKey(w, p, v), 1, 1);
  }

  /** The operation is refused at once: nothing to write, or a row that cannot be tapped. */
  predicate Idle(p: Pane, op: Op) {
    || (op.TapRow? && !(op.row in Rows(p.settings) && op.row.selectable && TapWrites(op.row.kind, p.settings) != []))
    || (op.Save? && Trim(op.draft) == "")
  }

  lemma IdleDoesNothing(w: Script, p: Pane, op: Op)
    requires Idle(p, op)
    ensures Perform(w, p, op) == p
  {
    if op.TapRow? && op.row in Rows(p.settings) && op.row.selectable {
      TapIs(w, p, op.row.kind);
    }
  }

  lemma TapRowReports(w: Script, p: Pane, row: Row)
    requires !Idle(p, TapRow(row))
    ensures Reports(w, p, Perform(w, p, TapRow(row)), 3)
  {
    TapReports(w, p, row.kind);
  }

  lemma ReportsAtMost(w: Script, p: Pane, q: Pane, most: nat)
    requires Reports(w, p, q, most) && most <= 5
    ensures Reports(w, p, q, 5)
  {
  }

  lemma OpReports(w: Script, p: Pane, op: Op)
    requires !Idle(p, op) && !op.Connect?
    ensures Reports(w, p, Perform(w, p, op), 5)
  {
    match op {
      case TapRow(row) =>
        TapRowReports(w, p, row);
        ReportsAtMost(w, p, Perform(w, p, op), 3);
      case Delegate(v) => CloudReports(w, p, CliId(v));
      case Forget(v) => ForgetReports(w, p, v);
      case Save(draft) => SaveReports(w, p, draft);
      case Clear => WriteEndpointReports(w, p, "");
    }
  }

  /**
   * Whichever writes and reads fail: the first failed write is an operation's last, and what is
   * reported at its end is that failure, or that of its last read-back.
   */
  lemma FirstFailureEndsIt(w: Script, p: Pane, op: Op)
    ensures var q := Perform(w, p, op);
            && (Idle(p, op) ==> q == p)
            && (!Idle(p, op) && !(op.Connect? && !w.write(p.writes).Done?) ==> Reports(w, p, q, 5))
            && (op.Connect? && !w.write(p.writes).Done? ==>
                  q.writes == p.writes + 1 && q.error == Some(WriteFailed))
  {
    if Idle(p, op) {
      IdleDoesNothing(w, p, op);
    } else if op.Connect? {
      StoreKeyReports(w, p, op.vendor);
      if w.write(p.writes).Done? {
        ConnectReports(w, p, op.vendor);
      }
    } else {
      OpReports(w, p, op);
    }
  }

  function KeyName(v: Vendor): string {
    match v
    case OpenAI => "openai"
    case Anthropic => "anthropic"
    case Gemini => "gemini"
  }

  /** The disk after the endpoint is written: a provider shown as the local server is given up first. */
  predicate EndpointWritten(p: Pane, d: Disk, endpoint: Option<string>) {
    d == if p.settings.provider == "local-server"
         then p.disk.(endpoint := endpoint, provider := "on-device", cloud := None)
         else p.disk.(endpoint := endpoint)
  }

  lemma WriteEndpointStores(w: Script, p: Pane, url: string)
    requires WritesWork(w)
    ensures EndpointWritten(p, WriteEndpoint(w, p, url).0.disk, Stored(url)) && WriteEndpoint(w, p, url).1
  {
    SelectLocalStores(w, p, ON_DEVICE);
  }

  lemma StoredExactly(url: string)
    ensures Stored(url) == if Trim(url) == "" || Trim(url) == "none" then None else Some(Trim(url))
    ensures Stored(Trim(url)) == Stored(url)
  {
    TrimIsIdempotent(url);
  }

  lemma SaveStores(w: Script, p: Pane, draft: string)
    requires WritesWork(w) && ReadsWork(w) && Trim(draft) != ""
    ensures var (d, endpoint) := (SaveEndpoint(w, p, draft).disk, Stored(draft));
            if endpoint.Some? && w.isLocal(endpoint.value)
            then d == p.disk.(endpoint := endpoint, provider := "local-server", cloud := None)
            else EndpointWritten(p, d, endpoint)
  {
    StoredExactly(draft);
    WriteEndpointStores(w, p, Trim(draft));
    EndpointReadsBack(w, p, Trim(draft));
    var written := WriteEndpoint(w, p, Trim(draft)).0;
    SelectLocalStores(w, written, LOCAL_SERVER);
  }

  /** With every write and read working: what each operation leaves on disk. */
  lemma OperationStores(w: Script, p: Pane, op: Op)
    requires WritesWork(w) && ReadsWork(w)
    ensures var d := Perform(w, p, op).disk;
            match op
            case TapRow(_) => true
            case Connect(v) => d == p.disk.(keys := p.disk.keys + {v}, cloud := Some(KeyName(v)))
            case Delegate(v) => d == p.disk.(cloud := Some(KeyName(v) + "-cli"))
            case Forget(v) =>
              if p.settings.cloud == Some(KeyName(v))
              then d == p.disk.(keys := p.disk.keys - {v}, provider := "on-device", cloud := None)
              else d == p.disk.(keys := p.disk.keys - {v})
            case Save(draft) =>
              if Trim(draft) == "" then d == p.disk
              else
                if Stored(draft).Some? && w.isLocal(Stored(draft).value)
                then d == p.disk.(endpoint := Stored(draft), provider := "local-server", cloud := None)
                else EndpointWritten(p, d, Stored(draft))
            case Clear => EndpointWritten(p, d, None)
  {
    match op {
      case TapRow(_) =>
      case Connect(v) => IdsAreNormal(v);
      case Delegate(v) =>
        IdsAreNormal(v);
        assert CliId(v) == KeyName(v) + "-cli";
      case Forget(v) => SelectLocalStores(w, p, ON_DEVICE);
      case Save(draft) =>
        if Trim(draft) != "" {
          SaveStores(w, p, draft);
        }
      case Clear => WriteEndpointStores(w, p, "");
    }
  }

  /** While another choice is in flight a save writes the endpoint at most, and not under an active local server. */
  lemma SaveInFlightStores(w: Script, p: Pane, draft: string)
    ensures var p' := SaveInFlight(w, p, draft);
            if Trim(draft) == "" || p.settings.provider == "local-server" then p' == p
            else p' == SetEndpoint(w, p, Trim(draft)).0 && p'.disk == p.disk.(endpoint := p'.disk.endpoint)
  {
  }

  // ---- the controller -----------------------------------------------------------------------------

  /** The command line, with the settings file behind it. */
  class CommandLine {
    const script: Script
    var disk: Disk
    var writes: nat
    var loads: nat
    ghost var history: seq<Disk>
    ghost var blind: bool

    constructor (script: Script, disk: Disk)
      ensures this.script == script && this.disk == disk && writes == 0 && loads == 0 && history == [] && !blind
    {
      this.script, this.disk, writes, loads, history, blind := script, disk, 0, 0, [], false;
    }

    method Invoke(wanted: Disk) returns (ok: bool)
      modifies this
      ensures ok == script.write(old(writes)).Done?
      ensures disk == (if script.write(old(writes)).Refused? then old(disk) else wanted)
      ensures writes == old(writes) + 1 && loads == old(loads) && history == old(history) + [disk]
      ensures blind == (old(blind) || (MustBeSeen(script.write(old(writes)), old(disk), disk) && !script.read(loads)))
    {
      var w := script.write(writes);
      ghost var was := disk;
      if !w.Refused? {
        disk := wanted;
      }
      writes := writes + 1;
      history := history + [disk];
      blind := blind || (MustBeSeen(w, was, disk) && !script.read(loads));
      ok := w.Done?;
    }

    method Read() returns (settings: Option<Settings>)
      modifies this`loads
      ensures loads == old(loads) + 1
      ensures settings == if script.read(old(loads)) then Some(ReadBack(script, disk)) else None
    {
      var works := script.read(loads);
      loads := loads + 1;
      settings := if works then Some(ReadBack(script, disk)) else None;
    }
  }

  class IntelligenceController {
    var settings: Settings
    var lastError: Option<Failure>
    var providerWriteInFlight: bool
    const cli: CommandLine

    constructor (cli: CommandLine)
      ensures this.cli == cli && settings == ReadBack(cli.script, cli.disk)
      ensures lastError.None? && !providerWriteInFlight
    {
      this.cli := cli;
      settings, lastError, providerWriteInFlight := ReadBack(cli.script, cli.disk), None, false;
    }

    ghost function Now(): Pane
      reads this, cli
    {
      Pane(settings, lastError, cli.disk, cli.writes, cli.loads, cli.history, cli.blind)
    }

    method Reload()
      modifies this`settings, this`lastError, cli`loads
      ensures Now() == Refresh(cli.script, old(Now()))
    {
      var read := cli.Read();
      if read.Some? {
        settings := read.value;
        lastError := None;
      } else {
        lastError := Some(ReadFailed);
      }
    }

    method Reconcile()
      modifies this`settings, this`lastError, cli`loads
      ensures Now() == Fail(cli.script, old(Now()))
    {
      Reload();
      lastError := Some(WriteFailed);
    }

    /** A second call while one is in flight bounces quietly. */
    method SelectLocalProvider(value: string) returns (ok: bool)
      modifies this, cli
      ensures providerWriteInFlight == old(providerWriteInFlight)
      ensures old(providerWriteInFlight) ==> !ok && Now() == old(Now())
      ensures !old(providerWriteInFlight) ==> (Now(), ok) == SelectLocal(cli.script, old(Now()), value)
    {
      if providerWriteInFlight {
        return false;
      }
      providerWriteInFlight := true;
      var previous := settings;
      settings := settings.(provider := value, cloud := None);
      var cleared := cli.Invoke(cli.disk.(cloud := None));
      if !cleared {
        settings := previous;
        Reconcile();
        providerWriteInFlight := false;
        return false;
      }
      var stored := cli.Invoke(cli.disk.(provider := value));
      if stored {
        lastError := None;
        Reload();
      } else {
        settings := previous;
        Reconcile();
      }
      providerWriteInFlight := false;
      return stored;
    }

    method SelectCloudProvider(value: string) returns (ok: bool)
      modifies this, cli
      ensures providerWriteInFlight == old(providerWriteInFlight)
      ensures old(providerWriteInFlight) ==> !ok && Now() == old(Now())
      ensures !old(providerWriteInFlight) ==> (Now(), ok) == SelectCloud(cli.script, old(Now()), value)
    {
      if providerWriteInFlight {
        return false;
      }
      providerWriteInFlight := true;
      var normalized := NormalizedCloud(Some(value));
      var previous := settings;
      settings := settings.(cloud := normalized);
      ok := cli.Invoke(cli.disk.(cloud := normalized));
      if ok {
        lastError := None;
        Reload();
      } else {
        settings := previous;
        Reconcile();
      }
      providerWriteInFlight := false;
    }

    method WriteLocalEndpoint(url: string) returns (ok: bool)
      modifies this, cli
      ensures (Now(), ok) == SetEndpoint(cli.script, old(Now()), url)
      ensures providerWriteInFlight == old(providerWriteInFlight)
    {
      ok := cli.Invoke(cli.disk.(endpoint := Stored(url)));
      if ok {
        lastError := None;
        Reload();
      } else {
        Reconcile();
      }
    }

    method StoreByoKey(v: Vendor) returns (ok: bool)
      modifies this, cli
      ensures (Now(), ok) == StoreKey(cli.script, old(Now()), v)
      ensures providerWriteInFlight == old(providerWriteInFlight)
    {
      ok := cli.Invoke(cli.disk.(keys := cli.disk.keys + {v}));
      Reload();
      lastError := if ok then None else Some(WriteFailed);
    }

    method ClearByoKey(v: Vendor) returns (ok: bool)
      modifies this, cli
      ensures (Now(), ok) == ClearKey(cli.script, old(Now()), v)
      ensures providerWriteInFlight == old(providerWriteInFlight)
    {
      ok := cli.Invoke(cli.disk.(keys := cli.disk.keys - {v}));
      if ok {
        lastError := None;
        Reload();
      } else {
        Reconcile();
      }
    }

    /** `saveEndpoint` of the connect sheet. While a choice is in flight its own choices bounce. */
    method SaveLocalEndpoint(draft: string)
      modifies this, cli
      ensures providerWriteInFlight == old(providerWriteInFlight)
      ensures !old(providerWriteInFlight) ==> Now() == SaveEndpoint(cli.script, old(Now()), draft)
      ensures old(providerWriteInFlight) ==> Now() == SaveInFlight(cli.script, old(Now()), draft)
    {
      var url := Trim(draft);
      if url == "" {
        return;
      }
      var ok := true;
      if settings.provider == LOCAL_SERVER {
        ok := SelectLocalProvider(ON_DEVICE);
      }
      if ok {
        ok := WriteLocalEndpoint(url);
      }
      if ok && settings.classification == Some("LOCAL") {
        ok := SelectLocalProvider(LOCAL_SERVER);
      }
    }
  }
}
