/**
 * The model list of the Intelligence pane: which row the two persisted slots
 * (`provider`, `cloud_provider`) render as selected, and what a tap writes.
 */
module ProviderSelection {
  import opened Wrappers
  import opened Text

  const ON_DEVICE := "on-device"
  const LOCAL_SERVER := "local-server"

  datatype Vendor = OpenAI | Anthropic | Gemini

  function KeyId(v: Vendor): string {
    match v
    case OpenAI => "openai"
    case Anthropic => "anthropic"
    case Gemini => "gemini"
  }

  function CliId(v: Vendor): string {
    match v
    case OpenAI => "openai-cli"
    case Anthropic => "anthropic-cli"
    case Gemini => "gemini-cli"
  }

  /** The read-back of the settings: `keys` and `clis` are the vendors with a key stored, a CLI available. */
  datatype Settings = Settings(
    provider: string,
    cloud: Option<string>,
    endpoint: Option<string>,
    classification: Option<string>,
    keys: set<Vendor>,
    clis: set<Vendor>)

  function TrimmedNonEmpty(raw: Option<string>): Option<string> {
    if raw.Some? && Trim(raw.value) != "" then Some(Trim(raw.value)) else None
  }

  function NormalizedCloud(raw: Option<string>): Option<string> {
    var value := TrimmedNonEmpty(raw);
    if value == Some("none") then None else value
  }

  // ---- rows -----------------------------------------------------------------------

  datatype Kind = OnDevice | LocalServer | Byo(id: string)

  datatype Row = Row(id: string, kind: Kind, selectable: bool)

  function VendorRows(s: Settings, v: Vendor): seq<Row> {
    (if v in s.keys || s.cloud == Some(KeyId(v)) then [Row(KeyId(v), Byo(KeyId(v)), v in s.keys)] else [])
    + (if v in s.clis || s.cloud == Some(CliId(v)) then [Row(CliId(v), Byo(CliId(v)), v in s.clis)] else [])
  }

  function LocalRows(s: Settings): seq<Row> {
    if TrimmedNonEmpty(s.endpoint).Some?
    then [Row(LOCAL_SERVER, LocalServer, s.classification == Some("LOCAL"))]
    else []
  }

  function Rows(s: Settings): seq<Row> {
    [Row(ON_DEVICE, OnDevice, true)]
    + VendorRows(s, OpenAI) + VendorRows(s, Anthropic) + VendorRows(s, Gemini)
    + LocalRows(s)
  }

  function RowOf(k: Kind): string {
    match k
    case OnDevice => ON_DEVICE
    case LocalServer => LOCAL_SERVER
    case Byo(id) => id
  }

  predicate VendorRow(s: Settings, v: Vendor, r: Row) {
    || (r == Row(KeyId(v), Byo(KeyId(v)), v in s.keys) && (v in s.keys || s.cloud == Some(KeyId(v))))
    || (r == Row(CliId(v), Byo(CliId(v)), v in s.clis) && (v in s.clis || s.cloud == Some(CliId(v))))
  }

  lemma VendorRowsAre(s: Settings, v: Vendor, r: Row)
    ensures r in VendorRows(s, v) <==> VendorRow(s, v, r)
  {
  }

  lemma RowsAre(s: Settings, r: Row)
    ensures r in Rows(s) <==> r == Row(ON_DEVICE, OnDevice, true) || r in LocalRows(s)
                              || VendorRow(s, OpenAI, r) || VendorRow(s, Anthropic, r) || VendorRow(s, Gemini, r)
  {
    VendorRowsAre(s, OpenAI, r);
    VendorRowsAre(s, Anthropic, r);
    VendorRowsAre(s, Gemini, r);
    var first := [Row(ON_DEVICE, OnDevice, true)];
    var a, b, c := VendorRows(s, OpenAI), VendorRows(s, Anthropic), VendorRows(s, Gemini);
    assert r in Rows(s) <==> r in first + a + b + c || r in LocalRows(s);
    assert r in first + a + b + c <==> r in first + a + b || r in c;
    assert r in first + a + b <==> r in first + a || r in b;
  }

  /** A cloud row: tappable when there is a key or a CLI for it, and listed then or when it is selected. */
  predicate CloudRow(s: Settings, connected: bool, r: Row) {
    r.kind == Byo(r.id) && r.selectable == connected && (connected || s.cloud == Some(r.id))
  }

  /** The rows, spelled out. */
  lemma RowsSpelledOut(s: Settings, r: Row)
    ensures r in Rows(s)
       <==> || r == Row("on-device", OnDevice, true)
            || (r.id == "openai" && CloudRow(s, OpenAI in s.keys, r))
            || (r.id == "openai-cli" && CloudRow(s, OpenAI in s.clis, r))
            || (r.id == "anthropic" && CloudRow(s, Anthropic in s.keys, r))
            || (r.id == "anthropic-cli" && CloudRow(s, Anthropic in s.clis, r))
            || (r.id == "gemini" && CloudRow(s, Gemini in s.keys, r))
            || (r.id == "gemini-cli" && CloudRow(s, Gemini in s.clis, r))
            || (r == Row("local-server", LocalServer, s.classification == Some("LOCAL"))
                && s.endpoint.Some? && Trim(s.endpoint.value) != "")
  {
    RowsAre(s, r);
    VendorRowSpelledOut(s, OpenAI, r, "openai", "openai-cli");
    VendorRowSpelledOut(s, Anthropic, r, "anthropic", "anthropic-cli");
    VendorRowSpelledOut(s, Gemini, r, "gemini", "gemini-cli");
  }

  lemma VendorRowSpelledOut(s: Settings, v: Vendor, r: Row, key: string, cli: string)
    requires KeyId(v) == key && CliId(v) == cli
    ensures VendorRow(s, v, r)
       <==> (r.id == key && CloudRow(s, v in s.keys, r)) || (r.id == cli && CloudRow(s, v in s.clis, r))
  {
  }

  // ---- the rendered selection -----------------------------------------------------------

  datatype Rendered = Rendered(rowId: string, needsReconcile: bool)

  predicate HasLocalEndpoint(s: Settings) {
    TrimmedNonEmpty(s.endpoint).Some? && s.classification == Some("LOCAL")
  }

  predicate Mappable(s: Settings) {
    s.provider == ON_DEVICE || s.provider == "downloaded" || (s.provider == LOCAL_SERVER && HasLocalEndpoint(s))
  }

  /** `renderedSelection`. */
  function Render(s: Settings): Rendered {
    var cloud := NormalizedCloud(s.cloud);
    if cloud.Some? then Rendered(cloud.value, !Mappable(s))
    else if Mappable(s) then
      Rendered(if s.provider == LOCAL_SERVER && HasLocalEndpoint(s) then LOCAL_SERVER else ON_DEVICE, false)
    else Rendered(ON_DEVICE, true)
  }

  /** The provider slot names something a row can show. */
  lemma MappableExactly(s: Settings)
    ensures Mappable(s)
       <==> || s.provider == "on-device" || s.provider == "downloaded"
            || (s.provider == "local-server" && s.classification == Some("LOCAL")
                && s.endpoint.Some? && Trim(s.endpoint.value) != "")
  {
  }

  /** The cloud slot names a row: it is neither blank nor, white space aside, `none`. */
  predicate NamesCloudRow(s: Settings, id: string) {
    s.cloud.Some? && Trim(s.cloud.value) == id && id != "" && id != "none"
  }

  /**
   * The selection: the cloud row that is named, else the local server's if that is the provider and
   * its endpoint is local, else the on-device one; the prompt is for a provider no row can show.
   */
  lemma RenderExactly(s: Settings)
    ensures (exists id :: NamesCloudRow(s, id)) ==> NamesCloudRow(s, Render(s).rowId)
    ensures (forall id :: !NamesCloudRow(s, id)) ==>
              Render(s).rowId
              == if s.provider == "local-server" && Mappable(s) then "local-server" else "on-device"
    ensures Render(s).needsReconcile <==> !Mappable(s)
  {
    if s.cloud.Some? && NormalizedCloud(s.cloud).Some? {
      assert NamesCloudRow(s, Trim(s.cloud.value));
    }
    assert "on-device"[0] != "local-server"[0] && "downloaded"[0] != "local-server"[0];
  }

  // ---- what a tap writes -------------------------------------------------------------------

  datatype Instruction = ClearCloud | SetProvider(value: string) | SetCloud(id: string)

  function Writes(k: Kind): seq<Instruction> {
    match k
    case OnDevice => [ClearCloud, SetProvider(ON_DEVICE)]
    case LocalServer => [ClearCloud, SetProvider(LOCAL_SERVER)]
    case Byo(id) => [SetCloud(id)]
  }

  /** `tapWrites`. */
  function TapWrites(k: Kind, s: Settings): seq<Instruction> {
    var cloud := NormalizedCloud(s.cloud);
    match k
    case OnDevice => if cloud.None? && s.provider == ON_DEVICE then [] else Writes(k)
    case LocalServer => if cloud.None? && s.provider == LOCAL_SERVER then [] else Writes(k)
    case Byo(id) =>
      if cloud == Some(id) then []
      else if !Mappable(s) then [SetProvider(ON_DEVICE), SetCloud(id)]
      else Writes(k)
  }

  function Written(s: Settings, i: Instruction): Settings {
    match i
    case ClearCloud => s.(cloud := None)
    case SetProvider(value) => s.(provider := value)
    case SetCloud(id) => s.(cloud := Some(id))
  }

  function AllWritten(s: Settings, plan: seq<Instruction>): Settings
    decreases |plan|
  {
    if plan == [] then s else AllWritten(Written(s, plan[0]), plan[1..])
  }

  lemma TwoWritten(s: Settings, a: Instruction, b: Instruction)
    ensures AllWritten(s, [a, b]) == Written(Written(s, a), b)
    ensures AllWritten(s, [b]) == Written(s, b)
  {
    var plan := [a, b];
    assert plan[1..] == [b] && plan[0] == a;
    assert [b][1..] == [];
    assert AllWritten(Written(s, a), [b]) == Written(Written(s, a), b);
  }

  lemma IdsAreNormal(v: Vendor)
    ensures NormalizedCloud(Some(KeyId(v))) == Some(KeyId(v))
    ensures NormalizedCloud(Some(CliId(v))) == Some(CliId(v))
  {
  }

  /** A row's id is normal already, so writing it to the cloud slot reads back as that row. */
  lemma RowIdsAreNormal(s: Settings, r: Row)
    requires r in Rows(s) && r.kind.Byo?
    ensures r.kind == Byo(r.id) && NormalizedCloud(Some(r.id)) == Some(r.id)
  {
    RowsAre(s, r);
    IdsAreNormal(OpenAI);
    IdsAreNormal(Anthropic);
    IdsAreNormal(Gemini);
  }

  lemma SelectableLocalRow(s: Settings, r: Row)
    requires r in Rows(s) && r.selectable && !r.kind.Byo?
    ensures r.id == RowOf(r.kind) && (r.kind.LocalServer? ==> HasLocalEndpoint(s))
  {
    RowsAre(s, r);
  }

  /**
   * Once it has written, a tap on a selectable row leaves it selected without a prompt, and a
   * second tap writes nothing.
   */
  lemma TapConverges(s: Settings, r: Row)
    requires r in Rows(s) && r.selectable && TapWrites(r.kind, s) != []
    ensures var s' := AllWritten(s, TapWrites(r.kind, s));
            Render(s') == Rendered(r.id, false) && TapWrites(r.kind, s') == []
  {
    TwoWritten(s, ClearCloud, SetProvider(RowOf(r.kind)));
    TwoWritten(s, SetProvider(ON_DEVICE), SetCloud(RowOf(r.kind)));
    if r.kind.Byo? {
      RowIdsAreNormal(s, r);
    } else {
      SelectableLocalRow(s, r);
    }
  }

  /**
   * A tap that writes nothing can leave the prompt standing: on the cloud row already selected,
   * over a provider slot no row can show. That is the only case.
   */
  lemma TapLeavesAPromptExactly(s: Settings, r: Row)
    requires r in Rows(s) && r.selectable
    ensures var s' := AllWritten(s, TapWrites(r.kind, s));
            Render(s').rowId == r.id
            && (Render(s').needsReconcile <==> r.kind.Byo? && NormalizedCloud(s.cloud) == Some(r.id) && !Mappable(s))
  {
    if TapWrites(r.kind, s) != [] {
      TapConverges(s, r);
      if r.kind.Byo? {
        RowIdsAreNormal(s, r);
      }
    } else if r.kind.Byo? {
      RowIdsAreNormal(s, r);
    } else {
      SelectableLocalRow(s, r);
    }
  }

  /** The slots after a tap: a cloud row takes the cloud slot, and the provider slot only if no row can show that. */
  lemma TapStores(s: Settings, r: Row)
    requires r in Rows(s)
    ensures var s' := AllWritten(s, TapWrites(r.kind, s));
            && s' == s.(provider := s'.provider, cloud := s'.cloud)
            && (r.kind == OnDevice ==> s'.provider == "on-device" && NormalizedCloud(s'.cloud).None?)
            && (r.kind == LocalServer ==> s'.provider == "local-server" && NormalizedCloud(s'.cloud).None?)
            && (r.kind.Byo? ==>
                  && NormalizedCloud(s'.cloud) == Some(r.id)
                  && s'.provider
                     == if Mappable(s) || NormalizedCloud(s.cloud) == Some(r.id) then s.provider else "on-device")
  {
    TwoWritten(s, ClearCloud, SetProvider(RowOf(r.kind)));
    TwoWritten(s, SetProvider(ON_DEVICE), SetCloud(RowOf(r.kind)));
    if r.kind.Byo? {
      RowIdsAreNormal(s, r);
    }
  }

  /** Re-tapping the selected cloud row is a no-op even then, so only another pick heals the slot. */
  lemma SameCloudTapNeverHeals(s: Settings, id: string, other: Row)
    requires NormalizedCloud(s.cloud) == Some(id) && !Mappable(s)
    requires other in Rows(s) && other.selectable && other.id != id
    ensures TapWrites(Byo(id), s) == []
    ensures !Render(AllWritten(s, TapWrites(other.kind, s))).needsReconcile
  {
    TapLeavesAPromptExactly(s, other);
  }

  // ---- is the selected row on the list? -------------------------------------------------------

  predicate Listed(s: Settings, id: string) {
    exists r | r in Rows(s) :: r.id == id
  }

  predicate ConnectedBy(s: Settings, v: Vendor, id: string) {
    (id == KeyId(v) && v in s.keys) || (id == CliId(v) && v in s.clis)
  }

  predicate Connected(s: Settings, id: string) {
    exists v: Vendor :: ConnectedBy(s, v, id)
  }

  predicate IdOf(v: Vendor, id: string) {
    id == KeyId(v) || id == CliId(v)
  }

  predicate VendorId(id: string) {
    exists v: Vendor :: IdOf(v, id)
  }

  predicate BelongsOnTheList(s: Settings, id: string) {
    || Connected(s, id)
    || (VendorId(id) && s.cloud == Some(id))
    || id == ON_DEVICE
    || (id == LOCAL_SERVER && TrimmedNonEmpty(s.endpoint).Some?)
  }

  lemma RowBelongs(s: Settings, v: Vendor, r: Row)
    requires VendorRow(s, v, r)
    ensures BelongsOnTheList(s, r.id)
  {
    assert IdOf(v, r.id);
    assert ConnectedBy(s, v, r.id) || s.cloud == Some(r.id);
  }

  lemma RowsBelong(s: Settings, r: Row)
    requires r in Rows(s)
    ensures BelongsOnTheList(s, r.id)
  {
    RowsAre(s, r);
    if VendorRow(s, OpenAI, r) {
      RowBelongs(s, OpenAI, r);
    } else if VendorRow(s, Anthropic, r) {
      RowBelongs(s, Anthropic, r);
    } else if VendorRow(s, Gemini, r) {
      RowBelongs(s, Gemini, r);
    }
  }

  lemma VendorIsListed(s: Settings, v: Vendor, id: string)
    requires IdOf(v, id) && (ConnectedBy(s, v, id) || s.cloud == Some(id))
    ensures Listed(s, id)
  {
    var r := if id == KeyId(v) then Row(id, Byo(id), v in s.keys) else Row(id, Byo(id), v in s.clis);
    assert VendorRow(s, v, r);
    RowsAre(s, r);
  }

  lemma ListedExactly(s: Settings, id: string)
    ensures Listed(s, id) <==> BelongsOnTheList(s, id)
  {
    if Listed(s, id) {
      var r :| r in Rows(s) && r.id == id;
      RowsBelong(s, r);
    }
    if BelongsOnTheList(s, id) {
      if Connected(s, id) {
        var v :| ConnectedBy(s, v, id);
        VendorIsListed(s, v, id);
      } else if VendorId(id) && s.cloud == Some(id) {
        var v :| IdOf(v, id);
        VendorIsListed(s, v, id);
      } else {
        RowsAre(s, Row(ON_DEVICE, OnDevice, true));
        RowsAre(s, Row(LOCAL_SERVER, LocalServer, s.classification == Some("LOCAL")));
      }
    }
  }

  /**
   * The selection names a row that is on the list, unless the cloud slot holds an id no row has,
   * or that of an unconnected vendor with stray white space around it.
   */
  lemma SelectionIsListedExactly(s: Settings)
    ensures Listed(s, Render(s).rowId)
       <==> NormalizedCloud(s.cloud).None? || BelongsOnTheList(s, NormalizedCloud(s.cloud).value)
  {
    ListedExactly(s, Render(s).rowId);
  }
}
