/** The machine model and its index: what the engine accepts, and how it looks things up. */
module Model {
  import opened Sequences
  import opened Wrappers

  const MAX_STRING: nat := 256
  const MAX_ASSETS: nat := 256
  const MAX_RELATIONSHIPS: nat := 512
  const MAX_TAGS: nat := 2048
  const MAX_ALARMS: nat := 2048
  const MAX_ALIASES: nat := 32
  const MAX_REVISION: nat := 0xffff_ffff

  datatype Asset = Asset(id: string, name: string, kind: string, aliases: Option<seq<string>>)
  datatype Relationship = Relationship(id: string, from: string, to: string, kind: string)
  datatype Source = Source(server: string, namespaceUri: string, identifier: string)
  datatype Tag = Tag(id: string, assetId: string, name: string, role: string, dataType: string, unit: string, source: Source)
  datatype Alarm = Alarm(id: string, assetId: string, name: string, tagId: string, operator: string,
                         threshold: real, severity: string)
  datatype MachineModel = MachineModel(modelId: string, revision: nat, name: string, assets: seq<Asset>,
                                       relationships: seq<Relationship>, tags: seq<Tag>, alarms: seq<Alarm>)

  /** What makes a tag mean what it means, and what defines an alarm. */
  datatype Binding = Binding(owner: string, role: string, dataType: string, unit: string, source: Source)
  datatype Definition = Definition(owner: string, name: string, tagId: string, operator: string,
                                   threshold: real, severity: string)

  function BindingOf(t: Tag): Binding {
    Binding(t.assetId, t.role, t.dataType, t.unit, t.source)
  }

  function DefinitionOf(a: Alarm): Definition {
    Definition(a.assetId, a.name, a.tagId, a.operator, a.threshold, a.severity)
  }

  /** The diagnostic fingerprints: some function of the snapshots, never an identity. */
  datatype Digest = Digest(binding: Binding -> string, definition: Definition -> string)

  datatype Index = Index(model: MachineModel, assets: map<string, Asset>, relationships: map<string, Relationship>,
                         tags: map<string, Tag>, alarms: map<string, Alarm>, digest: Digest)

  datatype DomainError = InvalidModel | InvalidTask | InvalidView | ModelMismatch

  // Field checks

  predicate Alphanumeric(c: char) {
    'a' <= c <= 'z' || 'A' <= c <= 'Z' || '0' <= c <= '9'
  }

  predicate Control(c: char) {
    c < ' ' || c == 127 as char
  }

  predicate Printable(s: string) {
    |s| <= MAX_STRING && forall i :: 0 <= i < |s| ==> !Control(s[i])
  }

  predicate Text(s: string) {
    s != "" && Printable(s)
  }

  predicate Identity(s: string) {
    && 0 < |s| <= MAX_STRING && Alphanumeric(s[0])
    && forall i :: 0 <= i < |s| ==> Alphanumeric(s[i]) || s[i] == '_' || s[i] == '.' || s[i] == '-'
  }

  function LowerChar(c: char): char {
    if 'A' <= c <= 'Z' then (c as int + 32) as char else c
  }

  function Lower(s: string): string {
    Map(LowerChar, s)
  }

  const NUMERIC_TYPES: set<string> := {"number", "float", "double", "integer"}
  const DATA_TYPES: set<string> := NUMERIC_TYPES + {"boolean", "bool", "string"}
  const OPERATORS: set<string> := {">", ">=", "<", "<=", "==", "!="}
  const SEVERITIES: set<string> := {"low", "medium", "high", "critical"}

  predicate AssetFields(a: Asset) {
    && Identity(a.id) && Text(a.name) && Text(a.kind)
    && (a.aliases.Some? ==> |a.aliases.value| <= MAX_ALIASES && forall i :: 0 <= i < |a.aliases.value| ==> Text(a.aliases.value[i]))
  }

  predicate RelationshipFields(r: Relationship, assets: set<string>) {
    Identity(r.id) && Identity(r.from) && Identity(r.to) && Text(r.kind) && r.from in assets && r.to in assets && r.from != r.to
  }

  predicate TagFields(t: Tag, assets: set<string>) {
    && Identity(t.id) && Identity(t.assetId) && Text(t.name) && Text(t.role)
    && Text(t.dataType) && Lower(t.dataType) in DATA_TYPES && Printable(t.unit)
    && (Lower(t.role) == "level" || Lower(t.role) == "flow" ==> Lower(t.dataType) in NUMERIC_TYPES)
    && Text(t.source.server) && Text(t.source.namespaceUri) && Text(t.source.identifier)
    && t.assetId in assets
  }

  predicate AlarmFields(a: Alarm, assets: set<string>, tags: map<string, Tag>) {
    && Identity(a.id) && Identity(a.assetId) && Identity(a.tagId) && a.operator in OPERATORS
    && Lower(a.severity) in SEVERITIES && Text(a.name) && a.assetId in assets
    && a.tagId in tags && tags[a.tagId].assetId == a.assetId && Lower(tags[a.tagId].dataType) in NUMERIC_TYPES
  }

  // The maps of the index

  /** Items by identifier; with distinct identifiers every item is found under its own. */
  function ById<T>(items: seq<T>, id: T -> string): (m: map<string, T>)
    ensures forall k :: k in m ==> m[k] in items && id(m[k]) == k
    ensures forall i :: 0 <= i < |items| ==> id(items[i]) in m
  {
    if items == [] then map[]
    else
      var last := items[|items| - 1];
      ById(items[..|items| - 1], id)[id(last) := last]
  }

  ghost predicate DistinctIds<T>(items: seq<T>, id: T -> string) {
    forall i, j :: 0 <= i < j < |items| ==> id(items[i]) != id(items[j])
  }

  lemma {:induction false} ByIdFinds<T>(items: seq<T>, id: T -> string, i: nat)
    requires i < |items| && DistinctIds(items, id)
    ensures id(items[i]) in ById(items, id) && ById(items, id)[id(items[i])] == items[i]
    decreases |items|
  {
    if i < |items| - 1 {
      var front := items[..|items| - 1];
      assert front[i] == items[i];
      ByIdFinds(front, id, i);
    }
  }

  const ASSET_ID := (a: Asset) => a.id
  const RELATIONSHIP_ID := (r: Relationship) => r.id
  const TAG_ID := (t: Tag) => t.id
  const ALARM_ID := (a: Alarm) => a.id

  function TagMap(m: MachineModel): map<string, Tag> {
    ById(m.tags, TAG_ID)
  }

  function AssetIds(m: MachineModel): set<string> {
    ById(m.assets, ASSET_ID).Keys
  }

  ghost predicate ValidModel(m: MachineModel) {
    && Identity(m.modelId) && m.revision <= MAX_REVISION && Text(m.name)
    && |m.assets| <= MAX_ASSETS && |m.relationships| <= MAX_RELATIONSHIPS
    && |m.tags| <= MAX_TAGS && |m.alarms| <= MAX_ALARMS
    && (forall i :: 0 <= i < |m.assets| ==> AssetFields(m.assets[i]))
    && (forall i :: 0 <= i < |m.relationships| ==> RelationshipFields(m.relationships[i], AssetIds(m)))
    && (forall i :: 0 <= i < |m.tags| ==> TagFields(m.tags[i], AssetIds(m)))
    && (forall i :: 0 <= i < |m.alarms| ==> AlarmFields(m.alarms[i], AssetIds(m), TagMap(m)))
    && DistinctIds(m.assets, ASSET_ID) && DistinctIds(m.relationships, RELATIONSHIP_ID)
    && DistinctIds(m.tags, TAG_ID) && DistinctIds(m.alarms, ALARM_ID)
  }

  function IndexOf(m: MachineModel, digest: Digest): Index {
    Index(m, ById(m.assets, ASSET_ID), ById(m.relationships, RELATIONSHIP_ID), TagMap(m), ById(m.alarms, ALARM_ID), digest)
  }

  /** An index that index_model has built. */
  ghost predicate ValidIndex(x: Index) {
    ValidModel(x.model) && x == IndexOf(x.model, x.digest)
  }

  lemma DistinctItems<T>(items: seq<T>, id: T -> string)
    requires DistinctIds(items, id)
    ensures Distinct(items)
  {
  }

  lemma DistinctEmpty<T>(items: seq<T>, id: T -> string)
    requires items == []
    ensures DistinctIds(items, id)
  {
  }

  lemma ByIdEmpty<T>(items: seq<T>, id: T -> string)
    requires items == []
    ensures ById(items, id) == map[]
  {
  }

  /** Another item keeps the identifiers distinct exactly when its identifier is new. */
  lemma DistinctSnoc<T>(items: seq<T>, item: T, id: T -> string)
    requires DistinctIds(items, id)
    ensures DistinctIds(items + [item], id) <==> id(item) !in ById(items, id)
    ensures ById(items + [item], id) == ById(items, id)[id(item) := item]
  {
    var longer := items + [item];
    assert longer[..|items|] == items;
    if id(item) in ById(items, id) {
      var k :| 0 <= k < |items| && items[k] == ById(items, id)[id(item)];
      assert id(longer[k]) == id(longer[|items|]);
    }
  }

  lemma DistinctPrefix<T>(items: seq<T>, i: nat, id: T -> string)
    requires i <= |items| && DistinctIds(items, id)
    ensures DistinctIds(items[..i], id)
  {
  }

  /** One array of the model: every item must pass its check and carry a new identifier. */
  method IndexItems<T>(items: seq<T>, id: T -> string, valid: T -> bool) returns (ok: bool, m: map<string, T>)
    ensures ok <==> DistinctIds(items, id) && forall i :: 0 <= i < |items| ==> valid(items[i])
    ensures ok ==> m == ById(items, id)
  {
    ok, m := true, map[];
    hide ById, DistinctIds;
    DistinctEmpty(items[..0], id);
    ByIdEmpty(items[..0], id);
    for i := 0 to |items|
      invariant m == ById(items[..i], id)
      invariant DistinctIds(items[..i], id)
      invariant forall j :: 0 <= j < i ==> valid(items[j])
    {
      var item := items[i];
      if !valid(item) {
        return false, m;
      }
      DistinctSnoc(items[..i], item, id);
      assert items[..i + 1] == items[..i] + [item];
      if DistinctIds(items, id) { DistinctPrefix(items, i + 1, id); }
      if id(item) in m {
        return false, m;
      }
      m := m[id(item) := item];
    }
    assert items[..|items|] == items;
  }

  /** Validates a model and builds its maps, kind by kind. */
  method IndexModel(m: MachineModel, digest: Digest) returns (r: Result<Index, DomainError>)
    ensures r.Success? <==> ValidModel(m)
    ensures r == if r.Success? then Success(IndexOf(m, digest)) else Failure(InvalidModel)
  {
    hide ById, DistinctIds, AssetFields, RelationshipFields, TagFields, AlarmFields, Identity, Text;
    if !Identity(m.modelId) || m.revision > MAX_REVISION || !Text(m.name)
       || |m.assets| > MAX_ASSETS || |m.relationships| > MAX_RELATIONSHIPS || |m.tags| > MAX_TAGS || |m.alarms| > MAX_ALARMS {
      return Failure(InvalidModel);
    }
    var ok, assets := IndexItems(m.assets, ASSET_ID, AssetFields);
    if !ok {
      return Failure(InvalidModel);
    }
    var okR, relationships := IndexItems(m.relationships, RELATIONSHIP_ID, r => RelationshipFields(r, assets.Keys));
    if !okR {
      return Failure(InvalidModel);
    }
    var okT, tags := IndexItems(m.tags, TAG_ID, t => TagFields(t, assets.Keys));
    if !okT {
      return Failure(InvalidModel);
    }
    var okA, alarms := IndexItems(m.alarms, ALARM_ID, a => AlarmFields(a, assets.Keys, tags));
    if !okA {
      return Failure(InvalidModel);
    }
    r := Success(Index(m, assets, relationships, tags, alarms, digest));
  }

  // What later code relies on: the maps and the arrays agree, and references resolve.

  lemma MapsAgree<T>(items: seq<T>, id: T -> string)
    requires DistinctIds(items, id)
    ensures forall t :: t in items ==> id(t) in ById(items, id) && ById(items, id)[id(t)] == t
  {
    hide ById;
    forall t | t in items ensures id(t) in ById(items, id) && ById(items, id)[id(t)] == t {
      var i :| 0 <= i < |items| && items[i] == t;
      ByIdFinds(items, id, i);
    }
  }

  lemma AssetFacts(x: Index)
    requires ValidIndex(x)
    ensures forall a :: a in x.model.assets ==> a.id in x.assets && x.assets[a.id] == a && a.id != ""
    ensures forall k :: k in x.assets ==> x.assets[k] in x.model.assets && x.assets[k].id == k && k != ""
  {
    hide ById, DistinctIds, TagFields, AlarmFields, RelationshipFields, Text;
    MapsAgree(x.model.assets, ASSET_ID);
  }

  lemma TagFacts(x: Index)
    requires ValidIndex(x)
    ensures forall t :: t in x.model.tags ==> t.id in x.tags && x.tags[t.id] == t && t.id != "" && t.assetId in x.assets
    ensures forall k :: k in x.tags ==> x.tags[k] in x.model.tags && x.tags[k].id == k && k != ""
  {
    hide ById, DistinctIds, AssetFields, AlarmFields, RelationshipFields, Text, Lower;
    MapsAgree(x.model.tags, TAG_ID);
  }

  lemma AlarmFacts(x: Index)
    requires ValidIndex(x)
    ensures forall a :: a in x.model.alarms ==> a.id in x.alarms && x.alarms[a.id] == a && a.id != ""
    ensures forall k :: k in x.alarms ==> x.alarms[k] in x.model.alarms && x.alarms[k].id == k && k != ""
    ensures forall a :: a in x.model.alarms ==> a.tagId in x.tags && x.tags[a.tagId].assetId == a.assetId
  {
    hide ById, DistinctIds, AssetFields, TagFields, RelationshipFields, Text, Lower;
    MapsAgree(x.model.alarms, ALARM_ID);
  }
}
