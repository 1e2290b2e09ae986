/** Importing an engineering bundle: rows become records of a model, or are reported, and nothing refers to nothing. */
module Import {
  import opened Model
  import opened Sequences
  import opened Wrappers

  datatype ImportError = InvalidField | InvalidIdentity | InvalidNumber

  datatype Reason = UnknownEndpoint | UnsupportedType | UnknownOwner | UnknownReference | UnsupportedDefinition
  datatype Unresolved = Unresolved(reason: Reason, id: string)

  datatype AlarmRow = AlarmRow(id: string, assetId: string, name: string, tagId: string, operator: string, threshold: string,
                               severity: string)

  /** What the importer has so far: the records, the identifiers it has seen, and what it could not resolve. */
  datatype Bundle = Bundle(assets: seq<Asset>, relationships: seq<Relationship>, tags: seq<Tag>, alarms: seq<Alarm>,
                           assetIds: set<string>, relationshipIds: set<string>, tagIds: set<string>, alarmIds: set<string>,
                           unresolved: seq<Unresolved>)

  const EMPTY := Bundle([], [], [], [], {}, {}, {}, {}, [])

  /** The configured bounds on a cell of a table and on a string of a JSON artifact, and the reader of numbers. The bound
      of the engine always applies as well. */
  datatype Reader = Reader(fieldBytes: nat, stringBytes: nat, number: string -> Option<real>)

  predicate Cell(s: string, r: Reader) {
    Text(s) && |s| <= r.fieldBytes
  }

  predicate CellOrEmpty(s: string, r: Reader) {
    Printable(s) && |s| <= r.fieldBytes
  }

  predicate StringField(s: string, r: Reader) {
    Text(s) && |s| <= r.stringBytes
  }

  predicate AliasesRead(a: Asset, r: Reader) {
    a.aliases.Some? ==>
      |a.aliases.value| <= MAX_ALIASES && forall i :: 0 <= i < |a.aliases.value| ==> StringField(a.aliases.value[i], r)
  }

  // One row

  function AddAsset(b: Bundle, a: Asset, r: Reader): Result<Bundle, ImportError> {
    if !StringField(a.id, r) then Failure(InvalidField)
    else if !Identity(a.id) || a.id in b.assetIds then Failure(InvalidIdentity)
    else if !StringField(a.name, r) || !StringField(a.kind, r) || !AliasesRead(a, r) then Failure(InvalidField)
    else Success(b.(assets := b.assets + [a], assetIds := b.assetIds + {a.id}))
  }

  function Report(b: Bundle, reason: Reason, id: string): Bundle {
    b.(unresolved := b.unresolved + [Unresolved(reason, id)])
  }

  function AddRelationship(b: Bundle, row: Relationship, r: Reader): Result<Bundle, ImportError> {
    if !Cell(row.id, r) || !Cell(row.from, r) || !Cell(row.to, r) || !Cell(row.kind, r) then Failure(InvalidField)
    else if !Identity(row.id) || row.id in b.relationshipIds then Failure(InvalidIdentity)
    else
      var seen := b.(relationshipIds := b.relationshipIds + {row.id});
      if row.from == row.to || row.from !in b.assetIds || row.to !in b.assetIds then Success(Report(seen, UnknownEndpoint, row.id))
      else Success(seen.(relationships := b.relationships + [row]))
  }

  predicate TagCells(row: Tag, r: Reader) {
    && Cell(row.name, r) && Cell(row.role, r) && Cell(row.dataType, r) && CellOrEmpty(row.unit, r)
    && Cell(row.source.server, r) && Cell(row.source.namespaceUri, r) && Cell(row.source.identifier, r)
  }

  function AddTag(b: Bundle, row: Tag, r: Reader): Result<Bundle, ImportError> {
    if !Cell(row.id, r) || !Cell(row.assetId, r) then Failure(InvalidField)
    else if !Identity(row.id) || row.id in b.tagIds then Failure(InvalidIdentity)
    else if !TagCells(row, r) then Failure(InvalidField)
    else
      var seen := b.(tagIds := b.tagIds + {row.id});
      if Lower(row.dataType) !in DATA_TYPES then Success(Report(seen, UnsupportedType, row.id))
      else if row.assetId !in b.assetIds then Success(Report(seen, UnknownOwner, row.id))
      else Success(seen.(tags := b.tags + [row.(dataType := Lower(row.dataType))]))
  }

  function FindTag(tags: seq<Tag>, id: string): (t: Option<Tag>)
    ensures t.Some? ==> t.value in tags && t.value.id == id
    ensures t.None? ==> forall k :: k in tags ==> k.id != id
    decreases |tags|
  {
    if tags == [] then None
    else if tags[0].id == id then Some(tags[0])
    else
      assert tags == [tags[0]] + tags[1..];
      FindTag(tags[1..], id)
  }

  predicate Referenced(b: Bundle, row: AlarmRow) {
    row.assetId in b.assetIds && FindTag(b.tags, row.tagId).Some? && FindTag(b.tags, row.tagId).value.assetId == row.assetId
  }

  function AddAlarm(b: Bundle, row: AlarmRow, r: Reader): Result<Bundle, ImportError> {
    if !Cell(row.id, r) || !Cell(row.assetId, r) || !Cell(row.tagId, r) then Failure(InvalidField)
    else if !Identity(row.id) || row.id in b.alarmIds then Failure(InvalidIdentity)
    else
      var seen := b.(alarmIds := b.alarmIds + {row.id});
      if !Referenced(b, row) then Success(Report(seen, UnknownReference, row.id))
      else if !Cell(row.threshold, r) then Failure(InvalidField)
      else if r.number(row.threshold).None? then Failure(InvalidNumber)
      else if !Cell(row.operator, r) || !Cell(row.severity, r) then Failure(InvalidField)
      else if row.operator !in OPERATORS || Lower(row.severity) !in SEVERITIES then Success(Report(seen, UnsupportedDefinition, row.id))
      else if !Cell(row.name, r) then Failure(InvalidField)
      else Success(seen.(alarms := b.alarms + [Alarm(row.id, row.assetId, row.name, row.tagId, row.operator,
                                                     r.number(row.threshold).value, Lower(row.severity))]))
  }

  // All rows

  function Fold<R>(b: Bundle, rows: seq<R>, add: (Bundle, R) -> Result<Bundle, ImportError>): Result<Bundle, ImportError> {
    if rows == [] then Success(b)
    else match Fold(b, rows[..|rows| - 1], add)
      case Failure(e) => Failure(e)
      case Success(c) => add(c, rows[|rows| - 1])
  }

  function AssetAdder(r: Reader): (Bundle, Asset) -> Result<Bundle, ImportError> {
    (b: Bundle, a: Asset) => AddAsset(b, a, r)
  }

  function RelationshipAdder(r: Reader): (Bundle, Relationship) -> Result<Bundle, ImportError> {
    (b: Bundle, row: Relationship) => AddRelationship(b, row, r)
  }

  function TagAdder(r: Reader): (Bundle, Tag) -> Result<Bundle, ImportError> {
    (b: Bundle, row: Tag) => AddTag(b, row, r)
  }

  function AlarmAdder(r: Reader): (Bundle, AlarmRow) -> Result<Bundle, ImportError> {
    (b: Bundle, row: AlarmRow) => AddAlarm(b, row, r)
  }

  datatype Artifacts = Artifacts(assets: seq<Asset>, relationships: seq<Relationship>, tags: seq<Tag>, alarms: seq<AlarmRow>)

  function Imported(a: Artifacts, r: Reader): Result<Bundle, ImportError> {
    match Fold(EMPTY, a.assets, AssetAdder(r))
    case Failure(e) => Failure(e)
    case Success(b1) => match Fold(b1, a.relationships, RelationshipAdder(r))
      case Failure(e) => Failure(e)
      case Success(b2) => match Fold(b2, a.tags, TagAdder(r))
        case Failure(e) => Failure(e)
        case Success(b3) => Fold(b3, a.alarms, AlarmAdder(r))
  }

  datatype Machine = Machine(id: string, name: string, revision: nat)

  ghost predicate MachineRead(machine: Machine) {
    Identity(machine.id) && Text(machine.name) && 1 <= machine.revision <= MAX_REVISION
  }

  function SortedById<T>(items: seq<T>, id: T -> string): seq<T> {
    SortBy(items, (a: T, b: T) => LexLe(id(a), id(b)))
  }

  function ModelOf(machine: Machine, b: Bundle): MachineModel {
    MachineModel(machine.id, machine.revision, machine.name, SortedById(b.assets, ASSET_ID),
                 SortedById(b.relationships, RELATIONSHIP_ID), SortedById(b.tags, TAG_ID), SortedById(b.alarms, ALARM_ID))
  }

  /** The state that the row loops fill. */
  class ImportState {
    const reader: Reader
    var bundle: Bundle

    constructor (r: Reader)
      ensures bundle == EMPTY && reader == r
    {
      reader, bundle := r, EMPTY;
    }

    method ParseAssets(rows: seq<Asset>) returns (error: Option<ImportError>)
      modifies this
      ensures match Fold(old(bundle), rows, AssetAdder(reader))
        case Failure(e) => error == Some(e)
        case Success(b) => error == None && bundle == b
    {
      hide AddAsset;
      for i := 0 to |rows|
        invariant Fold(old(bundle), rows[..i], AssetAdder(reader)) == Success(bundle)
      {
        assert rows[..i + 1][..i] == rows[..i];
        FoldStops(old(bundle), rows, AssetAdder(reader), i + 1);
        var next := AddAsset(bundle, rows[i], reader);
        if next.Failure? {
          return Some(next.error);
        }
        bundle := next.value;
      }
      assert rows[..|rows|] == rows;
      error := None;
    }

    method ParseRelationships(rows: seq<Relationship>) returns (error: Option<ImportError>)
      modifies this
      ensures match Fold(old(bundle), rows, RelationshipAdder(reader))
        case Failure(e) => error == Some(e)
        case Success(b) => error == None && bundle == b
    {
      for i := 0 to |rows|
        invariant Fold(old(bundle), rows[..i], RelationshipAdder(reader)) == Success(bundle)
      {
        assert rows[..i + 1][..i] == rows[..i];
        FoldStops(old(bundle), rows, RelationshipAdder(reader), i + 1);
        var row := rows[i];
        if !Cell(row.id, reader) || !Cell(row.from, reader) || !Cell(row.to, reader) || !Cell(row.kind, reader) {
          return Some(InvalidField);
        }
        if !Identity(row.id) || row.id in bundle.relationshipIds {
          return Some(InvalidIdentity);
        }
        bundle := bundle.(relationshipIds := bundle.relationshipIds + {row.id});
        if row.from == row.to || row.from !in bundle.assetIds || row.to !in bundle.assetIds {
          bundle := Report(bundle, UnknownEndpoint, row.id);
          continue;
        }
        bundle := bundle.(relationships := bundle.relationships + [row]);
      }
      assert rows[..|rows|] == rows;
      error := None;
    }

    method ParseTags(rows: seq<Tag>) returns (error: Option<ImportError>)
      modifies this
      ensures match Fold(old(bundle), rows, TagAdder(reader))
        case Failure(e) => error == Some(e)
        case Success(b) => error == None && bundle == b
    {
      for i := 0 to |rows|
        invariant Fold(old(bundle), rows[..i], TagAdder(reader)) == Success(bundle)
      {
        assert rows[..i + 1][..i] == rows[..i];
        FoldStops(old(bundle), rows, TagAdder(reader), i + 1);
        var row := rows[i];
        if !Cell(row.id, reader) || !Cell(row.assetId, reader) {
          return Some(InvalidField);
        }
        if !Identity(row.id) || row.id in bundle.tagIds {
          return Some(InvalidIdentity);
        }
        if !TagCells(row, reader) {
          return Some(InvalidField);
        }
        bundle := bundle.(tagIds := bundle.tagIds + {row.id});
        var dataType := Lower(row.dataType);
        if dataType !in DATA_TYPES {
          bundle := Report(bundle, UnsupportedType, row.id);
          continue;
        }
        if row.assetId !in bundle.assetIds {
          bundle := Report(bundle, UnknownOwner, row.id);
          continue;
        }
        bundle := bundle.(tags := bundle.tags + [row.(dataType := dataType)]);
      }
      assert rows[..|rows|] == rows;
      error := None;
    }

    method ParseAlarms(rows: seq<AlarmRow>) returns (error: Option<ImportError>)
      modifies this
      ensures match Fold(old(bundle), rows, AlarmAdder(reader))
        case Failure(e) => error == Some(e)
        case Success(b) => error == None && bundle == b
    {
      hide AddAlarm;
      for i := 0 to |rows|
        invariant Fold(old(bundle), rows[..i], AlarmAdder(reader)) == Success(bundle)
      {
        assert rows[..i + 1][..i] == rows[..i];
        FoldStops(old(bundle), rows, AlarmAdder(reader), i + 1);
        var fault := ParseAlarm(rows[i]);
        if fault.Some? {
          return fault;
        }
      }
      assert rows[..|rows|] == rows;
      error := None;
    }

    method ParseAlarm(row: AlarmRow) returns (fault: Option<ImportError>)
      modifies this
      ensures match AddAlarm(old(bundle), row, reader)
        case Failure(e) => fault == Some(e)
        case Success(b) => fault == None && bundle == b
    {
      fault := None;
      if !Cell(row.id, reader) || !Cell(row.assetId, reader) || !Cell(row.tagId, reader) {
        return Some(InvalidField);
      }
      if !Identity(row.id) || row.id in bundle.alarmIds {
        return Some(InvalidIdentity);
      }
      bundle := bundle.(alarmIds := bundle.alarmIds + {row.id});
      var tag := FindTag(bundle.tags, row.tagId);
      if row.assetId !in bundle.assetIds || tag.None? || tag.value.assetId != row.assetId {
        bundle := Report(bundle, UnknownReference, row.id);
        return;
      }
      if !Cell(row.threshold, reader) {
        return Some(InvalidField);
      }
      var threshold := reader.number(row.threshold);
      if threshold.None? {
        return Some(InvalidNumber);
      }
      if !Cell(row.operator, reader) || !Cell(row.severity, reader) {
        return Some(InvalidField);
      }
      var severity := Lower(row.severity);
      if row.operator !in OPERATORS || severity !in SEVERITIES {
        bundle := Report(bundle, UnsupportedDefinition, row.id);
        return;
      }
      if !Cell(row.name, reader) {
        return Some(InvalidField);
      }
      bundle := bundle.(alarms := bundle.alarms
                                  + [Alarm(row.id, row.assetId, row.name, row.tagId, row.operator, threshold.value, severity)]);
    }

    method ImportBundle(a: Artifacts) returns (error: Option<ImportError>)
      requires bundle == EMPTY
      modifies this
      ensures match Imported(a, reader)
        case Failure(e) => error == Some(e)
        case Success(b) => error == None && bundle == b
    {
      hide Fold;
      error := ParseAssets(a.assets);
      if error.Some? { return; }
      error := ParseRelationships(a.relationships);
      if error.Some? { return; }
      error := ParseTags(a.tags);
      if error.Some? { return; }
      error := ParseAlarms(a.alarms);
    }
  }

  /** A row that fails ends the import. */
  lemma {:induction false} FoldStops<R>(b: Bundle, rows: seq<R>, add: (Bundle, R) -> Result<Bundle, ImportError>, i: nat)
    requires i <= |rows|
    ensures Fold(b, rows[..i], add).Failure? ==> Fold(b, rows, add) == Fold(b, rows[..i], add)
    decreases |rows|
  {
    if i < |rows| {
      assert rows[..|rows| - 1][..i] == rows[..i];
      FoldStops(b, rows[..|rows| - 1], add, i);
    } else {
      assert rows[..i] == rows;
    }
  }

  // What every row keeps

  ghost predicate TagDeclared(b: Bundle, id: string, owner: string) {
    exists k :: 0 <= k < |b.tags| && b.tags[k].id == id && b.tags[k].assetId == owner
  }

  ghost predicate AssetGood(b: Bundle, a: Asset) {
    AssetFields(a) && a.id in b.assetIds
  }

  ghost predicate RelationshipGood(b: Bundle, x: Relationship) {
    && Identity(x.id) && Text(x.kind) && x.from != x.to && x.from in b.assetIds && x.to in b.assetIds && x.id in b.relationshipIds
  }

  ghost predicate TagGood(b: Bundle, t: Tag) {
    && Identity(t.id) && Text(t.name) && Text(t.role) && Text(t.dataType) && Lower(t.dataType) in DATA_TYPES && Printable(t.unit)
    && Lower(t.dataType) == t.dataType
    && Text(t.source.server) && Text(t.source.namespaceUri) && Text(t.source.identifier) && t.assetId in b.assetIds && t.id in b.tagIds
  }

  ghost predicate AlarmGood(b: Bundle, x: Alarm) {
    && Identity(x.id) && Text(x.name) && x.operator in OPERATORS && Lower(x.severity) in SEVERITIES
    && x.assetId in b.assetIds && TagDeclared(b, x.tagId, x.assetId) && x.id in b.alarmIds
  }

  /** Nothing refers to anything that was not emitted, and no identifier is emitted twice. */
  ghost predicate BundleSound(b: Bundle) {
    && (forall i :: 0 <= i < |b.assets| ==> AssetGood(b, b.assets[i]))
    && (forall id :: id in b.assetIds ==> Identity(id) && exists i :: 0 <= i < |b.assets| && b.assets[i].id == id)
    && (forall i :: 0 <= i < |b.relationships| ==> RelationshipGood(b, b.relationships[i]))
    && (forall i :: 0 <= i < |b.tags| ==> TagGood(b, b.tags[i]))
    && (forall i :: 0 <= i < |b.alarms| ==> AlarmGood(b, b.alarms[i]))
    && DistinctIds(b.assets, ASSET_ID) && DistinctIds(b.relationships, RELATIONSHIP_ID)
    && DistinctIds(b.tags, TAG_ID) && DistinctIds(b.alarms, ALARM_ID)
  }

  /** The rows of one kind: emitted or unresolved, one for one. */
  function Settled(b: Bundle): nat {
    |b.assets| + |b.relationships| + |b.tags| + |b.alarms| + |b.unresolved|
  }

  lemma LowerAgain(s: string)
    ensures Lower(Lower(s)) == Lower(s) && (Text(s) ==> Text(Lower(s)))
  {
    assert forall c :: LowerChar(LowerChar(c)) == LowerChar(c) && (Control(LowerChar(c)) ==> Control(c));
    forall i | 0 <= i < |s| ensures LowerChar(LowerChar(s[i])) == LowerChar(s[i]) {}
    assert Lower(Lower(s)) == Lower(s);
    forall i | Text(s) && 0 <= i < |s| ensures !Control(Lower(s)[i]) { assert !Control(s[i]); }
  }

  lemma AssetSound(b: Bundle, a: Asset, r: Reader)
    requires BundleSound(b) && AddAsset(b, a, r).Success? && b.relationships == [] && b.tags == [] && b.alarms == []
    ensures var c := AddAsset(b, a, r).value;
      BundleSound(c) && Settled(c) == Settled(b) + 1 && c.relationships == [] && c.tags == [] && c.alarms == [] && c.unresolved == b.unresolved
  {
    hide Identity, Printable;
    var c := AddAsset(b, a, r).value;
    assert c.assets[|b.assets|] == a;
    forall id | id in c.assetIds ensures Identity(id) && exists i :: 0 <= i < |c.assets| && c.assets[i].id == id {
      if id in b.assetIds {
        var i :| 0 <= i < |b.assets| && b.assets[i].id == id;
        assert c.assets[i].id == id;
      }
    }
    forall i | 0 <= i < |c.assets| ensures AssetGood(c, c.assets[i]) {
      if i < |b.assets| { assert AssetGood(b, b.assets[i]); }
    }
    forall i | 0 <= i < |b.assets| ensures b.assets[i].id != a.id { assert AssetGood(b, b.assets[i]); }
  }

  /** Later rows leave the assets alone, and what was good stays good. */
  ghost predicate Extends(b: Bundle, c: Bundle) {
    && c.assets == b.assets && c.assetIds == b.assetIds && b.relationships <= c.relationships && b.tags <= c.tags && b.alarms <= c.alarms
    && b.relationshipIds <= c.relationshipIds && b.tagIds <= c.tagIds && b.alarmIds <= c.alarmIds
  }

  lemma StaysGood(b: Bundle, c: Bundle)
    requires BundleSound(b) && Extends(b, c)
    ensures forall i :: 0 <= i < |b.assets| ==> AssetGood(c, b.assets[i])
    ensures forall i :: 0 <= i < |b.relationships| ==> RelationshipGood(c, b.relationships[i])
    ensures forall i :: 0 <= i < |b.tags| ==> TagGood(c, b.tags[i])
    ensures forall i :: 0 <= i < |b.alarms| ==> AlarmGood(c, b.alarms[i])
  {
    hide Identity, Printable, AssetFields;
    forall i | 0 <= i < |b.assets| ensures AssetGood(c, b.assets[i]) { assert AssetGood(b, b.assets[i]); }
    forall i | 0 <= i < |b.relationships| ensures RelationshipGood(c, b.relationships[i]) { assert RelationshipGood(b, b.relationships[i]); }
    forall i | 0 <= i < |b.tags| ensures TagGood(c, b.tags[i]) { assert TagGood(b, b.tags[i]); }
    forall i | 0 <= i < |b.alarms| ensures AlarmGood(c, b.alarms[i]) {
      assert AlarmGood(b, b.alarms[i]);
      var k :| 0 <= k < |b.tags| && b.tags[k].id == b.alarms[i].tagId && b.tags[k].assetId == b.alarms[i].assetId;
      assert c.tags[k] == b.tags[k];
    }
  }

  lemma RelationshipSound(b: Bundle, row: Relationship, r: Reader)
    requires BundleSound(b) && AddRelationship(b, row, r).Success?
    ensures var c := AddRelationship(b, row, r).value; BundleSound(c) && Settled(c) == Settled(b) + 1
  {
    hide Identity, Printable, AssetGood, TagGood, AlarmGood;
    var c := AddRelationship(b, row, r).value;
    StaysGood(b, c);
    forall i | 0 <= i < |b.relationships| ensures b.relationships[i].id != row.id { assert RelationshipGood(b, b.relationships[i]); }
    if c.relationships != b.relationships { assert c.relationships[|b.relationships|] == row; }
  }

  lemma TagSound(b: Bundle, row: Tag, r: Reader)
    requires BundleSound(b) && AddTag(b, row, r).Success?
    ensures var c := AddTag(b, row, r).value; BundleSound(c) && Settled(c) == Settled(b) + 1
  {
    hide Identity, Printable, AssetGood, RelationshipGood, AlarmGood, Lower;
    var c := AddTag(b, row, r).value;
    StaysGood(b, c);
    LowerAgain(row.dataType);
    forall i | 0 <= i < |b.tags| ensures b.tags[i].id != row.id { assert TagGood(b, b.tags[i]); }
    if c.tags != b.tags {
      var t := row.(dataType := Lower(row.dataType));
      assert c.tags[|b.tags|] == t;
      assert TagGood(c, t);
    }
  }

  lemma AlarmSound(b: Bundle, row: AlarmRow, r: Reader)
    requires BundleSound(b) && AddAlarm(b, row, r).Success?
    ensures var c := AddAlarm(b, row, r).value; BundleSound(c) && Settled(c) == Settled(b) + 1
  {
    hide Identity, Printable, AssetGood, RelationshipGood, TagGood, Lower;
    var c := AddAlarm(b, row, r).value;
    StaysGood(b, c);
    LowerAgain(row.severity);
    forall i | 0 <= i < |b.alarms| ensures b.alarms[i].id != row.id { assert AlarmGood(b, b.alarms[i]); }
    if c.alarms != b.alarms {
      var x := c.alarms[|b.alarms|];
      var tag := FindTag(b.tags, row.tagId).value;
      var k :| 0 <= k < |b.tags| && b.tags[k] == tag;
      assert c.tags[k].id == x.tagId && c.tags[k].assetId == x.assetId;
      assert AlarmGood(c, x);
    }
  }

  lemma {:induction false} AssetsSound(rows: seq<Asset>, r: Reader)
    requires Fold(EMPTY, rows, AssetAdder(r)).Success?
    ensures var c := Fold(EMPTY, rows, AssetAdder(r)).value;
      && BundleSound(c) && Settled(c) == |rows| && c.relationships == [] && c.tags == [] && c.alarms == []
      && c.unresolved == []
    decreases |rows|
  {
    hide BundleSound, AddAsset;
    if rows == [] {
      EmptySound();
    } else {
      AssetsSound(rows[..|rows| - 1], r);
      AssetSound(Fold(EMPTY, rows[..|rows| - 1], AssetAdder(r)).value, rows[|rows| - 1], r);
    }
  }

  lemma EmptySound()
    ensures BundleSound(EMPTY)
  {
  }

  lemma {:induction false} RelationshipsSound(b: Bundle, rows: seq<Relationship>, r: Reader)
    requires BundleSound(b) && Fold(b, rows, RelationshipAdder(r)).Success?
    ensures var c := Fold(b, rows, RelationshipAdder(r)).value; BundleSound(c) && Settled(c) == Settled(b) + |rows|
    decreases |rows|
  {
    hide BundleSound, AddRelationship, Settled;
    if rows != [] {
      RelationshipsSound(b, rows[..|rows| - 1], r);
      RelationshipSound(Fold(b, rows[..|rows| - 1], RelationshipAdder(r)).value, rows[|rows| - 1], r);
    }
  }

  lemma {:induction false} TagsSound(b: Bundle, rows: seq<Tag>, r: Reader)
    requires BundleSound(b) && Fold(b, rows, TagAdder(r)).Success?
    ensures var c := Fold(b, rows, TagAdder(r)).value; BundleSound(c) && Settled(c) == Settled(b) + |rows|
    decreases |rows|
  {
    hide BundleSound, AddTag, Settled;
    if rows != [] {
      TagsSound(b, rows[..|rows| - 1], r);
      TagSound(Fold(b, rows[..|rows| - 1], TagAdder(r)).value, rows[|rows| - 1], r);
    }
  }

  lemma {:induction false} AlarmsSound(b: Bundle, rows: seq<AlarmRow>, r: Reader)
    requires BundleSound(b) && Fold(b, rows, AlarmAdder(r)).Success?
    ensures var c := Fold(b, rows, AlarmAdder(r)).value; BundleSound(c) && Settled(c) == Settled(b) + |rows|
    decreases |rows|
  {
    hide BundleSound, AddAlarm, Settled;
    if rows != [] {
      AlarmsSound(b, rows[..|rows| - 1], r);
      AlarmSound(Fold(b, rows[..|rows| - 1], AlarmAdder(r)).value, rows[|rows| - 1], r);
    }
  }

  /** Soundness and conservation: a successful import is closed under reference, and every row is one record or one
      unresolved entry. */
  lemma ImportSound(a: Artifacts, r: Reader)
    requires Imported(a, r).Success?
    ensures var b := Imported(a, r).value;
      BundleSound(b) && Settled(b) == |a.assets| + |a.relationships| + |a.tags| + |a.alarms|
  {
    hide BundleSound, Fold, Settled;
    var b1 := Fold(EMPTY, a.assets, AssetAdder(r)).value;
    AssetsSound(a.assets, r);
    var b2 := Fold(b1, a.relationships, RelationshipAdder(r)).value;
    RelationshipsSound(b1, a.relationships, r);
    var b3 := Fold(b2, a.tags, TagAdder(r)).value;
    TagsSound(b2, a.tags, r);
    AlarmsSound(b3, a.alarms, r);
  }

  // What the engine makes of the result

  /** What the importer does not check: the caps of the engine, and that measured and alarmed tags are numeric. */
  ghost predicate EngineDemands(b: Bundle) {
    && |b.assets| <= MAX_ASSETS && |b.relationships| <= MAX_RELATIONSHIPS && |b.tags| <= MAX_TAGS && |b.alarms| <= MAX_ALARMS
    && (forall t :: t in b.tags && (Lower(t.role) == "level" || Lower(t.role) == "flow") ==> Lower(t.dataType) in NUMERIC_TYPES)
    && forall x, t :: x in b.alarms && t in b.tags && t.id == x.tagId ==> Lower(t.dataType) in NUMERIC_TYPES
  }

  lemma SortedSame<T(!new)>(items: seq<T>, id: T -> string)
    requires DistinctIds(items, id)
    ensures var s := SortedById(items, id);
      |s| == |items| && DistinctIds(s, id) && (forall x :: x in s <==> x in items)
  {
    var s := SortedById(items, id);
    SameMembers(items, s);
    DistinctItems(items, id);
    DistinctPermutation(items, s);
    forall i, j | 0 <= i < j < |s| ensures id(s[i]) != id(s[j]) {
      assert s[i] in items && s[j] in items;
      var a :| 0 <= a < |items| && items[a] == s[i];
      var b :| 0 <= b < |items| && items[b] == s[j];
      assert a != b;
    }
  }

  lemma IdsOfMap<T(!new)>(items: seq<T>, id: T -> string)
    ensures forall k :: k in ById(items, id) <==> exists x :: x in items && id(x) == k
  {
    forall x | x in items ensures id(x) in ById(items, id) {
      var i :| 0 <= i < |items| && items[i] == x;
    }
  }

  lemma AssetIdsAre(machine: Machine, b: Bundle)
    requires BundleSound(b)
    ensures AssetIds(ModelOf(machine, b)) == b.assetIds
  {
    hide ById, AssetFields, RelationshipGood, TagGood, AlarmGood, Identity, SortedById;
    var m := ModelOf(machine, b);
    SortedSame(b.assets, ASSET_ID);
    IdsOfMap(m.assets, ASSET_ID);
    forall id ensures id in AssetIds(m) <==> id in b.assetIds {
      if id in AssetIds(m) {
        var a :| a in m.assets && ASSET_ID(a) == id;
        var i :| 0 <= i < |b.assets| && b.assets[i] == a;
        assert AssetGood(b, b.assets[i]);
      }
      if id in b.assetIds {
        var i :| 0 <= i < |b.assets| && b.assets[i].id == id;
        assert b.assets[i] in m.assets && ASSET_ID(b.assets[i]) == id;
      }
    }
  }

  lemma TagMapIs(machine: Machine, b: Bundle, t: Tag)
    requires BundleSound(b) && t in b.tags
    ensures t.id in TagMap(ModelOf(machine, b)) && TagMap(ModelOf(machine, b))[t.id] == t
  {
    hide ById, AssetGood, RelationshipGood, TagGood, AlarmGood, Identity, SortedById;
    SortedSame(b.tags, TAG_ID);
    MapsAgree(ModelOf(machine, b).tags, TAG_ID);
  }

  lemma TagKept(machine: Machine, b: Bundle, t: Tag)
    requires BundleSound(b) && t in b.tags
    ensures TagFields(t, AssetIds(ModelOf(machine, b)))
       <==> (Lower(t.role) == "level" || Lower(t.role) == "flow" ==> Lower(t.dataType) in NUMERIC_TYPES)
  {
    hide ById, AssetGood, RelationshipGood, AlarmGood, Identity, SortedById, Lower, Printable, DistinctIds;
    AssetIdsAre(machine, b);
    var i :| 0 <= i < |b.tags| && b.tags[i] == t;
    assert TagGood(b, b.tags[i]);
    assert Identity(t.assetId);
  }

  lemma AlarmKept(machine: Machine, b: Bundle, x: Alarm) returns (t: Tag)
    requires BundleSound(b) && x in b.alarms
    ensures t in b.tags && t.id == x.tagId
    ensures AlarmFields(x, AssetIds(ModelOf(machine, b)), TagMap(ModelOf(machine, b))) <==> Lower(t.dataType) in NUMERIC_TYPES
  {
    hide ById, AssetGood, RelationshipGood, Identity, SortedById, Lower, Printable, DistinctIds;
    AssetIdsAre(machine, b);
    var i :| 0 <= i < |b.alarms| && b.alarms[i] == x;
    assert AlarmGood(b, b.alarms[i]);
    var k :| 0 <= k < |b.tags| && b.tags[k].id == x.tagId && b.tags[k].assetId == x.assetId;
    t := b.tags[k];
    TagMapIs(machine, b, t);
    assert TagGood(b, b.tags[k]);
    assert Identity(x.assetId) && Identity(x.tagId);
  }

  lemma SameTag(b: Bundle, s: Tag, t: Tag)
    requires BundleSound(b) && s in b.tags && t in b.tags && s.id == t.id
    ensures s == t
  {
    hide AssetGood, RelationshipGood, TagGood, AlarmGood;
    var i :| 0 <= i < |b.tags| && b.tags[i] == s;
    var k :| 0 <= k < |b.tags| && b.tags[k] == t;
    assert TAG_ID(b.tags[i]) == TAG_ID(b.tags[k]);
  }

  lemma RelationshipKept(machine: Machine, b: Bundle, x: Relationship)
    requires BundleSound(b) && x in b.relationships
    ensures RelationshipFields(x, AssetIds(ModelOf(machine, b)))
  {
    hide ById, AssetGood, TagGood, AlarmGood, Identity, SortedById, Printable, DistinctIds;
    AssetIdsAre(machine, b);
    var i :| 0 <= i < |b.relationships| && b.relationships[i] == x;
    assert RelationshipGood(b, b.relationships[i]);
  }

  /** The engine accepts the imported model exactly when the demands hold that the importer leaves to it. */
  lemma EngineAccepts(machine: Machine, b: Bundle)
    requires MachineRead(machine) && BundleSound(b)
    ensures ValidModel(ModelOf(machine, b)) <==> EngineDemands(b)
  {
    hide ById, AssetGood, RelationshipGood, TagGood, AlarmGood, Identity, Text, SortedById, AssetFields, RelationshipFields, TagFields,
         AlarmFields, Lower, BundleSound, DistinctIds;
    var m := ModelOf(machine, b);
    BundleParts(b);
    SortedSame(b.assets, ASSET_ID);
    SortedSame(b.relationships, RELATIONSHIP_ID);
    SortedSame(b.tags, TAG_ID);
    SortedSame(b.alarms, ALARM_ID);
    forall i | 0 <= i < |m.relationships| ensures RelationshipFields(m.relationships[i], AssetIds(m)) {
      assert m.relationships[i] in m.relationships;
      RelationshipKept(machine, b, m.relationships[i]);
    }
    forall i | 0 <= i < |m.assets| ensures AssetFields(m.assets[i]) {
      assert m.assets[i] in m.assets;
    }
    if EngineDemands(b) {
      forall i | 0 <= i < |m.tags| ensures TagFields(m.tags[i], AssetIds(m)) {
        assert m.tags[i] in m.tags;
        TagKept(machine, b, m.tags[i]);
      }
      forall i | 0 <= i < |m.alarms| ensures AlarmFields(m.alarms[i], AssetIds(m), TagMap(m)) {
        assert m.alarms[i] in m.alarms;
        var t := AlarmKept(machine, b, m.alarms[i]);
      }
    }
    if ValidModel(m) {
      EngineDemanded(machine, b);
    }
  }

  lemma BundleParts(b: Bundle)
    requires BundleSound(b)
    ensures DistinctIds(b.assets, ASSET_ID) && DistinctIds(b.relationships, RELATIONSHIP_ID)
    ensures DistinctIds(b.tags, TAG_ID) && DistinctIds(b.alarms, ALARM_ID)
    ensures forall a :: a in b.assets ==> AssetFields(a)
  {
    hide RelationshipGood, TagGood, AlarmGood, AssetFields, DistinctIds;
    forall a | a in b.assets ensures AssetFields(a) {
      var i :| 0 <= i < |b.assets| && b.assets[i] == a;
      assert AssetGood(b, b.assets[i]);
    }
  }

  lemma EngineDemanded(machine: Machine, b: Bundle)
    requires BundleSound(b) && ValidModel(ModelOf(machine, b))
    ensures EngineDemands(b)
  {
    hide ById, AssetGood, RelationshipGood, TagGood, AlarmGood, Identity, Text, SortedById, AssetFields, RelationshipFields, TagFields,
         AlarmFields, Lower, BundleSound, DistinctIds;
    var m := ModelOf(machine, b);
    BundleParts(b);
    SortedSame(b.assets, ASSET_ID);
    SortedSame(b.relationships, RELATIONSHIP_ID);
    SortedSame(b.tags, TAG_ID);
    SortedSame(b.alarms, ALARM_ID);
    forall t | t in b.tags ensures TagFields(t, AssetIds(m)) {
      assert t in m.tags;
      var i :| 0 <= i < |m.tags| && m.tags[i] == t;
    }
    forall t | t in b.tags ensures Lower(t.role) == "level" || Lower(t.role) == "flow" ==> Lower(t.dataType) in NUMERIC_TYPES {
      TagKept(machine, b, t);
    }
    forall x, t | x in b.alarms && t in b.tags && t.id == x.tagId ensures Lower(t.dataType) in NUMERIC_TYPES {
      assert x in m.alarms;
      var i :| 0 <= i < |m.alarms| && m.alarms[i] == x;
      var s := AlarmKept(machine, b, x);
      SameTag(b, s, t);
    }
  }
}
