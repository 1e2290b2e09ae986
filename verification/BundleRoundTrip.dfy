/** Any model the engine accepts can be written as a bundle, in any layout of its tables, and is imported back. */
module BundleRoundTrip {
  import opened BundleText
  import opened Csv
  import opened Import
  import opened Model
  import opened Sequences
  import opened Tables
  import opened Wrappers

  // Tables that show records

  /** A printed table: its lines, the order of its columns, of which some may be of no use to the importer, and what stands
      in them. */
  datatype Sheet<!T> = Sheet(lines: seq<Line>, columns: seq<string>, cell: (T, string) -> string)

  function RowFor<T>(columns: seq<string>, cell: (T, string) -> string): T -> Row {
    (x: T) => seq(|columns|, i requires 0 <= i < |columns| => cell(x, columns[i]))
  }

  /** Within the limits, quoted where it must be, and with the required columns among its own. */
  ghost predicate Shows<T>(sheet: Sheet<T>, items: seq<T>, required: seq<string>, s: Setup) {
    && PrintableLines(sheet.lines) && RowsWithin(RowsOf(sheet.lines), s.csv)
    && RowsOf(sheet.lines) == [sheet.columns] + Map(RowFor(sheet.columns, sheet.cell), items)
    && HeadersAccepted(sheet.columns, BoundsOf(s)) && Names(sheet.columns) == sheet.columns
    && forall k :: 0 <= k < |required| ==> required[k] in sheet.columns
  }

  lemma SheetReads<T>(sheet: Sheet<T>, items: seq<T>, required: seq<string>, s: Setup)
    requires Shows(sheet, items, required, s)
    ensures TableOf(PrintLines(sheet.lines), required, s)
         == Success(Table(ColumnMap(sheet.columns), Map(RowFor(sheet.columns, sheet.cell), items)))
  {
    hide PrintLines, PrintableLines, Names, Parsed, ColumnMap, RowWithin, MapsColumns, Distinct;
    var rows := RowsOf(sheet.lines);
    assert rows[0] == sheet.columns && rows[1..] == Map(RowFor(sheet.columns, sheet.cell), items);
    RoundTrip(sheet.lines, s.csv);
    ColumnsMapped(sheet.columns);
    assert HasColumns(ColumnMap(sheet.columns), required) by { ColumnsFound(sheet.columns, required); }
  }

  lemma ColumnsFound(columns: seq<string>, required: seq<string>)
    requires Distinct(columns) && forall k :: 0 <= k < |required| ==> required[k] in columns
    ensures HasColumns(ColumnMap(columns), required)
  {
    hide ColumnMap;
    ColumnsMapped(columns);
  }

  lemma FieldReads<T>(columns: seq<string>, cell: (T, string) -> string, x: T, key: string)
    requires Distinct(columns) && key in columns
    ensures Field(RowFor(columns, cell)(x), ColumnMap(columns), key) == cell(x, key)
  {
    hide ColumnMap, Distinct;
    ColumnsMapped(columns);
    var k :| 0 <= k < |columns| && columns[k] == key;
  }

  // The records of each kind

  ghost predicate ShowsRelationships(sheet: Sheet<Relationship>, items: seq<Relationship>, s: Setup) {
    && Shows(sheet, items, RELATIONSHIP_COLUMNS, s)
    && forall x :: x in items ==> sheet.cell(x, "id") == x.id && sheet.cell(x, "from") == x.from && sheet.cell(x, "to") == x.to
                                  && sheet.cell(x, "kind") == x.kind
  }

  ghost predicate ShowsTags(sheet: Sheet<Tag>, items: seq<Tag>, s: Setup) {
    && Shows(sheet, items, TAG_COLUMNS, s)
    && forall x :: x in items ==>
         && sheet.cell(x, "id") == x.id && sheet.cell(x, "asset_id") == x.assetId && sheet.cell(x, "name") == x.name
         && sheet.cell(x, "role") == x.role && sheet.cell(x, "data_type") == x.dataType && sheet.cell(x, "unit") == x.unit
         && sheet.cell(x, "server") == x.source.server && sheet.cell(x, "namespace_uri") == x.source.namespaceUri
         && sheet.cell(x, "identifier") == x.source.identifier
  }

  /** A threshold is shown by any text that the reader of numbers takes for it. */
  ghost predicate ShowsAlarms(sheet: Sheet<Alarm>, items: seq<Alarm>, s: Setup) {
    && Shows(sheet, items, ALARM_COLUMNS, s)
    && forall x :: x in items ==>
         && sheet.cell(x, "id") == x.id && sheet.cell(x, "asset_id") == x.assetId && sheet.cell(x, "name") == x.name
         && sheet.cell(x, "tag_id") == x.tagId && sheet.cell(x, "operator") == x.operator && sheet.cell(x, "severity") == x.severity
         && Text(sheet.cell(x, "threshold")) && s.number(sheet.cell(x, "threshold")) == Some(x.threshold)
  }

  function AlarmRowOf(cell: (Alarm, string) -> string): Alarm -> AlarmRow {
    (x: Alarm) => AlarmRow(x.id, x.assetId, x.name, x.tagId, x.operator, cell(x, "threshold"), x.severity)
  }

  lemma ColumnsDistinct<T>(sheet: Sheet<T>, items: seq<T>, required: seq<string>, s: Setup)
    requires Shows(sheet, items, required, s)
    ensures Distinct(sheet.columns) && forall k :: 0 <= k < |required| ==> required[k] in sheet.columns
  {
    hide Names, Distinct, PrintableLines, RowsWithin, RowsOf, RowFor;
  }

  lemma RelationshipsRead(sheet: Sheet<Relationship>, items: seq<Relationship>, s: Setup)
    requires ShowsRelationships(sheet, items, s)
    ensures Map(RelationshipReader(ColumnMap(sheet.columns)), Map(RowFor(sheet.columns, sheet.cell), items)) == items
  {
    hide Shows, Field, ColumnMap, Distinct, RowFor;
    ColumnsDistinct(sheet, items, RELATIONSHIP_COLUMNS, s);
    forall i | 0 <= i < |items|
      ensures RelationshipReader(ColumnMap(sheet.columns))(RowFor(sheet.columns, sheet.cell)(items[i])) == items[i]
    {
      assert items[i] in items;
      forall k | 0 <= k < |RELATIONSHIP_COLUMNS| ensures var key := RELATIONSHIP_COLUMNS[k];
        Field(RowFor(sheet.columns, sheet.cell)(items[i]), ColumnMap(sheet.columns), key) == sheet.cell(items[i], key)
      {
        FieldReads(sheet.columns, sheet.cell, items[i], RELATIONSHIP_COLUMNS[k]);
      }
      var c := RELATIONSHIP_COLUMNS;
      assert c[0] == "id" && c[1] == "from" && c[2] == "to" && c[3] == "kind";
    }
  }

  lemma TagsRead(sheet: Sheet<Tag>, items: seq<Tag>, s: Setup)
    requires ShowsTags(sheet, items, s)
    ensures Map(TagReader(ColumnMap(sheet.columns)), Map(RowFor(sheet.columns, sheet.cell), items)) == items
  {
    hide Shows, Field, ColumnMap, Distinct, RowFor;
    ColumnsDistinct(sheet, items, TAG_COLUMNS, s);
    forall i | 0 <= i < |items|
      ensures TagReader(ColumnMap(sheet.columns))(RowFor(sheet.columns, sheet.cell)(items[i])) == items[i]
    {
      assert items[i] in items;
      forall k | 0 <= k < |TAG_COLUMNS| ensures var key := TAG_COLUMNS[k];
        Field(RowFor(sheet.columns, sheet.cell)(items[i]), ColumnMap(sheet.columns), key) == sheet.cell(items[i], key)
      {
        FieldReads(sheet.columns, sheet.cell, items[i], TAG_COLUMNS[k]);
      }
      var c := TAG_COLUMNS;
      assert c[0] == "id" && c[1] == "asset_id" && c[2] == "name" && c[3] == "role" && c[4] == "data_type" && c[5] == "unit"
             && c[6] == "server" && c[7] == "namespace_uri" && c[8] == "identifier";
    }
  }

  lemma AlarmsRead(sheet: Sheet<Alarm>, items: seq<Alarm>, s: Setup)
    requires ShowsAlarms(sheet, items, s)
    ensures Map(AlarmReader(ColumnMap(sheet.columns)), Map(RowFor(sheet.columns, sheet.cell), items)) == Map(AlarmRowOf(sheet.cell), items)
  {
    hide Shows, Field, ColumnMap, Distinct, RowFor, Text;
    ColumnsDistinct(sheet, items, ALARM_COLUMNS, s);
    forall i | 0 <= i < |items|
      ensures AlarmReader(ColumnMap(sheet.columns))(RowFor(sheet.columns, sheet.cell)(items[i])) == AlarmRowOf(sheet.cell)(items[i])
    {
      assert items[i] in items;
      forall k | 0 <= k < |ALARM_COLUMNS| ensures var key := ALARM_COLUMNS[k];
        Field(RowFor(sheet.columns, sheet.cell)(items[i]), ColumnMap(sheet.columns), key) == sheet.cell(items[i], key)
      {
        FieldReads(sheet.columns, sheet.cell, items[i], ALARM_COLUMNS[k]);
      }
      var c := ALARM_COLUMNS;
      assert c[0] == "id" && c[1] == "asset_id" && c[2] == "name" && c[3] == "tag_id" && c[4] == "operator" && c[5] == "threshold"
             && c[6] == "severity";
    }
  }

  // Every record of a valid model is taken

  ghost function IdsOf<T(!new)>(items: seq<T>, id: T -> string): set<string> {
    set x | x in items :: id(x)
  }

  /** The importer writes types and severities in lower case. */
  const LOWER_TAG := (t: Tag) => t.(dataType := Lower(t.dataType))
  const LOWER_ALARM := (a: Alarm) => a.(severity := Lower(a.severity))

  lemma IdsSnoc<T(!new)>(items: seq<T>, x: T, id: T -> string)
    requires DistinctIds(items + [x], id)
    ensures IdsOf(items + [x], id) == IdsOf(items, id) + {id(x)} && id(x) !in IdsOf(items, id) && DistinctIds(items, id)
  {
    var longer := items + [x];
    forall y | y in items ensures id(y) != id(x) && y in longer {
      var i :| 0 <= i < |items| && items[i] == y;
      assert longer[i] == y && longer[|items|] == x;
    }
    forall i, j | 0 <= i < j < |items| ensures id(items[i]) != id(items[j]) { assert longer[i] == items[i] && longer[j] == items[j]; }
    assert longer[|items|] == x;
  }

  lemma {:induction false} AssetsTaken(items: seq<Asset>, r: Reader)
    requires DistinctIds(items, ASSET_ID) && r.stringBytes >= MAX_STRING && forall i :: 0 <= i < |items| ==> AssetFields(items[i])
    ensures Fold(EMPTY, items, AssetAdder(r)) == Success(EMPTY.(assets := items, assetIds := IdsOf(items, ASSET_ID)))
    decreases |items|
  {
    hide DistinctIds, AssetFields, AddAsset;
    if items == [] {
      assert IdsOf(items, ASSET_ID) == {};
    } else {
      var front, last := items[..|items| - 1], items[|items| - 1];
      assert items == front + [last];
      IdsSnoc(front, last, ASSET_ID);
      AssetsTaken(front, r);
      AssetTaken(EMPTY.(assets := front, assetIds := IdsOf(front, ASSET_ID)), last, r);
    }
  }

  lemma AssetTaken(b: Bundle, a: Asset, r: Reader)
    requires AssetFields(a) && a.id !in b.assetIds && r.stringBytes >= MAX_STRING
    ensures AddAsset(b, a, r) == Success(b.(assets := b.assets + [a], assetIds := b.assetIds + {a.id}))
  {
    IdentityText(a.id);
  }

  /** An identity is a text that any table can hold. */
  lemma IdentityText(s: string)
    requires Identity(s)
    ensures Text(s)
  {
  }

  lemma {:induction false} RelationshipsTaken(b: Bundle, items: seq<Relationship>, r: Reader)
    requires b.relationships == [] && b.relationshipIds == {} && r.fieldBytes >= MAX_STRING
    requires DistinctIds(items, RELATIONSHIP_ID) && forall i :: 0 <= i < |items| ==> RelationshipFields(items[i], b.assetIds)
    ensures Fold(b, items, RelationshipAdder(r)) == Success(b.(relationships := items, relationshipIds := IdsOf(items, RELATIONSHIP_ID)))
    decreases |items|
  {
    hide DistinctIds, RelationshipFields, AddRelationship;
    if items == [] {
      assert IdsOf(items, RELATIONSHIP_ID) == {};
    } else {
      var front, last := items[..|items| - 1], items[|items| - 1];
      assert items == front + [last];
      IdsSnoc(front, last, RELATIONSHIP_ID);
      RelationshipsTaken(b, front, r);
      RelationshipTaken(b.(relationships := front, relationshipIds := IdsOf(front, RELATIONSHIP_ID)), last, r);
    }
  }

  lemma RelationshipTaken(b: Bundle, x: Relationship, r: Reader)
    requires RelationshipFields(x, b.assetIds) && x.id !in b.relationshipIds && r.fieldBytes >= MAX_STRING
    ensures AddRelationship(b, x, r)
         == Success(b.(relationships := b.relationships + [x], relationshipIds := b.relationshipIds + {x.id}))
  {
    hide Identity;
    IdentityText(x.id);
    IdentityText(x.from);
    IdentityText(x.to);
  }

  lemma {:induction false} TagsTaken(b: Bundle, items: seq<Tag>, r: Reader)
    requires b.tags == [] && b.tagIds == {} && r.fieldBytes >= MAX_STRING
    requires DistinctIds(items, TAG_ID) && forall i :: 0 <= i < |items| ==> TagFields(items[i], b.assetIds)
    ensures Fold(b, items, TagAdder(r)) == Success(b.(tags := Map(LOWER_TAG, items), tagIds := IdsOf(items, TAG_ID)))
    decreases |items|
  {
    hide DistinctIds, TagFields, AddTag, Lower;
    if items == [] {
      assert IdsOf(items, TAG_ID) == {};
    } else {
      var front, last := items[..|items| - 1], items[|items| - 1];
      assert items == front + [last];
      IdsSnoc(front, last, TAG_ID);
      TagsTaken(b, front, r);
      TagTaken(b.(tags := Map(LOWER_TAG, front), tagIds := IdsOf(front, TAG_ID)), last, r);
      MapSnoc(LOWER_TAG, front, last);
    }
  }

  lemma TagTaken(b: Bundle, t: Tag, r: Reader)
    requires TagFields(t, b.assetIds) && t.id !in b.tagIds && r.fieldBytes >= MAX_STRING
    ensures AddTag(b, t, r) == Success(b.(tags := b.tags + [LOWER_TAG(t)], tagIds := b.tagIds + {t.id}))
  {
    hide Identity, Lower;
    IdentityText(t.id);
    IdentityText(t.assetId);
  }

  /** The tags that the alarms of a model refer to are those of the bundle. */
  ghost predicate Refer(b: Bundle, a: Alarm) {
    a.assetId in b.assetIds && exists t :: t in b.tags && t.id == a.tagId && t.assetId == a.assetId
  }

  ghost predicate AlarmReady(b: Bundle, a: Alarm, cell: (Alarm, string) -> string, r: Reader) {
    && Identity(a.id) && Identity(a.assetId) && Identity(a.tagId) && a.operator in OPERATORS && Lower(a.severity) in SEVERITIES && Text(a.name)
    && Cell(cell(a, "threshold"), r) && r.number(cell(a, "threshold")) == Some(a.threshold) && Refer(b, a)
  }

  ghost predicate OneTagPerId(tags: seq<Tag>) {
    forall s, t :: s in tags && t in tags && s.id == t.id ==> s == t
  }

  lemma {:induction false} AlarmsTaken(b: Bundle, items: seq<Alarm>, cell: (Alarm, string) -> string, r: Reader)
    requires b.alarms == [] && b.alarmIds == {} && r.fieldBytes >= MAX_STRING && OneTagPerId(b.tags)
    requires DistinctIds(items, ALARM_ID) && forall i :: 0 <= i < |items| ==> AlarmReady(b, items[i], cell, r)
    ensures Fold(b, Map(AlarmRowOf(cell), items), AlarmAdder(r))
         == Success(b.(alarms := Map(LOWER_ALARM, items), alarmIds := IdsOf(items, ALARM_ID)))
    decreases |items|
  {
    hide DistinctIds, AddAlarm, Lower, Identity, Text, Cell, Refer, OneTagPerId;
    if items == [] {
      assert IdsOf(items, ALARM_ID) == {};
    } else {
      var front, last := items[..|items| - 1], items[|items| - 1];
      assert items == front + [last];
      IdsSnoc(front, last, ALARM_ID);
      AlarmsTaken(b, front, cell, r);
      var c := b.(alarms := Map(LOWER_ALARM, front), alarmIds := IdsOf(front, ALARM_ID));
      StillReady(b, c, last, cell, r);
      AlarmTaken(c, last, cell, r);
      MapSnoc(LOWER_ALARM, front, last);
      MapSnoc(AlarmRowOf(cell), front, last);
      var rows := Map(AlarmRowOf(cell), items);
      assert rows[..|rows| - 1] == Map(AlarmRowOf(cell), front);
    }
  }

  lemma StillReady(b: Bundle, c: Bundle, a: Alarm, cell: (Alarm, string) -> string, r: Reader)
    requires AlarmReady(b, a, cell, r) && c.tags == b.tags && c.assetIds == b.assetIds
    ensures AlarmReady(c, a, cell, r)
  {
    hide Lower, Identity, Text, Cell;
  }

  lemma AlarmTaken(b: Bundle, a: Alarm, cell: (Alarm, string) -> string, r: Reader)
    requires AlarmReady(b, a, cell, r) && a.id !in b.alarmIds && r.fieldBytes >= MAX_STRING && OneTagPerId(b.tags)
    ensures AddAlarm(b, AlarmRowOf(cell)(a), r) == Success(b.(alarms := b.alarms + [LOWER_ALARM(a)], alarmIds := b.alarmIds + {a.id}))
  {
    hide Identity, Lower;
    IdentityText(a.id);
    IdentityText(a.assetId);
    IdentityText(a.tagId);
    OperatorText(a.operator);
    SeverityText(a.severity);
    var t :| t in b.tags && t.id == a.tagId && t.assetId == a.assetId;
    var found := FindTag(b.tags, a.tagId);
    assert found == Some(t);
  }

  lemma OperatorText(s: string)
    requires s in OPERATORS
    ensures Text(s)
  {
  }

  /** A severity in any case is printable. */
  lemma SeverityText(s: string)
    requires Lower(s) in SEVERITIES
    ensures Text(s)
  {
    var low := Lower(s);
    assert Text(low);
    forall i | 0 <= i < |s| ensures !Control(s[i]) {
      assert low[i] == LowerChar(s[i]);
    }
  }

  // The round trip

  /** Everything the importer makes of a model: all of it, with nothing unresolved. */
  ghost function FullBundle(m: MachineModel): Bundle {
    Bundle(m.assets, m.relationships, Map(LOWER_TAG, m.tags), Map(LOWER_ALARM, m.alarms), IdsOf(m.assets, ASSET_ID),
           IdsOf(m.relationships, RELATIONSHIP_ID), IdsOf(m.tags, TAG_ID), IdsOf(m.alarms, ALARM_ID), [])
  }

  lemma AssetIdsOf(m: MachineModel)
    ensures AssetIds(m) == IdsOf(m.assets, ASSET_ID)
  {
    hide ById;
    IdsOfMap(m.assets, ASSET_ID);
  }

  lemma LoweredTags(m: MachineModel)
    requires ValidModel(m)
    ensures OneTagPerId(Map(LOWER_TAG, m.tags))
  {
    hide ById, AssetFields, TagFields, AlarmFields, RelationshipFields, Lower, Identity, Text;
    var lowered := Map(LOWER_TAG, m.tags);
    forall s, t | s in lowered && t in lowered && s.id == t.id ensures s == t {
      var i :| 0 <= i < |m.tags| && lowered[i] == s;
      var j :| 0 <= j < |m.tags| && lowered[j] == t;
      assert TAG_ID(m.tags[i]) == TAG_ID(m.tags[j]);
    }
  }

  lemma AlarmsReady(m: MachineModel, b: Bundle, cell: (Alarm, string) -> string, r: Reader, i: nat)
    requires ValidModel(m) && b.assetIds == AssetIds(m) && b.tags == Map(LOWER_TAG, m.tags) && i < |m.alarms|
    requires Cell(cell(m.alarms[i], "threshold"), r) && r.number(cell(m.alarms[i], "threshold")) == Some(m.alarms[i].threshold)
    ensures AlarmReady(b, m.alarms[i], cell, r)
  {
    hide ById, AssetFields, TagFields, RelationshipFields, Lower, Identity, Text, DistinctIds, Cell;
    var a := m.alarms[i];
    assert AlarmFields(a, AssetIds(m), TagMap(m));
    var t := TagMap(m)[a.tagId];
    var k :| 0 <= k < |m.tags| && m.tags[k] == t;
    assert b.tags[k] == LOWER_TAG(t) && b.tags[k] in b.tags;
    assert TAG_ID(t) == a.tagId;
  }

  lemma RecordsTaken(m: MachineModel, cell: (Alarm, string) -> string, r: Reader)
    requires ValidModel(m) && r.stringBytes >= MAX_STRING && r.fieldBytes >= MAX_STRING
    requires forall x :: x in m.alarms ==> Cell(cell(x, "threshold"), r) && r.number(cell(x, "threshold")) == Some(x.threshold)
    ensures var b := FullBundle(m);
      var b1 := EMPTY.(assets := b.assets, assetIds := b.assetIds);
      var b2 := b1.(relationships := b.relationships, relationshipIds := b.relationshipIds);
      var b3 := b2.(tags := b.tags, tagIds := b.tagIds);
      && Fold(EMPTY, m.assets, AssetAdder(r)) == Success(b1) && Fold(b1, m.relationships, RelationshipAdder(r)) == Success(b2)
      && Fold(b2, m.tags, TagAdder(r)) == Success(b3) && Fold(b3, Map(AlarmRowOf(cell), m.alarms), AlarmAdder(r)) == Success(b)
  {
    hide ById, AssetFields, TagFields, AlarmFields, RelationshipFields, Identity, Text, DistinctIds, Cell, Fold, AlarmReady, OneTagPerId;
    AssetIdsOf(m);
    LoweredTags(m);
    var b := FullBundle(m);
    var b1 := EMPTY.(assets := b.assets, assetIds := b.assetIds);
    var b2 := b1.(relationships := b.relationships, relationshipIds := b.relationshipIds);
    var b3 := b2.(tags := b.tags, tagIds := b.tagIds);
    AssetsTaken(m.assets, r);
    RelationshipsTaken(b1, m.relationships, r);
    TagsTaken(b2, m.tags, r);
    forall i | 0 <= i < |m.alarms| ensures AlarmReady(b3, m.alarms[i], cell, r) {
      assert m.alarms[i] in m.alarms;
      AlarmsReady(m, b3, cell, r, i);
    }
    AlarmsTaken(b3, m.alarms, cell, r);
  }

  /** The round trip of models: whatever the engine accepts can be written as three tables, with columns in any order
      and others between them, quoted at will and with any line endings, and is imported from its texts as a whole, with
      types and severities in lower case and nothing unresolved. */
  lemma ModelImports(m: MachineModel, relationships: Sheet<Relationship>, tags: Sheet<Tag>, alarms: Sheet<Alarm>, s: Setup)
    requires ValidModel(m) && s.stringBytes >= MAX_STRING && s.csv.maxFieldBytes >= MAX_STRING
    requires ShowsRelationships(relationships, m.relationships, s) && ShowsTags(tags, m.tags, s) && ShowsAlarms(alarms, m.alarms, s)
    requires |m.assets| <= s.csv.maxRecords && |m.assets| + |m.relationships| + |m.tags| + |m.alarms| <= s.totalRecords
    ensures var texts := Texts(m.assets, PrintLines(relationships.lines), PrintLines(tags.lines), PrintLines(alarms.lines));
      ImportedTexts(texts, s) == Success(FullBundle(m))
  {
    hide ValidModel, Shows, PrintLines, TableOf, Fold, FullBundle, Text;
    forall x | x in m.alarms ensures Cell(alarms.cell(x, "threshold"), ReaderOf(s)) { TextFits(alarms.cell(x, "threshold"), ReaderOf(s)); }
    RecordsTaken(m, alarms.cell, ReaderOf(s));
    SheetReads(relationships, m.relationships, RELATIONSHIP_COLUMNS, s);
    RelationshipsRead(relationships, m.relationships, s);
    SheetReads(tags, m.tags, TAG_COLUMNS, s);
    TagsRead(tags, m.tags, s);
    SheetReads(alarms, m.alarms, ALARM_COLUMNS, s);
    AlarmsRead(alarms, m.alarms, s);
    FullParts(m);
  }

  lemma FullParts(m: MachineModel)
    ensures var b := FullBundle(m);
      b.unresolved == [] && |b.assets| == |m.assets| && |b.relationships| == |m.relationships|
      && EMPTY.(assets := b.assets, assetIds := b.assetIds, relationships := b.relationships, relationshipIds := b.relationshipIds,
                tags := b.tags, tagIds := b.tagIds, alarms := b.alarms, alarmIds := b.alarmIds) == b
  {
  }

  lemma TextFits(s: string, r: Reader)
    requires Text(s) && r.fieldBytes >= MAX_STRING
    ensures Cell(s, r)
  {
  }

  /** And the engine accepts the imported model again: the same records, in the order of their identifiers. */
  lemma ModelReturns(m: MachineModel, relationships: Sheet<Relationship>, tags: Sheet<Tag>, alarms: Sheet<Alarm>, s: Setup)
    requires ValidModel(m) && m.revision >= 1 && s.stringBytes >= MAX_STRING && s.csv.maxFieldBytes >= MAX_STRING
    requires ShowsRelationships(relationships, m.relationships, s) && ShowsTags(tags, m.tags, s) && ShowsAlarms(alarms, m.alarms, s)
    requires |m.assets| <= s.csv.maxRecords && |m.assets| + |m.relationships| + |m.tags| + |m.alarms| <= s.totalRecords
    ensures var texts := Texts(m.assets, PrintLines(relationships.lines), PrintLines(tags.lines), PrintLines(alarms.lines));
      && ImportedTexts(texts, s).Success?
      && var again := ModelOf(Machine(m.modelId, m.name, m.revision), ImportedTexts(texts, s).value);
         && ValidModel(again)
         && again == m.(assets := SortedById(m.assets, ASSET_ID), relationships := SortedById(m.relationships, RELATIONSHIP_ID),
                        tags := SortedById(Map(LOWER_TAG, m.tags), TAG_ID), alarms := SortedById(Map(LOWER_ALARM, m.alarms), ALARM_ID))
  {
    hide ValidModel, Shows, PrintLines, ImportedTexts, TableOf, BundleSound, EngineDemands, SortedById, Settled, ShowsRelationships, ShowsTags,
         ShowsAlarms;
    var texts := Texts(m.assets, PrintLines(relationships.lines), PrintLines(tags.lines), PrintLines(alarms.lines));
    ModelImports(m, relationships, tags, alarms, s);
    TextsSound(texts, s);
    var machine := Machine(m.modelId, m.name, m.revision);
    assert MachineRead(machine) by { NamedValid(m); }
    FullDemands(m);
    EngineAccepts(machine, FullBundle(m));
  }

  lemma NamedValid(m: MachineModel)
    requires ValidModel(m)
    ensures Identity(m.modelId) && Text(m.name) && m.revision <= MAX_REVISION
  {
    hide ById, AssetFields, TagFields, AlarmFields, RelationshipFields, Identity, Text, DistinctIds;
  }

  lemma FullDemands(m: MachineModel)
    requires ValidModel(m)
    ensures EngineDemands(FullBundle(m))
  {
    hide ById, AssetFields, RelationshipFields, Identity, Text, DistinctIds, Lower, Printable, AlarmFields, TagFields;
    var b := FullBundle(m);
    forall t | t in b.tags
      ensures Lower(t.role) == "level" || Lower(t.role) == "flow" ==> Lower(t.dataType) in NUMERIC_TYPES
    {
      var i :| 0 <= i < |m.tags| && b.tags[i] == t;
      TagNumeric(m, i);
    }
    forall x, t | x in b.alarms && t in b.tags && t.id == x.tagId ensures Lower(t.dataType) in NUMERIC_TYPES {
      var i :| 0 <= i < |m.alarms| && b.alarms[i] == x;
      var k :| 0 <= k < |m.tags| && b.tags[k] == t;
      LowerAgain(m.tags[k].dataType);
      AlarmNumeric(m, i, k);
    }
  }

  lemma TagNumeric(m: MachineModel, i: nat)
    requires ValidModel(m) && i < |m.tags|
    ensures var t := LOWER_TAG(m.tags[i]);
      Lower(t.role) == "level" || Lower(t.role) == "flow" ==> Lower(t.dataType) in NUMERIC_TYPES
  {
    hide ById, AssetFields, RelationshipFields, AlarmFields, Identity, Text, DistinctIds, Lower, Printable;
    LowerAgain(m.tags[i].dataType);
    assert TagFields(m.tags[i], AssetIds(m));
  }

  lemma AlarmNumeric(m: MachineModel, i: nat, k: nat)
    requires ValidModel(m) && i < |m.alarms| && k < |m.tags| && m.tags[k].id == m.alarms[i].tagId
    ensures Lower(m.tags[k].dataType) in NUMERIC_TYPES
  {
    hide ById, AssetFields, TagFields, RelationshipFields, Identity, Text, DistinctIds, Lower, Printable;
    assert AlarmFields(m.alarms[i], AssetIds(m), TagMap(m));
    ByIdFinds(m.tags, TAG_ID, k);
  }

  // Such tables exist

  function Quoted(row: Row): Line {
    Line(seq(|row|, i requires 0 <= i < |row| => Printed(row[i], true)), Lf)
  }

  /** One layout that always serves: the required columns and nothing else, everything in quotes. */
  function PlainSheet<T>(items: seq<T>, required: seq<string>, cell: (T, string) -> string): Sheet<T> {
    Sheet([Quoted(required)] + Map((x: T) => Quoted(RowFor(required, cell)(x)), items), required, cell)
  }

  lemma PlainSheetShows<T>(items: seq<T>, required: seq<string>, cell: (T, string) -> string, s: Setup)
    requires HeadersAccepted(required, BoundsOf(s)) && Names(required) == required
    requires 0 < |required| <= s.csv.maxColumns && |items| <= s.csv.maxRecords
    requires forall k :: 0 <= k < |required| ==> |required[k]| <= s.csv.maxFieldBytes
    requires forall i, k :: 0 <= i < |items| && 0 <= k < |required| ==> |cell(items[i], required[k])| <= s.csv.maxFieldBytes
    ensures Shows(PlainSheet(items, required, cell), items, required, s)
  {
    hide Names, HeadersAccepted;
    var sheet := PlainSheet(items, required, cell);
    var rows := RowsOf(sheet.lines);
    assert rows == [required] + Map(RowFor(required, cell), items) by {
      forall i | 0 <= i < |rows| ensures rows[i] == ([required] + Map(RowFor(required, cell), items))[i] {
        QuotedReads(if i == 0 then required else RowFor(required, cell)(items[i - 1]));
      }
    }
  }

  lemma QuotedReads(row: Row)
    ensures TextsOf(Quoted(row).fields) == row
  {
  }

  lemma Trimmed(name: string)
    requires name != "" && !Blank(name[0]) && !Blank(name[|name| - 1])
    ensures Trim(name) == name
  {
  }

  lemma RequiredNames(required: seq<string>, b: Bounds)
    requires Distinct(required) && forall k :: 0 <= k < |required| ==>
      0 < |required[k]| <= b.stringBytes && !Blank(required[k][0]) && !Blank(required[k][|required[k]| - 1])
    ensures Names(required) == required && HeadersAccepted(required, b)
  {
    hide Trim;
    forall k | 0 <= k < |required| ensures Trim(required[k]) == required[k] { Trimmed(required[k]); }
    assert Names(required) == required;
  }

  /** The names that the importer asks for make proper headers. */
  lemma RequiredAccepted(b: Bounds)
    requires b.stringBytes >= 13
    ensures Names(RELATIONSHIP_COLUMNS) == RELATIONSHIP_COLUMNS && HeadersAccepted(RELATIONSHIP_COLUMNS, b)
    ensures Names(TAG_COLUMNS) == TAG_COLUMNS && HeadersAccepted(TAG_COLUMNS, b)
    ensures Names(ALARM_COLUMNS) == ALARM_COLUMNS && HeadersAccepted(ALARM_COLUMNS, b)
  {
    hide Names, HeadersAccepted;
    RequiredNames(RELATIONSHIP_COLUMNS, b);
    RequiredNames(TAG_COLUMNS, b);
    RequiredNames(ALARM_COLUMNS, b);
  }

  const RELATIONSHIP_CELL := (x: Relationship, c: string) =>
    if c == "id" then x.id else if c == "from" then x.from else if c == "to" then x.to else x.kind

  const TAG_CELL := (x: Tag, c: string) =>
    if c == "id" then x.id else if c == "asset_id" then x.assetId else if c == "name" then x.name else if c == "role" then x.role
    else if c == "data_type" then x.dataType else if c == "unit" then x.unit else if c == "server" then x.source.server
    else if c == "namespace_uri" then x.source.namespaceUri else x.source.identifier

  function AlarmCell(number: real -> string): (Alarm, string) -> string {
    (x: Alarm, c: string) =>
      if c == "id" then x.id else if c == "asset_id" then x.assetId else if c == "name" then x.name else if c == "tag_id" then x.tagId
      else if c == "operator" then x.operator else if c == "severity" then x.severity else number(x.threshold)
  }

  /** The configured limits leave room for the model, and its thresholds have texts that are read back. */
  ghost predicate RoomFor(m: MachineModel, number: real -> string, s: Setup) {
    && s.stringBytes >= MAX_STRING && s.csv.maxFieldBytes >= MAX_STRING && s.csv.maxColumns >= |TAG_COLUMNS|
    && |m.assets| <= s.csv.maxRecords && |m.relationships| <= s.csv.maxRecords && |m.tags| <= s.csv.maxRecords && |m.alarms| <= s.csv.maxRecords
    && |m.assets| + |m.relationships| + |m.tags| + |m.alarms| <= s.totalRecords
    && forall x :: x in m.alarms ==> Text(number(x.threshold)) && s.number(number(x.threshold)) == Some(x.threshold)
  }

  lemma RelationshipsShown(m: MachineModel, number: real -> string, s: Setup)
    requires ValidModel(m) && RoomFor(m, number, s)
    ensures ShowsRelationships(PlainSheet(m.relationships, RELATIONSHIP_COLUMNS, RELATIONSHIP_CELL), m.relationships, s)
  {
    hide ById, AssetFields, TagFields, AlarmFields, DistinctIds, Names, HeadersAccepted, Shows;
    RequiredAccepted(BoundsOf(s));
    forall i, k | 0 <= i < |m.relationships| && 0 <= k < |RELATIONSHIP_COLUMNS|
      ensures |RELATIONSHIP_CELL(m.relationships[i], RELATIONSHIP_COLUMNS[k])| <= s.csv.maxFieldBytes
    {
      assert RelationshipFields(m.relationships[i], AssetIds(m));
    }
    PlainSheetShows(m.relationships, RELATIONSHIP_COLUMNS, RELATIONSHIP_CELL, s);
  }

  lemma TagCellFits(t: Tag, assets: set<string>, c: string)
    requires TagFields(t, assets)
    ensures |TAG_CELL(t, c)| <= MAX_STRING
  {
    hide Lower;
  }

  lemma TagCellsTell(t: Tag)
    ensures TAG_CELL(t, "id") == t.id && TAG_CELL(t, "asset_id") == t.assetId && TAG_CELL(t, "name") == t.name
    ensures TAG_CELL(t, "role") == t.role && TAG_CELL(t, "data_type") == t.dataType && TAG_CELL(t, "unit") == t.unit
    ensures TAG_CELL(t, "server") == t.source.server && TAG_CELL(t, "namespace_uri") == t.source.namespaceUri
    ensures TAG_CELL(t, "identifier") == t.source.identifier
  {
  }

  lemma TagsShown(m: MachineModel, number: real -> string, s: Setup)
    requires ValidModel(m) && RoomFor(m, number, s)
    ensures ShowsTags(PlainSheet(m.tags, TAG_COLUMNS, TAG_CELL), m.tags, s)
  {
    hide ById, AssetFields, RelationshipFields, TagFields, AlarmFields, DistinctIds, Names, HeadersAccepted, Shows, Text, TAG_CELL;
    RequiredAccepted(BoundsOf(s));
    forall i, k | 0 <= i < |m.tags| && 0 <= k < |TAG_COLUMNS|
      ensures |TAG_CELL(m.tags[i], TAG_COLUMNS[k])| <= s.csv.maxFieldBytes
    {
      TagCellFits(m.tags[i], AssetIds(m), TAG_COLUMNS[k]);
    }
    PlainSheetShows(m.tags, TAG_COLUMNS, TAG_CELL, s);
    assert PlainSheet(m.tags, TAG_COLUMNS, TAG_CELL).cell == TAG_CELL;
    forall x | x in m.tags ensures var cell := TAG_CELL;
      && cell(x, "id") == x.id && cell(x, "asset_id") == x.assetId && cell(x, "name") == x.name && cell(x, "role") == x.role
      && cell(x, "data_type") == x.dataType && cell(x, "unit") == x.unit && cell(x, "server") == x.source.server
      && cell(x, "namespace_uri") == x.source.namespaceUri && cell(x, "identifier") == x.source.identifier
    {
      TagCellsTell(x);
    }
  }

  lemma AlarmCellFits(a: Alarm, assets: set<string>, tags: map<string, Tag>, number: real -> string, c: string)
    requires AlarmFields(a, assets, tags) && Text(number(a.threshold))
    ensures |AlarmCell(number)(a, c)| <= MAX_STRING
  {
    hide Lower;
    OperatorText(a.operator);
    SeverityText(a.severity);
  }

  lemma AlarmsShown(m: MachineModel, number: real -> string, s: Setup)
    requires ValidModel(m) && RoomFor(m, number, s)
    ensures ShowsAlarms(PlainSheet(m.alarms, ALARM_COLUMNS, AlarmCell(number)), m.alarms, s)
  {
    hide ById, AssetFields, RelationshipFields, TagFields, AlarmFields, DistinctIds, Names, HeadersAccepted, Shows, Text;
    RequiredAccepted(BoundsOf(s));
    forall i, k | 0 <= i < |m.alarms| && 0 <= k < |ALARM_COLUMNS|
      ensures |AlarmCell(number)(m.alarms[i], ALARM_COLUMNS[k])| <= s.csv.maxFieldBytes
    {
      assert m.alarms[i] in m.alarms;
      AlarmCellFits(m.alarms[i], AssetIds(m), TagMap(m), number, ALARM_COLUMNS[k]);
    }
    PlainSheetShows(m.alarms, ALARM_COLUMNS, AlarmCell(number), s);
  }

  /** The texts of a model in that layout. */
  function PlainTexts(m: MachineModel, number: real -> string): Texts {
    Texts(m.assets, PrintLines(PlainSheet(m.relationships, RELATIONSHIP_COLUMNS, RELATIONSHIP_CELL).lines),
          PrintLines(PlainSheet(m.tags, TAG_COLUMNS, TAG_CELL).lines),
          PrintLines(PlainSheet(m.alarms, ALARM_COLUMNS, AlarmCell(number)).lines))
  }

  /** So every valid model for which the limits leave room has texts, and comes back from them: the import succeeds with
      nothing unresolved, and the engine accepts the same records again. */
  lemma EveryModelReturns(m: MachineModel, number: real -> string, s: Setup)
    requires ValidModel(m) && m.revision >= 1 && RoomFor(m, number, s)
    ensures ImportedTexts(PlainTexts(m, number), s) == Success(FullBundle(m)) && FullBundle(m).unresolved == []
    ensures var again := ModelOf(Machine(m.modelId, m.name, m.revision), FullBundle(m));
      && ValidModel(again)
      && again == m.(assets := SortedById(m.assets, ASSET_ID), relationships := SortedById(m.relationships, RELATIONSHIP_ID),
                     tags := SortedById(Map(LOWER_TAG, m.tags), TAG_ID), alarms := SortedById(Map(LOWER_ALARM, m.alarms), ALARM_ID))
  {
    hide ValidModel, PlainSheet, PrintLines, ImportedTexts, SortedById, ShowsRelationships, ShowsTags, ShowsAlarms, Text;
    RelationshipsShown(m, number, s);
    TagsShown(m, number, s);
    AlarmsShown(m, number, s);
    var relationships := PlainSheet(m.relationships, RELATIONSHIP_COLUMNS, RELATIONSHIP_CELL);
    var tags := PlainSheet(m.tags, TAG_COLUMNS, TAG_CELL);
    var alarms := PlainSheet(m.alarms, ALARM_COLUMNS, AlarmCell(number));
    ModelImports(m, relationships, tags, alarms, s);
    ModelReturns(m, relationships, tags, alarms, s);
  }
}
