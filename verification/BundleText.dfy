/** A bundle from its texts: the tables are parsed, checked and read by the names of their columns, and a printed model
    comes back. */
module BundleText {
  import opened Csv
  import opened Import
  import opened Model
  import opened Sequences
  import opened Tables
  import opened Wrappers

  datatype Setup = Setup(csv: Limits, stringBytes: nat, totalRecords: nat, number: string -> Option<real>)

  function BoundsOf(s: Setup): Bounds {
    Bounds(s.stringBytes, s.csv.maxFieldBytes, s.csv.maxRecords)
  }

  function ReaderOf(s: Setup): Reader {
    Reader(s.csv.maxFieldBytes, s.stringBytes, s.number)
  }

  datatype BundleError = Unreadable(csv: CsvError) | Misshapen(table: TableError) | Refused(row: ImportError) | OverTotal

  // One table

  datatype Table = Table(headers: map<string, nat>, rows: seq<Row>)

  predicate HasColumns(headers: map<string, nat>, required: seq<string>) {
    forall k :: 0 <= k < |required| ==> required[k] in headers
  }

  ghost function TableOf(text: string, required: seq<string>, s: Setup): Result<Table, BundleError> {
    match Parsed(text, s.csv)
    case Failure(e) => Failure(Unreadable(e))
    case Success(rows) =>
      AcceptedWithin(text, s.csv);
      if !HeadersAccepted(rows[0], BoundsOf(s)) then Failure(Misshapen(BadHeader))
      else if !HasColumns(ColumnMap(Names(rows[0])), required) then Failure(Misshapen(MissingColumn))
      else if !OneWidth(rows) then Failure(Misshapen(BadWidth))
      else if |rows| - 1 > s.csv.maxRecords then Failure(Misshapen(ManyRecords))
      else Success(Table(ColumnMap(Names(rows[0])), rows[1..]))
  }

  method RequireColumns(headers: map<string, nat>, required: seq<string>) returns (ok: bool)
    ensures ok <==> HasColumns(headers, required)
  {
    for k := 0 to |required|
      invariant forall j :: 0 <= j < k ==> required[j] in headers
    {
      if required[k] !in headers {
        return false;
      }
    }
    ok := true;
  }

  method ReadTable(text: string, required: seq<string>, s: Setup) returns (r: Result<Table, BundleError>)
    ensures r == TableOf(text, required, s)
  {
    hide Parsed, HeadersAccepted, ColumnMap, OneWidth, MapsColumns, Names, HasColumns, RowsWithin;
    var parsed := ParseCsv(text, s.csv);
    if parsed.Failure? {
      return Failure(Unreadable(parsed.error));
    }
    var rows := parsed.value;
    AcceptedWithin(text, s.csv);
    var headers := HeaderMap(rows[0], BoundsOf(s));
    if headers.Failure? {
      return Failure(Misshapen(BadHeader));
    }
    var declared := RequireColumns(headers.value, required);
    if !declared {
      return Failure(Misshapen(MissingColumn));
    }
    var fault := CheckRowWidth(rows, BoundsOf(s));
    r := if fault.Some? then Failure(Misshapen(fault.value)) else Success(Table(headers.value, rows[1..]));
  }

  // The records of a table

  function Field(row: Row, headers: map<string, nat>, key: string): string {
    if key in headers && headers[key] < |row| then row[headers[key]] else ""
  }

  /** The check of a cell in a record is that of the table reader. */
  lemma CellAgrees(row: Row, headers: map<string, nat>, key: string, s: Setup, required: bool)
    requires key in headers && headers[key] < |row|
    ensures var cell := CellOf(row, headers, key, BoundsOf(s), required);
      && (cell.Success? <==> if required then Cell(Field(row, headers, key), ReaderOf(s)) else CellOrEmpty(Field(row, headers, key), ReaderOf(s)))
      && (cell.Success? ==> cell.value == Field(row, headers, key))
  {
  }

  const RELATIONSHIP_COLUMNS: seq<string> := ["id", "from", "to", "kind"]
  const TAG_COLUMNS: seq<string> :=
    ["id", "asset_id", "name", "role", "data_type", "unit", "server", "namespace_uri", "identifier"]
  const ALARM_COLUMNS: seq<string> := ["id", "asset_id", "name", "tag_id", "operator", "threshold", "severity"]

  function RelationshipReader(headers: map<string, nat>): Row -> Relationship {
    (row: Row) => Relationship(Field(row, headers, "id"), Field(row, headers, "from"), Field(row, headers, "to"), Field(row, headers, "kind"))
  }

  function TagReader(headers: map<string, nat>): Row -> Tag {
    (row: Row) => Tag(Field(row, headers, "id"), Field(row, headers, "asset_id"), Field(row, headers, "name"), Field(row, headers, "role"),
                      Field(row, headers, "data_type"), Field(row, headers, "unit"),
                      Source(Field(row, headers, "server"), Field(row, headers, "namespace_uri"), Field(row, headers, "identifier")))
  }

  function AlarmReader(headers: map<string, nat>): Row -> AlarmRow {
    (row: Row) => AlarmRow(Field(row, headers, "id"), Field(row, headers, "asset_id"), Field(row, headers, "name"),
                           Field(row, headers, "tag_id"), Field(row, headers, "operator"), Field(row, headers, "threshold"),
                           Field(row, headers, "severity"))
  }

  // A bundle

  /** The artifacts of a model: the asset records as read from JSON, and three tables as text. */
  datatype Texts = Texts(assets: seq<Asset>, relationships: string, tags: string, alarms: string)

  function Counted(b: Bundle, total: nat, records: nat, s: Setup): Result<(Bundle, nat), BundleError> {
    if total + records > s.totalRecords then Failure(OverTotal) else Success((b, total + records))
  }

  function TakeRows<R>(b: Bundle, total: nat, rows: seq<R>, add: (Bundle, R) -> Result<Bundle, ImportError>, s: Setup)
    : Result<(Bundle, nat), BundleError>
  {
    match Fold(b, rows, add) case Failure(e) => Failure(Refused(e)) case Success(c) => Counted(c, total, |rows|, s)
  }

  ghost function TakeTable<R>(b: Bundle, total: nat, text: string, required: seq<string>, read: map<string, nat> -> Row -> R,
                              add: (Bundle, R) -> Result<Bundle, ImportError>, s: Setup)
    : Result<(Bundle, nat), BundleError>
  {
    match TableOf(text, required, s)
    case Failure(e) => Failure(e)
    case Success(t) => TakeRows(b, total, Map(read(t.headers), t.rows), add, s)
  }

  ghost function TakeAssets(t: Texts, s: Setup): Result<(Bundle, nat), BundleError> {
    if |t.assets| > s.csv.maxRecords then Failure(Misshapen(ManyRecords))
    else TakeRows(EMPTY, 0, t.assets, AssetAdder(ReaderOf(s)), s)
  }

  /** The artifacts in order: each is parsed, checked, taken and counted before the next one is looked at. */
  ghost function ImportedTexts(t: Texts, s: Setup): Result<Bundle, BundleError> {
    match TakeAssets(t, s)
    case Failure(e) => Failure(e)
    case Success(p1) => match TakeTable(p1.0, p1.1, t.relationships, RELATIONSHIP_COLUMNS, RelationshipReader, RelationshipAdder(ReaderOf(s)), s)
      case Failure(e) => Failure(e)
      case Success(p2) => match TakeTable(p2.0, p2.1, t.tags, TAG_COLUMNS, TagReader, TagAdder(ReaderOf(s)), s)
        case Failure(e) => Failure(e)
        case Success(p3) => match TakeTable(p3.0, p3.1, t.alarms, ALARM_COLUMNS, AlarmReader, AlarmAdder(ReaderOf(s)), s)
          case Failure(e) => Failure(e)
          case Success(p4) => Success(p4.0)
  }

  method Count(total: nat, records: nat, s: Setup) returns (r: Result<nat, BundleError>)
    ensures r == if total + records > s.totalRecords then Failure(OverTotal) else Success(total + records)
  {
    r := if total + records > s.totalRecords then Failure(OverTotal) else Success(total + records);
  }

  method TakeRelationships(state: ImportState, total: nat, text: string, s: Setup) returns (r: Result<nat, BundleError>)
    requires state.reader == ReaderOf(s)
    modifies state
    ensures match TakeTable(old(state.bundle), total, text, RELATIONSHIP_COLUMNS, RelationshipReader, RelationshipAdder(ReaderOf(s)), s)
      case Failure(e) => r == Failure(e)
      case Success(p) => r == Success(p.1) && state.bundle == p.0
  {
    hide TableOf, Fold;
    var table := ReadTable(text, RELATIONSHIP_COLUMNS, s);
    if table.Failure? {
      return Failure(table.error);
    }
    var rows := Map(RelationshipReader(table.value.headers), table.value.rows);
    var fault := state.ParseRelationships(rows);
    if fault.Some? {
      return Failure(Refused(fault.value));
    }
    r := Count(total, |rows|, s);
  }

  method TakeTags(state: ImportState, total: nat, text: string, s: Setup) returns (r: Result<nat, BundleError>)
    requires state.reader == ReaderOf(s)
    modifies state
    ensures match TakeTable(old(state.bundle), total, text, TAG_COLUMNS, TagReader, TagAdder(ReaderOf(s)), s)
      case Failure(e) => r == Failure(e)
      case Success(p) => r == Success(p.1) && state.bundle == p.0
  {
    hide TableOf, Fold;
    var table := ReadTable(text, TAG_COLUMNS, s);
    if table.Failure? {
      return Failure(table.error);
    }
    var rows := Map(TagReader(table.value.headers), table.value.rows);
    var fault := state.ParseTags(rows);
    if fault.Some? {
      return Failure(Refused(fault.value));
    }
    r := Count(total, |rows|, s);
  }

  method TakeAlarms(state: ImportState, total: nat, text: string, s: Setup) returns (r: Result<nat, BundleError>)
    requires state.reader == ReaderOf(s)
    modifies state
    ensures match TakeTable(old(state.bundle), total, text, ALARM_COLUMNS, AlarmReader, AlarmAdder(ReaderOf(s)), s)
      case Failure(e) => r == Failure(e)
      case Success(p) => r == Success(p.1) && state.bundle == p.0
  {
    hide TableOf, Fold;
    var table := ReadTable(text, ALARM_COLUMNS, s);
    if table.Failure? {
      return Failure(table.error);
    }
    var rows := Map(AlarmReader(table.value.headers), table.value.rows);
    var fault := state.ParseAlarms(rows);
    if fault.Some? {
      return Failure(Refused(fault.value));
    }
    r := Count(total, |rows|, s);
  }

  /** The import of a whole bundle, from its texts. */
  method ImportTexts(t: Texts, s: Setup) returns (r: Result<Bundle, BundleError>)
    ensures r == ImportedTexts(t, s)
  {
    hide TableOf, Fold, TakeTable;
    if |t.assets| > s.csv.maxRecords {
      return Failure(Misshapen(ManyRecords));
    }
    var state := new ImportState(ReaderOf(s));
    var fault := state.ParseAssets(t.assets);
    if fault.Some? {
      return Failure(Refused(fault.value));
    }
    var total := Count(0, |t.assets|, s);
    if total.Failure? {
      return Failure(total.error);
    }
    total := TakeRelationships(state, total.value, t.relationships, s);
    if total.Failure? {
      return Failure(total.error);
    }
    total := TakeTags(state, total.value, t.tags, s);
    if total.Failure? {
      return Failure(total.error);
    }
    total := TakeAlarms(state, total.value, t.alarms, s);
    r := if total.Failure? then Failure(total.error) else Success(state.bundle);
  }

  // From texts to records

  /** A successful import from texts is the import of the records that its tables hold, and their number is within the
      limits. */
  lemma TextsAreRecords(t: Texts, s: Setup) returns (a: Artifacts)
    requires ImportedTexts(t, s).Success?
    ensures Imported(a, ReaderOf(s)) == Success(ImportedTexts(t, s).value)
    ensures a.assets == t.assets && |a.assets| + |a.relationships| + |a.tags| + |a.alarms| <= s.totalRecords
    ensures TableOf(t.relationships, RELATIONSHIP_COLUMNS, s).Success? && |a.relationships| == |TableOf(t.relationships, RELATIONSHIP_COLUMNS, s).value.rows|
    ensures TableOf(t.tags, TAG_COLUMNS, s).Success? && |a.tags| == |TableOf(t.tags, TAG_COLUMNS, s).value.rows|
    ensures TableOf(t.alarms, ALARM_COLUMNS, s).Success? && |a.alarms| == |TableOf(t.alarms, ALARM_COLUMNS, s).value.rows|
  {
    hide TableOf, Fold;
    var rt := TableOf(t.relationships, RELATIONSHIP_COLUMNS, s).value;
    var tt := TableOf(t.tags, TAG_COLUMNS, s).value;
    var at := TableOf(t.alarms, ALARM_COLUMNS, s).value;
    a := Artifacts(t.assets, Map(RelationshipReader(rt.headers), rt.rows), Map(TagReader(tt.headers), tt.rows), Map(AlarmReader(at.headers), at.rows));
  }

  /** Whatever the texts: an accepted bundle is closed under reference, without double identifiers, and every row of its
      tables has become one record or one unresolved entry. */
  lemma TextsSound(t: Texts, s: Setup)
    requires ImportedTexts(t, s).Success?
    ensures BundleSound(ImportedTexts(t, s).value)
    ensures TableOf(t.relationships, RELATIONSHIP_COLUMNS, s).Success? && TableOf(t.tags, TAG_COLUMNS, s).Success?
            && TableOf(t.alarms, ALARM_COLUMNS, s).Success?
    ensures Settled(ImportedTexts(t, s).value)
         == |t.assets| + |TableOf(t.relationships, RELATIONSHIP_COLUMNS, s).value.rows| + |TableOf(t.tags, TAG_COLUMNS, s).value.rows|
            + |TableOf(t.alarms, ALARM_COLUMNS, s).value.rows| <= s.totalRecords
  {
    hide TableOf, Imported, ImportedTexts, BundleSound, Settled;
    var a := TextsAreRecords(t, s);
    ImportSound(a, ReaderOf(s));
  }
}
