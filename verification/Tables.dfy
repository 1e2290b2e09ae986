/** Reading a parsed artifact as a table: columns by name, rows of one width, cells within their bounds. */
module Tables {
  import opened Csv
  import opened Model
  import opened Sequences
  import opened Wrappers

  datatype TableError = BadHeader | MissingColumn | ShortRow | LargeField | EmptyField | ControlCharacter | BadWidth | ManyRecords

  datatype Bounds = Bounds(stringBytes: nat, fieldBytes: nat, records: nat)

  predicate Blank(c: char) {
    c == ' ' || c == '\t' || c == '\r' || c == '\n'
  }

  function TrimLeft(s: string): string {
    if s != "" && Blank(s[0]) then TrimLeft(s[1..]) else s
  }

  function TrimRight(s: string): string {
    if s != "" && Blank(s[|s| - 1]) then TrimRight(s[..|s| - 1]) else s
  }

  function Trim(s: string): string {
    TrimRight(TrimLeft(s))
  }

  const TRIM := (s: string) => Trim(s)

  /** Column names, trimmed. */
  function Names(row: Row): seq<string> {
    Map(TRIM, row)
  }

  ghost predicate HeadersAccepted(row: Row, b: Bounds) {
    Distinct(Names(row)) && forall k :: 0 <= k < |row| ==> 0 < |Names(row)[k]| <= b.stringBytes
  }

  /** The map of the first columns. */
  ghost predicate MapsColumns(headers: map<string, nat>, names: seq<string>) {
    && (forall k :: 0 <= k < |names| ==> names[k] in headers && headers[names[k]] == k)
    && forall h :: h in headers ==> headers[h] < |names| && names[headers[h]] == h
  }

  /** The column of each name; names are distinct where this is used. */
  function ColumnMap(names: seq<string>): map<string, nat> {
    if names == [] then map[] else ColumnMap(names[..|names| - 1])[names[|names| - 1] := |names| - 1]
  }

  lemma {:induction false} ColumnsMapped(names: seq<string>)
    requires Distinct(names)
    ensures MapsColumns(ColumnMap(names), names)
    decreases |names|
  {
    if names != [] {
      var front := names[..|names| - 1];
      ColumnsMapped(front);
      assert forall k :: 0 <= k < |front| ==> front[k] == names[k];
    }
  }

  lemma OneColumnMap(a: map<string, nat>, b: map<string, nat>, names: seq<string>)
    requires MapsColumns(a, names) && MapsColumns(b, names)
    ensures a == b
  {
    assert forall h :: h in a ==> names[a[h]] == h;
    assert forall h :: h in b ==> names[b[h]] == h;
  }

  lemma TrimLeftAt(s: string, i: nat)
    requires i <= |s|
    ensures TrimLeft(s[i..]) == if i < |s| && Blank(s[i]) then TrimLeft(s[i + 1..]) else s[i..]
  {
    hide Blank;
    if i < |s| { assert s[i..][1..] == s[i + 1..]; }
  }

  lemma TrimRightAt(s: string, i: nat)
    requires i <= |s|
    ensures TrimRight(s[..i]) == if i > 0 && Blank(s[i - 1]) then TrimRight(s[..i - 1]) else s[..i]
  {
    hide Blank;
    if i > 0 { assert s[..i][..i - 1] == s[..i - 1]; }
  }

  method TrimText(s: string) returns (t: string)
    ensures t == Trim(s)
  {
    hide TrimLeft, TrimRight, Blank;
    var first := 0;
    assert s[0..] == s;
    TrimLeftAt(s, 0);
    while first < |s| && Blank(s[first])
      invariant 0 <= first <= |s| && TrimLeft(s) == TrimLeft(s[first..])
    {
      TrimLeftAt(s, first);
      first := first + 1;
    }
    TrimLeftAt(s, first);
    ghost var left := s[first..];
    var last := |s|;
    assert left[..|left|] == left;
    while last > first && Blank(s[last - 1])
      invariant first <= last <= |s| && TrimRight(left) == TrimRight(left[..last - first])
    {
      TrimRightAt(left, last - first);
      last := last - 1;
    }
    TrimRightAt(left, last - first);
    t := s[first..last];
    assert t == left[..last - first];
  }

  /** Builds the column map; it exists exactly when the names are nonempty, bounded and distinct. */
  method HeaderMap(row: Row, b: Bounds) returns (r: Result<map<string, nat>, TableError>)
    ensures r.Success? <==> HeadersAccepted(row, b)
    ensures r.Success? ==> MapsColumns(r.value, Names(row)) && r.value == ColumnMap(Names(row))
    ensures r.Failure? ==> r.error == BadHeader
  {
    hide Trim, MapsColumns, Distinct, ColumnMap;
    ghost var names := Names(row);
    var headers: map<string, nat> := map[];
    NoColumns(names);
    for k := 0 to |row|
      invariant MapsColumns(headers, names[..k]) && Distinct(names[..k])
      invariant forall i :: 0 <= i < k ==> 0 < |names[i]| <= b.stringBytes
    {
      var name := TrimText(row[k]);
      assert name == names[k];
      ColumnAdded(headers, names, k);
      if name == "" || |name| > b.stringBytes || name in headers {
        return Failure(BadHeader);
      }
      headers := headers[name := k];
    }
    assert names[..|row|] == names;
    ColumnsMapped(names);
    OneColumnMap(headers, ColumnMap(names), names);
    r := Success(headers);
  }

  lemma NoColumns(names: seq<string>)
    ensures MapsColumns(map[], names[..0]) && Distinct(names[..0])
  {
  }

  lemma ColumnAdded(headers: map<string, nat>, names: seq<string>, k: nat)
    requires k < |names| && MapsColumns(headers, names[..k]) && Distinct(names[..k])
    ensures names[k] in headers ==> !Distinct(names)
    ensures names[k] !in headers ==> MapsColumns(headers[names[k] := k], names[..k + 1]) && Distinct(names[..k + 1])
  {
    assert names[..k + 1] == names[..k] + [names[k]];
    if names[k] in headers {
      assert names[headers[names[k]]] == names[..k][headers[names[k]]] == names[k];
    } else {
      forall i | 0 <= i < k ensures names[..k][i] != names[k] { assert names[..k][i] in headers; }
      DistinctSnocSeq(names[..k], names[k]);
    }
  }

  // Cells

  predicate Fits(text: string, b: Bounds) {
    |text| <= if b.fieldBytes < 256 then b.fieldBytes else 256
  }

  function CellOf(row: Row, headers: map<string, nat>, key: string, b: Bounds, required: bool): (r: Result<string, TableError>)
    ensures r.Success? && required ==> Text(r.value) && Fits(r.value, b) && key in headers && headers[key] < |row| && r.value == row[headers[key]]
    ensures r.Success? ==> Printable(r.value)
  {
    if key !in headers then if required then Failure(MissingColumn) else Success("")
    else if headers[key] >= |row| then if required then Failure(ShortRow) else Success("")
    else
      var text := row[headers[key]];
      if !Fits(text, b) then Failure(LargeField)
      else if required && text == "" then Failure(EmptyField)
      else if exists i :: 0 <= i < |text| && Control(text[i]) then Failure(ControlCharacter)
      else Success(text)
  }

  ghost predicate OneWidth(rows: seq<Row>) {
    forall i :: 0 <= i < |rows| ==> |rows[i]| == |rows[0]|
  }

  method CheckRowWidth(rows: seq<Row>, b: Bounds) returns (fault: Option<TableError>)
    requires rows != []
    ensures fault == if !OneWidth(rows) then Some(BadWidth) else if |rows| - 1 > b.records then Some(ManyRecords) else None
  {
    for i := 1 to |rows|
      invariant forall k :: 0 <= k < i ==> |rows[k]| == |rows[0]|
    {
      if |rows[i]| != |rows[0]| {
        return Some(BadWidth);
      }
    }
    fault := if |rows| - 1 > b.records then Some(ManyRecords) else None;
  }

  /** In a table that passed its checks, a required cell of a declared column is its text exactly when that is nonempty,
      bounded and printable; columns may come in any order. */
  lemma DeclaredCellReads(rows: seq<Row>, headers: map<string, nat>, b: Bounds, i: nat, k: nat)
    requires rows != [] && HeadersAccepted(rows[0], b) && MapsColumns(headers, Names(rows[0])) && OneWidth(rows)
    requires i < |rows| && k < |rows[0]|
    ensures |rows[i]| == |rows[0]|
    ensures var cell := CellOf(rows[i], headers, Names(rows[0])[k], b, true);
      && (cell.Success? <==> Text(rows[i][k]) && Fits(rows[i][k], b))
      && (cell.Success? ==> cell.value == rows[i][k])
  {
    hide Trim;
    assert headers[Names(rows[0])[k]] == k;
  }

  /** From text to cells: a printed table whose first row names its columns gives back every required cell by name. */
  lemma PrintedCellReads(lines: seq<Line>, limits: Limits, b: Bounds, headers: map<string, nat>, i: nat, k: nat)
    requires lines != [] && PrintableLines(lines) && RowsWithin(RowsOf(lines), limits)
    requires HeadersAccepted(TextsOf(lines[0].fields), b) && MapsColumns(headers, Names(TextsOf(lines[0].fields)))
    requires i < |lines| && OneWidth(RowsOf(lines)) && k < |lines[0].fields| == |lines[i].fields|
    requires Text(lines[i].fields[k].text) && Fits(lines[i].fields[k].text, b)
    ensures Parsed(PrintLines(lines), limits) == Success(RowsOf(lines))
    ensures CellOf(RowsOf(lines)[i], headers, Names(TextsOf(lines[0].fields))[k], b, true) == Success(lines[i].fields[k].text)
  {
    hide Trim, PrintLines, ParseFrom, Text, PrintableLines;
    RoundTrip(lines, limits);
    DeclaredCellReads(RowsOf(lines), headers, b, i, k);
  }
}
