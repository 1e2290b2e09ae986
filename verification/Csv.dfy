/** Comma-separated artifacts, section 2 of RFC 4180: the character machine of the importer and its limits. */
module Csv {
  import opened Wrappers

  datatype Limits = Limits(maxFieldBytes: nat, maxColumns: nat, maxRecords: nat)
  datatype CsvError = FieldTooLarge | TooManyColumns | TooManyRecords | InvalidCsv

  type Row = seq<string>

  datatype Parser = Parser(rows: seq<Row>, row: Row, field: string, quoted: bool, afterQuote: bool, saw: bool)

  const START := Parser([], [], "", false, false, false)

  const NEWLINE: char := '\n'
  const RETURN: char := '\r'
  const QUOTE: char := '"'

  /** The current field ends and so does the row; a line with nothing on it is no row. */
  function FinishRow(p: Parser, limits: Limits): Result<Parser, CsvError> {
    if |p.field| > limits.maxFieldBytes then Failure(FieldTooLarge)
    else if |p.row| + 1 > limits.maxColumns then Failure(TooManyColumns)
    else if p.row == [] && p.field == "" && !p.saw then Success(p)
    else if |p.rows| + 1 > limits.maxRecords + 1 then Failure(TooManyRecords)
    else Success(p.(rows := p.rows + [p.row + [p.field]], row := [], field := "", saw := false))
  }

  /** The current field ends and another follows. */
  function FinishField(p: Parser, limits: Limits): Result<Parser, CsvError> {
    if |p.field| > limits.maxFieldBytes then Failure(FieldTooLarge)
    else if |p.row| + 1 >= limits.maxColumns then Failure(TooManyColumns)
    else Success(p.(row := p.row + [p.field], field := ""))
  }

  function AddCharacter(p: Parser, c: char, limits: Limits): Result<Parser, CsvError> {
    if |p.field| + 1 > limits.maxFieldBytes then Failure(FieldTooLarge) else Success(p.(field := p.field + [c], saw := true))
  }

  /** One turn of the loop: the next state, and how many characters it took. */
  datatype Turn = Turn(next: Result<Parser, CsvError>, taken: nat)

  function TurnOf(p: Parser, text: string, limits: Limits): (t: Turn)
    requires text != ""
    ensures 1 <= t.taken <= |text|
  {
    var c := text[0];
    var breaks := if c == RETURN && |text| > 1 && text[1] == NEWLINE then 2 else 1;
    if p.quoted then
      if c == QUOTE then
        if |text| > 1 && text[1] == QUOTE then Turn(Success(p.(field := p.field + [QUOTE])), 2)
        else Turn(Success(p.(quoted := false, afterQuote := true)), 1)
      else Turn(AddCharacter(p, c, limits), 1)
    else if p.afterQuote then
      if c == ',' then Turn(FinishField(p.(afterQuote := false), limits), 1)
      else if c == RETURN || c == NEWLINE then Turn(FinishRow(p.(afterQuote := false), limits), breaks)
      else Turn(Failure(InvalidCsv), 1)
    else if c == QUOTE then
      if p.field != "" then Turn(Failure(InvalidCsv), 1) else Turn(Success(p.(quoted := true, saw := true)), 1)
    else if c == ',' then Turn(FinishField(p, limits), 1)
    else if c == RETURN || c == NEWLINE then Turn(FinishRow(p, limits), breaks)
    else Turn(AddCharacter(p, c, limits), 1)
  }

  function End(p: Parser, limits: Limits): Result<seq<Row>, CsvError> {
    if p.quoted then Failure(InvalidCsv)
    else
      var last := if p.afterQuote || p.field != "" || p.row != [] then FinishRow(p, limits) else Success(p);
      match last
      case Failure(e) => Failure(e)
      case Success(q) => if q.rows == [] then Failure(InvalidCsv) else Success(q.rows)
  }

  function ParseFrom(p: Parser, text: string, limits: Limits): Result<seq<Row>, CsvError>
    decreases |text|
  {
    if text == "" then End(p, limits)
    else
      var turn := TurnOf(p, text, limits);
      match turn.next
      case Failure(e) => Failure(e)
      case Success(q) => ParseFrom(q, text[turn.taken..], limits)
  }

  function Parsed(text: string, limits: Limits): Result<seq<Row>, CsvError> {
    ParseFrom(START, text, limits)
  }

  /** Ends the row in place. */
  method DoFinishRow(rows: seq<Row>, row: Row, field: string, saw: bool, limits: Limits)
    returns (fault: Option<CsvError>, rows': seq<Row>, row': Row, field': string, saw': bool)
    ensures match FinishRow(Parser(rows, row, field, false, false, saw), limits)
      case Failure(e) => fault == Some(e)
      case Success(q) => fault == None && q == Parser(rows', row', field', false, false, saw')
  {
    fault, rows', row', field', saw' := None, rows, row, field, saw;
    if |field| > limits.maxFieldBytes {
      fault := Some(FieldTooLarge);
      return;
    }
    row', field' := row + [field], "";
    if |row'| > limits.maxColumns {
      fault := Some(TooManyColumns);
      return;
    }
    if |row'| == 1 && row'[0] == "" && !saw {
      row' := [];
      return;
    }
    rows', row', saw' := rows + [row'], [], false;
    if |rows'| > limits.maxRecords + 1 {
      fault := Some(TooManyRecords);
    }
  }

  method ParseCsv(contents: string, limits: Limits) returns (r: Result<seq<Row>, CsvError>)
    ensures r == Parsed(contents, limits)
  {
    hide TurnOf, FinishRow, FinishField, AddCharacter, End;
    var rows, row, field: string, quoted, afterQuote, saw := [], [], "", false, false, false;
    var index := 0;
    assert contents[0..] == contents;
    while index < |contents|
      invariant 0 <= index <= |contents|
      invariant Parsed(contents, limits) == ParseFrom(Parser(rows, row, field, quoted, afterQuote, saw), contents[index..], limits)
    {
      var fault, taken;
      fault, taken, rows, row, field, quoted, afterQuote, saw :=
        TakeCharacter(contents, index, rows, row, field, quoted, afterQuote, saw, limits);
      if fault.Some? {
        return Failure(fault.value);
      }
      assert contents[index..][taken..] == contents[index + taken..];
      index := index + taken;
    }
    r := Conclude(rows, row, field, quoted, afterQuote, saw, limits);
  }

  method TakeCharacter(contents: string, index: nat, rows: seq<Row>, row: Row, field: string, quoted: bool, afterQuote: bool, saw: bool,
                       limits: Limits)
    returns (fault: Option<CsvError>, taken: nat, rows': seq<Row>, row': Row, field': string, quoted': bool, afterQuote': bool, saw': bool)
    requires index < |contents|
    ensures var turn := TurnOf(Parser(rows, row, field, quoted, afterQuote, saw), contents[index..], limits);
      && taken == turn.taken
      && match turn.next
         case Failure(e) => fault == Some(e)
         case Success(q) => fault == None && q == Parser(rows', row', field', quoted', afterQuote', saw')
  {
    hide FinishRow;
    fault, taken, rows', row', field', quoted', afterQuote', saw' := None, 1, rows, row, field, quoted, afterQuote, saw;
    var c := contents[index];
    if quoted {
      if c != QUOTE {
        field', saw' := field + [c], true;
        if |field'| > limits.maxFieldBytes { fault := Some(FieldTooLarge); }
      } else if index + 1 < |contents| && contents[index + 1] == QUOTE {
        field', taken := field + [QUOTE], 2;
      } else {
        quoted', afterQuote' := false, true;
      }
      return;
    }
    if c == ',' {
      if |field| > limits.maxFieldBytes {
        fault := Some(FieldTooLarge);
        return;
      }
      row', field', afterQuote' := row + [field], "", false;
      if |row'| >= limits.maxColumns { fault := Some(TooManyColumns); }
    } else if c == RETURN || c == NEWLINE {
      afterQuote' := false;
      if c == RETURN && index + 1 < |contents| && contents[index + 1] == NEWLINE {
        taken := 2;
      }
      fault, rows', row', field', saw' := DoFinishRow(rows, row, field, saw, limits);
    } else if afterQuote {
      fault := Some(InvalidCsv);
    } else if c == QUOTE {
      if field != "" {
        fault := Some(InvalidCsv);
        return;
      }
      quoted', saw' := true, true;
    } else {
      field', saw' := field + [c], true;
      if |field'| > limits.maxFieldBytes { fault := Some(FieldTooLarge); }
    }
  }

  method Conclude(rows: seq<Row>, row: Row, field: string, quoted: bool, afterQuote: bool, saw: bool, limits: Limits)
    returns (r: Result<seq<Row>, CsvError>)
    ensures r == End(Parser(rows, row, field, quoted, afterQuote, saw), limits)
  {
    if quoted {
      return Failure(InvalidCsv);
    }
    var all := rows;
    if afterQuote || field != "" || row != [] {
      var fault, rows', row', field', saw' := DoFinishRow(rows, row, field, saw, limits);
      if fault.Some? {
        return Failure(fault.value);
      }
      all := rows';
    }
    r := if all == [] then Failure(InvalidCsv) else Success(all);
  }

  // Every accepted artifact respects the limits

  ghost predicate RowWithin(row: Row, limits: Limits) {
    0 < |row| <= limits.maxColumns && forall k :: 0 <= k < |row| ==> |row[k]| <= limits.maxFieldBytes
  }

  ghost predicate RowsWithin(rows: seq<Row>, limits: Limits) {
    |rows| <= limits.maxRecords + 1 && forall i :: 0 <= i < |rows| ==> RowWithin(rows[i], limits)
  }

  ghost predicate ParserWithin(p: Parser, limits: Limits) {
    RowsWithin(p.rows, limits) && forall k :: 0 <= k < |p.row| ==> |p.row[k]| <= limits.maxFieldBytes
  }

  lemma FinishRowWithin(p: Parser, limits: Limits)
    requires ParserWithin(p, limits) && FinishRow(p, limits).Success?
    ensures ParserWithin(FinishRow(p, limits).value, limits)
  {
    var full := p.row + [p.field];
    assert |full| <= limits.maxColumns ==> RowWithin(full, limits);
  }

  lemma TurnWithin(p: Parser, text: string, limits: Limits)
    requires text != "" && ParserWithin(p, limits) && TurnOf(p, text, limits).next.Success?
    ensures ParserWithin(TurnOf(p, text, limits).next.value, limits)
  {
    hide FinishRow, RowsWithin;
    if FinishRow(p, limits).Success? { FinishRowWithin(p, limits); }
    var q := p.(afterQuote := false);
    if FinishRow(q, limits).Success? { FinishRowWithin(q, limits); }
  }

  lemma {:induction false} ParseWithin(p: Parser, text: string, limits: Limits)
    requires ParserWithin(p, limits) && ParseFrom(p, text, limits).Success?
    ensures RowsWithin(ParseFrom(p, text, limits).value, limits) && ParseFrom(p, text, limits).value != []
    decreases |text|
  {
    hide TurnOf, FinishRow;
    if text == "" {
      if FinishRow(p, limits).Success? { FinishRowWithin(p, limits); }
    } else {
      TurnWithin(p, text, limits);
      var turn := TurnOf(p, text, limits);
      ParseWithin(turn.next.value, text[turn.taken..], limits);
    }
  }

  lemma AcceptedWithin(text: string, limits: Limits)
    requires Parsed(text, limits).Success?
    ensures RowsWithin(Parsed(text, limits).value, limits) && Parsed(text, limits).value != []
  {
    ParseWithin(START, text, limits);
  }

  // Printing

  /** A field and whether it is printed in quotes; a row, and how its line ends. */
  datatype Printed = Printed(text: string, quotes: bool)
  datatype Ending = Lf | CrLf | Cr | Nothing
  datatype Line = Line(fields: seq<Printed>, ending: Ending)

  function Escaped(f: string): string {
    if f == "" then "" else (if f[0] == QUOTE then [QUOTE, QUOTE] else [f[0]]) + Escaped(f[1..])
  }

  function PrintField(f: Printed): string {
    if f.quotes then [QUOTE] + Escaped(f.text) + [QUOTE] else f.text
  }

  function PrintFields(fields: seq<Printed>): string {
    if fields == [] then "" else if |fields| == 1 then PrintField(fields[0]) else PrintField(fields[0]) + [','] + PrintFields(fields[1..])
  }

  function PrintEnding(e: Ending): string {
    match e case Lf => [NEWLINE] case CrLf => [RETURN, NEWLINE] case Cr => [RETURN] case Nothing => ""
  }

  function PrintLines(lines: seq<Line>): string {
    if lines == [] then "" else PrintFields(lines[0].fields) + PrintEnding(lines[0].ending) + PrintLines(lines[1..])
  }

  predicate Special(c: char) {
    c == ',' || c == QUOTE || c == RETURN || c == NEWLINE
  }

  predicate Plain(f: string) {
    forall i :: 0 <= i < |f| ==> !Special(f[i])
  }

  function TextsOf(fields: seq<Printed>): Row {
    seq(|fields|, i requires 0 <= i < |fields| => fields[i].text)
  }

  function RowsOf(lines: seq<Line>): seq<Row> {
    seq(|lines|, i requires 0 <= i < |lines| => TextsOf(lines[i].fields))
  }

  /** Quotes are needed around special characters, and around the lone empty field of a row. */
  ghost predicate PrintableRow(fields: seq<Printed>) {
    && fields != [] && (forall k :: 0 <= k < |fields| ==> fields[k].quotes || Plain(fields[k].text))
    && (|fields| == 1 && fields[0].text == "" ==> fields[0].quotes)
  }

  ghost predicate PrintableLines(lines: seq<Line>) {
    && (forall i :: 0 <= i < |lines| ==> PrintableRow(lines[i].fields))
    && forall i :: 0 <= i < |lines| - 1 ==> lines[i].ending != Nothing
  }

  // Reading back what was printed

  lemma ParseTurn(p: Parser, text: string, limits: Limits)
    requires text != "" && TurnOf(p, text, limits).next.Success?
    ensures ParseFrom(p, text, limits)
         == ParseFrom(TurnOf(p, text, limits).next.value, text[TurnOf(p, text, limits).taken..], limits)
  {
    hide TurnOf;
  }

  // One turn at a time

  lemma TakesQuoted(p: Parser, c: char, rest: string, limits: Limits)
    requires p.quoted && c != QUOTE && |p.field| < limits.maxFieldBytes
    ensures ParseFrom(p, [c] + rest, limits) == ParseFrom(p.(field := p.field + [c], saw := true), rest, limits)
  {
    ParseTurn(p, [c] + rest, limits);
    assert ([c] + rest)[1..] == rest;
  }

  lemma TakesDouble(p: Parser, rest: string, limits: Limits)
    requires p.quoted
    ensures ParseFrom(p, [QUOTE, QUOTE] + rest, limits) == ParseFrom(p.(field := p.field + [QUOTE]), rest, limits)
  {
    ParseTurn(p, [QUOTE, QUOTE] + rest, limits);
    assert ([QUOTE, QUOTE] + rest)[2..] == rest;
  }

  lemma ClosesQuote(p: Parser, rest: string, limits: Limits)
    requires p.quoted && (rest != "" ==> rest[0] != QUOTE)
    ensures ParseFrom(p, [QUOTE] + rest, limits) == ParseFrom(p.(quoted := false, afterQuote := true), rest, limits)
  {
    ParseTurn(p, [QUOTE] + rest, limits);
    assert ([QUOTE] + rest)[1..] == rest;
  }

  lemma OpensQuote(p: Parser, rest: string, limits: Limits)
    requires !p.quoted && !p.afterQuote && p.field == ""
    ensures ParseFrom(p, [QUOTE] + rest, limits) == ParseFrom(p.(quoted := true, saw := true), rest, limits)
  {
    ParseTurn(p, [QUOTE] + rest, limits);
    assert ([QUOTE] + rest)[1..] == rest;
  }

  lemma TakesPlain(p: Parser, c: char, rest: string, limits: Limits)
    requires !p.quoted && !p.afterQuote && !Special(c) && |p.field| < limits.maxFieldBytes
    ensures ParseFrom(p, [c] + rest, limits) == ParseFrom(p.(field := p.field + [c], saw := true), rest, limits)
  {
    ParseTurn(p, [c] + rest, limits);
    assert ([c] + rest)[1..] == rest;
  }

  lemma TakesComma(p: Parser, rest: string, limits: Limits)
    requires !p.quoted && |p.field| <= limits.maxFieldBytes && |p.row| + 1 < limits.maxColumns
    ensures ParseFrom(p, [','] + rest, limits)
         == ParseFrom(Parser(p.rows, p.row + [p.field], "", false, false, p.saw), rest, limits)
  {
    ParseTurn(p, [','] + rest, limits);
    assert ([','] + rest)[1..] == rest;
  }

  lemma EscapedSplits(f: string, rest: string)
    ensures f == "" ==> Escaped(f) + [QUOTE] + rest == [QUOTE] + rest
    ensures f != "" ==>
      Escaped(f) + [QUOTE] + rest == (if f[0] == QUOTE then [QUOTE, QUOTE] else [f[0]]) + (Escaped(f[1..]) + [QUOTE] + rest)
  {
  }

  lemma Joins(before: string, f: string)
    ensures f == "" ==> before + f == before
    ensures f != "" ==> before + [f[0]] + f[1..] == before + f
  {
  }

  /** The inside of a quoted field, up to its closing quote. */
  lemma {:induction false} ReadsEscaped(p: Parser, f: string, rest: string, limits: Limits)
    requires p.quoted && p.saw && |p.field| + |f| <= limits.maxFieldBytes
    requires rest != "" ==> rest[0] != QUOTE
    ensures ParseFrom(p, Escaped(f) + [QUOTE] + rest, limits)
         == ParseFrom(p.(field := p.field + f, quoted := false, afterQuote := true), rest, limits)
    decreases |f|
  {
    hide ParseFrom, TurnOf, Escaped;
    EscapedSplits(f, rest);
    Joins(p.field, f);
    if f == "" {
      ClosesQuote(p, rest, limits);
    } else {
      var tail := Escaped(f[1..]) + [QUOTE] + rest;
      if f[0] == QUOTE { TakesDouble(p, tail, limits); } else { TakesQuoted(p, f[0], tail, limits); }
      ReadsEscaped(p.(field := p.field + [f[0]]), f[1..], rest, limits);
    }
  }

  lemma {:induction false} ReadsPlain(p: Parser, f: string, rest: string, limits: Limits)
    requires !p.quoted && !p.afterQuote && Plain(f) && |p.field| + |f| <= limits.maxFieldBytes
    ensures ParseFrom(p, f + rest, limits) == ParseFrom(p.(field := p.field + f, saw := p.saw || f != ""), rest, limits)
    decreases |f|
  {
    hide ParseFrom, TurnOf;
    if f == "" {
      assert f + rest == rest && p.field + f == p.field;
    } else {
      assert f + rest == [f[0]] + (f[1..] + rest);
      TakesPlain(p, f[0], f[1..] + rest, limits);
      ReadsPlain(p.(field := p.field + [f[0]], saw := true), f[1..], rest, limits);
      assert p.field + [f[0]] + f[1..] == p.field + f;
    }
  }

  /** The state after one printed field, before its delimiter. */
  function AfterField(p: Parser, f: Printed): Parser {
    p.(field := f.text, afterQuote := f.quotes, saw := p.saw || f.quotes || f.text != "")
  }

  lemma ReadsField(p: Parser, f: Printed, rest: string, limits: Limits)
    requires !p.quoted && !p.afterQuote && p.field == "" && (f.quotes || Plain(f.text)) && |f.text| <= limits.maxFieldBytes
    requires rest != "" ==> rest[0] != QUOTE
    ensures ParseFrom(p, PrintField(f) + rest, limits) == ParseFrom(AfterField(p, f), rest, limits)
  {
    hide ParseFrom, TurnOf, Escaped;
    assert "" + f.text == f.text;
    if f.quotes {
      var tail := Escaped(f.text) + [QUOTE] + rest;
      assert PrintField(f) + rest == [QUOTE] + tail;
      OpensQuote(p, tail, limits);
      ReadsEscaped(p.(quoted := true, saw := true), f.text, rest, limits);
    } else {
      ReadsPlain(p, f.text, rest, limits);
    }
  }

  /** A parser between rows. */
  function Between(rows: seq<Row>): Parser {
    Parser(rows, [], "", false, false, false)
  }

  ghost predicate LineEnds(rest: string) {
    rest == "" || rest[0] == RETURN || rest[0] == NEWLINE
  }

  /** The state after the last printed field of a row. */
  function AfterRow(p: Parser, fields: seq<Printed>, saw: bool): Parser
    requires fields != []
  {
    var last := fields[|fields| - 1];
    Parser(p.rows, p.row + TextsOf(fields[..|fields| - 1]), last.text, false, last.quotes, saw)
  }

  /** The fields of a row, from some column on. */
  lemma {:induction false} ReadsFields(p: Parser, fields: seq<Printed>, rest: string, limits: Limits) returns (saw: bool)
    requires !p.quoted && !p.afterQuote && p.field == "" && fields != [] && LineEnds(rest)
    requires forall k :: 0 <= k < |fields| ==> (fields[k].quotes || Plain(fields[k].text)) && |fields[k].text| <= limits.maxFieldBytes
    requires |p.row| + |fields| <= limits.maxColumns
    ensures fields[|fields| - 1].quotes || fields[|fields| - 1].text != "" ==> saw
    ensures ParseFrom(p, PrintFields(fields) + rest, limits) == ParseFrom(AfterRow(p, fields, saw), rest, limits)
    decreases |fields|
  {
    hide ParseFrom, TurnOf, PrintField;
    var f := fields[0];
    if |fields| == 1 {
      ReadsField(p, f, rest, limits);
      saw := AfterField(p, f).saw;
      assert p.row + TextsOf(fields[..0]) == p.row;
    } else {
      var tail := PrintFields(fields[1..]) + rest;
      assert PrintFields(fields) + rest == PrintField(f) + ([','] + tail);
      ReadsField(p, f, [','] + tail, limits);
      TakesComma(AfterField(p, f), tail, limits);
      var next := Parser(p.rows, p.row + [f.text], "", false, false, AfterField(p, f).saw);
      saw := ReadsFields(next, fields[1..], rest, limits);
      RowSplits(p.row, fields);
      assert AfterRow(next, fields[1..], saw) == AfterRow(p, fields, saw);
    }
  }

  lemma RowSplits(row: Row, fields: seq<Printed>)
    requires |fields| > 1
    ensures row + [fields[0].text] + TextsOf(fields[1..][..|fields| - 2]) == row + TextsOf(fields[..|fields| - 1])
  {
  }

  /** What follows a line is the end or the first character of another: never a line feed. */
  lemma NextLine(lines: seq<Line>)
    requires PrintableLines(lines)
    ensures PrintLines(lines) != "" ==> PrintLines(lines)[0] != NEWLINE
  {
    if lines != [] {
      var f := lines[0].fields[0];
      assert PrintableRow(lines[0].fields);
      assert PrintField(f) != "" ==> PrintField(f)[0] != NEWLINE;
    }
  }

  lemma FinishesLine(p: Parser, ending: Ending, rest: string, limits: Limits)
    requires !p.quoted && ending != Nothing && (rest != "" ==> rest[0] != NEWLINE)
    requires |p.field| <= limits.maxFieldBytes && |p.row| < limits.maxColumns && |p.rows| <= limits.maxRecords
    requires p.row != [] || p.field != "" || p.saw
    ensures ParseFrom(p, PrintEnding(ending) + rest, limits) == ParseFrom(Between(p.rows + [p.row + [p.field]]), rest, limits)
  {
    var text := PrintEnding(ending) + rest;
    ParseTurn(p, text, limits);
    match ending
    case CrLf => assert text[2..] == rest;
    case Lf => assert text[1..] == rest;
    case Cr => assert text[1..] == rest;
  }

  lemma FinishesText(p: Parser, limits: Limits)
    requires !p.quoted && |p.field| <= limits.maxFieldBytes && |p.row| < limits.maxColumns && |p.rows| <= limits.maxRecords
    requires p.row != [] || p.field != "" || (p.saw && p.afterQuote)
    ensures ParseFrom(p, "", limits) == Success(p.rows + [p.row + [p.field]])
  {
  }

  lemma ReadsLine(rows: seq<Row>, line: Line, others: string, limits: Limits)
    requires PrintableRow(line.fields) && RowWithin(TextsOf(line.fields), limits) && |rows| <= limits.maxRecords
    requires if line.ending == Nothing then others == "" else others != "" ==> others[0] != NEWLINE
    ensures ParseFrom(Between(rows), PrintFields(line.fields) + (PrintEnding(line.ending) + others), limits)
         == if line.ending == Nothing then Success(rows + [TextsOf(line.fields)])
            else ParseFrom(Between(rows + [TextsOf(line.fields)]), others, limits)
  {
    hide ParseFrom, TurnOf, PrintFields;
    var fields := line.fields;
    forall k | 0 <= k < |fields| ensures |fields[k].text| <= limits.maxFieldBytes {
      assert TextsOf(fields)[k] == fields[k].text;
    }
    var rest := PrintEnding(line.ending) + others;
    var saw := ReadsFields(Between(rows), fields, rest, limits);
    var p := AfterRow(Between(rows), fields, saw);
    assert p.row + [p.field] == TextsOf(fields);
    if line.ending == Nothing {
      assert rest == "";
      FinishesText(p, limits);
    } else {
      FinishesLine(p, line.ending, others, limits);
    }
  }

  ghost predicate LinesWithin(lines: seq<Line>, limits: Limits) {
    forall i :: 0 <= i < |lines| ==> RowWithin(TextsOf(lines[i].fields), limits)
  }

  lemma OtherLines(lines: seq<Line>, limits: Limits)
    requires lines != [] && PrintableLines(lines) && LinesWithin(lines, limits)
    ensures PrintableLines(lines[1..]) && LinesWithin(lines[1..], limits)
    ensures PrintableRow(lines[0].fields) && RowWithin(TextsOf(lines[0].fields), limits)
    ensures lines[0].ending == Nothing ==> lines[1..] == []
    ensures PrintLines(lines) == PrintFields(lines[0].fields) + (PrintEnding(lines[0].ending) + PrintLines(lines[1..]))
  {
    hide PrintableRow, RowWithin, PrintFields, PrintEnding;
  }

  lemma RowsSplit(rows: seq<Row>, lines: seq<Line>)
    ensures lines == [] ==> rows + RowsOf(lines) == rows
    ensures lines != [] ==> rows + [TextsOf(lines[0].fields)] + RowsOf(lines[1..]) == rows + RowsOf(lines)
  {
  }

  /** The lines, one after the other. */
  lemma {:induction false} ReadsLines(rows: seq<Row>, lines: seq<Line>, limits: Limits)
    requires PrintableLines(lines) && (rows != [] || lines != [])
    requires |rows| + |lines| <= limits.maxRecords + 1 && LinesWithin(lines, limits)
    ensures ParseFrom(Between(rows), PrintLines(lines), limits) == Success(rows + RowsOf(lines))
    decreases |lines|
  {
    hide ParseFrom, TurnOf, PrintFields, PrintEnding, PrintableRow, RowWithin, PrintLines, RowsOf, LinesWithin, PrintableLines, TextsOf;
    RowsSplit(rows, lines);
    if lines == [] {
      NothingLeft(rows, limits);
    } else {
      OtherLines(lines, limits);
      var line, others := lines[0], lines[1..];
      NextLine(others);
      if others == [] { NoLines(others); }
      ReadsLine(rows, line, PrintLines(others), limits);
      if line.ending != Nothing {
        ReadsLines(rows + [TextsOf(line.fields)], others, limits);
      } else {
        RowsSplit(rows + [TextsOf(line.fields)], others);
      }
    }
  }

  lemma NothingLeft(rows: seq<Row>, limits: Limits)
    requires rows != []
    ensures PrintLines([]) == "" && ParseFrom(Between(rows), "", limits) == Success(rows)
  {
  }

  lemma NoLines(lines: seq<Line>)
    requires lines == []
    ensures PrintLines(lines) == ""
  {
  }

  /** The round trip: rows within the limits, printed with any choice of quotes and line endings, are read back. */
  lemma RoundTrip(lines: seq<Line>, limits: Limits)
    requires lines != [] && PrintableLines(lines) && RowsWithin(RowsOf(lines), limits)
    ensures Parsed(PrintLines(lines), limits) == Success(RowsOf(lines))
  {
    forall i | 0 <= i < |lines| ensures RowWithin(TextsOf(lines[i].fields), limits) {
      assert RowsOf(lines)[i] == TextsOf(lines[i].fields);
    }
    ReadsLines([], lines, limits);
    assert [] + RowsOf(lines) == RowsOf(lines);
  }
}
