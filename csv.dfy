/** The comma-separated export the table components build by hand: the header
    names joined with ",", then one line per row with its fields joined with
    ",", all lines joined with "\n". Fields are neither quoted nor escaped. */
module Csv {
  import opened Text

  /** The lines of the export: the header line, then one line per row. */
  function Lines(headers: seq<string>, rows: seq<seq<string>>): (lines: seq<string>)
    ensures |lines| == 1 + |rows|
    ensures lines[0] == Join(headers, ',')
    ensures forall i :: 1 <= i < |lines| ==> lines[i] == Join(rows[i - 1], ',')
  {
    [Join(headers, ',')] + seq(|rows|, i requires 0 <= i < |rows| => Join(rows[i], ','))
  }

  /** The text of the export. */
  function Document(headers: seq<string>, rows: seq<seq<string>>): string
  {
    Join(Lines(headers, rows), '\n')
  }

  /** Reading an export back: split into lines, then each line into fields. */
  function Parse(text: string): (table: seq<seq<string>>)
    ensures |table| == |Split(text, '\n')|
    ensures forall i :: 0 <= i < |table| ==> table[i] == Split(Split(text, '\n')[i], ',')
  {
    var lines := Split(text, '\n');
    seq(|lines|, i requires 0 <= i < |lines| => Split(lines[i], ','))
  }

  /** A field that can be carried by an unquoted export. */
  predicate Plain(field: string)
  {
    ',' !in field && '\n' !in field
  }

  /** A number's decimal text is a plain field. */
  lemma NumberPlain(n: int)
    ensures Plain(IntToString(n))
  {
    var r := IntToString(n);
    assert forall i :: 0 <= i < |r| ==> r[i] != ',' && r[i] != '\n';
  }

  /** A spreadsheet cell as `json_to_sheet` receives it: a text or a number. */
  datatype Cell = TextCell(text: string) | NumberCell(number: int)

  /** The text `Array.prototype.join` writes for a cell's value. */
  function CellText(c: Cell): string
  {
    match c
    case TextCell(s) => s
    case NumberCell(n) => IntToString(n)
  }

  /** A spreadsheet record (its keys in insertion order, each with its cell)
      has the given column names and, written as text, the given fields. */
  predicate SameColumns(record: seq<(string, Cell)>, headers: seq<string>, fields: seq<string>)
  {
    |record| == |headers| == |fields|
    && forall i :: 0 <= i < |record| ==> record[i].0 == headers[i] && CellText(record[i].1) == fields[i]
  }

  /** A header or row that has at least one field and only plain fields. */
  predicate PlainRecord(fields: seq<string>)
  {
    |fields| >= 1 && forall k :: 0 <= k < |fields| ==> Plain(fields[k])
  }

  /** No line of an export of plain fields holds a line break. */
  lemma LinesPlain(headers: seq<string>, rows: seq<seq<string>>)
    requires PlainRecord(headers)
    requires forall i :: 0 <= i < |rows| ==> PlainRecord(rows[i])
    ensures forall i :: 0 <= i < |Lines(headers, rows)| ==> '\n' !in Lines(headers, rows)[i]
  {
    var lines := Lines(headers, rows);
    JoinWithout(headers, ',', '\n');
    forall i | 1 <= i < |lines|
      ensures '\n' !in lines[i]
    {
      JoinWithout(rows[i - 1], ',', '\n');
    }
  }

  /** An export of plain fields has one line per row after the header line,
      and those lines are the rows' own lines. */
  lemma DocumentLines(headers: seq<string>, rows: seq<seq<string>>)
    requires PlainRecord(headers)
    requires forall i :: 0 <= i < |rows| ==> PlainRecord(rows[i])
    ensures Split(Document(headers, rows), '\n') == Lines(headers, rows)
    ensures |Split(Document(headers, rows), '\n')| == 1 + |rows|
  {
    LinesPlain(headers, rows);
    SplitJoin(Lines(headers, rows), '\n');
  }

  /** Round trip: an export of plain fields reads back as the header followed
      by the rows. */
  lemma ParseDocument(headers: seq<string>, rows: seq<seq<string>>)
    requires PlainRecord(headers)
    requires forall i :: 0 <= i < |rows| ==> PlainRecord(rows[i])
    ensures Parse(Document(headers, rows)) == [headers] + rows
  {
    DocumentLines(headers, rows);
    var lines := Lines(headers, rows);
    var table := Parse(Document(headers, rows));
    SplitJoin(headers, ',');
    forall i | 1 <= i < |table|
      ensures table[i] == rows[i - 1]
    {
      SplitJoin(rows[i - 1], ',');
    }
  }

  /** A field holding a comma makes its line read back with one field too many. */
  lemma CommaShiftsColumns(header: string)
    requires Plain(header)
    ensures Parse(Document([header], [[","]])) != [[header], [","]]
  {
    var lines := Lines([header], [[","]]);
    assert lines == [header, ","];
    SplitJoin(lines, '\n');
    assert Parse(Document([header], [[","]]))[1] == Split(",", ',');
    SplitSeparatorInField(',');
  }
}
