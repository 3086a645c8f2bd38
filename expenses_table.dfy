/** The expenses table screen: the per-column filter, the capitalised status
    and its badge colours, the spreadsheet and CSV exports of the filtered
    rows, and the message shown when no row is left. */
module ExpensesTable {
  import opened Common
  import opened Calendar
  import opened Text
  import opened Seqs
  import opened ColumnFilter
  import opened Csv
  import opened DateFormat

  /** An expense as the table receives it. */
  datatype ExpenseRow = ExpenseRow(date: Instant, category: string, description: string, amount: int, status: string)

  /** The text of the five filter boxes. */
  datatype ExpenseFilters = ExpenseFilters(fecha: string, categoria: string, descripcion: string, monto: string, estado: string)

  const Unfiltered: ExpenseFilters := ExpenseFilters("", "", "", "", "")

  /** The row filter: each box's text occurs in its column; the date column is
      the date spelled "dd MMM yyyy" with the locale's month abbreviations. */
  predicate Keeps(f: ExpenseFilters, months: MonthNames, x: ExpenseRow)
  {
    FoldedMatch(LongDate(x.date, months), f.fecha)
    && FoldedMatch(x.category, f.categoria)
    && FoldedMatch(x.description, f.descripcion)
    && NumberMatch(x.amount, f.monto)
    && FoldedMatch(x.status, f.estado)
  }

  function KeepsIn(f: ExpenseFilters, months: MonthNames): ExpenseRow -> bool
  {
    x => Keeps(f, months, x)
  }

  /** `filteredExpenses`: the rows every filter box accepts, in table order. */
  function FilteredExpenses(expenses: seq<ExpenseRow>, f: ExpenseFilters, months: MonthNames): (shown: seq<ExpenseRow>)
    ensures forall x :: x in shown <==> x in expenses && Keeps(f, months, x)
    ensures IsSubsequence(shown, expenses)
  {
    Filter(expenses, KeepsIn(f, months))
  }

  /** With every box empty the whole table is shown. */
  lemma UnfilteredKeepsAll(expenses: seq<ExpenseRow>, months: MonthNames)
    ensures FilteredExpenses(expenses, Unfiltered, months) == expenses
  {
    forall x | x in expenses
      ensures KeepsIn(Unfiltered, months)(x)
    {
      EmptyFilterMatches(LongDate(x.date, months), x.amount);
      EmptyFilterMatches(x.category, 0);
      EmptyFilterMatches(x.description, 0);
      EmptyFilterMatches(x.status, 0);
    }
    FilterAll(expenses, KeepsIn(Unfiltered, months));
  }

  /** The four-digit year typed into the date box, every other box empty,
      keeps every expense of that year. */
  lemma YearFilterKeepsRow(x: ExpenseRow, months: MonthNames)
    ensures Keeps(Unfiltered.(fecha := Padded(EraYear(CivilOf(x.date).year), 4)), months, x)
  {
    YearFindsDate(CivilOf(x.date), months);
    LowerDigits(Padded(EraYear(CivilOf(x.date).year), 4));
    EmptyFilterMatches(x.category, x.amount);
    EmptyFilterMatches(x.description, 0);
    EmptyFilterMatches(x.status, 0);
  }

  /** The status as displayed and exported: its first letter upper-cased. */
  function StatusText(status: string): (text: string)
    ensures Lower(text) == Lower(status)
  {
    Capitalize(status)
  }

  /** Typing a status as it is displayed into the status box finds the row. */
  lemma DisplayedStatusFindsRow(status: string)
    ensures FoldedMatch(status, StatusText(status))
  {
    ContainsSelf(Lower(status));
  }

  /** `getStatusBadge`'s colour classes: green, yellow and red for paid,
      pending and overdue, gray for anything else. */
  function BadgeStyle(status: string): (style: string)
    ensures status == "pagado" ==> style == "bg-green-100 text-green-800"
    ensures status == "pendiente" ==> style == "bg-yellow-100 text-yellow-800"
    ensures status == "vencido" ==> style == "bg-red-100 text-red-800"
    ensures status != "pagado" && status != "pendiente" && status != "vencido" ==> style == "bg-gray-100 text-gray-800"
  {
    if status == "pagado" then "bg-green-100 text-green-800"
    else if status == "pendiente" then "bg-yellow-100 text-yellow-800"
    else if status == "vencido" then "bg-red-100 text-red-800"
    else "bg-gray-100 text-gray-800"
  }

  /** The three known statuses get three different colours, none of them the
      fallback. */
  lemma BadgeStylesDistinct(a: string, b: string)
    requires a in {"pagado", "pendiente", "vencido"} && b in {"pagado", "pendiente", "vencido"}
    ensures BadgeStyle(a) == BadgeStyle(b) <==> a == b
    ensures BadgeStyle(a) != "bg-gray-100 text-gray-800"
  {
  }

  const Headers: seq<string> := ["Fecha", "Categoría", "Descripción", "Monto", "Estado"]

  /** The CSV fields of a row, in column order. */
  function CsvRow(x: ExpenseRow): (fields: seq<string>)
    ensures |fields| == |Headers|
  {
    [ShortDate(x.date), x.category, x.description, IntToString(x.amount), StatusText(x.status)]
  }

  /** The spreadsheet record of a row: column names with their cells. */
  function SheetRow(x: ExpenseRow): seq<(string, Cell)>
  {
    [("Fecha", TextCell(ShortDate(x.date))), ("Categoría", TextCell(x.category)),
     ("Descripción", TextCell(x.description)), ("Monto", NumberCell(x.amount)),
     ("Estado", TextCell(StatusText(x.status)))]
  }

  /** Both exports carry the same columns, in the same order, with the same values. */
  lemma ExportsAgree(x: ExpenseRow)
    ensures SameColumns(SheetRow(x), Headers, CsvRow(x))
  {
  }

  /** `exportToCSV`: the text of the CSV file for the filtered rows. */
  function ExportCsv(expenses: seq<ExpenseRow>, f: ExpenseFilters, months: MonthNames): string
  {
    Document(Headers, Map(FilteredExpenses(expenses, f, months), CsvRow))
  }

  /** The free-text columns of a row hold no comma and no line break. */
  predicate PlainRow(x: ExpenseRow)
  {
    Plain(x.category) && Plain(x.description) && Plain(x.status)
  }

  lemma CsvRowPlain(x: ExpenseRow)
    requires PlainRow(x)
    ensures PlainRecord(CsvRow(x))
  {
    ShortDateUnquoted(x.date);
    NumberPlain(x.amount);
    var s := StatusText(x.status);
    assert forall i :: 1 <= i < |s| ==> s[i] == x.status[i];
    assert s != [] ==> s[0] != ',' && s[0] != '\n';
    var fields := CsvRow(x);
    assert forall k :: 0 <= k < |fields| ==> Plain(fields[k]);
  }

  lemma HeadersPlain()
    ensures PlainRecord(Headers)
  {
  }

  /** When no row holds a comma or a line break in its text, the CSV file reads
      back as the header followed by one record per shown row, in order. */
  lemma ExportReadsBack(expenses: seq<ExpenseRow>, f: ExpenseFilters, months: MonthNames)
    requires forall x :: x in expenses ==> PlainRow(x)
    ensures Parse(ExportCsv(expenses, f, months)) == [Headers] + Map(FilteredExpenses(expenses, f, months), CsvRow)
    ensures |Split(ExportCsv(expenses, f, months), '\n')| == 1 + |FilteredExpenses(expenses, f, months)|
  {
    var shown := FilteredExpenses(expenses, f, months);
    forall i | 0 <= i < |shown| ensures PlainRecord(Map(shown, CsvRow)[i]) {
      assert shown[i] in shown;
      CsvRowPlain(shown[i]);
    }
    HeadersPlain();
    ParseDocument(Headers, Map(shown, CsvRow));
    DocumentLines(Headers, Map(shown, CsvRow));
  }

  const NoExpenses: string := "No hay gastos registrados"

  /** The message under the table: none while some row is shown, otherwise
      whether there are no expenses or the filters hid every row. */
  function EmptyMessage(expenses: seq<ExpenseRow>, f: ExpenseFilters, months: MonthNames): (m: Option<string>)
    ensures m.None? <==> exists x :: x in expenses && Keeps(f, months, x)
    ensures m == Some(NoExpenses) <==> expenses == []
    ensures m == Some(NoMatches) <==> expenses != [] && forall x :: x in expenses ==> !Keeps(f, months, x)
  {
    var shown := FilteredExpenses(expenses, f, months);
    if shown != [] then
      assert shown[0] in shown;
      None
    else if expenses == [] then Some(NoExpenses)
    else Some(NoMatches)
  }

  /** With every box empty the "no matches" message never appears. */
  lemma UnfilteredNeverNoMatches(expenses: seq<ExpenseRow>, months: MonthNames)
    ensures EmptyMessage(expenses, Unfiltered, months) != Some(NoMatches)
  {
    UnfilteredKeepsAll(expenses, months);
    if expenses != [] {
      assert expenses[0] in FilteredExpenses(expenses, Unfiltered, months);
    }
  }
}
