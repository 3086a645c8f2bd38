/** The inventory table screen: status labels, the per-column filter over the
    rows the inventory service supplies, the spreadsheet and CSV exports of
    the filtered rows, and the message shown when no row is left. */
module InventoryTable {
  import opened Common
  import opened Text
  import opened Seqs
  import opened ColumnFilter
  import opened Csv

  /** A row as the inventory service hands it over, with its stock status
      ("ok", "low" or "critical") and total value already computed. */
  datatype StockRow = StockRow(
    code: string, name: string, category: string, unit: string,
    currentStock: int, minStock: int, status: string, totalValue: int)

  /** `getStatusLabel`: the Spanish label of a known status, any other
      status as it is. */
  function StatusLabel(status: string): (text: string)
    ensures status == "ok" ==> text == "OK"
    ensures status == "low" ==> text == "Bajo"
    ensures status == "critical" ==> text == "Crítico"
    ensures status != "ok" && status != "low" && status != "critical" ==> text == status
  {
    if status == "ok" then "OK"
    else if status == "low" then "Bajo"
    else if status == "critical" then "Crítico"
    else status
  }

  predicate Known(status: string)
  {
    status == "ok" || status == "low" || status == "critical"
  }

  /** Typing a known status's label into the status filter keeps the rows of
      that status and no row of another known status. */
  lemma LabelSelectsStatus(status: string, wanted: string)
    requires Known(status) && Known(wanted)
    ensures FoldedMatch(StatusLabel(status), StatusLabel(wanted)) <==> status == wanted
  {
    if status == wanted {
      ContainsSelf(Lower(StatusLabel(status)));
    } else if FoldedMatch(StatusLabel(status), StatusLabel(wanted)) {
      LabelsDiffer(status, wanted);
      assert false;
    }
  }

  /** Distinct known labels never include one another once lower-cased: each
      lower-cased label has a letter the others lack. */
  lemma LabelsDiffer(status: string, wanted: string)
    requires Known(status) && Known(wanted) && status != wanted
    ensures !Contains(Lower(StatusLabel(status)), Lower(StatusLabel(wanted)))
  {
    var s := Lower(StatusLabel(status));
    var w := Lower(StatusLabel(wanted));
    assert Lower("OK") == "ok" && Lower("Bajo") == "bajo" && Lower("Crítico") == "crítico";
    var k := if wanted == "ok" then 1 else if wanted == "low" then 0 else 1;
    assert w[k] !in s;
    if Contains(s, w) {
      ContainsLetters(s, w);
    }
  }

  /** `item.code.slice(0, 8)`. */
  function CodePrefix(code: string): (r: string)
    ensures |r| == if |code| < 8 then |code| else 8
    ensures r == code[..|r|]
  {
    if |code| < 8 then code else code[..8]
  }

  /** The text of the seven filter boxes. */
  datatype StockFilters = StockFilters(
    codigo: string, nombre: string, categoria: string, stockActual: string,
    stockMinimo: string, estado: string, valorTotal: string)

  const Unfiltered: StockFilters := StockFilters("", "", "", "", "", "", "")

  /** The row filter: each box's text occurs in its column. */
  predicate Keeps(f: StockFilters, x: StockRow)
  {
    FoldedMatch(CodePrefix(x.code), f.codigo)
    && FoldedMatch(x.name, f.nombre)
    && FoldedMatch(x.category, f.categoria)
    && NumberMatch(x.currentStock, f.stockActual)
    && NumberMatch(x.minStock, f.stockMinimo)
    && FoldedMatch(StatusLabel(x.status), f.estado)
    && NumberMatch(x.totalValue, f.valorTotal)
  }

  function KeepsIn(f: StockFilters): StockRow -> bool
  {
    x => Keeps(f, x)
  }

  /** `filteredItems`: the rows every filter box accepts, in table order. */
  function FilteredItems(items: seq<StockRow>, f: StockFilters): (shown: seq<StockRow>)
    ensures forall x :: x in shown <==> x in items && Keeps(f, x)
    ensures IsSubsequence(shown, items)
  {
    Filter(items, KeepsIn(f))
  }

  /** With every box empty the whole table is shown. */
  lemma UnfilteredKeepsAll(items: seq<StockRow>)
    ensures FilteredItems(items, Unfiltered) == items
  {
    forall x | x in items
      ensures KeepsIn(Unfiltered)(x)
    {
      EmptyFilterMatches(CodePrefix(x.code), x.currentStock);
      EmptyFilterMatches(x.name, x.minStock);
      EmptyFilterMatches(x.category, x.totalValue);
      EmptyFilterMatches(StatusLabel(x.status), 0);
    }
    FilterAll(items, KeepsIn(Unfiltered));
  }

  /** Only the first eight characters of a code are searched, so a code
      filter longer than that hides every row. */
  lemma LongCodeFilterHidesAll(items: seq<StockRow>, f: StockFilters)
    requires |f.codigo| > 8
    ensures FilteredItems(items, f) == []
  {
    var shown := FilteredItems(items, f);
    if shown != [] {
      var x := shown[0];
      assert x in shown;
      LongFilterMisses(CodePrefix(x.code), f.codigo);
      assert false;
    }
  }

  const Headers: seq<string> := ["Código", "Nombre", "Categoría", "Stock Actual", "Stock Mínimo", "Estado", "Valor Total"]

  /** A stock quantity followed by its unit, as the template `${n} ${unit}` writes it. */
  function Quantity(n: int, unit: string): string
  {
    IntToString(n) + " " + unit
  }

  /** The CSV fields of a row, in column order. */
  function CsvRow(x: StockRow): (fields: seq<string>)
    ensures |fields| == |Headers|
  {
    [CodePrefix(x.code), x.name, x.category, Quantity(x.currentStock, x.unit),
     Quantity(x.minStock, x.unit), StatusLabel(x.status), IntToString(x.totalValue)]
  }

  /** The spreadsheet record of a row: column names with their cells. */
  function SheetRow(x: StockRow): seq<(string, Cell)>
  {
    [("Código", TextCell(CodePrefix(x.code))), ("Nombre", TextCell(x.name)),
     ("Categoría", TextCell(x.category)), ("Stock Actual", TextCell(Quantity(x.currentStock, x.unit))),
     ("Stock Mínimo", TextCell(Quantity(x.minStock, x.unit))), ("Estado", TextCell(StatusLabel(x.status))),
     ("Valor Total", NumberCell(x.totalValue))]
  }

  /** Both exports carry the same columns, in the same order, with the same values. */
  lemma ExportsAgree(x: StockRow)
    ensures SameColumns(SheetRow(x), Headers, CsvRow(x))
  {
  }

  /** `exportToCSV`: the text of the CSV file for the filtered rows. */
  function ExportCsv(items: seq<StockRow>, f: StockFilters): string
  {
    Document(Headers, Map(FilteredItems(items, f), CsvRow))
  }

  /** The free-text columns of a row hold no comma and no line break. */
  predicate PlainRow(x: StockRow)
  {
    Plain(x.code) && Plain(x.name) && Plain(x.category) && Plain(x.unit) && Plain(x.status)
  }

  lemma CsvRowPlain(x: StockRow)
    requires PlainRow(x)
    ensures PlainRecord(CsvRow(x))
  {
    NumberPlain(x.currentStock);
    NumberPlain(x.minStock);
    NumberPlain(x.totalValue);
    var fields := CsvRow(x);
    assert forall k :: 0 <= k < |fields| ==> Plain(fields[k]);
  }

  lemma HeadersPlain()
    ensures PlainRecord(Headers)
  {
  }

  /** When no row holds a comma or a line break in its text, the CSV file reads
      back as the header followed by one record per shown row, in order. */
  lemma ExportReadsBack(items: seq<StockRow>, f: StockFilters)
    requires forall x :: x in items ==> PlainRow(x)
    ensures Parse(ExportCsv(items, f)) == [Headers] + Map(FilteredItems(items, f), CsvRow)
    ensures |Split(ExportCsv(items, f), '\n')| == 1 + |FilteredItems(items, f)|
  {
    var shown := FilteredItems(items, f);
    forall i | 0 <= i < |shown| ensures PlainRecord(Map(shown, CsvRow)[i]) {
      assert shown[i] in shown;
      CsvRowPlain(shown[i]);
    }
    HeadersPlain();
    ParseDocument(Headers, Map(shown, CsvRow));
    DocumentLines(Headers, Map(shown, CsvRow));
  }

  const NoItems: string := "No hay items en el inventario"

  /** The message under the table: none while some row is shown, otherwise
      whether the table is empty or the filters hid every row. */
  function EmptyMessage(items: seq<StockRow>, f: StockFilters): (m: Option<string>)
    ensures m.None? <==> exists x :: x in items && Keeps(f, x)
    ensures m == Some(NoItems) <==> items == []
    ensures m == Some(NoMatches) <==> items != [] && forall x :: x in items ==> !Keeps(f, x)
  {
    var shown := FilteredItems(items, f);
    if shown != [] then
      assert shown[0] in shown;
      None
    else if items == [] then Some(NoItems)
    else Some(NoMatches)
  }

  /** With every box empty the "no matches" message never appears. */
  lemma UnfilteredNeverNoMatches(items: seq<StockRow>)
    ensures EmptyMessage(items, Unfiltered) != Some(NoMatches)
  {
    UnfilteredKeepsAll(items);
    if items != [] {
      assert items[0] in FilteredItems(items, Unfiltered);
    }
  }
}
