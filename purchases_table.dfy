/** The purchases table screen: the per-column filter, the spreadsheet and
    CSV exports of the filtered rows, and the message shown when no row is
    left. */
module PurchasesTable {
  import opened Common
  import opened Calendar
  import opened Text
  import opened Seqs
  import opened ColumnFilter
  import opened Csv
  import opened DateFormat

  /** A purchase as the table receives it, with its supplier's name joined in. */
  datatype PurchaseRow = PurchaseRow(date: Instant, invoiceNumber: string, supplierName: string, category: string, totalAmount: int)

  /** The text of the five filter boxes. */
  datatype PurchaseFilters = PurchaseFilters(fecha: string, factura: string, proveedor: string, categoria: string, total: string)

  const Unfiltered: PurchaseFilters := PurchaseFilters("", "", "", "", "")

  /** The row filter: each box's text occurs in its column; the date column is
      the date spelled "dd MMM yyyy" with the locale's month abbreviations. */
  predicate Keeps(f: PurchaseFilters, months: MonthNames, x: PurchaseRow)
  {
    FoldedMatch(LongDate(x.date, months), f.fecha)
    && FoldedMatch(x.invoiceNumber, f.factura)
    && FoldedMatch(x.supplierName, f.proveedor)
    && FoldedMatch(x.category, f.categoria)
    && NumberMatch(x.totalAmount, f.total)
  }

  function KeepsIn(f: PurchaseFilters, months: MonthNames): PurchaseRow -> bool
  {
    x => Keeps(f, months, x)
  }

  /** `filteredPurchases`: the rows every filter box accepts, in table order. */
  function FilteredPurchases(purchases: seq<PurchaseRow>, f: PurchaseFilters, months: MonthNames): (shown: seq<PurchaseRow>)
    ensures forall x :: x in shown <==> x in purchases && Keeps(f, months, x)
    ensures IsSubsequence(shown, purchases)
  {
    Filter(purchases, KeepsIn(f, months))
  }

  /** With every box empty the whole table is shown. */
  lemma UnfilteredKeepsAll(purchases: seq<PurchaseRow>, months: MonthNames)
    ensures FilteredPurchases(purchases, Unfiltered, months) == purchases
  {
    forall x | x in purchases
      ensures KeepsIn(Unfiltered, months)(x)
    {
      EmptyFilterMatches(LongDate(x.date, months), x.totalAmount);
      EmptyFilterMatches(x.invoiceNumber, 0);
      EmptyFilterMatches(x.supplierName, 0);
      EmptyFilterMatches(x.category, 0);
    }
    FilterAll(purchases, KeepsIn(Unfiltered, months));
  }

  /** A supplier's name typed into the supplier box, every other box empty,
      keeps every purchase from that supplier, whatever the case it is typed in. */
  lemma SupplierFilterKeepsRow(x: PurchaseRow, months: MonthNames, typed: string)
    requires Lower(typed) == Lower(x.supplierName)
    ensures Keeps(Unfiltered.(proveedor := typed), months, x)
  {
    ContainsSelf(Lower(x.supplierName));
    EmptyFilterMatches(LongDate(x.date, months), x.totalAmount);
    EmptyFilterMatches(x.invoiceNumber, 0);
    EmptyFilterMatches(x.category, 0);
  }

  const Headers: seq<string> := ["Fecha", "Factura", "Proveedor", "Categoría", "Total"]

  /** The CSV fields of a row, in column order. */
  function CsvRow(x: PurchaseRow): (fields: seq<string>)
    ensures |fields| == |Headers|
  {
    [ShortDate(x.date), x.invoiceNumber, x.supplierName, x.category, IntToString(x.totalAmount)]
  }

  /** The spreadsheet record of a row: column names with their cells. */
  function SheetRow(x: PurchaseRow): seq<(string, Cell)>
  {
    [("Fecha", TextCell(ShortDate(x.date))), ("Factura", TextCell(x.invoiceNumber)),
     ("Proveedor", TextCell(x.supplierName)), ("Categoría", TextCell(x.category)),
     ("Total", NumberCell(x.totalAmount))]
  }

  /** Both exports carry the same columns, in the same order, with the same values. */
  lemma ExportsAgree(x: PurchaseRow)
    ensures SameColumns(SheetRow(x), Headers, CsvRow(x))
  {
  }

  /** `exportToCSV`: the text of the CSV file for the filtered rows. */
  function ExportCsv(purchases: seq<PurchaseRow>, f: PurchaseFilters, months: MonthNames): string
  {
    Document(Headers, Map(FilteredPurchases(purchases, f, months), CsvRow))
  }

  /** The free-text columns of a row hold no comma and no line break. */
  predicate PlainRow(x: PurchaseRow)
  {
    Plain(x.invoiceNumber) && Plain(x.supplierName) && Plain(x.category)
  }

  lemma CsvRowPlain(x: PurchaseRow)
    requires PlainRow(x)
    ensures PlainRecord(CsvRow(x))
  {
    ShortDateUnquoted(x.date);
    NumberPlain(x.totalAmount);
    var fields := CsvRow(x);
    assert forall k :: 0 <= k < |fields| ==> Plain(fields[k]);
  }

  lemma HeadersPlain()
    ensures PlainRecord(Headers)
  {
  }

  /** When no row holds a comma or a line break in its text, the CSV file reads
      back as the header followed by one record per shown row, in order. */
  lemma ExportReadsBack(purchases: seq<PurchaseRow>, f: PurchaseFilters, months: MonthNames)
    requires forall x :: x in purchases ==> PlainRow(x)
    ensures Parse(ExportCsv(purchases, f, months)) == [Headers] + Map(FilteredPurchases(purchases, f, months), CsvRow)
    ensures |Split(ExportCsv(purchases, f, months), '\n')| == 1 + |FilteredPurchases(purchases, f, months)|
  {
    var shown := FilteredPurchases(purchases, f, months);
    forall i | 0 <= i < |shown| ensures PlainRecord(Map(shown, CsvRow)[i]) {
      assert shown[i] in shown;
      CsvRowPlain(shown[i]);
    }
    HeadersPlain();
    ParseDocument(Headers, Map(shown, CsvRow));
    DocumentLines(Headers, Map(shown, CsvRow));
  }

  const NoPurchases: string := "No hay compras registradas"

  /** The message under the table: none while some row is shown, otherwise
      whether there are no purchases or the filters hid every row. */
  function EmptyMessage(purchases: seq<PurchaseRow>, f: PurchaseFilters, months: MonthNames): (m: Option<string>)
    ensures m.None? <==> exists x :: x in purchases && Keeps(f, months, x)
    ensures m == Some(NoPurchases) <==> purchases == []
    ensures m == Some(NoMatches) <==> purchases != [] && forall x :: x in purchases ==> !Keeps(f, months, x)
  {
    var shown := FilteredPurchases(purchases, f, months);
    if shown != [] then
      assert shown[0] in shown;
      None
    else if purchases == [] then Some(NoPurchases)
    else Some(NoMatches)
  }

  /** With every box empty the "no matches" message never appears. */
  lemma UnfilteredNeverNoMatches(purchases: seq<PurchaseRow>, months: MonthNames)
    ensures EmptyMessage(purchases, Unfiltered, months) != Some(NoMatches)
  {
    UnfilteredKeepsAll(purchases, months);
    if purchases != [] {
      assert purchases[0] in FilteredPurchases(purchases, Unfiltered, months);
    }
  }
}
