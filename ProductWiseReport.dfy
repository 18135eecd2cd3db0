/** The "Product Wise Report" screen: the sample rows filtered by a search on the
    product name, shown in a table and exported as a spreadsheet or a PDF. */
module ProductWiseReport {
  import Text
  import Records
  import Search
  import Exports
  import opened Options

  datatype ProductReport = ProductReport(product: string, quantitySold: int, totalRevenue: int)

  const Title := "Product Wise Report"

  const Headers: seq<string> := ["Product", "Quantity Sold", "Total Revenue (\U{20A8})"]

  function ProductName(r: ProductReport): string {
    r.product
  }

  function SampleProductData(): seq<ProductReport> {
    [ProductReport("Product A", 50, 5000), ProductReport("Product B", 30, 3000)]
  }

  /** `filteredProductReports`: the rows whose product name contains the term,
      ignoring case, in their original order; the empty term keeps them all. */
  function FilteredProductReports(rows: seq<ProductReport>, term: string): (r: seq<ProductReport>)
    ensures forall k :: 0 <= k < |r| ==> r[k] in rows && Text.Matches(r[k].product, term)
    ensures forall k :: 0 <= k < |rows| && Text.Matches(rows[k].product, term) ==> rows[k] in r
    ensures Records.IsSubsequence(r, rows)
    ensures forall k :: 0 <= k < |rows| ==>
              multiset(r)[rows[k]] == if Text.Matches(rows[k].product, term) then multiset(rows)[rows[k]] else 0
    ensures term == "" ==> r == rows
  {
    Search.ByField(rows, ProductName, term)
  }

  /** A PDF body row read back into a report row. */
  function FromValues(cells: seq<Exports.Cell>): Option<ProductReport> {
    if |cells| == 3 && cells[0].Text? && cells[1].Number? && cells[2].Number? then
      Some(ProductReport(cells[0].s, cells[1].n, cells[2].n))
    else
      None
  }

  /** `Object.values(report)`: one cell per header, in field order, from
      which the row can be read back. */
  function Values(r: ProductReport): (cells: seq<Exports.Cell>)
    ensures |cells| == |Headers|
    ensures FromValues(cells) == Some(r)
  {
    [Exports.Text(r.product), Exports.Number(r.quantitySold), Exports.Number(r.totalRevenue)]
  }

  /** The "Export to Excel" button. */
  function ExcelExport(term: string): (w: Exports.Workbook<ProductReport>)
    ensures w.rows == FilteredProductReports(SampleProductData(), term)
    ensures w.fileName == Title + ".xlsx"
    ensures term == "" ==> w.rows == SampleProductData()
  {
    Exports.Excel(FilteredProductReports(SampleProductData(), term), Title)
  }

  /** The "Export to PDF" button. */
  function PdfExport(term: string): (t: Exports.PdfTable)
    ensures var shown := FilteredProductReports(SampleProductData(), term);
            |t.body| == |shown| &&
            forall i :: 0 <= i < |shown| ==> FromValues(t.body[i]) == Some(shown[i])
    ensures t.head == Headers && t.fileName == Title + ".pdf"
  {
    Exports.Pdf(FilteredProductReports(SampleProductData(), term), Title, Headers, Values)
  }

  /** Both exports carry exactly the rows the table shows for the term, the
      PDF one row per shown row with that row's values. */
  lemma ExportsFollowSearch(term: string)
    ensures ExcelExport(term).rows == FilteredProductReports(SampleProductData(), term)
    ensures ExcelExport(term).fileName == Title + ".xlsx"
    ensures PdfExport(term).fileName == Title + ".pdf" && PdfExport(term).head == Headers
    ensures |PdfExport(term).body| == |ExcelExport(term).rows|
    ensures forall i :: 0 <= i < |PdfExport(term).body| ==>
              FromValues(PdfExport(term).body[i]) == Some(ExcelExport(term).rows[i])
    ensures term == "" ==> ExcelExport(term).rows == SampleProductData()
  {
  }

  /** Searching for "B" shows, and exports, only the second sample row. */
  lemma SearchNarrowsSample()
    ensures FilteredProductReports(SampleProductData(), "B") == [SampleProductData()[1]]
  {
    var rows := SampleProductData();
    assert Text.Lower("B") == "b";
    assert !Text.Matches(rows[0].product, "B") by {
      var lowerFirst := Text.Lower(rows[0].product);
      Text.IncludesIffOccurs(lowerFirst, "b");
      assert forall i :: 0 <= i < |lowerFirst| ==> lowerFirst[i] != 'b';
      forall i | 0 <= i && i + 1 <= |lowerFirst| ensures !Text.OccursAt(lowerFirst, "b", i) {
        assert lowerFirst[i..i + 1][0] == lowerFirst[i];
      }
    }
    assert Text.Matches(rows[1].product, "B") by {
      var lowerSecond := Text.Lower(rows[1].product);
      assert lowerSecond[|lowerSecond| - 1..] == "b";
      assert Text.OccursAt(lowerSecond, "b", |lowerSecond| - 1);
      Text.IncludesIffOccurs(lowerSecond, "b");
    }
    var r := FilteredProductReports(rows, "B");
    assert rows == [rows[0], rows[1]];
    assert rows[1] in r;
    forall k | 0 <= k < |r| ensures r[k] != rows[0] {
      assert Text.Matches(r[k].product, "B");
    }
    Records.SubsequenceOfPair(r, rows[0], rows[1]);
  }
}
