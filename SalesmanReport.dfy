/** The "Salesman Report" screen: the sample rows filtered by a search on the
    salesman name, shown in a table and exported as a spreadsheet or a PDF. */
module SalesmanReport {
  import Text
  import Records
  import Search
  import Exports
  import opened Options

  datatype SalesmanReport = SalesmanReport(salesman: string, totalSales: int, totalOrders: int)

  const Title := "Salesman Report"

  const Headers: seq<string> := ["Salesman", "Total Sales (\U{20A8})", "Total Orders"]

  function SalesmanName(r: SalesmanReport): string {
    r.salesman
  }

  function SampleSalesmanData(): seq<SalesmanReport> {
    [SalesmanReport("Salesman A", 20000, 50), SalesmanReport("Salesman B", 25000, 60)]
  }

  /** `filteredSalesmanReports`: the rows whose salesman name contains the term,
      ignoring case, in their original order; the empty term keeps them all. */
  function FilteredSalesmanReports(rows: seq<SalesmanReport>, term: string): (r: seq<SalesmanReport>)
    ensures forall k :: 0 <= k < |r| ==> r[k] in rows && Text.Matches(r[k].salesman, term)
    ensures forall k :: 0 <= k < |rows| && Text.Matches(rows[k].salesman, term) ==> rows[k] in r
    ensures Records.IsSubsequence(r, rows)
    ensures forall k :: 0 <= k < |rows| ==>
              multiset(r)[rows[k]] == if Text.Matches(rows[k].salesman, term) then multiset(rows)[rows[k]] else 0
    ensures term == "" ==> r == rows
  {
    Search.ByField(rows, SalesmanName, term)
  }

  /** A PDF body row read back into a report row. */
  function FromValues(cells: seq<Exports.Cell>): Option<SalesmanReport> {
    if |cells| == 3 && cells[0].Text? && cells[1].Number? && cells[2].Number? then
      Some(SalesmanReport(cells[0].s, cells[1].n, cells[2].n))
    else
      None
  }

  /** `Object.values(report)`: one cell per header, in field order, from
      which the row can be read back. */
  function Values(r: SalesmanReport): (cells: seq<Exports.Cell>)
    ensures |cells| == |Headers|
    ensures FromValues(cells) == Some(r)
  {
    [Exports.Text(r.salesman), Exports.Number(r.totalSales), Exports.Number(r.totalOrders)]
  }

  /** The "Export to Excel" button. */
  function ExcelExport(term: string): (w: Exports.Workbook<SalesmanReport>)
    ensures w.rows == FilteredSalesmanReports(SampleSalesmanData(), term)
    ensures w.fileName == Title + ".xlsx"
    ensures term == "" ==> w.rows == SampleSalesmanData()
  {
    Exports.Excel(FilteredSalesmanReports(SampleSalesmanData(), term), Title)
  }

  /** The "Export to PDF" button. */
  function PdfExport(term: string): (t: Exports.PdfTable)
    ensures var shown := FilteredSalesmanReports(SampleSalesmanData(), term);
            |t.body| == |shown| &&
            forall i :: 0 <= i < |shown| ==> FromValues(t.body[i]) == Some(shown[i])
    ensures t.head == Headers && t.fileName == Title + ".pdf"
  {
    Exports.Pdf(FilteredSalesmanReports(SampleSalesmanData(), term), Title, Headers, Values)
  }

  /** Both exports carry exactly the rows the table shows for the term, the
      PDF one row per shown row with that row's values. */
  lemma ExportsFollowSearch(term: string)
    ensures ExcelExport(term).rows == FilteredSalesmanReports(SampleSalesmanData(), term)
    ensures ExcelExport(term).fileName == Title + ".xlsx"
    ensures PdfExport(term).fileName == Title + ".pdf" && PdfExport(term).head == Headers
    ensures |PdfExport(term).body| == |ExcelExport(term).rows|
    ensures forall i :: 0 <= i < |PdfExport(term).body| ==>
              FromValues(PdfExport(term).body[i]) == Some(ExcelExport(term).rows[i])
    ensures term == "" ==> ExcelExport(term).rows == SampleSalesmanData()
  {
  }

  /** Searching for "B" shows, and exports, only the second sample row. */
  lemma SearchNarrowsSample()
    ensures FilteredSalesmanReports(SampleSalesmanData(), "B") == [SampleSalesmanData()[1]]
  {
    var rows := SampleSalesmanData();
    assert Text.Lower("B") == "b";
    assert !Text.Matches(rows[0].salesman, "B") by {
      var lowerFirst := Text.Lower(rows[0].salesman);
      Text.IncludesIffOccurs(lowerFirst, "b");
      assert forall i :: 0 <= i < |lowerFirst| ==> lowerFirst[i] != 'b';
      forall i | 0 <= i && i + 1 <= |lowerFirst| ensures !Text.OccursAt(lowerFirst, "b", i) {
        assert lowerFirst[i..i + 1][0] == lowerFirst[i];
      }
    }
    assert Text.Matches(rows[1].salesman, "B") by {
      var lowerSecond := Text.Lower(rows[1].salesman);
      assert lowerSecond[|lowerSecond| - 1..] == "b";
      assert Text.OccursAt(lowerSecond, "b", |lowerSecond| - 1);
      Text.IncludesIffOccurs(lowerSecond, "b");
    }
    var r := FilteredSalesmanReports(rows, "B");
    assert rows == [rows[0], rows[1]];
    assert rows[1] in r;
    forall k | 0 <= k < |r| ensures r[k] != rows[0] {
      assert Text.Matches(r[k].salesman, "B");
    }
    Records.SubsequenceOfPair(r, rows[0], rows[1]);
  }
}
