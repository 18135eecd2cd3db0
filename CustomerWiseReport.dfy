/** The "Customer Wise Report" screen: the sample rows filtered by a search on the
    customer name, shown in a table and exported as a spreadsheet or a PDF. */
module CustomerWiseReport {
  import Text
  import Records
  import Search
  import Exports
  import opened Options

  datatype CustomerReport = CustomerReport(customer: string, totalSales: int, itemsPurchased: int)

  const Title := "Customer Wise Report"

  const Headers: seq<string> := ["Customer", "Total Sales (\U{20A8})", "Items Purchased"]

  function CustomerName(r: CustomerReport): string {
    r.customer
  }

  function SampleCustomerData(): seq<CustomerReport> {
    [CustomerReport("Customer A", 10000, 5), CustomerReport("Customer B", 15000, 7)]
  }

  /** `filteredCustomerReports`: the rows whose customer name contains the term,
      ignoring case, in their original order; the empty term keeps them all. */
  function FilteredCustomerReports(rows: seq<CustomerReport>, term: string): (r: seq<CustomerReport>)
    ensures forall k :: 0 <= k < |r| ==> r[k] in rows && Text.Matches(r[k].customer, term)
    ensures forall k :: 0 <= k < |rows| && Text.Matches(rows[k].customer, term) ==> rows[k] in r
    ensures Records.IsSubsequence(r, rows)
    ensures forall k :: 0 <= k < |rows| ==>
              multiset(r)[rows[k]] == if Text.Matches(rows[k].customer, term) then multiset(rows)[rows[k]] else 0
    ensures term == "" ==> r == rows
  {
    Search.ByField(rows, CustomerName, term)
  }

  /** A PDF body row read back into a report row. */
  function FromValues(cells: seq<Exports.Cell>): Option<CustomerReport> {
    if |cells| == 3 && cells[0].Text? && cells[1].Number? && cells[2].Number? then
      Some(CustomerReport(cells[0].s, cells[1].n, cells[2].n))
    else
      None
  }

  /** `Object.values(report)`: one cell per header, in field order, from
      which the row can be read back. */
  function Values(r: CustomerReport): (cells: seq<Exports.Cell>)
    ensures |cells| == |Headers|
    ensures FromValues(cells) == Some(r)
  {
    [Exports.Text(r.customer), Exports.Number(r.totalSales), Exports.Number(r.itemsPurchased)]
  }

  /** The "Export to Excel" button. */
  function ExcelExport(term: string): (w: Exports.Workbook<CustomerReport>)
    ensures w.rows == FilteredCustomerReports(SampleCustomerData(), term)
    ensures w.fileName == Title + ".xlsx"
    ensures term == "" ==> w.rows == SampleCustomerData()
  {
    Exports.Excel(FilteredCustomerReports(SampleCustomerData(), term), Title)
  }

  /** The "Export to PDF" button. */
  function PdfExport(term: string): (t: Exports.PdfTable)
    ensures var shown := FilteredCustomerReports(SampleCustomerData(), term);
            |t.body| == |shown| &&
            forall i :: 0 <= i < |shown| ==> FromValues(t.body[i]) == Some(shown[i])
    ensures t.head == Headers && t.fileName == Title + ".pdf"
  {
    Exports.Pdf(FilteredCustomerReports(SampleCustomerData(), term), Title, Headers, Values)
  }

  /** Both exports carry exactly the rows the table shows for the term, the
      PDF one row per shown row with that row's values. */
  lemma ExportsFollowSearch(term: string)
    ensures ExcelExport(term).rows == FilteredCustomerReports(SampleCustomerData(), term)
    ensures ExcelExport(term).fileName == Title + ".xlsx"
    ensures PdfExport(term).fileName == Title + ".pdf" && PdfExport(term).head == Headers
    ensures |PdfExport(term).body| == |ExcelExport(term).rows|
    ensures forall i :: 0 <= i < |PdfExport(term).body| ==>
              FromValues(PdfExport(term).body[i]) == Some(ExcelExport(term).rows[i])
    ensures term == "" ==> ExcelExport(term).rows == SampleCustomerData()
  {
  }

  /** Searching for "B" shows, and exports, only the second sample row. */
  lemma SearchNarrowsSample()
    ensures FilteredCustomerReports(SampleCustomerData(), "B") == [SampleCustomerData()[1]]
  {
    var rows := SampleCustomerData();
    assert Text.Lower("B") == "b";
    assert !Text.Matches(rows[0].customer, "B") by {
      var lowerFirst := Text.Lower(rows[0].customer);
      Text.IncludesIffOccurs(lowerFirst, "b");
      assert forall i :: 0 <= i < |lowerFirst| ==> lowerFirst[i] != 'b';
      forall i | 0 <= i && i + 1 <= |lowerFirst| ensures !Text.OccursAt(lowerFirst, "b", i) {
        assert lowerFirst[i..i + 1][0] == lowerFirst[i];
      }
    }
    assert Text.Matches(rows[1].customer, "B") by {
      var lowerSecond := Text.Lower(rows[1].customer);
      assert lowerSecond[|lowerSecond| - 1..] == "b";
      assert Text.OccursAt(lowerSecond, "b", |lowerSecond| - 1);
      Text.IncludesIffOccurs(lowerSecond, "b");
    }
    var r := FilteredCustomerReports(rows, "B");
    assert rows == [rows[0], rows[1]];
    assert rows[1] in r;
    forall k | 0 <= k < |r| ensures r[k] != rows[0] {
      assert Text.Matches(r[k].customer, "B");
    }
    Records.SubsequenceOfPair(r, rows[0], rows[1]);
  }
}
