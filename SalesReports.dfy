/** The Sales Total Report screen: a start and an end date, and the total of the
    sample sales dated within them, computed when the button is pressed. */
module SalesReports {
  import DateRange

  /** A row of the sales sample: its date and its sale total. */
  datatype Sale = Sale(date: DateRange.Day, total: int)

  function SaleDate(x: Sale): DateRange.Day {
    x.date
  }

  function SaleTotal(x: Sale): int {
    x.total
  }

  function SampleSales(): seq<Sale> {
    [Sale(DateRange.Day(2024, 12, 20), 10000), Sale(DateRange.Day(2024, 12, 21), 15000)]
  }

  /** The total `calculateTotalSales` stores: the sales dated from `start` to
      `end`, both inclusive, added up; 0 when either date is blank or the
      start is after the end. */
  function TotalSales(rows: seq<Sale>, start: DateRange.DateInput, end: DateRange.DateInput): (r: int)
    ensures r == DateRange.RangeSum(rows, SaleDate, SaleTotal, start, end)
    ensures start.Blank? || end.Blank? ==> r == 0
    ensures start.On? && end.On? && !DateRange.OnOrBefore(start.date, end.date) ==> r == 0
  {
    DateRange.TotalInRange(rows, SaleDate, SaleTotal, start, end)
  }

  /** The range 2024-12-20 to 2024-12-21 takes in both sample rows; the
      single day 2024-12-20 only the first. */
  lemma SampleTotals()
    ensures TotalSales(SampleSales(), DateRange.On(DateRange.Day(2024, 12, 20)), DateRange.On(DateRange.Day(2024, 12, 21))) == 25000
    ensures TotalSales(SampleSales(), DateRange.On(DateRange.Day(2024, 12, 20)), DateRange.On(DateRange.Day(2024, 12, 20))) == 10000
  {
    var rows := SampleSales();
    assert rows[1..][1..] == [];
  }

  /** The report screen. Until the button is pressed the shown total is the
      last one computed, whatever the dates now say. */
  class SalesTotalReport {
    var start: DateRange.DateInput
    var end: DateRange.DateInput
    var totalSales: int
    const sampleSalesData: seq<Sale>

    constructor ()
      ensures start == DateRange.Blank && end == DateRange.Blank
      ensures totalSales == 0 && sampleSalesData == SampleSales()
    {
      start := DateRange.Blank;
      end := DateRange.Blank;
      totalSales := 0;
      sampleSalesData := SampleSales();
    }

    /** The start input's `onChange`. */
    method SetStart(d: DateRange.DateInput)
      modifies this
      ensures start == d && end == old(end) && totalSales == old(totalSales)
    {
      start := d;
    }

    /** The end input's `onChange`. */
    method SetEnd(d: DateRange.DateInput)
      modifies this
      ensures end == d && start == old(start) && totalSales == old(totalSales)
    {
      end := d;
    }

    /** `calculateTotalSales`. */
    method CalculateTotalSales()
      modifies this
      ensures totalSales == TotalSales(sampleSalesData, start, end)
      ensures start == old(start) && end == old(end)
    {
      totalSales := TotalSales(sampleSalesData, start, end);
    }
  }
}
