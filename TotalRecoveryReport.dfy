/** The Total Recovery Report screen: a start and an end date, and the total of the
    sample recoveries dated within them, computed when the button is pressed. */
module TotalRecoveryReport {
  import DateRange

  /** A row of the recovery sample: its date and the amount recovered. */
  datatype Recovery = Recovery(date: DateRange.Day, recoveryAmount: int)

  function RecoveryDate(x: Recovery): DateRange.Day {
    x.date
  }

  function RecoveryAmount(x: Recovery): int {
    x.recoveryAmount
  }

  function SampleRecoveries(): seq<Recovery> {
    [Recovery(DateRange.Day(2024, 12, 20), 5000), Recovery(DateRange.Day(2024, 12, 21), 3000)]
  }

  /** The total `calculateTotalRecovery` stores: the recoveries dated from `start` to
      `end`, both inclusive, added up; 0 when either date is blank or the
      start is after the end. */
  function TotalRecovery(rows: seq<Recovery>, start: DateRange.DateInput, end: DateRange.DateInput): (r: int)
    ensures r == DateRange.RangeSum(rows, RecoveryDate, RecoveryAmount, start, end)
    ensures start.Blank? || end.Blank? ==> r == 0
    ensures start.On? && end.On? && !DateRange.OnOrBefore(start.date, end.date) ==> r == 0
  {
    DateRange.TotalInRange(rows, RecoveryDate, RecoveryAmount, start, end)
  }

  /** The range 2024-12-20 to 2024-12-21 takes in both sample rows; the
      single day 2024-12-20 only the first. */
  lemma SampleTotals()
    ensures TotalRecovery(SampleRecoveries(), DateRange.On(DateRange.Day(2024, 12, 20)), DateRange.On(DateRange.Day(2024, 12, 21))) == 8000
    ensures TotalRecovery(SampleRecoveries(), DateRange.On(DateRange.Day(2024, 12, 20)), DateRange.On(DateRange.Day(2024, 12, 20))) == 5000
  {
    var rows := SampleRecoveries();
    assert rows[1..][1..] == [];
  }

  /** The report screen. Until the button is pressed the shown total is the
      last one computed, whatever the dates now say. */
  class TotalRecoveryReport {
    var start: DateRange.DateInput
    var end: DateRange.DateInput
    var totalRecovery: int
    const sampleRecoveryData: seq<Recovery>

    constructor ()
      ensures start == DateRange.Blank && end == DateRange.Blank
      ensures totalRecovery == 0 && sampleRecoveryData == SampleRecoveries()
    {
      start := DateRange.Blank;
      end := DateRange.Blank;
      totalRecovery := 0;
      sampleRecoveryData := SampleRecoveries();
    }

    /** The start input's `onChange`. */
    method SetStart(d: DateRange.DateInput)
      modifies this
      ensures start == d && end == old(end) && totalRecovery == old(totalRecovery)
    {
      start := d;
    }

    /** The end input's `onChange`. */
    method SetEnd(d: DateRange.DateInput)
      modifies this
      ensures end == d && start == old(start) && totalRecovery == old(totalRecovery)
    {
      end := d;
    }

    /** `calculateTotalRecovery`. */
    method CalculateTotalRecovery()
      modifies this
      ensures totalRecovery == TotalRecovery(sampleRecoveryData, start, end)
      ensures start == old(start) && end == old(end)
    {
      totalRecovery := TotalRecovery(sampleRecoveryData, start, end);
    }
  }
}
