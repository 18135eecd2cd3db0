/** The Salary Report screen: a start and an end date, and the total of the
    sample salaries dated within them, computed when the button is pressed. */
module SalaryReport {
  import DateRange

  /** A row of the salary sample: the employee, the salary and its date. */
  datatype Salary = Salary(employee: string, salary: int, date: DateRange.Day)

  function SalaryDate(x: Salary): DateRange.Day {
    x.date
  }

  function SalaryAmount(x: Salary): int {
    x.salary
  }

  function SampleSalaries(): seq<Salary> {
    [Salary("Employee A", 15000, DateRange.Day(2024, 12, 20)), Salary("Employee B", 18000, DateRange.Day(2024, 12, 21))]
  }

  /** The total `calculateTotalSalary` stores: the salaries dated from `start` to
      `end`, both inclusive, added up; 0 when either date is blank or the
      start is after the end. */
  function TotalSalary(rows: seq<Salary>, start: DateRange.DateInput, end: DateRange.DateInput): (r: int)
    ensures r == DateRange.RangeSum(rows, SalaryDate, SalaryAmount, start, end)
    ensures start.Blank? || end.Blank? ==> r == 0
    ensures start.On? && end.On? && !DateRange.OnOrBefore(start.date, end.date) ==> r == 0
  {
    DateRange.TotalInRange(rows, SalaryDate, SalaryAmount, start, end)
  }

  /** The range 2024-12-20 to 2024-12-21 takes in both sample rows; the
      single day 2024-12-20 only the first. */
  lemma SampleTotals()
    ensures TotalSalary(SampleSalaries(), DateRange.On(DateRange.Day(2024, 12, 20)), DateRange.On(DateRange.Day(2024, 12, 21))) == 33000
    ensures TotalSalary(SampleSalaries(), DateRange.On(DateRange.Day(2024, 12, 20)), DateRange.On(DateRange.Day(2024, 12, 20))) == 15000
  {
    var rows := SampleSalaries();
    assert rows[1..][1..] == [];
  }

  /** The report screen. Until the button is pressed the shown total is the
      last one computed, whatever the dates now say. */
  class SalaryReport {
    var start: DateRange.DateInput
    var end: DateRange.DateInput
    var totalSalary: int
    const sampleSalaryData: seq<Salary>

    constructor ()
      ensures start == DateRange.Blank && end == DateRange.Blank
      ensures totalSalary == 0 && sampleSalaryData == SampleSalaries()
    {
      start := DateRange.Blank;
      end := DateRange.Blank;
      totalSalary := 0;
      sampleSalaryData := SampleSalaries();
    }

    /** The start input's `onChange`. */
    method SetStart(d: DateRange.DateInput)
      modifies this
      ensures start == d && end == old(end) && totalSalary == old(totalSalary)
    {
      start := d;
    }

    /** The end input's `onChange`. */
    method SetEnd(d: DateRange.DateInput)
      modifies this
      ensures end == d && start == old(start) && totalSalary == old(totalSalary)
    {
      end := d;
    }

    /** `calculateTotalSalary`. */
    method CalculateTotalSalary()
      modifies this
      ensures totalSalary == TotalSalary(sampleSalaryData, start, end)
      ensures start == old(start) && end == old(end)
    {
      totalSalary := TotalSalary(sampleSalaryData, start, end);
    }
  }
}
