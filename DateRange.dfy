/** The date-range total shared by the sales, salary and recovery reports:
    `rows.filter(r => new Date(r.date) >= new Date(start) &&
    new Date(r.date) <= new Date(end)).reduce((t, r) => t + amount(r), 0)`. */
module DateRange {
  import Records

  /** A calendar day, as an ISO `YYYY-MM-DD` string denotes it. */
  datatype Day = Day(year: int, month: int, day: int)

  /** The value of a date input as `new Date(...)` reads it: the empty
      string gives an Invalid Date, which compares false with everything. */
  datatype DateInput = Blank | On(date: Day)

  /** `a` is on or before `b` in calendar order. Two ISO day strings parse
      to instants in this same order. */
  predicate OnOrBefore(a: Day, b: Day) {
    a.year < b.year ||
    (a.year == b.year && (a.month < b.month || (a.month == b.month && a.day <= b.day)))
  }

  lemma OnOrBeforeTransitive(a: Day, b: Day, c: Day)
    requires OnOrBefore(a, b) && OnOrBefore(b, c)
    ensures OnOrBefore(a, c)
  {
  }

  /** `new Date(d) >= new Date(start) && new Date(d) <= new Date(end)`:
      inclusive at both ends, and false whenever a bound is blank. */
  predicate InRange(d: Day, start: DateInput, end: DateInput)
    ensures InRange(d, start, end) ==> start.On? && end.On? && OnOrBefore(start.date, end.date)
  {
    if start.On? && end.On? && OnOrBefore(start.date, d) && OnOrBefore(d, end.date) then
      OnOrBeforeTransitive(start.date, d, end.date);
      true
    else
      false
  }

  /** The amounts of the rows dated within the range, added up row by row. */
  function RangeSum<T>(rows: seq<T>, dateOf: T -> Day, amountOf: T -> int, start: DateInput, end: DateInput): int {
    if rows == [] then 0
    else (if InRange(dateOf(rows[0]), start, end) then amountOf(rows[0]) else 0) +
         RangeSum(rows[1..], dateOf, amountOf, start, end)
  }

  lemma {:induction false} SumWhereIsRangeSum<T>(
    rows: seq<T>, dateOf: T -> Day, amountOf: T -> int, start: DateInput, end: DateInput)
    ensures Records.SumWhere(rows, (x: T) => InRange(dateOf(x), start, end), amountOf) ==
            RangeSum(rows, dateOf, amountOf, start, end)
  {
    if rows != [] {
      SumWhereIsRangeSum(rows[1..], dateOf, amountOf, start, end);
    }
  }

  /** No row lies in an empty range, so its sum is 0. */
  lemma {:induction false} EmptyRangeSumsToZero<T>(
    rows: seq<T>, dateOf: T -> Day, amountOf: T -> int, start: DateInput, end: DateInput)
    requires start.Blank? || end.Blank? || !OnOrBefore(start.date, end.date)
    ensures RangeSum(rows, dateOf, amountOf, start, end) == 0
  {
    if rows != [] {
      EmptyRangeSumsToZero(rows[1..], dateOf, amountOf, start, end);
    }
  }

  /** The sum over a concatenation is the sum of the two sums. */
  lemma {:induction false} RangeSumConcat<T>(
    a: seq<T>, b: seq<T>, dateOf: T -> Day, amountOf: T -> int, start: DateInput, end: DateInput)
    ensures RangeSum(a + b, dateOf, amountOf, start, end) ==
            RangeSum(a, dateOf, amountOf, start, end) + RangeSum(b, dateOf, amountOf, start, end)
  {
    if a == [] {
      assert a + b == b;
    } else {
      RangeSumConcat(a[1..], b, dateOf, amountOf, start, end);
      assert (a + b)[1..] == a[1..] + b;
    }
  }

  /** The reports' computation: filter the rows dated in the range, then
      add up their amounts. It is the range sum; it is 0 when a bound is
      blank, and 0 when the start is after the end. */
  function TotalInRange<T(==)>(rows: seq<T>, dateOf: T -> Day, amountOf: T -> int, start: DateInput, end: DateInput): (r: int)
    ensures r == RangeSum(rows, dateOf, amountOf, start, end)
    ensures start.Blank? || end.Blank? ==> r == 0
    ensures start.On? && end.On? && !OnOrBefore(start.date, end.date) ==> r == 0
  {
    var keep := (x: T) => InRange(dateOf(x), start, end);
    Records.SumOfFilter(rows, keep, amountOf);
    SumWhereIsRangeSum(rows, dateOf, amountOf, start, end);
    assert start.Blank? || end.Blank? || !OnOrBefore(start.date, end.date) ==>
             RangeSum(rows, dateOf, amountOf, start, end) == 0 by {
      if start.Blank? || end.Blank? || !OnOrBefore(start.date, end.date) {
        EmptyRangeSumsToZero(rows, dateOf, amountOf, start, end);
      }
    }
    Records.SumOf(Records.Filter(rows, keep), amountOf)
  }
}
