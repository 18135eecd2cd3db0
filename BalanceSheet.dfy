/** The "Balance Sheet" screen: three lists of entries, their totals as
    JavaScript computes them, and the net balance with its sign label. */
module BalanceSheet {
  import opened Options

  /** A JavaScript number as far as these totals need one: an integer, or
      `NaN`, which every further `+` and `-` propagates. */
  datatype JsNumber = NaN | Num(n: int)

  function Add(a: JsNumber, b: JsNumber): JsNumber {
    if a.Num? && b.Num? then Num(a.n + b.n) else NaN
  }

  function Sub(a: JsNumber, b: JsNumber): JsNumber {
    if a.Num? && b.Num? then Num(a.n - b.n) else NaN
  }

  /** A field read from a row: a number, or `undefined` when the row has no
      such field. `undefined` turns into `NaN` under `+`. */
  function Operand(v: Option<int>): JsNumber {
    if v.Some? then Num(v.value) else NaN
  }

  /** One row of a section. Income and expense rows carry `amount`; credit
      rows carry `balance` and no `amount`. `detail` is the row's label
      (`source`, `category` or `name`). */
  datatype Entry = Entry(detail: string, amount: Option<int>, balance: Option<int>)

  datatype SheetData = SheetData(income: seq<Entry>, expenses: seq<Entry>, credits: seq<Entry>)

  function AmountOf(e: Entry): Option<int> {
    e.amount
  }

  function BalanceOf(e: Entry): Option<int> {
    e.balance
  }

  /** Every row carries the field. */
  predicate AllPresent(items: seq<Entry>, field: Entry -> Option<int>) {
    forall i :: 0 <= i < |items| ==> field(items[i]).Some?
  }

  function ValueOrZero(v: Option<int>): int {
    if v.Some? then v.value else 0
  }

  /** The arithmetic sum of the field over the rows, taken from the front,
      with a missing field counted as 0. */
  function FieldSum(items: seq<Entry>, field: Entry -> Option<int>): int {
    if items == [] then 0 else ValueOrZero(field(items[0])) + FieldSum(items[1..], field)
  }

  lemma {:induction false} FieldSumConcat(a: seq<Entry>, b: seq<Entry>, field: Entry -> Option<int>)
    ensures FieldSum(a + b, field) == FieldSum(a, field) + FieldSum(b, field)
  {
    if a == [] {
      assert a + b == b;
    } else {
      FieldSumConcat(a[1..], b, field);
      assert (a + b)[1..] == a[1..] + b;
    }
  }

  /** `items.reduce((total, item) => total + item[field], 0)`: a number
      exactly when every row has the field, and then the field's sum. */
  function CalculateTotal(items: seq<Entry>, field: Entry -> Option<int>): (r: JsNumber)
    ensures r.Num? <==> AllPresent(items, field)
    ensures r.Num? ==> r.n == FieldSum(items, field)
  {
    if items == [] then Num(0)
    else
      var front := items[..|items| - 1];
      var last := items[|items| - 1];
      assert items == front + [last];
      FieldSumConcat(front, [last], field);
      assert AllPresent(items, field) <==> AllPresent(front, field) && field(last).Some? by {
        assert forall i :: 0 <= i < |front| ==> front[i] == items[i];
      }
      Add(CalculateTotal(front, field), Operand(field(last)))
  }

  /** The total of a concatenation is the JavaScript sum of the two totals. */
  lemma CalculateTotalConcat(a: seq<Entry>, b: seq<Entry>, field: Entry -> Option<int>)
    ensures CalculateTotal(a + b, field) == Add(CalculateTotal(a, field), CalculateTotal(b, field))
  {
    FieldSumConcat(a, b, field);
    var ab := a + b;
    assert AllPresent(ab, field) <==> AllPresent(a, field) && AllPresent(b, field) by {
      assert forall i :: 0 <= i < |a| ==> ab[i] == a[i];
      assert forall i :: 0 <= i < |b| ==> ab[|a| + i] == b[i];
    }
  }

  /** `totalIncome`: the `amount` total over the income rows. */
  function TotalIncome(data: SheetData): (r: JsNumber)
    ensures r.Num? <==> AllPresent(data.income, AmountOf)
    ensures r.Num? ==> r.n == FieldSum(data.income, AmountOf)
  {
    CalculateTotal(data.income, AmountOf)
  }

  /** `totalExpenses`: the `amount` total over the expense rows. */
  function TotalExpenses(data: SheetData): (r: JsNumber)
    ensures r.Num? <==> AllPresent(data.expenses, AmountOf)
    ensures r.Num? ==> r.n == FieldSum(data.expenses, AmountOf)
  {
    CalculateTotal(data.expenses, AmountOf)
  }

  /** `totalCredits` as the screen computes it: the `amount` total over the
      credit rows. */
  function TotalCredits(data: SheetData): (r: JsNumber)
    ensures r.Num? <==> AllPresent(data.credits, AmountOf)
  {
    CalculateTotal(data.credits, AmountOf)
  }

  /** The credit total the table's "Balance" column calls for. */
  function TotalCreditBalances(data: SheetData): (r: JsNumber)
    ensures r.Num? <==> AllPresent(data.credits, BalanceOf)
    ensures r.Num? ==> r.n == FieldSum(data.credits, BalanceOf)
  {
    CalculateTotal(data.credits, BalanceOf)
  }

  /** A credit row carries only `balance`, so any non-empty credit list makes
      the screen's credit total `NaN`. */
  lemma CreditRowsMakeTotalNaN(data: SheetData)
    requires |data.credits| > 0
    requires forall i :: 0 <= i < |data.credits| ==> data.credits[i].amount.None?
    ensures TotalCredits(data) == NaN
  {
    assert AmountOf(data.credits[0]).None?;
  }

  /** `netBalance = totalIncome - totalExpenses`: a number exactly when every
      income and expense row has an amount, and then income minus expenses.
      The credits play no part in it. */
  function NetBalance(data: SheetData): (r: JsNumber)
    ensures r.Num? <==> AllPresent(data.income, AmountOf) && AllPresent(data.expenses, AmountOf)
    ensures r.Num? ==> r.n == FieldSum(data.income, AmountOf) - FieldSum(data.expenses, AmountOf)
  {
    Sub(TotalIncome(data), TotalExpenses(data))
  }

  /** `netBalance >= 0 ? 'Positive' : 'Negative'`; `NaN >= 0` is false. */
  function SignLabel(net: JsNumber): (r: string)
    ensures r == "Positive" || r == "Negative"
    ensures r == "Positive" <==> net.Num? && net.n >= 0
  {
    if net.Num? && net.n >= 0 then "Positive" else "Negative"
  }

  /** `fetchDummyData`. */
  function SeedData(): SheetData {
    SheetData(
      [Entry("Product Sales", Some(5000), None), Entry("Service Revenue", Some(3000), None)],
      [Entry("Office Supplies", Some(800), None), Entry("Utilities", Some(1200), None),
       Entry("Salaries", Some(2000), None)],
      [Entry("Credit Line A", None, Some(1500)), Entry("Credit Line B", None, Some(500))])
  }

  /** The seeded sheet: income 8000, expenses 4000, net balance 4000
      (Positive); the credit total is `NaN`, where 2000 was meant. */
  lemma SeededTotals()
    ensures TotalIncome(SeedData()) == Num(8000)
    ensures TotalExpenses(SeedData()) == Num(4000)
    ensures NetBalance(SeedData()) == Num(4000)
    ensures SignLabel(NetBalance(SeedData())) == "Positive"
    ensures TotalCredits(SeedData()) == NaN
    ensures TotalCreditBalances(SeedData()) == Num(2000)
  {
    var d := SeedData();
    assert AllPresent(d.income, AmountOf);
    assert AllPresent(d.expenses, AmountOf);
    assert AllPresent(d.credits, BalanceOf);
    assert FieldSum(d.income, AmountOf) == 8000;
    assert FieldSum(d.expenses, AmountOf) == 4000;
    assert FieldSum(d.credits, BalanceOf) == 2000;
    CreditRowsMakeTotalNaN(d);
  }
}
