/** The daily report of src/components/TransactionReport.tsx: the editable
    expense list and the cash-turnover figure. `parseFloat` is a parameter
    `parse` (None for text it cannot read); amounts are Dafny reals. */
module TransactionReport {
  import opened Common

  /** One expense line as typed: description and amount are both text. */
  datatype Expense = Expense(description: string, amount: string)

  const BlankExpense := Expense("", "")

  /** The two fields an expense input writes. */
  datatype ExpenseField = Description | Amount

  /** The fixed daily summary by payment mode. */
  datatype Summary = Summary(cash: real, gcash: real, maya: real, creditCard: real, bankTransfer: real)

  const DailySummary := Summary(7300.0, 5600.0, 2400.0, 4500.0, 1200.0)

  /** `xs.reduce((sum, val) => sum + val, 0)`: the values added from the first on. */
  function SumLeft(xs: seq<real>): real {
    if xs == [] then 0.0 else SumLeft(xs[..|xs| - 1]) + xs[|xs| - 1]
  }

  /** `Object.values(summary)`: the five modes in declaration order. */
  function SummaryValues(s: Summary): seq<real> {
    [s.cash, s.gcash, s.maya, s.creditCard, s.bankTransfer]
  }

  /** The total revenue: the five summary values added up, and so at least
      each of them when none is negative. */
  function TotalRevenue(s: Summary): (r: real)
    ensures r == SumLeft(SummaryValues(s))
    ensures s.cash >= 0.0 && s.gcash >= 0.0 && s.maya >= 0.0 && s.creditCard >= 0.0 && s.bankTransfer >= 0.0
      ==> r >= s.cash && r >= s.gcash && r >= s.maya && r >= s.creditCard && r >= s.bankTransfer
  {
    SumLeftOfFive(s.cash, s.gcash, s.maya, s.creditCard, s.bankTransfer);
    s.cash + s.gcash + s.maya + s.creditCard + s.bankTransfer
  }

  /** The fold over five values adds them in order. */
  lemma SumLeftOfFive(a: real, b: real, c: real, d: real, e: real)
    ensures SumLeft([a, b, c, d, e]) == a + b + c + d + e
  {
    assert [a][..0] == [];
    assert SumLeft([a]) == a;
    assert [a, b][..1] == [a];
    assert SumLeft([a, b]) == a + b;
    assert [a, b, c][..2] == [a, b];
    assert SumLeft([a, b, c]) == a + b + c;
    assert [a, b, c, d][..3] == [a, b, c];
    assert SumLeft([a, b, c, d]) == a + b + c + d;
    assert [a, b, c, d, e][..4] == [a, b, c, d];
  }

  /** `parseFloat(text) || 0`: blank or unreadable text counts as 0. */
  function AmountOf(parse: string -> Option<real>, text: string): (r: real)
    ensures text == "" ==> r == 0.0
    ensures text != "" && parse(text).None? ==> r == 0.0
    ensures text != "" && parse(text).Some? ==> r == parse(text).value
  {
    if text == "" then 0.0 else parse(text).GetOr(0.0)
  }

  /** The amounts of the expense lines, line by line. */
  function Amounts(parse: string -> Option<real>, es: seq<Expense>): (a: seq<real>)
    ensures |a| == |es| && forall i :: 0 <= i < |es| ==> a[i] == AmountOf(parse, es[i].amount)
  {
    seq(|es|, i requires 0 <= i < |es| => AmountOf(parse, es[i].amount))
  }

  /** The sum of the expense amounts, from the first line on: the fold over
      the lines' amounts. */
  function TotalExpenses(parse: string -> Option<real>, es: seq<Expense>): (t: real)
    ensures t == SumLeft(Amounts(parse, es))
  {
    if es == [] then 0.0
    else
      assert Amounts(parse, es)[..|es| - 1] == Amounts(parse, es[..|es| - 1]);
      TotalExpenses(parse, es[..|es| - 1]) + AmountOf(parse, es[|es| - 1].amount)
  }

  /** `calculateCashTurnover`: the opening cash plus the day's income, less
      the expenses and the closing cash, each amount read with `AmountOf`. */
  function CashTurnover(parse: string -> Option<real>, start: string, end: string, es: seq<Expense>, s: Summary): (r: real)
    ensures r == (AmountOf(parse, start) + SumLeft(SummaryValues(s))) - SumLeft(Amounts(parse, es)) - AmountOf(parse, end)
  {
    (AmountOf(parse, start) + TotalRevenue(s)) - TotalExpenses(parse, es) - AmountOf(parse, end)
  }

  /** Each added line lowers the turnover by its amount. */
  lemma TurnoverAfterAppend(parse: string -> Option<real>, start: string, end: string, es: seq<Expense>, e: Expense, s: Summary)
    ensures CashTurnover(parse, start, end, es + [e], s) == CashTurnover(parse, start, end, es, s) - AmountOf(parse, e.amount)
  {
    assert (es + [e])[..|es|] == es;
  }

  /** A line with a blank amount adds nothing to the expenses. */
  lemma BlankLineAddsNothing(parse: string -> Option<real>, es: seq<Expense>, description: string)
    ensures TotalExpenses(parse, es + [Expense(description, "")]) == TotalExpenses(parse, es)
  {
    assert (es + [Expense(description, "")])[..|es|] == es;
  }

  /** Changing one line's amount changes the expenses by the difference of
      the two amounts. */
  lemma {:induction false} TotalAfterUpdate(parse: string -> Option<real>, es: seq<Expense>, index: nat, e: Expense)
    requires index < |es|
    ensures TotalExpenses(parse, es[index := e])
      == TotalExpenses(parse, es) - AmountOf(parse, es[index].amount) + AmountOf(parse, e.amount)
  {
    var last := |es| - 1;
    var updated := es[index := e];
    assert TotalExpenses(parse, es) == TotalExpenses(parse, es[..last]) + AmountOf(parse, es[last].amount);
    assert TotalExpenses(parse, updated) == TotalExpenses(parse, updated[..last]) + AmountOf(parse, updated[last].amount);
    if index == last {
      assert updated[..last] == es[..last];
    } else {
      assert updated[..last] == es[..last][index := e];
      TotalAfterUpdate(parse, es[..last], index, e);
    }
  }

  /** On a blank form the turnover is the day's total revenue. */
  lemma BlankFormTurnover(parse: string -> Option<real>)
    ensures CashTurnover(parse, "", "", [BlankExpense], DailySummary) == 21000.0
  {
    BlankLineAddsNothing(parse, [], "");
  }

  /** The line an input writes: only the named field takes the new text. */
  function WithField(e: Expense, field: ExpenseField, value: string): (r: Expense)
    ensures field == Description ==> r.description == value && r.amount == e.amount
    ensures field == Amount ==> r.amount == value && r.description == e.description
  {
    match field
    case Description => e.(description := value)
    case Amount => e.(amount := value)
  }

  /** The report's editable state. */
  class ReportForm {
    var pettyCashStart: string
    var pettyCashEnd: string
    var expenses: seq<Expense>

    constructor ()
      ensures pettyCashStart == "" && pettyCashEnd == "" && expenses == [BlankExpense]
    {
      pettyCashStart := "";
      pettyCashEnd := "";
      expenses := [BlankExpense];
    }

    /** The turnover the report shows for the current state. */
    function Turnover(parse: string -> Option<real>): real
      reads this
    {
      CashTurnover(parse, pettyCashStart, pettyCashEnd, expenses, DailySummary)
    }

    /** `addExpense`: a blank line is appended; the turnover does not move. */
    method AddExpense(ghost parse: string -> Option<real>)
      modifies this
      ensures expenses == old(expenses) + [BlankExpense]
      ensures pettyCashStart == old(pettyCashStart) && pettyCashEnd == old(pettyCashEnd)
      ensures Turnover(parse) == old(Turnover(parse))
    {
      BlankLineAddsNothing(parse, expenses, "");
      expenses := expenses + [BlankExpense];
    }

    /** `updateExpense`: the list is copied, the line at `index` is replaced
        in the copy with only `field` changed, and the copy becomes the list.
        The inputs only call it for a line on screen. */
    method UpdateExpense(index: nat, field: ExpenseField, value: string, ghost parse: string -> Option<real>)
      requires index < |expenses|
      modifies this
      ensures |expenses| == |old(expenses)|
      ensures expenses[index] == WithField(old(expenses)[index], field, value)
      ensures forall j :: 0 <= j < |expenses| && j != index ==> expenses[j] == old(expenses)[j]
      ensures pettyCashStart == old(pettyCashStart) && pettyCashEnd == old(pettyCashEnd)
      ensures field == Description ==> Turnover(parse) == old(Turnover(parse))
    {
      var current := expenses;
      var copy := new Expense[|current|](i requires 0 <= i < |current| => current[i]);
      copy[index] := WithField(copy[index], field, value);
      assert copy[..] == current[index := WithField(current[index], field, value)];
      TotalAfterUpdate(parse, current, index, WithField(current[index], field, value));
      expenses := copy[..];
    }
  }
}
