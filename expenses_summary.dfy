/** The month summary of personal expenses: the month's total, the count with
    its label, and each row's description. */
module ExpensesSummary {

  import opened Wrappers
  import opened Collections
  import opened Ledger
  import opened PersonalExpenses
  import ExpensesChart
  import JsObject

  function ExpenseAmount(e: Expense): real { e.amount }

  /** `expenses.reduce((sum, e) => sum + Number(e.amount), 0)`. */
  function MonthTotal(es: seq<Expense>): real {
    Total(es, ExpenseAmount)
  }

  /** An empty month totals 0. */
  lemma EmptyMonthZero()
    ensures MonthTotal([]) == 0.0
  {
  }

  /** A new expense adds its amount to the total. */
  lemma {:induction false} TotalAfterAdd(es: seq<Expense>, e: Expense)
    ensures MonthTotal(es + [e]) == MonthTotal(es) + e.amount
  {
    TotalAppend(es, [e], ExpenseAmount);
    assert Total([e], ExpenseAmount) == e.amount by {
      assert [e][..0] == [];
    }
  }

  /** The total does not depend on the order of the expenses. */
  lemma TotalOrderFree(es: seq<Expense>, other: seq<Expense>)
    requires multiset(es) == multiset(other)
    ensures MonthTotal(es) == MonthTotal(other)
  {
    TotalPermutation(es, other, ExpenseAmount);
  }

  /** The fields of an expense the charts read. */
  function ChartView(e: Expense): ExpensesChart.ChartExpense {
    ExpensesChart.ChartExpense(
      e.amount, e.date,
      match e.category
      case None => None
      case Some(c) => Some(ExpensesChart.CategoryRef(c.name, c.color)))
  }

  function ChartViews(es: seq<Expense>): (r: seq<ExpensesChart.ChartExpense>)
    ensures |r| == |es|
    ensures forall i :: 0 <= i < |es| ==> r[i] == ChartView(es[i])
  {
    seq(|es|, i requires 0 <= i < |es| => ChartView(es[i]))
  }

  /** The summary's total and the charts' "Total del Mes". Against the
      corrected tally they always agree; as written, the chart's total is that
      of the expenses whose category is not named like an inherited property,
      so the two agree when no category is. */
  lemma AgreesWithChart(es: seq<Expense>, dayOf: string -> int)
    ensures ExpensesChart.StatsOf(ExpensesChart.CategoryTotalsOf(ChartViews(es)),
                                  ExpensesChart.DailyChartOf(ChartViews(es), dayOf)).monthTotal
            == MonthTotal(es)
    ensures var own := ExpensesChart.OwnNamed(ChartViews(es));
            ExpensesChart.StatsOf(ExpensesChart.CategoryTotalsOf(own),
                                  ExpensesChart.DailyChartOf(ChartViews(es), dayOf)).monthTotal
            == Total(own, ExpensesChart.Amount)
    ensures (forall i :: 0 <= i < |es| ==> !JsObject.IsInherited(ExpensesChart.CategoryName(ChartView(es[i])))) ==>
              ExpensesChart.StatsOf(ExpensesChart.CategoryTotalsOf(ExpensesChart.OwnNamed(ChartViews(es))),
                                    ExpensesChart.DailyChartOf(ChartViews(es), dayOf)).monthTotal
              == MonthTotal(es)
  {
    var views := ChartViews(es);
    ExpensesChart.StatsOfExpenses(views, dayOf);
    TotalMap(es, views, ExpenseAmount, ExpensesChart.Amount);
    ExpensesChart.CategoryTotalsSum(ExpensesChart.OwnNamed(views));
    if forall i :: 0 <= i < |es| ==> !JsObject.IsInherited(ExpensesChart.CategoryName(ChartView(es[i]))) {
      ExpensesChart.AsWrittenAgrees(views);
    }
  }

  /** "gasto" for exactly one expense, "gastos" otherwise. */
  function CountLabel(count: nat): (s: string)
    ensures s == "gasto" || s == "gastos"
    ensures s == "gasto" <==> count == 1
  {
    if count == 1 then "gasto" else "gastos"
  }

  const NoDescription: string := "Sin descripción"

  /** `expense.description || 'Sin descripción'`: a missing or empty
      description shows the placeholder. */
  function DescriptionShown(e: Expense): (s: string)
    ensures s != ""
    ensures e.description.Some? && e.description.value != "" ==> s == e.description.value
    ensures e.description.None? || e.description.value == "" ==> s == NoDescription
  {
    if e.description.Some? && e.description.value != "" then e.description.value else NoDescription
  }

  /** `handleDeleteExpense`: the expense is deleted only once the user confirms
      (`confirmed` is the answer to the dialog, `ok` the delete's outcome). */
  method HandleDeleteExpense(hook: PersonalExpensesHook, expenseId: string, confirmed: bool, ok: bool)
    modifies hook
    ensures hook.expenses == (if confirmed && ok then RemoveKey(old(hook.expenses), ExpenseId, expenseId) else old(hook.expenses))
    ensures hook.submitting == (if confirmed then false else old(hook.submitting))
    ensures hook.categories == old(hook.categories) && hook.loading == old(hook.loading)
  {
    if confirmed {
      var deleted := hook.DeleteExpense(expenseId, ok);
    }
  }
}
