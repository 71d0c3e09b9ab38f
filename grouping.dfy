/**
 * What several views compute the same way: the expenses (incomes) inside a
 * time window, and the records that total them per category and per day.
 */
module Grouping {
  import opened Wrappers
  import opened Calendar
  import opened Seqs
  import opened Tally
  import opened Schema

  /** `filteredExpenses`: the loaded expenses dated inside the window; none while not loaded. */
  function ExpensesIn(expenses: Option<seq<Expense>>, w: Window): (r: seq<Expense>)
    ensures expenses.None? ==> r == []
    ensures forall i :: 0 <= i < |r| ==> Within(r[i].date, w) && expenses.Some? && r[i] in expenses.value
    ensures expenses.Some? ==>
              forall i :: 0 <= i < |expenses.value| ==> (expenses.value[i] in r <==> Within(expenses.value[i].date, w))
  {
    Filter(expenses.GetOr([]), (e: Expense) => Within(e.date, w))
  }

  /** One more expense joins the filtered list, at its end, exactly when it lies in the window. */
  lemma ExpensesInAppend(expenses: seq<Expense>, e: Expense, w: Window)
    ensures ExpensesIn(Some(expenses + [e]), w) == ExpensesIn(Some(expenses), w) + (if Within(e.date, w) then [e] else [])
  {
    FilterAppend(expenses, [e], (e: Expense) => Within(e.date, w));
    assert [e][1..] == [];
  }

  /** `filteredIncomes`. */
  function IncomesIn(incomes: Option<seq<Income>>, w: Window): (r: seq<Income>)
    ensures incomes.None? ==> r == []
    ensures forall i :: 0 <= i < |r| ==> Within(r[i].date, w) && incomes.Some? && r[i] in incomes.value
    ensures incomes.Some? ==>
              forall i :: 0 <= i < |incomes.value| ==> (incomes.value[i] in r <==> Within(incomes.value[i].date, w))
  {
    Filter(incomes.GetOr([]), (i: Income) => Within(i.date, w))
  }

  /** `expensesByCategory`, the record `Tally.Accumulate` builds from the filtered expenses. */
  function CategoryTotals(filteredExpenses: seq<Expense>): seq<Entry<string>>
  {
    TallyOf(filteredExpenses, CategoryOf, ExpenseAmount)
  }

  /**
   * One key per category present and no other, each holding the sum of its
   * expenses, and all of them adding up to `totalExpenses`.
   */
  lemma CategoryTotalsFacts(filteredExpenses: seq<Expense>)
    ensures Distinct(Keys(CategoryTotals(filteredExpenses)))
    ensures forall k :: k in Keys(CategoryTotals(filteredExpenses)) <==>
              exists i :: 0 <= i < |filteredExpenses| && filteredExpenses[i].category == k
    ensures forall k :: TotalFor(CategoryTotals(filteredExpenses), k) ==
              SumWhere(filteredExpenses, CategoryOf, ExpenseAmount, k)
    ensures Grand(CategoryTotals(filteredExpenses)) == SumBy(filteredExpenses, ExpenseAmount)
  {
    TallyKeysDistinct(filteredExpenses, CategoryOf, ExpenseAmount);
    TallyKeysPresent(filteredExpenses, CategoryOf, ExpenseAmount);
    forall k ensures TotalFor(CategoryTotals(filteredExpenses), k) ==
                     SumWhere(filteredExpenses, CategoryOf, ExpenseAmount, k) {
      TallyTotals(filteredExpenses, CategoryOf, ExpenseAmount, k);
    }
    TallyGrand(filteredExpenses, CategoryOf, ExpenseAmount);
  }

  /** The `'MMM dd'` label of the day an expense (income) falls on. */
  function ExpenseDay(c: Calendar): Expense -> DayLabel { (e: Expense) => LabelOf(c, e.date) }
  function IncomeDay(c: Calendar): Income -> DayLabel { (i: Income) => LabelOf(c, i.date) }

  /** `expensesByDate` and `incomesByDate`, keyed by the `'MMM dd'` label. */
  function ExpensesByDate(c: Calendar, filteredExpenses: seq<Expense>): seq<Entry<DayLabel>>
  {
    TallyOf(filteredExpenses, ExpenseDay(c), ExpenseAmount)
  }

  function IncomesByDate(c: Calendar, filteredIncomes: seq<Income>): seq<Entry<DayLabel>>
  {
    TallyOf(filteredIncomes, IncomeDay(c), IncomeAmount)
  }
}
