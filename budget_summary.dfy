/**
 * The dashboard's monthly budget card: this calendar month's spending
 * against a fixed budget of 2000, as a capped percentage and a note.
 */
module BudgetSummary {
  import opened Wrappers
  import opened Calendar
  import opened Seqs
  import opened Schema
  import opened Meter

  /** The fixed demonstration budget. */
  const TotalBudget: real := 2000.0

  /** Same month number and same year as `now`, in the user's time zone. */
  predicate InMonthOf(c: Calendar, now: Instant, e: Expense)
  {
    c.monthOf(e.date) == c.monthOf(now) && c.yearOf(e.date) == c.yearOf(now)
  }

  /** `totalExpenses`: the reduce over this month's expenses; 0 while not loaded. */
  function MonthSpent(c: Calendar, now: Instant, expenses: Option<seq<Expense>>): (r: real)
    ensures expenses.None? ==> r == 0.0
  {
    SumBy(Filter(expenses.GetOr([]), (e: Expense) => InMonthOf(c, now, e)), ExpenseAmount)
  }

  /**
   * The reduce step: one more expense adds its amount when it falls in the
   * month and year of `now` and nothing otherwise, whatever its category.
   */
  lemma MonthSpentStep(c: Calendar, now: Instant, expenses: seq<Expense>, e: Expense)
    ensures MonthSpent(c, now, Some(expenses + [e])) ==
            MonthSpent(c, now, Some(expenses)) + (if InMonthOf(c, now, e) then e.amount else 0.0)
  {
    SumByFilterAppendOne(expenses, e, (x: Expense) => InMonthOf(c, now, x), ExpenseAmount);
  }

  /** `percentSpent` against the fixed budget. */
  function PercentSpent(c: Calendar, now: Instant, expenses: Option<seq<Expense>>): (r: real)
    ensures r <= 100.0
    ensures r <= MonthSpent(c, now, expenses) / TotalBudget * 100.0
    ensures r == 100.0 || r == MonthSpent(c, now, expenses) / TotalBudget * 100.0
    ensures expenses.None? ==> r == 0.0
  {
    Percent(MonthSpent(c, now, expenses), TotalBudget)
  }

  /** The bar is full exactly when this month's spending has reached 2000. */
  lemma PercentSpentFull(c: Calendar, now: Instant, expenses: Option<seq<Expense>>)
    ensures PercentSpent(c, now, expenses) == 100.0 <==> MonthSpent(c, now, expenses) >= TotalBudget
  {
    PercentFull(MonthSpent(c, now, expenses), TotalBudget);
  }

  /** The note under the bar: "remaining" exactly while spending is below 2000. */
  function SummaryNote(c: Calendar, now: Instant, expenses: Option<seq<Expense>>): (r: RemainingNote)
    ensures r.wording == "remaining" <==> MonthSpent(c, now, expenses) < TotalBudget
    ensures expenses.None? ==> r == RemainingNote(TotalBudget, "remaining")
  {
    Note(TotalBudget, MonthSpent(c, now, expenses))
  }
}
