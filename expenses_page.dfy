/** The expenses page: the fetched expenses listed newest first. */
module ExpensesPage {
  import opened Wrappers
  import opened Seqs
  import opened Schema

  /** `sortedExpenses`: a sorted copy of the list, newest first; `[]` while not loaded. */
  function SortedExpenses(expenses: Option<seq<Expense>>): seq<Expense>
  {
    SortDesc(expenses.GetOr([]), ExpenseTime)
  }

  /**
   * The sorted list is a permutation of the loaded one, newest first, with
   * expenses of the same instant in their original order.
   */
  lemma SortedExpensesFacts(expenses: Option<seq<Expense>>)
    ensures var s := SortedExpenses(expenses);
            && |s| == |expenses.GetOr([])|
            && multiset(s) == multiset(expenses.GetOr([]))
            && (forall i, j :: 0 <= i < j < |s| ==> s[i].date >= s[j].date)
            && (forall v :: WithKey(s, ExpenseTime, v) == WithKey(expenses.GetOr([]), ExpenseTime, v))
            && (expenses.None? ==> s == [])
  {
    SortDescFacts(expenses.GetOr([]), ExpenseTime);
    forall v ensures WithKey(SortedExpenses(expenses), ExpenseTime, v) == WithKey(expenses.GetOr([]), ExpenseTime, v) {
      SortDescStable(expenses.GetOr([]), ExpenseTime, v);
    }
  }
}
