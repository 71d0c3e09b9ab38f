/**
 * The budgets page: how much of each budget has been spent, the progress bar
 * value, the remaining / over-budget note, and the split of the fetched
 * budgets into current and past ones.
 */
module BudgetsPage {
  import opened Wrappers
  import opened Calendar
  import opened Seqs
  import opened Schema
  import opened Meter

  /** An expense counts towards a budget when its category matches and its date lies in the budget's closed period. */
  predicate Charged(b: Budget, e: Expense)
  {
    e.category == b.category && e.date >= b.startDate && e.date <= b.endDate
  }

  function ChargedTo(b: Budget, expenses: seq<Expense>): seq<Expense>
  {
    Filter(expenses, (e: Expense) => Charged(b, e))
  }

  /** `getBudgetSpent`: 0 while the expenses are not loaded. */
  function BudgetSpent(b: Budget, expenses: Option<seq<Expense>>): (r: real)
    ensures expenses.None? ==> r == 0.0
  {
    if expenses.None? then 0.0 else SumBy(ChargedTo(b, expenses.value), ExpenseAmount)
  }

  /**
   * `calculateBudgetProgress`: 0 while the expenses are not loaded, else the
   * percentage of the amount spent, capped at 100 (a zero amount is excluded,
   * as for `Meter.Percent`).
   */
  function BudgetProgress(b: Budget, expenses: Option<seq<Expense>>): (r: real)
    requires expenses.Some? ==> b.amount != 0.0
    ensures r <= 100.0
    ensures expenses.None? ==> r == 0.0
    ensures expenses.Some? ==> r <= BudgetSpent(b, expenses) / b.amount * 100.0
    ensures expenses.Some? ==> r == 100.0 || r == BudgetSpent(b, expenses) / b.amount * 100.0
  {
    if expenses.None? then 0.0 else Percent(BudgetSpent(b, expenses), b.amount)
  }

  /**
   * What `spent` adds up: one more expense raises it by its amount exactly
   * when it is charged to the budget, boundary dates included.
   */
  lemma {:induction false} SpentStep(b: Budget, expenses: seq<Expense>, e: Expense)
    ensures BudgetSpent(b, Some(expenses + [e])) ==
            BudgetSpent(b, Some(expenses)) + (if Charged(b, e) then e.amount else 0.0)
  {
    SumByFilterAppendOne(expenses, e, (x: Expense) => Charged(b, x), ExpenseAmount);
  }

  /** Expenses of other categories or outside the period never change `spent`. */
  lemma {:induction false} SpentIgnoresUncharged(b: Budget, expenses: seq<Expense>, others: seq<Expense>)
    requires forall i :: 0 <= i < |others| ==> !Charged(b, others[i])
    ensures BudgetSpent(b, Some(expenses + others)) == BudgetSpent(b, Some(expenses))
    decreases |others|
  {
    if others != [] {
      var n := |others| - 1;
      assert expenses + others == (expenses + others[..n]) + [others[n]];
      SpentStep(b, expenses + others[..n], others[n]);
      SpentIgnoresUncharged(b, expenses, others[..n]);
    } else {
      assert expenses + others == expenses;
    }
  }

  /** With a positive amount and no refunds, progress is a percentage in [0, 100]. */
  lemma ProgressInRange(b: Budget, expenses: seq<Expense>)
    requires b.amount > 0.0
    requires forall i :: 0 <= i < |expenses| ==> expenses[i].amount >= 0.0
    ensures 0.0 <= BudgetProgress(b, Some(expenses)) <= 100.0
  {
    var c := ChargedTo(b, expenses);
    forall i | 0 <= i < |c| ensures ExpenseAmount(c[i]) >= 0.0 {
      var j :| 0 <= j < |expenses| && expenses[j] == c[i];
    }
    SumByNonNegative(c, ExpenseAmount);
    PercentInRange(BudgetSpent(b, Some(expenses)), b.amount);
  }

  /** With a positive amount, the bar is full exactly when spending has reached the budget. */
  lemma ProgressFull(b: Budget, expenses: seq<Expense>)
    requires b.amount > 0.0
    ensures BudgetProgress(b, Some(expenses)) == 100.0 <==> BudgetSpent(b, Some(expenses)) >= b.amount
  {
    PercentFull(BudgetSpent(b, Some(expenses)), b.amount);
  }

  /** `currentBudgets`: the budgets whose closed period contains `now`; none while not loaded. */
  function CurrentBudgets(budgets: Option<seq<Budget>>, now: Instant): seq<Budget>
  {
    Filter(budgets.GetOr([]), (b: Budget) => now >= b.startDate && now <= b.endDate)
  }

  function EndKey(b: Budget): real { b.endDate as real }

  /** The past budgets card: the budgets that ended before `now`, latest end first. */
  function PastBudgets(budgets: Option<seq<Budget>>, now: Instant): seq<Budget>
  {
    SortDesc(Filter(budgets.GetOr([]), (b: Budget) => b.endDate < now), EndKey)
  }

  /**
   * The split: a fetched budget is current exactly when its period contains
   * `now` and past exactly when it ended before `now`; no budget is both, and
   * one that has not started (and ends after it starts) is neither.
   */
  lemma BudgetSplit(budgets: seq<Budget>, now: Instant)
    ensures forall i :: 0 <= i < |budgets| ==>
              (budgets[i] in CurrentBudgets(Some(budgets), now) <==> budgets[i].startDate <= now <= budgets[i].endDate)
    ensures forall i :: 0 <= i < |budgets| ==>
              (budgets[i] in PastBudgets(Some(budgets), now) <==> budgets[i].endDate < now)
    ensures forall b :: b in CurrentBudgets(Some(budgets), now) ==> b !in PastBudgets(Some(budgets), now)
    ensures forall i :: 0 <= i < |budgets| && now < budgets[i].startDate <= budgets[i].endDate ==>
              budgets[i] !in CurrentBudgets(Some(budgets), now) && budgets[i] !in PastBudgets(Some(budgets), now)
  {
    var past := Filter(budgets, (b: Budget) => b.endDate < now);
    SortDescFacts(past, EndKey);
    assert forall b :: b in PastBudgets(Some(budgets), now) <==> b in past by {
      forall b ensures b in PastBudgets(Some(budgets), now) <==> b in past {
        assert b in multiset(PastBudgets(Some(budgets), now)) <==> b in multiset(past);
      }
    }
  }

  /** Past budgets are exactly the ended ones, each once, ordered by end date, latest first. */
  lemma PastBudgetsOrdered(budgets: seq<Budget>, now: Instant)
    ensures SortedDesc(PastBudgets(Some(budgets), now), EndKey)
    ensures multiset(PastBudgets(Some(budgets), now)) == multiset(Filter(budgets, (b: Budget) => b.endDate < now))
  {
    SortDescFacts(Filter(budgets, (b: Budget) => b.endDate < now), EndKey);
  }
}
