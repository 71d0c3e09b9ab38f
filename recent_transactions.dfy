/**
 * The dashboard's recent transactions card: expenses and incomes merged into
 * one list, newest first, cut to four, each with its description (or a
 * fallback), its icon and a date relative to now.
 */
module RecentTransactions {
  import opened Wrappers
  import opened Calendar
  import opened Seqs
  import opened Schema
  import opened Categories

  datatype Kind = ExpenseKind | IncomeKind

  datatype Transaction = Transaction(id: int, kind: Kind, amount: real, category: string,
                                     description: string, date: Instant)

  /** How many transactions the card shows. */
  const Shown: nat := 4

  /** `description || fallback`: a missing or empty description gives way to the fallback. */
  function DescriptionOr(d: Option<string>, fallback: string): (r: string)
    ensures d.Some? && d.value != "" ==> r == d.value
    ensures d.None? || d.value == "" ==> r == fallback
  {
    if d.Some? && d.value != "" then d.value else fallback
  }

  /** An expense as a transaction: its category, described by its category's name if it has no description. */
  function FromExpense(e: Expense): Transaction
  {
    Transaction(e.id, ExpenseKind, e.amount, e.category,
                DescriptionOr(e.description, GetCategoryById(e.category).name), e.date)
  }

  /** An income as a transaction: its source stands in for the category and for a missing description. */
  function FromIncome(i: Income): Transaction
  {
    Transaction(i.id, IncomeKind, i.amount, i.source, DescriptionOr(i.description, i.source), i.date)
  }

  function ExpenseTransactions(expenses: seq<Expense>): (r: seq<Transaction>)
    ensures |r| == |expenses|
    ensures forall i :: 0 <= i < |r| ==> r[i] == FromExpense(expenses[i])
  {
    seq(|expenses|, i requires 0 <= i < |expenses| => FromExpense(expenses[i]))
  }

  function IncomeTransactions(incomes: seq<Income>): (r: seq<Transaction>)
    ensures |r| == |incomes|
    ensures forall i :: 0 <= i < |r| ==> r[i] == FromIncome(incomes[i])
  {
    seq(|incomes|, i requires 0 <= i < |incomes| => FromIncome(incomes[i]))
  }

  /**
   * `transactions` before the sort: every expense in order, tagged as an
   * expense, then every income in order, tagged as an income; a list not
   * loaded adds nothing.
   */
  function Combined(expenses: Option<seq<Expense>>, incomes: Option<seq<Income>>): (r: seq<Transaction>)
    ensures |r| == |expenses.GetOr([])| + |incomes.GetOr([])|
    ensures forall i :: 0 <= i < |expenses.GetOr([])| ==> r[i] == FromExpense(expenses.GetOr([])[i])
    ensures forall i :: |expenses.GetOr([])| <= i < |r| ==> r[i] == FromIncome(incomes.GetOr([])[i - |expenses.GetOr([])|])
  {
    ExpenseTransactions(expenses.GetOr([])) + IncomeTransactions(incomes.GetOr([]))
  }

  /** `b.date.getTime() - a.date.getTime()` as the key of the descending sort. */
  function TransactionTime(t: Transaction): real { t.date as real }

  /** `recentTransactions`: the combined list newest first (stable), then its first four. */
  function Recent(expenses: Option<seq<Expense>>, incomes: Option<seq<Income>>): seq<Transaction>
  {
    Take(SortDesc(Combined(expenses, incomes), TransactionTime), Shown)
  }

  /**
   * The card shows four transactions, or all of them if there are fewer;
   * newest first; each one from the combined list; and none left out is
   * newer than one shown.
   */
  lemma RecentFacts(expenses: Option<seq<Expense>>, incomes: Option<seq<Income>>)
    ensures var all := Combined(expenses, incomes);
            var recent := Recent(expenses, incomes);
            var sorted := SortDesc(all, TransactionTime);
            && |recent| == (if |all| < Shown then |all| else Shown)
            && (forall i, j :: 0 <= i < j < |recent| ==> recent[i].date >= recent[j].date)
            && (forall i :: 0 <= i < |recent| ==> recent[i] in multiset(all))
            && (forall i, j :: 0 <= i < |recent| <= j < |sorted| ==> sorted[j].date <= recent[i].date)
            && multiset(sorted) == multiset(all)
  {
    TopOfSortDesc(Combined(expenses, incomes), TransactionTime, Shown);
  }

  /** Transactions at the same instant keep their order, so on a tie expenses come before incomes. */
  lemma RecentStable(expenses: Option<seq<Expense>>, incomes: Option<seq<Income>>, v: real)
    ensures WithKey(SortDesc(Combined(expenses, incomes), TransactionTime), TransactionTime, v) ==
            WithKey(Combined(expenses, incomes), TransactionTime, v)
  {
    SortDescStable(Combined(expenses, incomes), TransactionTime, v);
  }

  /** `getCategoryIcon`: "work" for every income, the category's icon for an expense. */
  function Icon(t: Transaction): (r: string)
    ensures t.kind == IncomeKind ==> r == "work"
  {
    if t.kind == IncomeKind then "work" else GetCategoryById(t.category).icon
  }

  /** An expense shows the icon of a table entry: its own category's, or the "other" icon for an unknown id. */
  lemma ExpenseIcon(t: Transaction)
    requires t.kind == ExpenseKind
    ensures exists c :: c in ExpenseCategories && Icon(t) == c.icon &&
                        (c.id == t.category || c == ExpenseCategories[|ExpenseCategories| - 1])
  {
    GetCategoryByIdFacts(t.category);
    var c := GetCategoryById(t.category);
    if forall i :: 0 <= i < |ExpenseCategories| ==> ExpenseCategories[i].id != t.category {
    } else {
      assert c.id == t.category;
    }
  }

  /** `Math.floor((now - date) / DAY)`; Dafny's `/` by a positive divisor rounds down too. */
  function DaysAgo(now: Instant, date: Instant): int
  {
    (now - date) / DayMs
  }

  /** Which of the four formats `formatRelativeDate` picks. */
  datatype RelativeDate = Today | Yesterday | DistanceToNow | CalendarDate

  function FormatRelativeDate(now: Instant, date: Instant): RelativeDate
  {
    var days := DaysAgo(now, date);
    if days == 0 then Today
    else if days == 1 then Yesterday
    else if days < 7 then DistanceToNow
    else CalendarDate
  }

  /**
   * The format in terms of elapsed milliseconds: "Today" within the last
   * 24 hours, "Yesterday" within the 24 hours before, the distance to now
   * for anything else less than a week old and for every future date, and
   * the calendar date from a week on.
   */
  lemma RelativeDateBands(now: Instant, date: Instant)
    ensures var elapsed := now - date;
            && (FormatRelativeDate(now, date) == Today <==> 0 <= elapsed < DayMs)
            && (FormatRelativeDate(now, date) == Yesterday <==> DayMs <= elapsed < 2 * DayMs)
            && (FormatRelativeDate(now, date) == DistanceToNow <==> elapsed < 0 || 2 * DayMs <= elapsed < 7 * DayMs)
            && (FormatRelativeDate(now, date) == CalendarDate <==> 7 * DayMs <= elapsed)
  {
    var elapsed := now - date;
    var days := elapsed / DayMs;
    assert days * DayMs <= elapsed < days * DayMs + DayMs;
    if elapsed < 0 {
      assert days < 0;
    } else if elapsed < DayMs {
      assert days == 0;
    } else if elapsed < 2 * DayMs {
      assert days == 1;
    } else if elapsed < 7 * DayMs {
      assert 2 <= days < 7;
    } else {
      assert days >= 7;
    }
  }
}
