/**
 * The dashboard's semester expenses card: the Fall 2025 expenses totalled
 * by category, shown for tuition, books and lab fees, each with a fixed
 * figure standing in when its total is missing or 0.
 */
module SemesterCard {
  import opened Wrappers
  import opened Calendar
  import opened Seqs
  import opened Tally
  import opened Schema
  import opened Grouping

  /** `rec[k] || fallback`: an absent key and a total of exactly 0 both show the fallback. */
  function TotalOr(t: seq<Entry<string>>, k: string, fallback: real): (r: real)
    ensures TotalFor(t, k) != 0.0 ==> r == TotalFor(t, k)
    ensures TotalFor(t, k) == 0.0 ==> r == fallback
  {
    if TotalFor(t, k) != 0.0 then TotalFor(t, k) else fallback
  }

  datatype SemesterFigures = SemesterFigures(tuition: real, books: real, labFees: real)

  /** The three figures; lab fees are the "education" category. */
  function Figures(expenses: Option<seq<Expense>>): SemesterFigures
  {
    var t := CategoryTotals(ExpensesIn(expenses, Semester));
    SemesterFigures(TotalOr(t, "tuition", 3800.0), TotalOr(t, "books", 350.0), TotalOr(t, "education", 150.0))
  }

  /** Lines 15-32 as the card runs them: the filter, the `forEach` into the category record, the three reads. */
  method ComputeFigures(expenses: Option<seq<Expense>>) returns (f: SemesterFigures)
    ensures f == Figures(expenses)
  {
    var semester := ExpensesIn(expenses, Semester);
    var byCategory := Accumulate(semester, CategoryOf, ExpenseAmount);
    f := SemesterFigures(TotalOr(byCategory, "tuition", 3800.0), TotalOr(byCategory, "books", 350.0),
                         TotalOr(byCategory, "education", 150.0));
  }

  /** The fallback figure, or the sum of that category's semester expenses when it is not 0. */
  function Shown(k: string, fallback: real, semester: seq<Expense>): real
  {
    var s := SumWhere(semester, CategoryOf, ExpenseAmount, k);
    if s != 0.0 then s else fallback
  }

  /**
   * Each figure is the sum of its category's expenses dated within the
   * semester (both ends included), or the stand-in figure when that sum is 0:
   * no such expenses, or refunds cancelling them out.
   */
  lemma FiguresFacts(expenses: Option<seq<Expense>>)
    ensures var semester := ExpensesIn(expenses, Semester);
            && Figures(expenses).tuition == Shown("tuition", 3800.0, semester)
            && Figures(expenses).books == Shown("books", 350.0, semester)
            && Figures(expenses).labFees == Shown("education", 150.0, semester)
  {
    var semester := ExpensesIn(expenses, Semester);
    TallyTotals(semester, CategoryOf, ExpenseAmount, "tuition");
    TallyTotals(semester, CategoryOf, ExpenseAmount, "books");
    TallyTotals(semester, CategoryOf, ExpenseAmount, "education");
  }

  /** Before the expenses load, the card shows the three stand-in figures. */
  lemma FiguresUnloaded()
    ensures Figures(None) == SemesterFigures(3800.0, 350.0, 150.0)
  {
  }

  /** An expense outside the semester, or of another category, never moves a figure. */
  lemma {:induction false} FiguresIgnoreOthers(expenses: seq<Expense>, e: Expense)
    requires !Within(e.date, Semester) || e.category !in {"tuition", "books", "education"}
    ensures Figures(Some(expenses + [e])) == Figures(Some(expenses))
  {
    var before := ExpensesIn(Some(expenses), Semester);
    var after := ExpensesIn(Some(expenses + [e]), Semester);
    ExpensesInAppend(expenses, e, Semester);
    FiguresFacts(Some(expenses));
    FiguresFacts(Some(expenses + [e]));
    if Within(e.date, Semester) {
      assert after[..|after| - 1] == before;
    } else {
      assert after == before;
    }
  }
}
