/**
 * The dashboard's spending analytics card: the expenses of this month, last
 * month or the semester, grouped by category for the pie chart and by day for
 * the line chart, the line padded with zero points on a few fixed days of the
 * month when it has fewer than five.
 */
module SpendingAnalytics {
  import opened Wrappers
  import opened Calendar
  import opened Seqs
  import opened Tally
  import opened Schema
  import opened Categories
  import opened Grouping

  /** The three buttons of the card. */
  datatype TimeRange = ThisMonth | LastMonth | SemesterRange

  /** The interval the selected range filters on. */
  function RangeWindow(c: Calendar, now: Instant, r: TimeRange): (w: Window)
    ensures Lawful(c) && r == ThisMonth ==> Within(now, w)
    ensures Lawful(c) && r == LastMonth ==> w.start <= now
    ensures r == SemesterRange ==> w == Semester
  {
    match r
    case ThisMonth => Window(c.startOfMonth(now), c.endOfMonth(now))
    case LastMonth =>
      var m := c.addMonths(now, -1);
      Window(c.startOfMonth(m), c.endOfMonth(m))
    case SemesterRange => Semester
  }

  /** `filteredExpenses`, `[]` while the expenses are not loaded. */
  function RangeExpenses(c: Calendar, now: Instant, r: TimeRange, expenses: Option<seq<Expense>>): seq<Expense>
  {
    ExpensesIn(expenses, RangeWindow(c, now, r))
  }

  // ---- The pie chart ----

  datatype Slice = Slice(name: string, value: real, category: string)

  function SliceValue(s: Slice): real { s.value }

  /** `pieChartData`: one slice per entry of the category record, named after the category table. */
  function PieData(t: seq<Entry<string>>): (r: seq<Slice>)
    ensures |r| == |t|
  {
    if t == [] then [] else [Slice(GetCategoryById(t[0].key).name, t[0].total, t[0].key)] + PieData(t[1..])
  }

  /** `totalExpenses`: the slice values summed. */
  function TotalExpenses(slices: seq<Slice>): real
  {
    SumBy(slices, SliceValue)
  }

  lemma {:induction false} PieDataSum(t: seq<Entry<string>>)
    ensures TotalExpenses(PieData(t)) == Grand(t)
  {
    if t != [] {
      PieDataSum(t[1..]);
      assert PieData(t)[1..] == PieData(t[1..]);
    }
  }

  /** Lines 54-69 as the card runs them: the `forEach` into the category record, the slices and their sum. */
  method BuildPie(filteredExpenses: seq<Expense>) returns (slices: seq<Slice>, total: real)
    ensures slices == PieData(CategoryTotals(filteredExpenses))
    ensures total == SumBy(filteredExpenses, ExpenseAmount)
  {
    var byCategory := Accumulate(filteredExpenses, CategoryOf, ExpenseAmount);
    slices := PieData(byCategory);
    total := TotalExpenses(slices);
    PieFacts(filteredExpenses);
  }

  /** The categories of the slices, in order. */
  function SliceCategories(slices: seq<Slice>): (r: seq<string>)
    ensures |r| == |slices|
  {
    seq(|slices|, i requires 0 <= i < |slices| => slices[i].category)
  }

  /** Slice `i` shows entry `i` of the record. */
  lemma {:induction false} PieDataAt(t: seq<Entry<string>>, i: nat)
    requires i < |t|
    ensures PieData(t)[i] == Slice(GetCategoryById(t[i].key).name, t[i].total, t[i].key)
  {
    if i > 0 {
      PieDataAt(t[1..], i - 1);
    }
  }

  /**
   * One slice per category that has an expense in the range, no two for the
   * same category, each holding that category's sum, and the total being the
   * sum of every expense in the range.
   */
  lemma PieFacts(filteredExpenses: seq<Expense>)
    ensures var slices := PieData(CategoryTotals(filteredExpenses));
            && Distinct(SliceCategories(slices))
            && (forall k :: k in SliceCategories(slices) <==>
                              exists j :: 0 <= j < |filteredExpenses| && filteredExpenses[j].category == k)
            && (forall i :: 0 <= i < |slices| ==>
                  slices[i].value == SumWhere(filteredExpenses, CategoryOf, ExpenseAmount, slices[i].category))
            && TotalExpenses(slices) == SumBy(filteredExpenses, ExpenseAmount)
  {
    var t := CategoryTotals(filteredExpenses);
    var slices := PieData(t);
    CategoryTotalsFacts(filteredExpenses);
    PieDataSum(t);
    forall i | 0 <= i < |slices| ensures slices[i].category == Keys(t)[i] && slices[i].value == t[i].total {
      PieDataAt(t, i);
    }
    assert SliceCategories(slices) == Keys(t);
    forall i | 0 <= i < |slices|
      ensures slices[i].value == SumWhere(filteredExpenses, CategoryOf, ExpenseAmount, slices[i].category)
    {
      TotalForAt(t, i);
    }
  }

  /** In a record with distinct keys, reading an entry's key gives that entry's total. */
  lemma {:induction false} TotalForAt<K(!new)>(t: seq<Entry<K>>, i: nat)
    requires i < |t|
    requires Distinct(Keys(t))
    ensures TotalFor(t, t[i].key) == t[i].total
  {
    if i > 0 {
      assert Keys(t)[0] == t[0].key && Keys(t)[i] == t[i].key;
      assert Distinct(Keys(t[1..])) by {
        forall a, b | 0 <= a < b < |t| - 1 ensures Keys(t[1..])[a] != Keys(t[1..])[b] {
          assert Keys(t[1..])[a] == Keys(t)[a + 1] && Keys(t[1..])[b] == Keys(t)[b + 1];
        }
      }
      TotalForAt(t[1..], i - 1);
    }
  }

  // ---- The line chart ----

  datatype DayPoint = DayPoint(date: DayLabel, amount: real)

  function PointAmount(p: DayPoint): real { p.amount }

  /** Sorting by this key with the descending sort puts earlier labels first. */
  function DayKey(p: DayPoint): real { -LabelOrder(p.date) }

  /** `lineChartData` before padding: the entries of the record in insertion order. */
  function DayPoints(t: seq<Entry<DayLabel>>): (r: seq<DayPoint>)
    ensures |r| == |t|
  {
    seq(|t|, j requires 0 <= j < |t| => DayPoint(t[j].key, t[j].total))
  }

  /** The days the padding loop tries: the 5th, 10th, 15th, 20th and 25th of the month. */
  function Candidates(m: Month): (r: seq<DayLabel>)
    ensures |r| == 5
    ensures forall i :: 0 <= i < 5 ==> r[i] == DayLabel(m, 5 * (i + 1))
  {
    [DayLabel(m, 5), DayLabel(m, 10), DayLabel(m, 15), DayLabel(m, 20), DayLabel(m, 25)]
  }

  /** `!expensesByDate[date]`: the label is absent from the record or its total is 0. */
  function Unfilled(t: seq<Entry<DayLabel>>): DayLabel -> bool
  {
    (l: DayLabel) => TotalFor(t, l) == 0.0
  }

  /** A zero point for each label. */
  function ZeroPoints(labels: seq<DayLabel>): (r: seq<DayPoint>)
    ensures |r| == |labels|
  {
    seq(|labels|, j requires 0 <= j < |labels| => DayPoint(labels[j], 0.0))
  }

  /** What the padding loop pushes for month `m`: a zero point for each candidate the record lacks. */
  function Placeholders(m: Month, t: seq<Entry<DayLabel>>): seq<DayPoint>
  {
    ZeroPoints(Filter(Candidates(m), Unfilled(t)))
  }

  /** The month whose days pad the chart: the current one, the previous one, none for the semester. */
  function PaddingMonth(c: Calendar, now: Instant, r: TimeRange): Option<Month>
  {
    match r
    case ThisMonth => Some(c.monthOf(now))
    case LastMonth => Some(c.monthOf(c.addMonths(now, -1)))
    case SemesterRange => None
  }

  function Padding(c: Calendar, now: Instant, r: TimeRange, t: seq<Entry<DayLabel>>): seq<DayPoint>
  {
    if PaddingMonth(c, now, r).Some? then Placeholders(PaddingMonth(c, now, r).value, t) else []
  }

  /** `lineChartData` as the card draws it. */
  function ChartSeries(c: Calendar, now: Instant, r: TimeRange, filteredExpenses: seq<Expense>): seq<DayPoint>
  {
    var t := ExpensesByDate(c, filteredExpenses);
    if |t| < 5 then SortDesc(DayPoints(t) + Padding(c, now, r, t), DayKey) else DayPoints(t)
  }

  /** One padding loop: pushes a zero point for every candidate day of `m` the record lacks. */
  method PushPlaceholders(points: seq<DayPoint>, t: seq<Entry<DayLabel>>, m: Month) returns (out: seq<DayPoint>)
    ensures out == points + Placeholders(m, t)
  {
    out := points;
    for i := 1 to 6
      invariant out == points + ZeroPoints(Filter(Candidates(m)[..i - 1], Unfilled(t)))
    {
      var date := DayLabel(m, i * 5);
      PlaceholderStep(m, t, i);
      if TotalFor(t, date) == 0.0 {
        out := out + [DayPoint(date, 0.0)];
      }
    }
    assert Candidates(m)[..5] == Candidates(m);
  }

  /** Candidate `i` (day `5 * i`) adds its zero point exactly when the record lacks it. */
  lemma PlaceholderStep(m: Month, t: seq<Entry<DayLabel>>, i: int)
    requires 1 <= i <= 5
    ensures ZeroPoints(Filter(Candidates(m)[..i], Unfilled(t))) ==
            ZeroPoints(Filter(Candidates(m)[..i - 1], Unfilled(t))) +
            (if TotalFor(t, DayLabel(m, i * 5)) == 0.0 then [DayPoint(DayLabel(m, i * 5), 0.0)] else [])
  {
    var cands := Candidates(m);
    var date := DayLabel(m, i * 5);
    assert cands[..i] == cands[..i - 1] + [date];
    FilterAppend(cands[..i - 1], [date], Unfilled(t));
    assert [date][1..] == [];
    var before := Filter(cands[..i - 1], Unfilled(t));
    var extra := Filter([date], Unfilled(t));
    assert ZeroPoints(before + extra) == ZeroPoints(before) + ZeroPoints(extra);
  }

  /** Lines 71-111 as the card runs them: the accumulation, the padding loops and the sort. */
  method BuildChartSeries(c: Calendar, now: Instant, r: TimeRange, filteredExpenses: seq<Expense>)
    returns (series: seq<DayPoint>)
    ensures series == ChartSeries(c, now, r, filteredExpenses)
  {
    var t := Accumulate(filteredExpenses, ExpenseDay(c), ExpenseAmount);
    series := DayPoints(t);
    if |series| < 5 {
      if r == ThisMonth {
        series := PushPlaceholders(series, t, c.monthOf(now));
      } else if r == LastMonth {
        var lastMonth := c.addMonths(now, -1);
        series := PushPlaceholders(series, t, c.monthOf(lastMonth));
      } else {
        assert series + [] == series;
      }
      series := SortDesc(series, DayKey);
    }
  }

  function PointDates(pts: seq<DayPoint>): (r: seq<DayLabel>)
    ensures |r| == |pts|
  {
    seq(|pts|, i requires 0 <= i < |pts| => pts[i].date)
  }

  /** Point `i` is entry `i` of the day record. */
  lemma DayPointsKeys(t: seq<Entry<DayLabel>>)
    ensures forall i :: 0 <= i < |t| ==> DayPoints(t)[i].date == Keys(t)[i] && DayPoints(t)[i].amount == t[i].total
    ensures PointDates(DayPoints(t)) == Keys(t)
  {
  }

  /** The unpadded points: no two for the same day, each holding the sum of that day's expenses. */
  lemma DayPointsSums(c: Calendar, filteredExpenses: seq<Expense>)
    ensures var pts := DayPoints(ExpensesByDate(c, filteredExpenses));
            && Distinct(PointDates(pts))
            && (forall i :: 0 <= i < |pts| ==>
                  pts[i].amount == SumWhere(filteredExpenses, ExpenseDay(c), ExpenseAmount, pts[i].date))
  {
    var t := ExpensesByDate(c, filteredExpenses);
    var pts := DayPoints(t);
    TallyKeysDistinct(filteredExpenses, ExpenseDay(c), ExpenseAmount);
    DayPointsKeys(t);
    forall i | 0 <= i < |pts|
      ensures pts[i].amount == SumWhere(filteredExpenses, ExpenseDay(c), ExpenseAmount, pts[i].date)
    {
      TotalForAt(t, i);
      TallyTotals(filteredExpenses, ExpenseDay(c), ExpenseAmount, pts[i].date);
    }
  }

  /** The unpadded points are exactly the days that have an expense in the range. */
  lemma DayPointsDays(c: Calendar, filteredExpenses: seq<Expense>)
    ensures var pts := DayPoints(ExpensesByDate(c, filteredExpenses));
            forall d :: d in PointDates(pts) <==>
                          exists j :: 0 <= j < |filteredExpenses| && LabelOf(c, filteredExpenses[j].date) == d
  {
    var t := ExpensesByDate(c, filteredExpenses);
    TallyKeysPresent(filteredExpenses, ExpenseDay(c), ExpenseAmount);
    DayPointsKeys(t);
    assert forall j :: 0 <= j < |filteredExpenses| ==> ExpenseDay(c)(filteredExpenses[j]) == LabelOf(c, filteredExpenses[j].date);
  }

  /** The five candidate days are distinct. */
  lemma CandidatesDistinct(m: Month)
    ensures Distinct(Candidates(m))
  {
    var cs := Candidates(m);
    forall i, j | 0 <= i < j < 5 ensures cs[i] != cs[j] {
      assert cs[i].day == 5 * (i + 1) && cs[j].day == 5 * (j + 1);
    }
  }

  /**
   * There are at least as many padding points as candidate days the record
   * lacks: a candidate the record has takes up one of its entries.
   */
  lemma PlaceholdersCount(m: Month, t: seq<Entry<DayLabel>>)
    ensures |Placeholders(m, t)| + |t| >= 5
  {
    var cs := Candidates(m);
    FilterSplit(cs, Unfilled(t));
    var blocked := Filter(cs, Not(Unfilled(t)));
    CandidatesDistinct(m);
    FilterDistinct(cs, Not(Unfilled(t)));
    ElementsCard(blocked);
    ElementsCard(Keys(t));
    forall x | x in Elements(blocked) ensures x in Elements(Keys(t)) {
      assert TotalFor(t, x) != 0.0;
      if x !in Keys(t) {
        TotalForAbsent(t, x);
      }
    }
    SubsetCard(Elements(blocked), Elements(Keys(t)));
    assert |blocked| <= |t|;
    assert |Filter(cs, Unfilled(t))| + |blocked| == 5;
    assert |Placeholders(m, t)| == |Filter(cs, Unfilled(t))|;
  }

  /** Padding the month views: the chart always has at least five points. */
  lemma ChartAtLeastFive(c: Calendar, now: Instant, r: TimeRange, filteredExpenses: seq<Expense>)
    requires r != SemesterRange
    ensures |ChartSeries(c, now, r, filteredExpenses)| >= 5
  {
    var t := ExpensesByDate(c, filteredExpenses);
    if |t| < 5 {
      PlaceholdersCount(PaddingMonth(c, now, r).value, t);
      SortDescFacts(DayPoints(t) + Padding(c, now, r, t), DayKey);
    }
  }

  /**
   * What the chart holds: every day with expenses, plus, only when there were
   * fewer than five such days and a month view is selected, zero points on
   * candidate days of that month that have no total.
   */
  lemma ChartContents(c: Calendar, now: Instant, r: TimeRange, filteredExpenses: seq<Expense>)
    ensures var t := ExpensesByDate(c, filteredExpenses);
            var series := ChartSeries(c, now, r, filteredExpenses);
            && (forall p :: p in DayPoints(t) ==> p in series)
            && (forall p :: p in series && p !in DayPoints(t) ==>
                  |t| < 5 && PaddingMonth(c, now, r).Some? && p.amount == 0.0 &&
                  p.date in Candidates(PaddingMonth(c, now, r).value) && TotalFor(t, p.date) == 0.0)
            && (|t| >= 5 ==> series == DayPoints(t))
            && (r == SemesterRange ==> multiset(series) == multiset(DayPoints(t)))
  {
    var t := ExpensesByDate(c, filteredExpenses);
    var pad := Padding(c, now, r, t);
    if |t| < 5 {
      var all := DayPoints(t) + pad;
      SortDescFacts(all, DayKey);
      forall p | p in DayPoints(t) ensures p in ChartSeries(c, now, r, filteredExpenses) {
        assert p in multiset(all);
      }
      forall p | p in ChartSeries(c, now, r, filteredExpenses) && p !in DayPoints(t)
        ensures PaddingMonth(c, now, r).Some? && p.amount == 0.0 &&
                p.date in Candidates(PaddingMonth(c, now, r).value) && TotalFor(t, p.date) == 0.0
      {
        assert p in multiset(SortDesc(all, DayKey));
        assert p in pad;
      }
      if r == SemesterRange {
        assert all == DayPoints(t);
      }
    }
  }

  /** When it was padded, the chart runs from the earliest day to the latest. */
  lemma ChartOrdered(c: Calendar, now: Instant, r: TimeRange, filteredExpenses: seq<Expense>)
    requires |ExpensesByDate(c, filteredExpenses)| < 5
    ensures var series := ChartSeries(c, now, r, filteredExpenses);
            forall i, j :: 0 <= i < j < |series| ==> LabelOrder(series[i].date) <= LabelOrder(series[j].date)
  {
    var t := ExpensesByDate(c, filteredExpenses);
    SortDescFacts(DayPoints(t) + Padding(c, now, r, t), DayKey);
  }

  lemma {:induction false} DayPointsSum(t: seq<Entry<DayLabel>>)
    ensures SumBy(DayPoints(t), PointAmount) == Grand(t)
  {
    if t != [] {
      DayPointsSum(t[1..]);
      assert DayPoints(t)[1..] == DayPoints(t[1..]);
    }
  }

  lemma {:induction false} ZeroPointsSum(labels: seq<DayLabel>)
    ensures SumBy(ZeroPoints(labels), PointAmount) == 0.0
  {
    if labels != [] {
      ZeroPointsSum(labels[1..]);
      assert ZeroPoints(labels)[1..] == ZeroPoints(labels[1..]);
    }
  }

  /** Padding adds nothing: the points of the chart add up to the range's total spending. */
  lemma ChartConserves(c: Calendar, now: Instant, r: TimeRange, filteredExpenses: seq<Expense>)
    ensures SumBy(ChartSeries(c, now, r, filteredExpenses), PointAmount) == SumBy(filteredExpenses, ExpenseAmount)
  {
    var t := ExpensesByDate(c, filteredExpenses);
    var pad := Padding(c, now, r, t);
    DayPointsSum(t);
    TallyGrand(filteredExpenses, ExpenseDay(c), ExpenseAmount);
    if |t| < 5 {
      SortDescSumBy(DayPoints(t) + pad, DayKey, PointAmount);
      SumByAppend(DayPoints(t), pad, PointAmount);
      if PaddingMonth(c, now, r).Some? {
        ZeroPointsSum(Filter(Candidates(PaddingMonth(c, now, r).value), Unfilled(t)));
      }
    }
  }
}
