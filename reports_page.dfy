/**
 * The reports page: the selected time window, the totals and savings rate
 * over it, the spending per category, the per-day expense/income series, the
 * five largest categories and, for the year view, the twelve month buckets.
 */
module ReportsPage {
  import opened Wrappers
  import opened Calendar
  import opened Seqs
  import opened Tally
  import opened Schema
  import opened Grouping

  datatype TimeRange = ThisMonth | LastMonth | ThreeMonths | Year

  /** `dateRanges[timeRange]`; `subMonths(now, n)` is `addMonths(now, -n)`. */
  function DateRange(c: Calendar, now: Instant, r: TimeRange): Window
  {
    match r
    case ThisMonth => Window(c.startOfMonth(now), c.endOfMonth(now))
    case LastMonth => Window(c.startOfMonth(c.addMonths(now, -1)), c.endOfMonth(c.addMonths(now, -1)))
    case ThreeMonths => Window(c.startOfMonth(c.addMonths(now, -2)), c.endOfMonth(now))
    case Year => Window(c.startOfYear(now), c.endOfYear(now))
  }

  /** Every window but last month's contains `now`; last month's contains the instant one month back. */
  lemma RangeContainsNow(c: Calendar, now: Instant, r: TimeRange)
    requires Lawful(c)
    ensures r != LastMonth ==> Within(now, DateRange(c, now, r))
    ensures r == LastMonth ==> Within(c.addMonths(now, -1), DateRange(c, now, r))
  {
    if r == ThreeMonths {
      var back := c.addMonths(now, -2);
      assert c.startOfMonth(back) <= back <= now;
    }
  }

  datatype Summary = Summary(totalExpenses: real, totalIncome: real, netSavings: real, savingsRate: real)

  /** The summary cards. The savings rate is a percentage of income, and 0 when there is no income. */
  function Summarize(filteredExpenses: seq<Expense>, filteredIncomes: seq<Income>): (s: Summary)
    ensures s.totalExpenses == SumBy(filteredExpenses, ExpenseAmount)
    ensures s.totalIncome == SumBy(filteredIncomes, IncomeAmount)
    ensures s.netSavings == s.totalIncome - s.totalExpenses
    ensures s.totalIncome > 0.0 ==> s.savingsRate * s.totalIncome == s.netSavings * 100.0
    ensures s.totalIncome <= 0.0 ==> s.savingsRate == 0.0
    ensures s.totalIncome > 0.0 && s.totalExpenses >= 0.0 ==> s.savingsRate <= 100.0
    ensures s.totalIncome > 0.0 && s.totalExpenses <= s.totalIncome ==> s.savingsRate >= 0.0
  {
    var totalExpenses := SumBy(filteredExpenses, ExpenseAmount);
    var totalIncome := SumBy(filteredIncomes, IncomeAmount);
    var netSavings := totalIncome - totalExpenses;
    var savingsRate := if totalIncome > 0.0 then netSavings / totalIncome * 100.0 else 0.0;
    Summary(totalExpenses, totalIncome, netSavings, savingsRate)
  }

  // ---- Spending per category ----

  /** The category entries, largest total first; equal totals keep their first-occurrence order. */
  function RankedCategories(filteredExpenses: seq<Expense>): seq<Entry<string>>
  {
    SortDesc(CategoryTotals(filteredExpenses), EntryTotal)
  }

  /** `topCategories`. */
  function TopCategories(filteredExpenses: seq<Expense>): seq<Entry<string>>
  {
    Take(RankedCategories(filteredExpenses), 5)
  }

  /**
   * Five entries, or all of them when there are fewer categories, all taken
   * from the category totals, largest first;
   * a category left out has no larger total than any shown; with five or
   * fewer categories all are shown; ties keep their first-occurrence order.
   */
  lemma TopCategoriesFacts(filteredExpenses: seq<Expense>)
    ensures |TopCategories(filteredExpenses)| ==
            if |CategoryTotals(filteredExpenses)| < 5 then |CategoryTotals(filteredExpenses)| else 5
    ensures forall i :: 0 <= i < |TopCategories(filteredExpenses)| ==>
              TopCategories(filteredExpenses)[i] in CategoryTotals(filteredExpenses)
    ensures SortedDesc(TopCategories(filteredExpenses), EntryTotal)
    ensures forall e :: e in CategoryTotals(filteredExpenses) && e !in TopCategories(filteredExpenses) ==>
              forall i :: 0 <= i < |TopCategories(filteredExpenses)| ==> e.total <= TopCategories(filteredExpenses)[i].total
    ensures |CategoryTotals(filteredExpenses)| <= 5 ==>
              multiset(TopCategories(filteredExpenses)) == multiset(CategoryTotals(filteredExpenses))
    ensures forall v :: WithKey(RankedCategories(filteredExpenses), EntryTotal, v) ==
                        WithKey(CategoryTotals(filteredExpenses), EntryTotal, v)
  {
    var t := CategoryTotals(filteredExpenses);
    var ranked := RankedCategories(filteredExpenses);
    var top := TopCategories(filteredExpenses);
    SortDescFacts(t, EntryTotal);
    TakeOfSortedKeepsGreatest(ranked, EntryTotal, 5);
    forall i | 0 <= i < |top| ensures top[i] in t {
      assert top[i] == ranked[i];
      assert ranked[i] in multiset(ranked);
    }
    assert forall i :: 0 <= i < |top| ==> top[i] == ranked[i];
    forall e | e in t && e !in top ensures forall i :: 0 <= i < |top| ==> e.total <= top[i].total {
      assert e in multiset(ranked);
      var j :| 0 <= j < |ranked| && ranked[j] == e;
    }
    if |t| <= 5 {
      assert top == ranked;
    }
    forall v ensures WithKey(ranked, EntryTotal, v) == WithKey(t, EntryTotal, v) {
      SortDescStable(t, EntryTotal, v);
    }
  }

  // ---- The per-day series ----

  datatype LinePoint = LinePoint(date: DayLabel, expenses: real, income: real)

  /** `allDates`: the expense labels, then the income labels not seen yet. */
  function AllDates(ex: seq<Entry<DayLabel>>, inc: seq<Entry<DayLabel>>): seq<DayLabel>
  {
    Dedup(Keys(ex) + Keys(inc))
  }

  /** One point per label, a side without data reading as 0. */
  function PointsFor(labels: seq<DayLabel>, ex: seq<Entry<DayLabel>>, inc: seq<Entry<DayLabel>>): (r: seq<LinePoint>)
    ensures |r| == |labels|
  {
    seq(|labels|, j requires 0 <= j < |labels| => LinePoint(labels[j], TotalFor(ex, labels[j]), TotalFor(inc, labels[j])))
  }

  /** Sorting by this key with the descending sort puts earlier labels first. */
  function LineKey(p: LinePoint): real { -LabelOrder(p.date) }

  function PointExpenses(p: LinePoint): real { p.expenses }
  function PointIncome(p: LinePoint): real { p.income }

  /** `lineChartData` after its sort. */
  function LineSeries(c: Calendar, filteredExpenses: seq<Expense>, filteredIncomes: seq<Income>): seq<LinePoint>
  {
    var ex := ExpensesByDate(c, filteredExpenses);
    var inc := IncomesByDate(c, filteredIncomes);
    SortDesc(PointsFor(AllDates(ex, inc), ex, inc), LineKey)
  }

  /** `new Set([...a, ...b])` iterated into an array. */
  method UnionLabels(all: seq<DayLabel>) returns (dates: seq<DayLabel>)
    ensures dates == Dedup(all)
  {
    dates := [];
    for i := 0 to |all|
      invariant dates == Dedup(all[..i])
    {
      assert all[..i + 1][..i] == all[..i];
      if all[i] !in dates {
        dates := dates + [all[i]];
      }
    }
    assert all[..|all|] == all;
  }

  /** `Array.from(allDates).map(...)`. */
  method MakePoints(dates: seq<DayLabel>, ex: seq<Entry<DayLabel>>, inc: seq<Entry<DayLabel>>)
    returns (points: seq<LinePoint>)
    ensures points == PointsFor(dates, ex, inc)
  {
    points := [];
    for i := 0 to |dates|
      invariant |points| == i
      invariant forall j :: 0 <= j < i ==> points[j] == LinePoint(dates[j], TotalFor(ex, dates[j]), TotalFor(inc, dates[j]))
    {
      points := points + [LinePoint(dates[i], TotalFor(ex, dates[i]), TotalFor(inc, dates[i]))];
    }
  }

  /** Lines 114-146 as the component runs them: two accumulations, the label union, the map and the sort. */
  method BuildLineSeries(c: Calendar, filteredExpenses: seq<Expense>, filteredIncomes: seq<Income>)
    returns (series: seq<LinePoint>)
    ensures series == LineSeries(c, filteredExpenses, filteredIncomes)
  {
    var ex := Accumulate(filteredExpenses, ExpenseDay(c), ExpenseAmount);
    var inc := Accumulate(filteredIncomes, IncomeDay(c), IncomeAmount);
    var dates := UnionLabels(Keys(ex) + Keys(inc));
    var points := MakePoints(dates, ex, inc);
    series := SortDesc(points, LineKey);
  }

  lemma {:induction false} PointsForSums(labels: seq<DayLabel>, ex: seq<Entry<DayLabel>>, inc: seq<Entry<DayLabel>>)
    ensures SumBy(PointsFor(labels, ex, inc), PointExpenses) == SumOfTotals(labels, ex)
    ensures SumBy(PointsFor(labels, ex, inc), PointIncome) == SumOfTotals(labels, inc)
  {
    if labels != [] {
      PointsForSums(labels[1..], ex, inc);
      assert PointsFor(labels, ex, inc)[1..] == PointsFor(labels[1..], ex, inc);
    }
  }

  /** A point of the series is a point built for one of the labels. */
  lemma SeriesFromPoints(c: Calendar, filteredExpenses: seq<Expense>, filteredIncomes: seq<Income>)
    ensures var ex := ExpensesByDate(c, filteredExpenses);
            var inc := IncomesByDate(c, filteredIncomes);
            var points := PointsFor(AllDates(ex, inc), ex, inc);
            forall p :: p in LineSeries(c, filteredExpenses, filteredIncomes) <==> p in points
  {
    var ex := ExpensesByDate(c, filteredExpenses);
    var inc := IncomesByDate(c, filteredIncomes);
    var points := PointsFor(AllDates(ex, inc), ex, inc);
    var series := LineSeries(c, filteredExpenses, filteredIncomes);
    SortDescFacts(points, LineKey);
    forall p ensures p in series <==> p in points {
      assert p in series <==> p in multiset(series);
      assert p in points <==> p in multiset(points);
    }
  }

  /** A label is among `allDates` exactly when some expense or income falls on that day. */
  lemma AllDatesExact(c: Calendar, filteredExpenses: seq<Expense>, filteredIncomes: seq<Income>, d: DayLabel)
    ensures d in AllDates(ExpensesByDate(c, filteredExpenses), IncomesByDate(c, filteredIncomes)) <==>
            (exists i :: 0 <= i < |filteredExpenses| && LabelOf(c, filteredExpenses[i].date) == d) ||
            (exists i :: 0 <= i < |filteredIncomes| && LabelOf(c, filteredIncomes[i].date) == d)
  {
    var ex := ExpensesByDate(c, filteredExpenses);
    var inc := IncomesByDate(c, filteredIncomes);
    DedupFacts(Keys(ex) + Keys(inc));
    assert d in Keys(ex) + Keys(inc) <==> d in Keys(ex) || d in Keys(inc);
    TallyKeysPresent(filteredExpenses, ExpenseDay(c), ExpenseAmount);
    TallyKeysPresent(filteredIncomes, IncomeDay(c), IncomeAmount);
    assert d in Keys(ex) <==> exists i :: 0 <= i < |filteredExpenses| && ExpenseDay(c)(filteredExpenses[i]) == d;
    assert d in Keys(inc) <==> exists i :: 0 <= i < |filteredIncomes| && IncomeDay(c)(filteredIncomes[i]) == d;
  }

  /** The series has a point for a label exactly when some expense or income falls on that day. */
  lemma LineSeriesLabels(c: Calendar, filteredExpenses: seq<Expense>, filteredIncomes: seq<Income>, d: DayLabel)
    ensures (exists k :: 0 <= k < |LineSeries(c, filteredExpenses, filteredIncomes)| &&
                         LineSeries(c, filteredExpenses, filteredIncomes)[k].date == d) <==>
            (exists i :: 0 <= i < |filteredExpenses| && LabelOf(c, filteredExpenses[i].date) == d) ||
            (exists i :: 0 <= i < |filteredIncomes| && LabelOf(c, filteredIncomes[i].date) == d)
  {
    var ex := ExpensesByDate(c, filteredExpenses);
    var inc := IncomesByDate(c, filteredIncomes);
    var labels := AllDates(ex, inc);
    var points := PointsFor(labels, ex, inc);
    var series := LineSeries(c, filteredExpenses, filteredIncomes);
    SeriesFromPoints(c, filteredExpenses, filteredIncomes);
    AllDatesExact(c, filteredExpenses, filteredIncomes, d);
    if exists k :: 0 <= k < |series| && series[k].date == d {
      var k :| 0 <= k < |series| && series[k].date == d;
      assert series[k] in points;
      var j :| 0 <= j < |points| && points[j] == series[k];
      assert labels[j] == d;
    }
    if d in labels {
      var j :| 0 <= j < |labels| && labels[j] == d;
      assert points[j] in series;
      var k :| 0 <= k < |series| && series[k] == points[j];
      assert series[k].date == d;
    }
  }

  /** Each point carries the sums of that day's expenses and of that day's incomes. */
  lemma LineSeriesValues(c: Calendar, filteredExpenses: seq<Expense>, filteredIncomes: seq<Income>)
    ensures forall k :: 0 <= k < |LineSeries(c, filteredExpenses, filteredIncomes)| ==>
              var p := LineSeries(c, filteredExpenses, filteredIncomes)[k];
              p.expenses == SumWhere(filteredExpenses, ExpenseDay(c), ExpenseAmount, p.date) &&
              p.income == SumWhere(filteredIncomes, IncomeDay(c), IncomeAmount, p.date)
  {
    var ex := ExpensesByDate(c, filteredExpenses);
    var inc := IncomesByDate(c, filteredIncomes);
    var labels := AllDates(ex, inc);
    var points := PointsFor(labels, ex, inc);
    var series := LineSeries(c, filteredExpenses, filteredIncomes);
    SeriesFromPoints(c, filteredExpenses, filteredIncomes);
    forall k | 0 <= k < |series|
      ensures series[k].expenses == SumWhere(filteredExpenses, ExpenseDay(c), ExpenseAmount, series[k].date)
      ensures series[k].income == SumWhere(filteredIncomes, IncomeDay(c), IncomeAmount, series[k].date)
    {
      assert series[k] in points;
      var j :| 0 <= j < |points| && points[j] == series[k];
      TallyTotals(filteredExpenses, ExpenseDay(c), ExpenseAmount, labels[j]);
      TallyTotals(filteredIncomes, IncomeDay(c), IncomeAmount, labels[j]);
    }
  }

  /** The series runs strictly forward in time, so no label appears twice. */
  lemma LineSeriesOrdered(c: Calendar, filteredExpenses: seq<Expense>, filteredIncomes: seq<Income>)
    ensures forall i, j :: 0 <= i < j < |LineSeries(c, filteredExpenses, filteredIncomes)| ==>
              LabelOrder(LineSeries(c, filteredExpenses, filteredIncomes)[i].date) <
              LabelOrder(LineSeries(c, filteredExpenses, filteredIncomes)[j].date)
  {
    var ex := ExpensesByDate(c, filteredExpenses);
    var inc := IncomesByDate(c, filteredIncomes);
    var labels := AllDates(ex, inc);
    var points := PointsFor(labels, ex, inc);
    DedupFacts(Keys(ex) + Keys(inc));
    forall i, j | 0 <= i < j < |points| ensures LineKey(points[i]) != LineKey(points[j]) {
      if LabelOrder(labels[i]) == LabelOrder(labels[j]) {
        LabelOrderInjective(labels[i], labels[j]);
      }
    }
    SortDescStrict(points, LineKey);
  }

  /** Sum conservation on each side: the points add up to the window's totals. */
  lemma LineSeriesConserves(c: Calendar, filteredExpenses: seq<Expense>, filteredIncomes: seq<Income>)
    ensures SumBy(LineSeries(c, filteredExpenses, filteredIncomes), PointExpenses) ==
            Summarize(filteredExpenses, filteredIncomes).totalExpenses
    ensures SumBy(LineSeries(c, filteredExpenses, filteredIncomes), PointIncome) ==
            Summarize(filteredExpenses, filteredIncomes).totalIncome
  {
    var ex := ExpensesByDate(c, filteredExpenses);
    var inc := IncomesByDate(c, filteredIncomes);
    var labels := AllDates(ex, inc);
    var points := PointsFor(labels, ex, inc);
    SortDescSumBy(points, LineKey, PointExpenses);
    SortDescSumBy(points, LineKey, PointIncome);
    PointsForSums(labels, ex, inc);
    TallyKeysDistinct(filteredExpenses, ExpenseDay(c), ExpenseAmount);
    TallyKeysDistinct(filteredIncomes, IncomeDay(c), IncomeAmount);
    AllDatesReadEachOnce(ex, inc);
    TallyGrand(filteredExpenses, ExpenseDay(c), ExpenseAmount);
    TallyGrand(filteredIncomes, IncomeDay(c), IncomeAmount);
  }

  /** Reading either record under the union of the labels gives back each of its values once. */
  lemma AllDatesReadEachOnce(ex: seq<Entry<DayLabel>>, inc: seq<Entry<DayLabel>>)
    requires Distinct(Keys(ex)) && Distinct(Keys(inc))
    ensures SumOfTotals(AllDates(ex, inc), ex) == Grand(ex)
    ensures SumOfTotals(AllDates(ex, inc), inc) == Grand(inc)
  {
    var both := Keys(ex) + Keys(inc);
    DedupFacts(both);
    assert forall i :: 0 <= i < |ex| ==> ex[i].key == both[i];
    assert forall i :: 0 <= i < |inc| ==> inc[i].key == both[|ex| + i];
    SumOfTotalsCovers(AllDates(ex, inc), ex);
    SumOfTotalsCovers(AllDates(ex, inc), inc);
  }

  // ---- The year view ----

  /** The month index 0-11 of an expense, which the bar's `'MMM'` name stands for. */
  function ExpenseMonth(c: Calendar): Expense -> int { (e: Expense) => c.monthOf(e.date) as int }

  /** The sums of the expenses of months lo .. hi - 1, one per month. */
  function Buckets(c: Calendar, filteredExpenses: seq<Expense>, lo: nat, hi: int): (r: seq<real>)
    requires hi <= 12
    ensures |r| == if lo < hi then hi - lo else 0
    decreases hi - lo
  {
    if lo >= hi then []
    else if lo == hi - 1 then [SumWhere(filteredExpenses, ExpenseMonth(c), ExpenseAmount, lo)]
    else [SumWhere(filteredExpenses, ExpenseMonth(c), ExpenseAmount, lo)] + Buckets(c, filteredExpenses, lo + 1, hi)
  }

  lemma {:induction false} BucketsIndex(c: Calendar, filteredExpenses: seq<Expense>, lo: nat, hi: int)
    requires hi <= 12
    ensures forall m :: lo <= m < hi ==>
              Buckets(c, filteredExpenses, lo, hi)[m - lo] == SumWhere(filteredExpenses, ExpenseMonth(c), ExpenseAmount, m)
    decreases hi - lo
  {
    var r := Buckets(c, filteredExpenses, lo, hi);
    var x := SumWhere(filteredExpenses, ExpenseMonth(c), ExpenseAmount, lo);
    if lo == hi - 1 {
      assert r == [x];
    } else if lo < hi - 1 {
      var rest := Buckets(c, filteredExpenses, lo + 1, hi);
      assert r == [x] + rest;
      BucketsIndex(c, filteredExpenses, lo + 1, hi);
      forall m: int | lo <= m < hi
        ensures r[m - lo] == SumWhere(filteredExpenses, ExpenseMonth(c), ExpenseAmount, m)
      {
        if m > lo {
          assert r[m - lo] == rest[m - (lo + 1)];
        }
      }
    }
  }

  /** The twelve bars, January to December. */
  function MonthBuckets(c: Calendar, filteredExpenses: seq<Expense>): seq<real>
  {
    Buckets(c, filteredExpenses, 0, 12)
  }

  function Value(x: real): real { x }

  lemma {:induction false} BucketsStep(c: Calendar, s: seq<Expense>, x: Expense, lo: nat, hi: int)
    requires hi <= 12
    ensures SumBy(Buckets(c, s + [x], lo, hi), Value) ==
            SumBy(Buckets(c, s, lo, hi), Value) + (if lo <= c.monthOf(x.date) < hi then x.amount else 0.0)
    decreases hi - lo
  {
    var s' := s + [x];
    assert s'[..|s'| - 1] == s;
    if lo < hi {
      var r := Buckets(c, s', lo, hi);
      var r0 := Buckets(c, s, lo, hi);
      if lo == hi - 1 {
        assert r[1..] == [] && r0[1..] == [];
      } else {
        BucketsStep(c, s, x, lo + 1, hi);
        assert r[1..] == Buckets(c, s', lo + 1, hi);
        assert r0[1..] == Buckets(c, s, lo + 1, hi);
      }
    }
  }

  /** Sum conservation: every expense of the window lands in exactly one month, so the bars add up to `totalExpenses`. */
  lemma {:induction false} MonthBucketsConserve(c: Calendar, filteredExpenses: seq<Expense>)
    ensures SumBy(MonthBuckets(c, filteredExpenses), Value) == SumBy(filteredExpenses, ExpenseAmount)
    decreases |filteredExpenses|
  {
    var s := filteredExpenses;
    if s == [] {
      ZeroBuckets(c, 0);
    } else {
      var n := |s| - 1;
      MonthBucketsConserve(c, s[..n]);
      assert s == s[..n] + [s[n]];
      BucketsStep(c, s[..n], s[n], 0, 12);
      SumByAppend(s[..n], [s[n]], ExpenseAmount);
      assert SumBy([s[n]], ExpenseAmount) == s[n].amount + SumBy([s[n]][1..], ExpenseAmount);
    }
  }

  lemma {:induction false} ZeroBuckets(c: Calendar, lo: nat)
    ensures SumBy(Buckets(c, [], lo, 12), Value) == 0.0
    decreases 12 - lo
  {
    var r := Buckets(c, [], lo, 12);
    if lo < 11 {
      ZeroBuckets(c, lo + 1);
      assert r[1..] == Buckets(c, [], lo + 1, 12);
    } else if lo == 11 {
      assert r[1..] == [];
    }
  }

  /** Lines 385-402: twelve zeroed buckets, then each expense added to its month. */
  method MonthlyTotals(c: Calendar, filteredExpenses: seq<Expense>) returns (months: seq<real>)
    ensures months == MonthBuckets(c, filteredExpenses)
  {
    months := [];
    for m := 0 to 12
      invariant months == seq(m, k => 0.0)
    {
      months := months + [0.0];
    }
    for i := 0 to |filteredExpenses|
      invariant |months| == 12
      invariant forall k :: 0 <= k < 12 ==>
                  months[k] == SumWhere(filteredExpenses[..i], ExpenseMonth(c), ExpenseAmount, k)
    {
      var e := filteredExpenses[i];
      var key: int := c.monthOf(e.date);
      SumWhereStep(filteredExpenses, c, i);
      months := months[key := months[key] + e.amount];
    }
    assert filteredExpenses[..|filteredExpenses|] == filteredExpenses;
    BucketsIndex(c, filteredExpenses, 0, 12);
  }

  lemma SumWhereStep(s: seq<Expense>, c: Calendar, i: nat)
    requires i < |s|
    ensures forall k: int :: SumWhere(s[..i + 1], ExpenseMonth(c), ExpenseAmount, k) ==
              SumWhere(s[..i], ExpenseMonth(c), ExpenseAmount, k) + (if c.monthOf(s[i].date) == k then s[i].amount else 0.0)
  {
    assert s[..i + 1][..i] == s[..i];
  }
}
