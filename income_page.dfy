/**
 * The income page: the total of all incomes, the list newest first, and the
 * display name and icon of an income source.
 */
module IncomePage {
  import opened Wrappers
  import opened Seqs
  import opened Schema

  /** `totalIncome`: the sum of every amount; 0 while the incomes are not loaded. */
  function TotalIncome(incomes: Option<seq<Income>>): (r: real)
    ensures incomes.None? ==> r == 0.0
  {
    SumBy(incomes.GetOr([]), IncomeAmount)
  }

  /** The total grows by each income's amount: appending a list adds its total. */
  lemma TotalIncomeAppend(a: seq<Income>, b: seq<Income>)
    ensures TotalIncome(Some(a + b)) == TotalIncome(Some(a)) + TotalIncome(Some(b))
  {
    SumByAppend(a, b, IncomeAmount);
  }

  /** `sortedIncomes`: a sorted copy, newest first; `[]` while not loaded. */
  function SortedIncomes(incomes: Option<seq<Income>>): seq<Income>
  {
    SortDesc(incomes.GetOr([]), IncomeTime)
  }

  /**
   * The sorted list is a permutation of the loaded one, newest first, with
   * incomes of the same instant in their original order, and it adds up to
   * the same total.
   */
  lemma SortedIncomesFacts(incomes: Option<seq<Income>>)
    ensures var s := SortedIncomes(incomes);
            && multiset(s) == multiset(incomes.GetOr([]))
            && (forall i, j :: 0 <= i < j < |s| ==> s[i].date >= s[j].date)
            && (forall v :: WithKey(s, IncomeTime, v) == WithKey(incomes.GetOr([]), IncomeTime, v))
            && SumBy(s, IncomeAmount) == TotalIncome(incomes)
            && (incomes.None? ==> s == [])
  {
    SortDescFacts(incomes.GetOr([]), IncomeTime);
    forall v ensures WithKey(SortedIncomes(incomes), IncomeTime, v) == WithKey(incomes.GetOr([]), IncomeTime, v) {
      SortDescStable(incomes.GetOr([]), IncomeTime, v);
    }
    SortDescSumBy(incomes.GetOr([]), IncomeTime, IncomeAmount);
  }

  datatype SourceInfo = SourceInfo(name: string, icon: string)

  /** `incomeSources`, as key and display information in declaration order. */
  const IncomeSources: seq<(string, SourceInfo)> := [
    ("job", SourceInfo("Part-time Job", "work")),
    ("scholarship", SourceInfo("Scholarship", "school")),
    ("family", SourceInfo("Family Support", "family_restroom")),
    ("grants", SourceInfo("Grants", "payments")),
    ("loans", SourceInfo("Student Loans", "account_balance")),
    ("refund", SourceInfo("Refund", "assignment_return")),
    ("other", SourceInfo("Other", "more_horiz"))
  ]

  /** `getSourceInfo`: the table's entry for the key, else the key itself as name with the "other" icon. */
  function GetSourceInfo(source: string): SourceInfo
  {
    match Find(IncomeSources, (e: (string, SourceInfo)) => e.0 == source)
    case Some(e) => e.1
    case None => SourceInfo(source, "more_horiz")
  }

  /** A key of the table gives its entry; any other source is shown under its own name. */
  lemma GetSourceInfoFacts(source: string)
    ensures forall i :: 0 <= i < |IncomeSources| && IncomeSources[i].0 == source ==>
              GetSourceInfo(source) == IncomeSources[i].1
    ensures (forall i :: 0 <= i < |IncomeSources| ==> IncomeSources[i].0 != source) ==>
              GetSourceInfo(source) == SourceInfo(source, "more_horiz")
  {
    var p := (e: (string, SourceInfo)) => e.0 == source;
    FindSpec(IncomeSources, p);
    forall i | 0 <= i < |IncomeSources| && IncomeSources[i].0 == source
      ensures GetSourceInfo(source) == IncomeSources[i].1
    {
      var j :| 0 <= j < |IncomeSources| && IncomeSources[j] == Find(IncomeSources, p).value && p(IncomeSources[j]) &&
               forall k :: 0 <= k < j ==> !p(IncomeSources[k]);
      assert j == i;
    }
  }

  /** The keys of the table are distinct, so a key's entry is unambiguous. */
  lemma IncomeSourceKeysDistinct()
    ensures forall i, j :: 0 <= i < j < |IncomeSources| ==> IncomeSources[i].0 != IncomeSources[j].0
  {
  }
}
