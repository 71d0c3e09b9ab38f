/**
 * The create-budget form: its table of budget periods, the rule that derives
 * the end date from the period and the start date, and the form state that
 * rule rewrites whenever either of them changes.
 */
module AddBudgetForm {
  import opened Wrappers
  import opened Calendar
  import opened Seqs

  datatype BudgetPeriod = BudgetPeriod(id: string, name: string, duration: int)

  /** `budgetPeriods`: durations in months. */
  const BudgetPeriods: seq<BudgetPeriod> := [
    BudgetPeriod("monthly", "Monthly", 1),
    BudgetPeriod("semester", "Semester", 4),
    BudgetPeriod("yearly", "Yearly", 12)
  ]

  /** `budgetPeriods.find(p => p.id === period)`. */
  function FindPeriod(period: string): Option<BudgetPeriod>
  {
    Find(BudgetPeriods, (p: BudgetPeriod) => p.id == period)
  }

  /** The three known ids and their durations; any other id is unknown. */
  lemma PeriodTable(period: string)
    ensures FindPeriod("monthly") == Some(BudgetPeriod("monthly", "Monthly", 1))
    ensures FindPeriod("semester") == Some(BudgetPeriod("semester", "Semester", 4))
    ensures FindPeriod("yearly") == Some(BudgetPeriod("yearly", "Yearly", 12))
    ensures FindPeriod(period).None? <==> period != "monthly" && period != "semester" && period != "yearly"
  {
    FindSpec(BudgetPeriods, (p: BudgetPeriod) => p.id == period);
  }

  /** `addDays(addMonths(start, months), -1)`: the day before the same date `months` later. */
  function EndDateFor(c: Calendar, start: Instant, months: int): Instant
  {
    c.addDays(c.addMonths(start, months), -1)
  }

  /**
   * `updateEndDate`, returning the end date the form holds afterwards: as it
   * was for an empty start date or an unknown period, else the start date
   * (parsed) plus the period's months less a day, formatted.
   */
  function UpdateEndDate(c: Calendar, period: string, startDate: string, endDate: string): string
  {
    if startDate == "" then endDate
    else
      var start := c.parseDay(startDate);
      match FindPeriod(period)
      case None => endDate
      case Some(p) =>
        if period == "semester" then c.formatDay(c.addDays(c.addMonths(start, 4), -1))
        else c.formatDay(EndDateFor(c, start, p.duration))
  }

  /**
   * The rule as one formula: the semester branch is the generic rule with
   * its duration of 4, an empty start or unknown period change nothing, and
   * a known period overwrites whatever end date was there.
   */
  lemma UpdateEndDateFacts(c: Calendar, period: string, startDate: string, endDate: string, other: string)
    ensures startDate == "" || FindPeriod(period).None? ==> UpdateEndDate(c, period, startDate, endDate) == endDate
    ensures startDate != "" && FindPeriod(period).Some? ==>
              UpdateEndDate(c, period, startDate, endDate) ==
              c.formatDay(EndDateFor(c, c.parseDay(startDate), FindPeriod(period).value.duration))
    ensures startDate != "" && FindPeriod(period).Some? ==>
              UpdateEndDate(c, period, startDate, endDate) == UpdateEndDate(c, period, startDate, other)
  {
    if period == "semester" {
      PeriodTable(period);
    }
  }

  /** Running the rule again changes nothing. */
  lemma UpdateEndDateIdempotent(c: Calendar, period: string, startDate: string, endDate: string)
    ensures UpdateEndDate(c, period, startDate, UpdateEndDate(c, period, startDate, endDate)) ==
            UpdateEndDate(c, period, startDate, endDate)
  {
    UpdateEndDateFacts(c, period, startDate, endDate, UpdateEndDate(c, period, startDate, endDate));
  }

  /** The form's values. `amount` holds the number the text field converts to. */
  class BudgetForm {
    var amount: real
    var category: string
    var period: string
    var startDate: string
    var endDate: string

    /** `defaultValues`, before the effect first runs: monthly, from today to a month from today. */
    constructor(c: Calendar, today: Instant)
      ensures amount == 0.0 && category == "" && period == "monthly"
      ensures startDate == c.formatDay(today)
      ensures endDate == c.formatDay(c.addMonths(today, 1))
    {
      amount := 0.0;
      category := "";
      period := "monthly";
      startDate := c.formatDay(today);
      endDate := c.formatDay(c.addMonths(today, 1));
    }

    /** The effect on `[period, startDate]`: rewrite `endDate` from the current period and start. */
    method RunEffect(c: Calendar)
      modifies this
      ensures endDate == UpdateEndDate(c, old(period), old(startDate), old(endDate))
      ensures amount == old(amount) && category == old(category)
      ensures period == old(period) && startDate == old(startDate)
    {
      if startDate == "" {
        return;
      }
      var start := c.parseDay(startDate);
      var selected := FindPeriod(period);
      if selected.Some? {
        var end;
        if period == "semester" {
          end := c.addDays(c.addMonths(start, 4), -1);
        } else {
          end := c.addDays(c.addMonths(start, selected.value.duration), -1);
        }
        endDate := c.formatDay(end);
      }
    }

    /** Choosing a period, followed by the effect it triggers. */
    method SetPeriod(c: Calendar, p: string)
      modifies this
      ensures period == p
      ensures endDate == UpdateEndDate(c, p, old(startDate), old(endDate))
      ensures amount == old(amount) && category == old(category) && startDate == old(startDate)
    {
      period := p;
      RunEffect(c);
    }

    /** Editing the start date, followed by the effect it triggers. */
    method SetStartDate(c: Calendar, s: string)
      modifies this
      ensures startDate == s
      ensures endDate == UpdateEndDate(c, old(period), s, old(endDate))
      ensures amount == old(amount) && category == old(category) && period == old(period)
    {
      startDate := s;
      RunEffect(c);
    }
  }

  /**
   * Whatever was edited before, after a change the end date is the one the
   * rule derives from the current period and start, whenever both are usable.
   */
  method EndDateFollowsInputs(c: Calendar, today: Instant, p: string, s: string)
    returns (start: string, end: string)
    ensures start == s
    ensures s != "" && FindPeriod(p).Some? ==> end == c.formatDay(EndDateFor(c, c.parseDay(s), FindPeriod(p).value.duration))
  {
    var form := new BudgetForm(c, today);
    form.SetStartDate(c, s);
    form.SetPeriod(c, p);
    UpdateEndDateFacts(c, p, s, form.endDate, form.endDate);
    start, end := form.startDate, form.endDate;
  }
}
