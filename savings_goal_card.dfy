/**
 * The dashboard's savings goal card: the first goal (or a demonstration goal
 * when there is none), its completion percentage, and the "add to savings"
 * action, which checks the typed amount and sends the goal's new total.
 */
module SavingsGoalCard {
  import opened Wrappers
  import opened Calendar
  import opened Seqs
  import opened Schema
  import opened Meter

  /** The goal shown when none is loaded: id 0, 480 of 1200 saved. */
  function DemoGoal(now: Instant): SavingsGoal
  {
    SavingsGoal(0, 0, "Spring Break Trip", 1200.0, 480.0, Some(now), now)
  }

  /** `savingsGoal`: the first goal when the list is loaded and non-empty, else the demonstration goal. */
  function DisplayedGoal(goals: Option<seq<SavingsGoal>>, now: Instant): (g: SavingsGoal)
    ensures goals.Some? && |goals.value| > 0 ==> g == goals.value[0]
    ensures goals.None? || goals.value == [] ==> g == DemoGoal(now)
  {
    if goals.Some? && |goals.value| > 0 then goals.value[0] else DemoGoal(now)
  }

  /** `percentComplete`, against the goal's target (a zero target is excluded, as for `Meter.Percent`). */
  function PercentComplete(g: SavingsGoal): (r: real)
    requires g.targetAmount != 0.0
    ensures r <= 100.0
    ensures r <= g.currentAmount / g.targetAmount * 100.0
    ensures r == 100.0 || r == g.currentAmount / g.targetAmount * 100.0
  {
    Percent(g.currentAmount, g.targetAmount)
  }

  /** The demonstration goal shows 40% complete. */
  lemma DemoPercent(now: Instant)
    ensures PercentComplete(DemoGoal(now)) == 40.0
  {
  }

  /** With a positive target, the bar is full exactly when the goal is reached. */
  lemma PercentCompleteFull(g: SavingsGoal)
    requires g.targetAmount > 0.0
    ensures PercentComplete(g) == 100.0 <==> g.currentAmount >= g.targetAmount
  {
    PercentFull(g.currentAmount, g.targetAmount);
  }

  /** What pressing "Add" leads to. */
  datatype Contribution =
    | InvalidAmount                                  // the "Invalid amount" toast; no request
    | GoalNotFound                                   // the mutation throws before any request
    | Put(id: int, patch: SavingsGoalPatch)           // `PUT /api/savings-goals/:id` with this body

  /**
   * `handleAddToSavings` and the mutation it starts. `parse` is `parseFloat`,
   * `None` standing for `NaN`. The amount must be non-empty, a number and
   * positive; then the goal with the displayed goal's id is looked up in the
   * loaded list, and its current amount plus the contribution is sent.
   */
  function AddToSavings(text: string, parse: string -> Option<real>, goals: Option<seq<SavingsGoal>>,
                        now: Instant): Contribution
  {
    if text == "" || parse(text).None? || parse(text).value <= 0.0 then InvalidAmount
    else
      var id := DisplayedGoal(goals, now).id;
      match Find(goals.GetOr([]), (g: SavingsGoal) => g.id == id)
      case None => GoalNotFound
      case Some(goal) =>
        Put(id, SavingsGoalPatch(None, None, None, Some(goal.currentAmount + parse(text).value), None))
  }

  /** A text that is empty, not a number, zero or negative is refused before anything else. */
  lemma RefusedAmounts(text: string, parse: string -> Option<real>, goals: Option<seq<SavingsGoal>>, now: Instant)
    ensures AddToSavings(text, parse, goals, now) == InvalidAmount <==>
            text == "" || parse(text).None? || parse(text).value <= 0.0
  {
  }

  /**
   * With a valid amount and a loaded, non-empty list, the request goes to
   * the first goal and carries only that goal's current amount plus the
   * contribution.
   */
  lemma ContributionToFirstGoal(text: string, parse: string -> Option<real>, goals: seq<SavingsGoal>, now: Instant)
    requires text != "" && parse(text).Some? && parse(text).value > 0.0
    requires |goals| > 0
    ensures AddToSavings(text, parse, Some(goals), now) ==
            Put(goals[0].id, SavingsGoalPatch(None, None, None, Some(goals[0].currentAmount + parse(text).value), None))
  {
  }

  /** With a valid amount but only the demonstration goal shown, no request is made. */
  lemma DemoGoalNotFound(text: string, parse: string -> Option<real>, goals: Option<seq<SavingsGoal>>, now: Instant)
    requires text != "" && parse(text).Some? && parse(text).value > 0.0
    requires goals.None? || goals.value == []
    ensures AddToSavings(text, parse, goals, now) == GoalNotFound
  {
  }

  /**
   * Applied by the store, the request raises the goal's current amount by
   * the contribution and changes nothing else of it.
   */
  lemma ContributionApplied(text: string, parse: string -> Option<real>, goals: seq<SavingsGoal>, now: Instant)
    requires text != "" && parse(text).Some? && parse(text).value > 0.0
    requires |goals| > 0
    ensures var c := AddToSavings(text, parse, Some(goals), now);
            && c.Put?
            && MergeSavingsGoal(goals[0], c.patch) ==
               goals[0].(currentAmount := goals[0].currentAmount + parse(text).value)
            && MergeSavingsGoal(goals[0], c.patch).currentAmount > goals[0].currentAmount
  {
    ContributionToFirstGoal(text, parse, goals, now);
    CurrentAmountOnlyPatch(goals[0], goals[0].currentAmount + parse(text).value);
  }
}
