/**
 * The progress arithmetic two budget views share: the percentage spent,
 * capped at 100, and the note saying how much is left or how far over.
 */
module Meter {

  function Min(a: real, b: real): (r: real)
    ensures r <= a && r <= b && (r == a || r == b)
  {
    if a <= b then a else b
  }

  /**
   * `Math.min(100, spent / total * 100)`. The source divides unguarded, so a
   * zero total is excluded.
   */
  function Percent(spent: real, total: real): (r: real)
    requires total != 0.0
    ensures r <= 100.0
    ensures r <= spent / total * 100.0
    ensures r == 100.0 || r == spent / total * 100.0
  {
    Min(100.0, spent / total * 100.0)
  }

  /** Against a positive total, nothing spent and no refunds: a percentage in [0, 100]. */
  lemma PercentInRange(spent: real, total: real)
    requires total > 0.0 && spent >= 0.0
    ensures 0.0 <= Percent(spent, total) <= 100.0
  {
    assert spent / total >= 0.0;
  }

  /** Against a positive total, the bar is full exactly when spending has reached the total. */
  lemma PercentFull(spent: real, total: real)
    requires total > 0.0
    ensures Percent(spent, total) == 100.0 <==> spent >= total
  {
    if spent >= total {
      assert spent / total >= 1.0;
    } else {
      var q := spent / total;
      assert q * total == spent;
      if q >= 1.0 {
        assert false;
      }
    }
  }

  /** The note under a bar: the size of `total - spent` and whether it is "remaining" or "overbudget". */
  datatype RemainingNote = RemainingNote(magnitude: real, wording: string)

  /** `Math.abs(remaining)` and `remaining > 0 ? 'remaining' : 'overbudget'`; exactly spent reads "overbudget". */
  function Note(total: real, spent: real): (r: RemainingNote)
    ensures r.magnitude >= 0.0
    ensures r.magnitude == total - spent || r.magnitude == spent - total
    ensures r.wording == "remaining" <==> spent < total
    ensures r.wording != "remaining" ==> r.wording == "overbudget"
  {
    var remaining := total - spent;
    RemainingNote(if remaining < 0.0 then -remaining else remaining,
                  if remaining > 0.0 then "remaining" else "overbudget")
  }
}
