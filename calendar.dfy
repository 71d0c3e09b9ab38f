/**
 * Time as the client and server see it: instants in milliseconds since the
 * epoch, and the date-fns / `Date` calendar helpers, which the model takes as
 * given functions bundled in one `Calendar` value (the time zone they work in
 * is part of that value).
 */
module Calendar {

  /** Milliseconds since 1970-01-01T00:00:00Z, as `Date.prototype.getTime` returns. */
  type Instant = int

  /** `1000 * 60 * 60 * 24`. */
  const DayMs: int := 86400000

  /** `Date.prototype.getMonth`: 0 for January to 11 for December. */
  type Month = m: int | 0 <= m < 12

  /** `Date.prototype.getDate`. */
  type Day = d: int | 1 <= d <= 31 witness 1

  /**
   * The text `format(t, 'MMM dd')` ("Sep 05"): month and day, no year.
   */
  datatype DayLabel = DayLabel(month: Month, day: Day)

  /**
   * The order `new Date(label).getTime()` puts labels in: a label without a
   * year parses to that day of one fixed year, so labels order by month, then day.
   */
  function LabelOrder(l: DayLabel): (r: real)
    ensures 1.0 <= r <= 383.0
  {
    (l.month * 32 + l.day) as real
  }

  /** Distinct labels parse to distinct instants. */
  lemma LabelOrderInjective(a: DayLabel, b: DayLabel)
    requires LabelOrder(a) == LabelOrder(b)
    ensures a == b
  {
    var x := a.month * 32 + a.day;
    assert x == b.month * 32 + b.day;
    assert (x - 1) / 32 == a.month && (x - 1) / 32 == b.month;
  }

  /** The date-fns and `Date` helpers the client uses, in the user's time zone. */
  datatype Calendar = Calendar(
    startOfMonth: Instant -> Instant,
    endOfMonth: Instant -> Instant,
    startOfYear: Instant -> Instant,
    endOfYear: Instant -> Instant,
    addMonths: (Instant, int) -> Instant,   // subMonths(t, n) is addMonths(t, -n)
    addDays: (Instant, int) -> Instant,
    monthOf: Instant -> Month,              // getMonth
    dayOf: Instant -> Day,                  // getDate
    yearOf: Instant -> int,                 // getFullYear
    parseDay: string -> Instant,            // new Date("yyyy-MM-dd")
    formatDay: Instant -> string            // format(t, "yyyy-MM-dd")
  )

  /** `format(t, 'MMM dd')`. */
  function LabelOf(c: Calendar, t: Instant): DayLabel
  {
    DayLabel(c.monthOf(t), c.dayOf(t))
  }

  /**
   * What the month and year helpers promise: the start of the month (year)
   * containing `t` is not after `t` and its end is not before it, and going
   * back a number of months does not move forward in time.
   */
  ghost predicate Lawful(c: Calendar)
  {
    && (forall t :: c.startOfMonth(t) <= t <= c.endOfMonth(t))
    && (forall t :: c.startOfYear(t) <= t <= c.endOfYear(t))
    && (forall t, n :: n <= 0 ==> c.addMonths(t, n) <= t)
  }

  /** A closed interval of instants. */
  datatype Window = Window(start: Instant, end: Instant)

  /** `isWithinInterval(t, { start, end })`, and `t >= start && t <= end`: closed at both ends. */
  predicate Within(t: Instant, w: Window)
  {
    w.start <= t <= w.end
  }

  /** `new Date('2025-08-21')`: midnight UTC. */
  const SemesterStart: Instant := 1755734400000

  /** `new Date('2025-12-18')`: midnight UTC, so later instants of that day fall outside. */
  const SemesterEnd: Instant := 1766016000000

  /** The hard-coded Fall 2025 semester shared by two dashboard cards. */
  const Semester: Window := Window(SemesterStart, SemesterEnd)
}
