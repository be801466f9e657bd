/**
 * Instants and the calendar month they fall in.
 *
 * An instant is a count of microseconds since 1970-01-01T00:00:00 UTC, the
 * resolution of Python's `datetime`. The start of an instant's month is what
 * `created_at.replace(day=1, hour=0, minute=0, second=0, microsecond=0)` gives:
 * midnight on day 1 of the same proleptic Gregorian month.
 */
module Calendar {

  type Timestamp = nat

  const MicrosPerHour: nat := 3_600_000_000
  const MicrosPerDay: nat := 86_400_000_000

  predicate IsLeapYear(year: int) {
    year % 4 == 0 && (year % 100 != 0 || year % 400 == 0)
  }

  function DaysInMonth(year: int, month: int): (n: nat)
    requires 1 <= month <= 12
    ensures 28 <= n <= 31
  {
    if month == 2 then (if IsLeapYear(year) then 29 else 28)
    else if month == 4 || month == 6 || month == 9 || month == 11 then 30
    else 31
  }

  function DaysInYear(year: int): nat {
    if IsLeapYear(year) then 366 else 365
  }

  /** Days from 1970-01-01 to January 1 of `year`. */
  function DaysBeforeYear(year: int): nat
    decreases year - 1970
  {
    if year <= 1970 then 0 else DaysBeforeYear(year - 1) + DaysInYear(year - 1)
  }

  /** Days from January 1 to day 1 of `month` in `year`. */
  function DaysBeforeMonth(year: int, month: int): nat
    requires 1 <= month <= 12
  {
    if month == 1 then 0 else DaysBeforeMonth(year, month - 1) + DaysInMonth(year, month - 1)
  }

  /** The day number (days since 1970-01-01) of day 1 of `month` in `year`, in closed form. */
  function FirstDayOf(year: int, month: int): nat
    requires 1 <= month <= 12
  {
    DaysBeforeYear(year) + DaysBeforeMonth(year, month)
  }

  /** The twelve months of a year make up the year. */
  lemma MonthsMakeYear(year: int)
    ensures DaysBeforeMonth(year, 12) + DaysInMonth(year, 12) == DaysInYear(year)
  {
    var feb := DaysInMonth(year, 2);
    assert DaysBeforeMonth(year, 2) == 31;
    assert DaysBeforeMonth(year, 3) == 31 + feb;
    assert DaysBeforeMonth(year, 4) == 62 + feb;
    assert DaysBeforeMonth(year, 5) == 92 + feb;
    assert DaysBeforeMonth(year, 6) == 123 + feb;
    assert DaysBeforeMonth(year, 7) == 153 + feb;
    assert DaysBeforeMonth(year, 8) == 184 + feb;
    assert DaysBeforeMonth(year, 9) == 215 + feb;
    assert DaysBeforeMonth(year, 10) == 245 + feb;
    assert DaysBeforeMonth(year, 11) == 276 + feb;
    assert DaysBeforeMonth(year, 12) == 306 + feb;
  }

  /** A calendar month and the number (days since 1970-01-01) of its first day. */
  datatype MonthPos = MonthPos(year: int, month: int, firstDay: nat)

  /** A month from 1970 on whose first day is day 1 of that month. */
  predicate ValidPos(p: MonthPos) {
    1 <= p.month <= 12 && p.year >= 1970 && p.firstDay == FirstDayOf(p.year, p.month)
  }

  /** The month after `p`, starting the day after `p`'s last day. */
  function NextMonth(p: MonthPos): (q: MonthPos)
    requires ValidPos(p)
    ensures ValidPos(q) && q.firstDay == p.firstDay + DaysInMonth(p.year, p.month)
  {
    var next := p.firstDay + DaysInMonth(p.year, p.month);
    if p.month == 12 then
      MonthsMakeYear(p.year);
      MonthPos(p.year + 1, 1, next)
    else MonthPos(p.year, p.month + 1, next)
  }

  /** Walks month by month from `p` to the month holding day `d`. */
  function MonthFrom(d: nat, p: MonthPos): (r: MonthPos)
    requires ValidPos(p) && p.firstDay <= d
    ensures ValidPos(r)
    ensures p.firstDay <= r.firstDay <= d < r.firstDay + DaysInMonth(r.year, r.month)
    decreases d - p.firstDay
  {
    if d < p.firstDay + DaysInMonth(p.year, p.month) then p
    else MonthFrom(d, NextMonth(p))
  }

  const Epoch: MonthPos := MonthPos(1970, 1, 0)

  /** The month holding day number `d` (days since 1970-01-01). */
  function MonthOfDay(d: nat): (r: MonthPos)
    ensures ValidPos(r) && r.firstDay <= d < r.firstDay + DaysInMonth(r.year, r.month)
  {
    MonthFrom(d, Epoch)
  }

  /** Midnight on day 1 of the month holding `t`: for the calendar month (year, month) whose days
      include `t`'s day, the start is that month's first day in closed form. */
  function StartOfMonth(t: Timestamp): (s: Timestamp)
    ensures s <= t
    ensures s % MicrosPerDay == 0
    ensures var m := MonthOfDay(t / MicrosPerDay);
      && 1 <= m.month <= 12
      && s == FirstDayOf(m.year, m.month) * MicrosPerDay
      && FirstDayOf(m.year, m.month) <= t / MicrosPerDay < FirstDayOf(m.year, m.month) + DaysInMonth(m.year, m.month)
    ensures t < s + DaysInMonth(MonthOfDay(t / MicrosPerDay).year, MonthOfDay(t / MicrosPerDay).month) * MicrosPerDay
  {
    var p := MonthOfDay(t / MicrosPerDay);
    DayStartBounds(t, p.firstDay, DaysInMonth(p.year, p.month));
    p.firstDay * MicrosPerDay
  }

  /** Arithmetic about day boundaries, kept apart so the solver sees it alone. */
  lemma DayStartBounds(t: nat, first: nat, len: nat)
    requires first <= t / MicrosPerDay < first + len
    ensures first * MicrosPerDay <= t < (first + len) * MicrosPerDay
    ensures (first * MicrosPerDay) % MicrosPerDay == 0
  {
    var q := t / MicrosPerDay;
    assert t == q * MicrosPerDay + t % MicrosPerDay;
    assert first * MicrosPerDay <= q * MicrosPerDay;
    assert (q + 1) * MicrosPerDay <= (first + len) * MicrosPerDay;
  }

  /** Any day from the month's first day up to `d` lies in the same month as `d`. */
  lemma {:induction false} MonthFromSameMonth(d: nat, e: nat, p: MonthPos)
    requires ValidPos(p) && p.firstDay <= d
    requires MonthFrom(d, p).firstDay <= e <= d
    ensures MonthFrom(e, p) == MonthFrom(d, p)
    decreases d - p.firstDay
  {
    if d < p.firstDay + DaysInMonth(p.year, p.month) {
    } else {
      var q := NextMonth(p);
      assert MonthFrom(d, p) == MonthFrom(d, q);
      assert q.firstDay <= MonthFrom(d, q).firstDay;
      MonthFromSameMonth(d, e, q);
    }
  }

  /** Every instant from the start of `t`'s month up to `t` has the same month start. */
  lemma SameMonth(t: Timestamp, u: Timestamp)
    requires StartOfMonth(t) <= u <= t
    ensures StartOfMonth(u) == StartOfMonth(t)
  {
    var d, e := t / MicrosPerDay, u / MicrosPerDay;
    var p := MonthOfDay(d);
    DivMonotone(u, t);
    DivOfMultiple(p.firstDay, u);
    MonthFromSameMonth(d, e, Epoch);
  }

  lemma DivMonotone(u: nat, t: nat)
    requires u <= t
    ensures u / MicrosPerDay <= t / MicrosPerDay
  {
  }

  lemma DivOfMultiple(k: nat, u: nat)
    requires k * MicrosPerDay <= u
    ensures k <= u / MicrosPerDay
  {
    assert u == (u / MicrosPerDay) * MicrosPerDay + u % MicrosPerDay;
  }

  /** Noon on 1970-03-15 belongs to March, whose day 1 is day 59. */
  lemma StartOfMonthExample()
    ensures StartOfMonth(73 * MicrosPerDay + 12 * MicrosPerHour) == 59 * MicrosPerDay
  {
    var t := 73 * MicrosPerDay + 12 * MicrosPerHour;
    assert t / MicrosPerDay == 73;
    var feb := NextMonth(Epoch);
    var mar := NextMonth(feb);
    assert feb == MonthPos(1970, 2, 31) && mar == MonthPos(1970, 3, 59);
    assert MonthFrom(73, Epoch) == MonthFrom(73, feb) == MonthFrom(73, mar) == mar;
  }

  /** Taking the month start twice changes nothing. */
  lemma StartOfMonthIdempotent(t: Timestamp)
    ensures StartOfMonth(StartOfMonth(t)) == StartOfMonth(t)
  {
    SameMonth(t, StartOfMonth(t));
  }

  /** An instant before the start of `t`'s month belongs to an earlier month:
      the window is calendar-aligned, so the last instant of the previous month
      is outside it however close it is to `t`. */
  lemma EarlierMonthExcluded(t: Timestamp, u: Timestamp)
    requires u <= t && StartOfMonth(u) != StartOfMonth(t)
    ensures u < StartOfMonth(t)
  {
    if StartOfMonth(t) <= u {
      SameMonth(t, u);
    }
  }
}
