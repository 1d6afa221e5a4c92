/**
  Time within the generated window. A timestamp is a count of minutes since
  the start date's midnight; the hour and the weekday are read off it with
  integer arithmetic, given the weekday of the start date.
 */
module Clock {
  import opened Policy

  /**
    `random_timestamp`: the start plus a minute offset drawn by
    `randint(0, days_span*24*60 - 1)`. The draw is a parameter; an empty
    range (a span of zero days or less) leaves no draw to pass.
   */
  function RandomTimestamp(start: int, daysSpan: int, draw: int): (t: int)
    requires 0 <= draw <= daysSpan * 24 * 60 - 1
    ensures start <= t < start + daysSpan * MinutesPerDay
    ensures t - start == draw
  {
    start + draw
  }

  /** `ts.hour` for a timestamp counted from a midnight. */
  function HourOf(t: int): (h: int)
    ensures 0 <= h < 24
  {
    (t % MinutesPerDay) / 60
  }

  /** Days elapsed since the start date (floored, as calendar days are). */
  function DayOf(t: int): int {
    t / MinutesPerDay
  }

  /** The weekday index (0 = Monday) of a timestamp, given the start date's. */
  function WeekdayOf(startWeekday: nat, t: int): (d: nat)
    requires startWeekday < 7
    ensures d < 7
  {
    (startWeekday + DayOf(t)) % 7
  }

  /** `ts.strftime("%A")`. */
  function DayNameOf(startWeekday: nat, t: int): string
    requires startWeekday < 7
  {
    DayName(WeekdayOf(startWeekday, t))
  }

  /** A drawn timestamp falls on one of the window's `daysSpan` days. */
  lemma TimestampWithinWindow(daysSpan: int, draw: int)
    requires 0 <= draw <= daysSpan * 24 * 60 - 1
    ensures 0 <= DayOf(RandomTimestamp(0, daysSpan, draw)) < daysSpan
  {
  }

  /**
    `base.replace(hour=hour, minute=0, second=0)` for the date `day` days
    after the start: the instant reads back as that day and that hour.
   */
  function AtHour(day: int, hour: int): (t: int)
    requires 0 <= hour < 24
    ensures DayOf(t) == day && HourOf(t) == hour && t % 60 == 0
  {
    var hours := day * 24 + hour;
    assert hours * 60 == day * MinutesPerDay + hour * 60;
    assert (hours * 60) % 60 == 0;
    day * MinutesPerDay + hour * 60
  }

  /** An instant on day `day` of the window falls on the start weekday advanced by `day`. */
  lemma WeekdayOfDay(startWeekday: nat, t: int, day: int)
    requires startWeekday < 7 && DayOf(t) == day
    ensures WeekdayOf(startWeekday, t) == (startWeekday + day) % 7
  {
  }

  /** Whole days after the start date fall on the start weekday advanced by that many days. */
  lemma WeekdayAfterDays(startWeekday: nat, k: nat)
    requires startWeekday < 7
    ensures WeekdayOf(startWeekday, k * MinutesPerDay) == (startWeekday + k) % 7
  {
    assert k * MinutesPerDay == AtHour(k, 0);
  }

  /** Days from the weekday `from` forward to the next (or same) weekday `target`. */
  function DaysUntil(from: nat, target: nat): (k: nat)
    requires from < 7 && target < 7
    ensures k < 7 && (from + k) % 7 == target
  {
    (target - from + 7) % 7
  }

  /** No earlier day than DaysUntil reaches the target weekday. */
  lemma DaysUntilIsFirst(from: nat, target: nat, days: nat)
    requires from < 7 && target < 7
    requires days <= DaysUntil(from, target) && (from + days) % 7 == target
    ensures days == DaysUntil(from, target)
  {
  }

  /**
    The `while base.strftime("%A") != name: base += timedelta(days=1)` search,
    for the name of weekday `target`: the number of whole days from the start
    date to the first date, on or after it, that carries that name.
   */
  method AdvanceToWeekday(startWeekday: nat, target: nat) returns (days: nat)
    requires startWeekday < 7 && target < 7
    ensures days == DaysUntil(startWeekday, target) && (startWeekday + days) % 7 == target
    ensures DayNameOf(startWeekday, days * MinutesPerDay) == DayName(target)
    ensures forall j :: 0 <= j < days ==> DayNameOf(startWeekday, j * MinutesPerDay) != DayName(target)
  {
    ghost var bound := DaysUntil(startWeekday, target);
    days := 0;
    while DayNameOf(startWeekday, days * MinutesPerDay) != DayName(target)
      invariant days <= bound
      invariant forall j :: 0 <= j < days ==> DayNameOf(startWeekday, j * MinutesPerDay) != DayName(target)
      decreases bound - days
    {
      WeekdayAfterDays(startWeekday, days);
      days := days + 1;
    }
    WeekdayAfterDays(startWeekday, days);
    DayNameInjective(WeekdayOf(startWeekday, days * MinutesPerDay), target);
    DaysUntilIsFirst(startWeekday, target, days);
  }
}
