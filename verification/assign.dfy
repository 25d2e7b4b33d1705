/**
 * `week_bounds`: the Monday-00:00 start of a datetime's week and the end
 * one second before the next Monday. A datetime is a count of
 * microseconds since 0001-01-01 00:00:00, which was a Monday, so a
 * datetime's weekday (Monday 0) is its day count modulo 7.
 */
module WeekBounds {
  const MicrosPerSecond: int := 1000000
  const MicrosPerDay: int := 86400 * MicrosPerSecond
  const MicrosPerWeek: int := 7 * MicrosPerDay

  /** A datetime, from `datetime.min` on. */
  type Instant = nat

  /** `dt.weekday()`: Monday is 0. */
  function Weekday(dt: Instant): (w: nat)
    ensures w < 7
  {
    (dt / MicrosPerDay) % 7
  }

  /** `datetime.combine(dt.date(), datetime.min.time())`. */
  function Midnight(dt: Instant): (m: Instant)
    ensures m <= dt < m + MicrosPerDay && m % MicrosPerDay == 0
  {
    dt - dt % MicrosPerDay
  }

  /** The week's start: back `weekday` days, then to midnight. */
  function WeekStart(dt: Instant): Instant
  {
    var back := dt - Weekday(dt) * MicrosPerDay;
    Midnight(if back >= 0 then back else 0)
  }

  /** `week_bounds(dt)` as written: the end is one second before the next Monday. */
  function Bounds(dt: Instant): (Instant, Instant) {
    var start := WeekStart(dt);
    (start, start + MicrosPerWeek - MicrosPerSecond)
  }

  /** The week's start is a Monday at 00:00 and `dt` lies in the seven days from it. */
  lemma WeekStartMeaning(dt: Instant)
    ensures var s := WeekStart(dt);
      s % MicrosPerDay == 0 && Weekday(s) == 0 && s <= dt < s + MicrosPerWeek
  {
    var d := dt / MicrosPerDay;
    var w := d % 7;
    var r := dt % MicrosPerDay;
    assert dt == ((d - w) + w) * MicrosPerDay + r;
    WeekStartOf(d - w, w, r);
    DayOf(d - w, 0);
  }

  /** The day count and time of day of `day * MicrosPerDay + r`. */
  lemma DayOf(day: int, r: int)
    requires day >= 0 && 0 <= r < MicrosPerDay
    ensures (day * MicrosPerDay + r) / MicrosPerDay == day
    ensures (day * MicrosPerDay + r) % MicrosPerDay == r
  {
  }

  /**
   * The bounds as written: the start is dt's Monday at 00:00, the end is
   * seven days less one second later, and every datetime of that week
   * gives the same bounds.
   */
  lemma BoundsMeaning(dt: Instant, other: Instant)
    ensures var (s, e) := Bounds(dt);
      s % MicrosPerDay == 0 && Weekday(s) == 0 && s <= dt < s + MicrosPerWeek &&
      e == s + MicrosPerWeek - MicrosPerSecond &&
      (s <= other < s + MicrosPerWeek ==> Bounds(other) == Bounds(dt))
  {
    WeekStartMeaning(dt);
    var s := WeekStart(dt);
    if s <= other < s + MicrosPerWeek {
      SameWeek(s, other);
    }
  }

  /** Every datetime in the week from Monday `s` has week start `s`. */
  lemma SameWeek(s: Instant, t: Instant)
    requires s % MicrosPerDay == 0 && Weekday(s) == 0 && s <= t < s + MicrosPerWeek
    ensures WeekStart(t) == s
  {
    var k := s / MicrosPerDay;
    var off := t - s;
    var d := off / MicrosPerDay;
    var r := off % MicrosPerDay;
    assert t == (k + d) * MicrosPerDay + r by {
      assert s == k * MicrosPerDay;
      assert off == d * MicrosPerDay + r;
    }
    assert d < 7;
    WeekStartOf(k, d, r);
  }

  /** A time `d` days and `r` microseconds after the midnight of a Monday, day `k`, has that Monday as its week start. */
  lemma WeekStartOf(k: nat, d: nat, r: nat)
    requires k % 7 == 0 && d < 7 && r < MicrosPerDay
    ensures WeekStart((k + d) * MicrosPerDay + r) == k * MicrosPerDay
  {
    var t := (k + d) * MicrosPerDay + r;
    DayOf(k + d, r);
    assert Weekday(t) == d;
    assert t - d * MicrosPerDay == k * MicrosPerDay + r;
    DayOf(k, r);
  }

  /**
   * As written, a datetime in the last second of Sunday with a fractional
   * second, such as 23:59:59.5, lies after its own week's end, so a
   * `start_time <= end` filter leaves it out of that week.
   */
  lemma LastSecondEscapes()
    ensures var dt := MicrosPerWeek - MicrosPerSecond / 2;
      WeekStart(dt) == 0 && dt > Bounds(dt).1
  {
    var dt := MicrosPerWeek - MicrosPerSecond / 2;
    WeekStartMeaning(dt);
    SameWeek(0, dt);
  }

  /** The intended bounds: the end is the last microsecond of the week. */
  function IntendedBounds(dt: Instant): (Instant, Instant) {
    var start := WeekStart(dt);
    (start, start + MicrosPerWeek - 1)
  }

  /** With the intended end, a datetime lies between its own bounds, inclusive, exactly when it is in that week. */
  lemma IntendedBoundsMeaning(dt: Instant, other: Instant)
    ensures var (s, e) := IntendedBounds(dt);
      s <= dt <= e &&
      (s <= other <= e <==> IntendedBounds(other) == IntendedBounds(dt))
  {
    WeekStartMeaning(dt);
    var s := WeekStart(dt);
    if s <= other < s + MicrosPerWeek {
      SameWeek(s, other);
    }
    if IntendedBounds(other) == IntendedBounds(dt) {
      WeekStartMeaning(other);
    }
  }
}
