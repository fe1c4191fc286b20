/**
 Timezone-aware UTC datetimes as microseconds since 1970-01-01T00:00:00Z, the
 resolution of the program's own datetimes.  Every divisor below is a positive
 literal, so Dafny's Euclidean `/` and `%` are the floor division the program uses.
 */
module UtcTime {
  type Instant = int

  const SECOND := 1_000_000
  const MINUTE := 60_000_000
  const HOUR := 3_600_000_000
  const DAY := 86_400_000_000

  /** Days since the epoch; also the identity of a UTC calendar day. */
  function DayIndex(t: Instant): int {
    t / DAY
  }

  function DayStart(t: Instant): Instant {
    t - t % DAY
  }

  function HourOfDay(t: Instant): (h: int)
    ensures 0 <= h < 24
  {
    t % DAY / HOUR
  }

  /** Monday is 0 and Sunday 6; the epoch fell on a Thursday. */
  function Weekday(t: Instant): (w: int)
    ensures 0 <= w < 7
  {
    (t / DAY + 3) % 7
  }

  /** The instant `t` with its time of day replaced by `h`:00:00. */
  function AtHour(t: Instant, h: int): Instant {
    DayStart(t) + h * HOUR
  }

  /** The day and time of day of an instant are its only such decomposition. */
  lemma DayParts(t: Instant, day: int, time: int)
    requires t == day * DAY + time && 0 <= time < DAY
    ensures DayIndex(t) == day && t % DAY == time && DayStart(t) == day * DAY
  {
  }

  lemma HourParts(time: int, hour: int, rest: int)
    requires time == hour * HOUR + rest && 0 <= rest < HOUR
    ensures time / HOUR == hour && time % HOUR == rest
  {
  }

  lemma AtHourParts(t: Instant, h: int)
    requires 0 <= h < 24
    ensures HourOfDay(AtHour(t, h)) == h && AtHour(t, h) % HOUR == 0
    ensures DayStart(AtHour(t, h)) == DayStart(t)
  {
    var d := DayIndex(t);
    assert DayStart(t) == d * DAY;
    DayParts(AtHour(t, h), d, h * HOUR);
    HourParts(h * HOUR, h, 0);
    HourParts(AtHour(t, h), d * 24 + h, 0);
  }

  /** Hours since the epoch, modulo 24. */
  lemma HourIndex(t: Instant)
    ensures HourOfDay(t) == t / HOUR % 24
  {
    var d, x := DayIndex(t), t % DAY;
    assert t == d * DAY + x;
    HourParts(t, d * 24 + x / HOUR, x % HOUR);
  }

  /** An instant lies in its hour of its day. */
  lemma HourBounds(t: Instant)
    ensures AtHour(t, HourOfDay(t)) <= t < AtHour(t, HourOfDay(t)) + HOUR
  {
    var x := t % DAY;
    assert x == x / HOUR * HOUR + x % HOUR;
  }

  const WEEK := 604_800_000_000

  /** Time since Monday 00:00:00. */
  function WeekPhase(t: Instant): (p: int)
    ensures 0 <= p < WEEK
  {
    (t + 3 * DAY) % WEEK
  }

  function WeekIndex(t: Instant): int {
    (t + 3 * DAY) / WEEK
  }

  function WeekInstant(week: int, phase: int): Instant {
    week * WEEK + phase - 3 * DAY
  }

  lemma WeekParts(t: Instant)
    ensures t == WeekInstant(WeekIndex(t), WeekPhase(t))
    ensures Weekday(t) == WeekPhase(t) / DAY && t % DAY == WeekPhase(t) % DAY
  {
    var w, p := WeekIndex(t), WeekPhase(t);
    assert p == p / DAY * DAY + p % DAY;
    DayParts(t, 7 * w + p / DAY - 3, p % DAY);
  }

  lemma WeekPartsUnique(t: Instant, week: int, phase: int)
    requires t == WeekInstant(week, phase) && 0 <= phase < WEEK
    ensures WeekIndex(t) == week && WeekPhase(t) == phase
  {
  }

  /** Days from the epoch to a proleptic Gregorian date (years from 0 on). */
  function CivilDays(year: nat, month: nat, day: nat): int
    requires 1 <= month <= 12 && 1 <= day <= 31
  {
    var y := if month <= 2 then year - 1 else year;
    var era := y / 400;
    var yearOfEra := y - era * 400;
    var shifted := if month > 2 then month - 3 else month + 9;
    var dayOfYear := (153 * shifted + 2) / 5 + day - 1;
    era * 146097 + yearOfEra * 365 + yearOfEra / 4 - yearOfEra / 100 + dayOfYear - 719468
  }
}
