/** Scheduled weekend closure of spot gold, for instants and for whole candle intervals. */
module MarketHours {
  import opened Wrappers
  import opened UtcTime

  datatype IntervalError = EmptyInterval

  /** Friday 21:00 UTC up to, not including, Sunday 21:00 UTC. */
  predicate WeekendClosed(t: Instant) {
    || Weekday(t) == 5
    || (Weekday(t) == 4 && HourOfDay(t) >= 21)
    || (Weekday(t) == 6 && HourOfDay(t) < 21)
  }

  const CLOSES := 421_200_000_000
  const REOPENS := 594_000_000_000

  /** The closure is one window of 48 hours in every week. */
  lemma ClosedByPhase(t: Instant)
    ensures CLOSES == 4 * DAY + 21 * HOUR && REOPENS == CLOSES + 48 * HOUR
    ensures WeekendClosed(t) <==> CLOSES <= WeekPhase(t) < REOPENS
  {
    WeekParts(t);
    var p := WeekPhase(t);
    var d, x := p / DAY, p % DAY;
    assert p == d * DAY + x;
    assert x == x / HOUR * HOUR + x % HOUR;
  }

  /** Opening of the closure window of the week of `t`. */
  function WindowStart(t: Instant): Instant {
    WeekInstant(WeekIndex(t), CLOSES)
  }

  lemma WindowBounds(t: Instant)
    requires WeekendClosed(t)
    ensures WindowStart(t) <= t < WindowStart(t) + 48 * HOUR
  {
    ClosedByPhase(t);
    WeekParts(t);
  }

  lemma ClosedInWindow(t: Instant, u: Instant)
    requires WindowStart(t) <= u < WindowStart(t) + 48 * HOUR
    ensures WeekendClosed(u)
  {
    WeekPartsUnique(u, WeekIndex(t), u - WindowStart(t) + CLOSES);
    ClosedByPhase(u);
  }

  /** Two closed instants less than 48 hours apart lie in one window. */
  lemma SameWindow(t: Instant, u: Instant)
    requires WeekendClosed(t) && WeekendClosed(u) && t <= u < t + 48 * HOUR
    ensures WindowStart(t) == WindowStart(u)
  {
    WindowBounds(t);
    WindowBounds(u);
    var w, v := WeekIndex(t), WeekIndex(u);
    assert WindowStart(u) - WindowStart(t) == (v - w) * WEEK;
  }

  ghost predicate WhollyClosed(open: Instant, close: Instant) {
    forall t :: open <= t < close ==> WeekendClosed(t)
  }

  /** The three end checks and every 15-minute sample. */
  ghost predicate ChecksPass(open: Instant, close: Instant) {
    && close - open < 48 * HOUR && WeekendClosed(open) && WeekendClosed(close - SECOND)
    && forall k: nat :: open + k * (15 * MINUTE) < close ==> WeekendClosed(open + k * (15 * MINUTE))
  }

  lemma WholeSecondAtMost(a: Instant, b: Instant)
    requires a % SECOND == 0 && b % SECOND == 0 && a - SECOND < b
    ensures a <= b
  {
    var i, j := a / SECOND, b / SECOND;
    assert a == i * SECOND && b == j * SECOND;
  }

  lemma WindowEndWhole(t: Instant)
    ensures (WindowStart(t) + 48 * HOUR) % SECOND == 0
  {
    var w := WeekIndex(t);
    assert WindowStart(t) + 48 * HOUR == (w * 604_800 + 421_200 - 259_200 + 172_800) * SECOND;
  }

  lemma PassingIsWhollyClosed(open: Instant, close: Instant)
    requires open < close && close % SECOND == 0 && ChecksPass(open, close)
    ensures WhollyClosed(open, close)
  {
    if close - SECOND < open {
      SameWindow(close - SECOND, open);
    } else {
      SameWindow(open, close - SECOND);
    }
    WindowBounds(close - SECOND);
    WindowBounds(open);
    WindowEndWhole(open);
    WholeSecondAtMost(close, WindowStart(open) + 48 * HOUR);
    forall t | open <= t < close ensures WeekendClosed(t) {
      ClosedInWindow(open, t);
    }
  }

  /**
   On whole seconds the checks recognise exactly the intervals lying wholly in the
   closure, except the one of exactly 48 hours, which the span test lets through as open.
   */
  lemma ChecksMeanWhollyClosed(open: Instant, close: Instant)
    requires open < close && open % SECOND == 0 && close % SECOND == 0
    ensures ChecksPass(open, close) <==> WhollyClosed(open, close) && close - open != 48 * HOUR
  {
    if ChecksPass(open, close) {
      PassingIsWhollyClosed(open, close);
    } else if WhollyClosed(open, close) && close - open != 48 * HOUR {
      LongestClosure(open, close);
      WhollyClosedPasses(open, close);
    }
  }

  lemma WhollyClosedPasses(open: Instant, close: Instant)
    requires open < close < open + 48 * HOUR && open % SECOND == 0 && close % SECOND == 0
    requires WhollyClosed(open, close)
    ensures ChecksPass(open, close)
  {
    assert (open + SECOND) % SECOND == 0;
    WholeSecondAtMost(open + SECOND, close);
    assert WeekendClosed(open) && WeekendClosed(close - SECOND);
    forall k: nat | open + k * (15 * MINUTE) < close ensures WeekendClosed(open + k * (15 * MINUTE)) {
    }
  }

  lemma LongestClosure(open: Instant, close: Instant)
    requires open < close && WhollyClosed(open, close)
    ensures close - open <= 48 * HOUR
  {
    assert WeekendClosed(open);
    WindowBounds(open);
    var end := WindowStart(open) + 48 * HOUR;
    if end < close {
      assert WeekendClosed(end);
      ClosedByPhase(end);
      WeekPartsUnique(end, WeekIndex(open), REOPENS);
    }
  }

  /** The exception is real: a full closure is not recognised. */
  lemma FullClosureMissed(t: Instant)
    requires WeekendClosed(t)
    ensures WhollyClosed(WindowStart(t), WindowStart(t) + 48 * HOUR)
    ensures !ChecksPass(WindowStart(t), WindowStart(t) + 48 * HOUR)
  {
    forall u | WindowStart(t) <= u < WindowStart(t) + 48 * HOUR ensures WeekendClosed(u) {
      ClosedInWindow(t, u);
    }
  }

  method IsIntervalClosed(open: Instant, close: Instant) returns (r: Result<bool, IntervalError>)
    ensures close <= open ==> r == Err(EmptyInterval)
    ensures open < close ==> r.Ok? && (r.value <==> ChecksPass(open, close))
  {
    if close <= open {
      return Err(EmptyInterval);
    }
    if close - open >= 48 * HOUR {
      return Ok(false);
    }
    if !WeekendClosed(open) {
      return Ok(false);
    }
    if !WeekendClosed(close - SECOND) {
      return Ok(false);
    }
    var curr := open;
    ghost var samples: nat := 0;
    while curr < close
      invariant curr == open + samples * (15 * MINUTE)
      invariant forall k: nat :: k < samples ==> WeekendClosed(open + k * (15 * MINUTE))
      decreases close - curr
    {
      if !WeekendClosed(curr) {
        return Ok(false);
      }
      curr := curr + 15 * MINUTE;
      samples := samples + 1;
    }
    r := Ok(true);
  }
}
