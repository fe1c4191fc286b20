/** The closed-candle scheduler: whether a timeframe is due, and how a gap is recovered. */
module Scheduler {
  import opened Wrappers
  import opened UtcTime
  import opened CandleClock
  import opened MarketHours
  import opened CandleGap
  import opened RequestLedger
  import opened Sums

  const POST_CLOSE_DELAY := 20_000_000
  const NORMAL_LOOKBACK_BARS := 2

  /** Length of one bar; unknown timeframes count as 15 minutes. */
  function BarLength(tf: Timeframe): (step: int)
    ensures step > 0
  {
    match tf
    case M15 => 15 * MINUTE
    case H1 => HOUR
    case H4 => 4 * HOUR
    case D1 => DAY
    case Unsupported(_) => 15 * MINUTE
  }

  // ---------------------------------------------------------------------------
  // Due or not
  // ---------------------------------------------------------------------------

  datatype Reason =
    | MarketClosureCircuitOpen
    | DailyAutomaticCreditCapExceeded
    | AlreadyStored
    | MarketClosedScheduled
    | SuppressedMaxRetriesExceeded
    | DueNewClosedCandle

  datatype Verdict = Verdict(due: bool, expectedClose: Option<Instant>, reason: Reason)

  ghost function Evaluate(
    l: Ledger, cache: Cache, tf: Timeframe, nowUtc: Instant, clock: Instant, stored: Option<Instant>, isXauUsd: bool
  ): Result<Verdict, ClockError> {
    var (open, l1, cache1) := CheckCircuit(l, cache, tf, nowUtc, clock);
    if open then Ok(Verdict(false, None, MarketClosureCircuitOpen))
    else if !CanConsume(l1, cache1, nowUtc, clock) then Ok(Verdict(false, None, DailyAutomaticCreditCapExceeded))
    else
      match LatestClosed(tf, nowUtc - POST_CLOSE_DELAY, stored)
      case Err(e) => Err(e)
      case Ok(close) => Ok(VerdictOn(close, l1, cache1, tf, clock, stored, isXauUsd))
  }

  /** The verdict on the expected close, once circuit and budget allow one. */
  ghost function VerdictOn(
    close: Instant, l: Ledger, cache: Cache, tf: Timeframe, clock: Instant, stored: Option<Instant>, isXauUsd: bool
  ): Verdict {
    if stored.Some? && close <= stored.value then Verdict(false, Some(close), AlreadyStored)
    else if isXauUsd && ChecksPass(close - BarLength(tf), close) then Verdict(false, Some(close), MarketClosedScheduled)
    else if IsSuppressed(l, cache, Request(tf, close), clock)
      then Verdict(false, Some(close), SuppressedMaxRetriesExceeded)
    else Verdict(true, Some(close), DueNewClosedCandle)
  }

  /**
   A due verdict spends nothing it should not: the circuit is closed, the budget has
   room, and the close is newer than the stored one and at least the delay in the past,
   also where the anchored clock by itself would answer an instant ahead of its argument.
   */
  lemma DueMeans(
    l: Ledger, cache: Cache, tf: Timeframe, nowUtc: Instant, clock: Instant, stored: Option<Instant>, isXauUsd: bool)
    requires
      var r := Evaluate(l, cache, tf, nowUtc, clock, stored, isXauUsd);
      r.Ok? && r.value.due
    ensures
      var v := Evaluate(l, cache, tf, nowUtc, clock, stored, isXauUsd).value;
      && v.expectedClose.Some? && v.reason == DueNewClosedCandle
      && v.expectedClose.value <= nowUtc - 20 * SECOND
      && (stored.Some? ==> stored.value < v.expectedClose.value)
      && !CheckCircuit(l, cache, tf, nowUtc, clock).0
      && CanConsume(l, cache, nowUtc, clock)
      && !IsSuppressed(l, cache, Request(tf, v.expectedClose.value), clock)
  {
    var now := nowUtc - POST_CLOSE_DELAY;
    if tf == H4 && stored.Some? {
      AnchoredAlways(now, stored.value);
      AnchoredIsFloorIff(now, stored.value);
    } else if tf == H4 {
      ColdStartRecent(now);
    }
    CircuitCheckKeepsCounters(l, cache, tf, nowUtc, clock, LatestClosed(tf, now, stored).value);
  }

  /** A close whose bar lies wholly in the closure is never due for XAU/USD. */
  lemma ClosedBarIsNotDue(
    l: Ledger, cache: Cache, tf: Timeframe, nowUtc: Instant, clock: Instant, stored: Option<Instant>, close: Instant)
    requires LatestClosed(tf, nowUtc - POST_CLOSE_DELAY, stored) == Ok(close)
    requires WhollyClosed(close - BarLength(tf), close)
    ensures
      var r := Evaluate(l, cache, tf, nowUtc, clock, stored, true);
      r.Ok? && !r.value.due
  {
    assert WeekendClosed(close - BarLength(tf)) && WeekendClosed(close - SECOND);
  }

  /** On whole seconds the verdict is due exactly under these conditions, and otherwise names the first that fails. */
  lemma VerdictIff(
    l: Ledger, cache: Cache, tf: Timeframe, nowUtc: Instant, clock: Instant, stored: Option<Instant>, isXauUsd: bool,
    close: Instant)
    requires LatestClosed(tf, nowUtc - POST_CLOSE_DELAY, stored) == Ok(close) && close % SECOND == 0
    ensures Evaluate(l, cache, tf, nowUtc, clock, stored, isXauUsd).Ok?
    ensures
      var v := Evaluate(l, cache, tf, nowUtc, clock, stored, isXauUsd).value;
      var open := CheckCircuit(l, cache, tf, nowUtc, clock).0;
      var room := CanConsume(l, cache, nowUtc, clock);
      var isNew := stored == None || stored.value < close;
      var asleep := isXauUsd && WhollyClosed(close - BarLength(tf), close);
      var suppressed := IsSuppressed(l, cache, Request(tf, close), clock);
      && v.reason == (if open then MarketClosureCircuitOpen
                      else if !room then DailyAutomaticCreditCapExceeded
                      else if !isNew then AlreadyStored
                      else if asleep then MarketClosedScheduled
                      else if suppressed then SuppressedMaxRetriesExceeded
                      else DueNewClosedCandle)
      && (v.due <==> !open && room && isNew && !asleep && !suppressed)
      && v.expectedClose == if open || !room then None else Some(close)
  {
    CircuitCheckKeepsCounters(l, cache, tf, nowUtc, clock, close);
    BarWholeSeconds(tf);
    ChecksMeanWhollyClosed(close - BarLength(tf), close);
  }

  lemma BarWholeSeconds(tf: Timeframe)
    ensures BarLength(tf) % SECOND == 0 && 15 * MINUTE <= BarLength(tf) <= DAY
    ensures forall close :: close % SECOND == 0 ==> (close - BarLength(tf)) % SECOND == 0
  {
  }

  /** From a grid close on, the clock stays for one bar and then moves on by one bar. */
  lemma BarIsClockStep(tf: Timeframe, close: Instant, now: Instant, stored: Option<Instant>)
    requires tf in {M15, H1, D1} || (tf == H4 && stored == Some(close))
    requires LatestClosed(tf, close, stored) == Ok(close) && close <= now < close + 2 * BarLength(tf)
    ensures LatestClosed(tf, now, stored) == Ok(if now < close + BarLength(tf) then close else close + BarLength(tf))
  {
    if tf != H4 {
      GridStep(close, now, BarLength(tf));
    } else {
      GridStep(0, now - close, BarLength(tf));
    }
  }

  lemma GridStep(close: Instant, now: Instant, step: int)
    requires step > 0 && close % step == 0 && close <= now < close + 2 * step
    ensures now - now % step == if now < close + step then close else close + step
  {
    var k := close / step;
    assert close == k * step;
    if now < close + step {
      QuotientIs(now, step, k);
    } else {
      QuotientIs(now, step, k + 1);
    }
  }

  lemma QuotientIs(now: Instant, step: int, k: int)
    requires step > 0 && k * step <= now < (k + 1) * step
    ensures now - now % step == k * step
  {
    FloorBounds(now, step);
    var q := now / step;
    ProductBeyond(q - k, step);
    assert now % step == now - step * q;
  }

  /** Looking at the circuit changes neither credits nor suppression. */
  lemma CircuitCheckKeepsCounters(
    l: Ledger, cache: Cache, tf: Timeframe, nowUtc: Instant, clock: Instant, close: Instant)
    ensures
      var (open, l1, cache1) := CheckCircuit(l, cache, tf, nowUtc, clock);
      && l1.credits == l.credits && l1.suppressed == l.suppressed
      && Get(cache1, CreditsKey(DayIndex(nowUtc)), clock) == Get(cache, CreditsKey(DayIndex(nowUtc)), clock)
      && Get(cache1, SuppressedKey(Request(tf, close)), clock) == Get(cache, SuppressedKey(Request(tf, close)), clock)
  {
  }

  /**
   Once the expected close is stored the same instant is not due again, whatever the
   ledger and the cache hold by then, except after a 4h cold start in the stale hour.
   */
  lemma StoredIsNotDue(
    tf: Timeframe, nowUtc: Instant, stored: Option<Instant>, close: Instant,
    l: Ledger, cache: Cache, clock: Instant, isXauUsd: bool)
    requires LatestClosed(tf, nowUtc - POST_CLOSE_DELAY, stored) == Ok(close)
    requires !(tf == H4 && stored == None && LooksUpStaleRegime(nowUtc - POST_CLOSE_DELAY))
    ensures
      var again := Evaluate(l, cache, tf, nowUtc, clock, Some(close), isXauUsd);
      again.Ok? && !again.value.due
  {
    StoringMakesNotDueIff(tf, nowUtc - POST_CLOSE_DELAY, stored);
  }

  // ---------------------------------------------------------------------------
  // Recovery batches
  // ---------------------------------------------------------------------------

  datatype Batch = Batch(start: Instant, end: Instant, bars: int)

  /** Whole bars missing between the stored close and the expected one. */
  function MissingBars(expected: Instant, stored: Instant, step: int): int
    requires step > 0
  {
    (expected - stored) / step
  }

  lemma MissingFrom(expected: Instant, stored: Instant, step: int)
    requires step > 0
    ensures MissingBars(expected, stored, step) > 0 <==> stored + step <= expected
    ensures MissingBars(expected, stored, step) > 2 <==> stored + 3 * step <= expected
  {
    FloorBounds(expected - stored, step);
    var q := MissingBars(expected, stored, step);
    ProductBeyond(q - 1, step);
    ProductBeyond(q - 3, step);
    ProductBeyond(2 - q, step);
    ProductBeyond(-q, step);
  }

  /**
   Batches are planned exactly for a gap of three bars or more that is no market closure: none
   over a weekend from Friday 15:00 or Saturday to Sunday or Monday 03:59 of 20 to 65 hours, nor
   within 75 minutes of the daily break at 21 or 22 hours.
   */
  lemma NeedsBatchesIff(tf: Timeframe, expected: Instant, stored: Instant)
    ensures
      var gap := expected - stored;
      NeedsBatches(tf, expected, Some(stored)) <==>
      && stored + 3 * BarLength(tf) <= expected
      && (gap > 14 * DAY
          || !(20 * HOUR <= gap <= 65 * HOUR
               && ((Weekday(stored) == 4 && HourOfDay(stored) >= 15) || Weekday(stored) == 5)
               && (Weekday(expected) == 6 || (Weekday(expected) == 0 && HourOfDay(expected) <= 3))))
      && !(gap <= 75 * MINUTE && HourOfDay(stored) in {21, 22})
  {
    MissingFrom(expected, stored, BarLength(tf));
  }

  function NormalBatch(expected: Instant, step: int): Batch {
    Batch(expected - step * NORMAL_LOOKBACK_BARS, expected, NORMAL_LOOKBACK_BARS)
  }

  ghost function Bars(batches: seq<Batch>): seq<int> {
    seq(|batches|, i requires 0 <= i < |batches| => batches[i].bars)
  }

  ghost predicate FollowsOn(batches: seq<Batch>, i: nat, from: Instant, step: int, max: int)
    requires i < |batches|
  {
    && batches[i].start == (if i == 0 then from else batches[i - 1].end)
    && batches[i].end == batches[i].start + step * batches[i].bars
    && 1 <= batches[i].bars <= max
    && (i < |batches| - 1 ==> batches[i].bars == max)
  }

  /** Adjacent batches of 1 to `max` bars, all but the last of them full, starting at `from`. */
  ghost predicate Tiles(batches: seq<Batch>, from: Instant, step: int, max: int) {
    forall i: nat :: i < |batches| ==> FollowsOn(batches, i, from, step, max)
  }

  lemma TilesPrefix(batches: seq<Batch>, from: Instant, step: int, max: int)
    requires Tiles(batches, from, step, max) && batches != []
    ensures Tiles(batches[..|batches| - 1], from, step, max)
    ensures Bars(batches)[..|batches| - 1] == Bars(batches[..|batches| - 1])
  {
    var init := batches[..|batches| - 1];
    forall i: nat | i < |init| ensures FollowsOn(init, i, from, step, max) {
      assert FollowsOn(batches, i, from, step, max);
    }
  }

  lemma {:induction false} TilesEnd(batches: seq<Batch>, from: Instant, step: int, max: int)
    requires Tiles(batches, from, step, max) && batches != []
    ensures batches[|batches| - 1].end == from + step * Sum(Bars(batches))
    ensures Sum(Bars(batches)) == (|batches| - 1) * max + batches[|batches| - 1].bars
  {
    var n := |batches| - 1;
    var init := batches[..n];
    TilesPrefix(batches, from, step, max);
    assert FollowsOn(batches, n, from, step, max);
    var a, b := Sum(Bars(init)), batches[n].bars;
    assert Sum(Bars(batches)) == a + b;
    if n > 0 {
      TilesEnd(init, from, step, max);
      assert FollowsOn(batches, n - 1, from, step, max);
      Distribute(n - 1, 1, max);
    }
    Distribute(a, b, step);
  }

  lemma Distribute(a: int, b: int, m: int)
    ensures m * (a + b) == m * a + m * b && (a + b) * m == a * m + b * m
  {
  }

  lemma {:induction false} TilesChronological(batches: seq<Batch>, from: Instant, step: int, max: int, i: nat, j: nat)
    requires Tiles(batches, from, step, max) && step > 0 && i < j < |batches|
    ensures batches[i].end <= batches[j].start < batches[j].end
    decreases j
  {
    assert FollowsOn(batches, j, from, step, max);
    assert step * batches[j].bars > 0;
    if i < j - 1 {
      TilesChronological(batches, from, step, max, i, j - 1);
    }
  }

  /** The recovery plan of a gap: contiguous, bounded, complete, and as few requests as the bound allows. */
  lemma RecoveryPlanExact(batches: seq<Batch>, stored: Instant, expected: Instant, step: int, max: int)
    requires step > 0 && max >= 1 && MissingBars(expected, stored, step) > 0
    requires Tiles(batches, stored, step, max) && Sum(Bars(batches)) == MissingBars(expected, stored, step)
    ensures batches != [] && batches[0].start == stored
    ensures batches[|batches| - 1].end <= expected < batches[|batches| - 1].end + step
    ensures |batches| == (MissingBars(expected, stored, step) + max - 1) / max
    ensures forall i, j :: 0 <= i < j < |batches| ==> batches[i].end <= batches[j].start
  {
    var missing := MissingBars(expected, stored, step);
    assert batches != [];
    assert FollowsOn(batches, 0, stored, step, max);
    assert FollowsOn(batches, |batches| - 1, stored, step, max);
    TilesEnd(batches, stored, step, max);
    FloorBounds(expected - stored, step);
    CeilingQuotient(missing, max, |batches|, batches[|batches| - 1].bars);
    forall i, j | 0 <= i < j < |batches| ensures batches[i].end <= batches[j].start {
      TilesChronological(batches, stored, step, max, i, j);
    }
  }

  lemma FloorBounds(a: int, m: int)
    requires m > 0
    ensures m * (a / m) <= a < m * (a / m) + m
  {
  }

  lemma ProductBeyond(d: int, m: int)
    requires m > 0
    ensures d >= 1 ==> d * m >= m
    ensures d <= -1 ==> d * m <= -m
  {
  }

  lemma CeilingQuotient(missing: int, max: int, n: nat, last: int)
    requires 1 <= last <= max && n >= 1 && missing == (n - 1) * max + last
    ensures (missing + max - 1) / max == n
  {
    var q := (missing + max - 1) / max;
    FloorBounds(missing + max - 1, max);
    Distribute(n - 1, 1, max);
    Distribute(q - n, n, max);
    ProductBeyond(q - n, max);
  }

  /** More bars are missing than a normal request brings, and not for a closed market. */
  predicate NeedsBatches(tf: Timeframe, expected: Instant, latestStored: Option<Instant>) {
    && latestStored.Some? && MissingBars(expected, latestStored.value, BarLength(tf)) > NORMAL_LOOKBACK_BARS
    && Classify(latestStored.value, expected, tf) != ProviderMarketClosure
  }

  class ClosedCandleScheduler {
    const ledger: CandleRequestLedger

    constructor (ledger: CandleRequestLedger)
      ensures this.ledger == ledger
    {
      this.ledger := ledger;
    }

    method EvaluateTimeframe(tf: Timeframe, nowUtc: Instant, clock: Instant, stored: Option<Instant>, isXauUsd: bool)
      returns (r: Result<Verdict, ClockError>)
      modifies ledger, ledger.cache
      ensures r == Evaluate(old(ledger.Local()), old(ledger.cache.entries), tf, nowUtc, clock, stored, isXauUsd)
      ensures ledger.Local() == CheckCircuit(old(ledger.Local()), old(ledger.cache.entries), tf, nowUtc, clock).1
      ensures ledger.cache.entries == CheckCircuit(old(ledger.Local()), old(ledger.cache.entries), tf, nowUtc, clock).2
    {
      var open := ledger.IsCircuitOpen(tf, nowUtc, clock);
      if open {
        return Ok(Verdict(false, None, MarketClosureCircuitOpen));
      }
      var room := ledger.CanConsumeAutomaticCredit(nowUtc, clock);
      if !room {
        return Ok(Verdict(false, None, DailyAutomaticCreditCapExceeded));
      }
      var latest := LatestClosed(tf, nowUtc - POST_CLOSE_DELAY, stored);
      if latest.Err? {
        return Err(latest.error);
      }
      var verdict := EvaluateClose(latest.value, tf, clock, stored, isXauUsd);
      return Ok(verdict);
    }

    /** The part of the evaluation that concerns the expected close. */
    method EvaluateClose(close: Instant, tf: Timeframe, clock: Instant, stored: Option<Instant>, isXauUsd: bool)
      returns (v: Verdict)
      ensures v == VerdictOn(close, ledger.Local(), ledger.cache.entries, tf, clock, stored, isXauUsd)
    {
      if stored.Some? && close <= stored.value {
        return Verdict(false, Some(close), AlreadyStored);
      }
      if isXauUsd {
        var closed := IsIntervalClosed(close - BarLength(tf), close);
        if closed.value {
          return Verdict(false, Some(close), MarketClosedScheduled);
        }
      }
      var suppressed := ledger.Suppressed(Request(tf, close), clock);
      if suppressed {
        return Verdict(false, Some(close), SuppressedMaxRetriesExceeded);
      }
      return Verdict(true, Some(close), DueNewClosedCandle);
    }

    method PlanRecoveryBatches(tf: Timeframe, expected: Instant, latestStored: Option<Instant>, maxBatchSize: int)
      returns (batches: seq<Batch>)
      requires NeedsBatches(tf, expected, latestStored) ==> maxBatchSize >= 1
      ensures
        var step := BarLength(tf);
        if latestStored == None then batches == [NormalBatch(expected, step)]
        else
          var stored := latestStored.value;
          var missing := MissingBars(expected, stored, step);
          if missing <= 0 then batches == []
          else if !NeedsBatches(tf, expected, latestStored) then batches == [NormalBatch(expected, step)]
          else Tiles(batches, stored, step, maxBatchSize) && Sum(Bars(batches)) == missing
      ensures
        var step := BarLength(tf);
        latestStored == None || (latestStored.value + step <= expected && !NeedsBatches(tf, expected, latestStored)) ==>
          batches == [Batch(expected - 2 * step, expected, 2)]
      ensures latestStored.Some? && expected < latestStored.value + BarLength(tf) ==> batches == []
    {
      if latestStored.Some? {
        MissingFrom(expected, latestStored.value, BarLength(tf));
      }
      var step := BarLength(tf);
      if latestStored == None {
        return [NormalBatch(expected, step)];
      }
      var stored := latestStored.value;
      var missing := MissingBars(expected, stored, step);
      if missing <= 0 {
        return [];
      }
      if missing <= NORMAL_LOOKBACK_BARS {
        return [NormalBatch(expected, step)];
      }
      if Classify(stored, expected, tf) == ProviderMarketClosure {
        return [NormalBatch(expected, step)];
      }
      batches := [];
      var cursor, remaining := stored, missing;
      while remaining > 0
        invariant remaining >= 0
        invariant Tiles(batches, stored, step, maxBatchSize)
        invariant remaining > 0 ==> forall i :: 0 <= i < |batches| ==> batches[i].bars == maxBatchSize
        invariant cursor == if batches == [] then stored else batches[|batches| - 1].end
        invariant Sum(Bars(batches)) + remaining == missing
      {
        var size := if remaining < maxBatchSize then remaining else maxBatchSize;
        var end := cursor + step * size;
        ghost var before := batches;
        batches := batches + [Batch(cursor, end, size)];
        assert Bars(batches)[..|before|] == Bars(before) && Bars(batches)[|before|] == size;
        forall i: nat | i < |batches| ensures FollowsOn(batches, i, stored, step, maxBatchSize) {
          assert i < |before| ==> FollowsOn(before, i, stored, step, maxBatchSize);
        }
        cursor := end;
        remaining := remaining - size;
      }
    }
  }
}
