/** What one batch, or one look at a circuit, does to the several parts of ledger and cache. */
module BatchEffects {
  import opened UtcTime
  import opened CandleClock
  import opened RequestLedger
  import opened Dispatch

  ghost predicate SameEntry(cache: Cache, cache': Cache, key: CacheKey) {
    (key in cache' <==> key in cache) && (key in cache ==> cache'[key] == cache[key])
  }

  // ---------------------------------------------------------------------------
  // Suppression
  // ---------------------------------------------------------------------------

  /** Attempt count, own flag and shared flag of one request. */
  ghost predicate SameSuppression(l: Ledger, cache: Cache, l': Ledger, cache': Cache, r: Request) {
    && Lookup(l'.attempts, r, 0) == Lookup(l.attempts, r, 0)
    && Lookup(l'.suppressed, r, false) == Lookup(l.suppressed, r, false)
    && SameEntry(cache, cache', SuppressedKey(r))
  }

  lemma ChargedKeepsSuppression(l: Ledger, cache: Cache, sent: nat, nowUtc: Instant, clock: Instant, r: Request)
    ensures
      var (l', cache') := Charged(l, cache, sent, nowUtc, clock);
      SameSuppression(l, cache, l', cache', r)
  {
    if sent > 0 {
      var (l1, cache1) := Charge(l, cache, nowUtc, clock);
      assert SameSuppression(l, cache, l1, cache1, r);
    }
  }

  lemma OtherAttemptKeepsSuppression(
    l: Ledger, cache: Cache, request: Request, success: bool, isRetry: bool, nowUtc: Instant, clock: Instant,
    r: Request)
    requires r != request
    ensures
      var (l', cache') := RecordAttempt(l, cache, request, success, isRetry, nowUtc, clock);
      SameSuppression(l, cache, l', cache', r)
  {
  }

  lemma TripKeepsSuppression(l: Ledger, cache: Cache, tf: Timeframe, nowUtc: Instant, clock: Instant, r: Request)
    ensures
      var (l', cache') := TripCircuit(l, cache, tf, nowUtc, clock);
      SameSuppression(l, cache, l', cache', r)
  {
  }

  lemma RecordedElsewhere(
    l: Ledger, cache: Cache, request: Request, report: Report, nowUtc: Instant, clock: Instant, r: Request)
    requires !report.recorded || r != request
    ensures
      var (l', cache') := Recorded(l, cache, request, report, nowUtc, clock);
      SameSuppression(l, cache, l', cache', r)
  {
    ChargedKeepsSuppression(l, cache, report.sent, nowUtc, clock, r);
    var (l1, cache1) := Charged(l, cache, report.sent, nowUtc, clock);
    if report.recorded {
      OtherAttemptKeepsSuppression(l1, cache1, request, report.success, report.Retried(), nowUtc, clock, r);
      var (l2, cache2) := RecordAttempt(l1, cache1, request, report.success, report.Retried(), nowUtc, clock);
      TripKeepsSuppression(l2, cache2, request.tf, nowUtc, clock, r);
    }
  }

  /** The attempt counted, and the flags set when it was the second. */
  ghost predicate CountsFailure(l: Ledger, cache: Cache, l': Ledger, cache': Cache, request: Request, clock: Instant) {
    var key := SuppressedKey(request);
    var current := Lookup(l.attempts, request, 0) + 1;
    && Lookup(l'.attempts, request, 0) == current
    && Lookup(l'.suppressed, request, false) == (current >= MAX_ATTEMPTS || Lookup(l.suppressed, request, false))
    && (current >= MAX_ATTEMPTS ==> key in cache' && cache'[key] == CacheEntry(1, clock + DAY))
    && (current < MAX_ATTEMPTS ==> SameEntry(cache, cache', key))
  }

  lemma FailureCounts(l: Ledger, cache: Cache, request: Request, isRetry: bool, nowUtc: Instant, clock: Instant)
    ensures
      var (l', cache') := RecordFailure(l, cache, request, isRetry, nowUtc, clock);
      CountsFailure(l, cache, l', cache', request, clock)
  {
  }

  lemma RecordedFailure(l: Ledger, cache: Cache, request: Request, report: Report, nowUtc: Instant, clock: Instant)
    requires report.Failed()
    ensures
      var (l', cache') := Recorded(l, cache, request, report, nowUtc, clock);
      CountsFailure(l, cache, l', cache', request, clock)
  {
    ChargedKeepsSuppression(l, cache, report.sent, nowUtc, clock, request);
    var (l1, cache1) := Charged(l, cache, report.sent, nowUtc, clock);
    FailureCounts(l1, cache1, request, report.Retried(), nowUtc, clock);
    var (l2, cache2) := RecordAttempt(l1, cache1, request, report.success, report.Retried(), nowUtc, clock);
    TripKeepsSuppression(l2, cache2, request.tf, nowUtc, clock, request);
  }

  // ---------------------------------------------------------------------------
  // The circuit of one timeframe
  // ---------------------------------------------------------------------------

  ghost predicate SameCircuit(l: Ledger, cache: Cache, l': Ledger, cache': Cache, tf: Timeframe) {
    && Lookup(l'.circuitOpen, tf, false) == Lookup(l.circuitOpen, tf, false)
    && (tf in l'.circuitUntil <==> tf in l.circuitUntil)
    && (tf in l.circuitUntil ==> l'.circuitUntil[tf] == l.circuitUntil[tf])
    && SameEntry(cache, cache', CircuitOpenKey(tf)) && SameEntry(cache, cache', CircuitUntilKey(tf))
  }

  lemma ChargedKeepsCircuit(l: Ledger, cache: Cache, sent: nat, nowUtc: Instant, clock: Instant, tf: Timeframe)
    ensures
      var (l', cache') := Charged(l, cache, sent, nowUtc, clock);
      SameCircuit(l, cache, l', cache', tf)
  {
    if sent > 0 {
      var (l1, cache1) := Charge(l, cache, nowUtc, clock);
      assert SameCircuit(l, cache, l1, cache1, tf);
    }
  }

  lemma FailureKeepsCircuit(
    l: Ledger, cache: Cache, request: Request, isRetry: bool, nowUtc: Instant, clock: Instant, tf: Timeframe)
    ensures
      var (l', cache') := RecordFailure(l, cache, request, isRetry, nowUtc, clock);
      SameCircuit(l, cache, l', cache', tf)
  {
    var day := DayIndex(nowUtc);
    var (retries, cache2) := Bump(l.retries, cache, RetryCreditsKey(day), day, 1, clock);
    assert SameCircuit(l, cache, l, cache2, tf);
  }

  lemma OtherSuccessKeepsCircuit(l: Ledger, cache: Cache, request: Request, tf: Timeframe)
    requires tf != request.tf
    ensures
      var (l', cache') := RecordSuccess(l, cache, request);
      SameCircuit(l, cache, l', cache', tf)
  {
  }

  lemma AttemptKeepsCircuit(
    l: Ledger, cache: Cache, request: Request, success: bool, isRetry: bool, nowUtc: Instant, clock: Instant,
    tf: Timeframe)
    requires !success || tf != request.tf
    ensures
      var (l', cache') := RecordAttempt(l, cache, request, success, isRetry, nowUtc, clock);
      SameCircuit(l, cache, l', cache', tf)
  {
    if success {
      OtherSuccessKeepsCircuit(l, cache, request, tf);
    } else {
      FailureKeepsCircuit(l, cache, request, isRetry, nowUtc, clock, tf);
    }
  }

  lemma OtherTripKeepsCircuit(
    l: Ledger, cache: Cache, tripped: Timeframe, nowUtc: Instant, clock: Instant, tf: Timeframe)
    requires tf != tripped
    ensures
      var (l', cache') := TripCircuit(l, cache, tripped, nowUtc, clock);
      SameCircuit(l, cache, l', cache', tf)
  {
  }

  /** Unless it trips the timeframe or succeeds on it, recording leaves its circuit alone. */
  lemma RecordedQuietly(
    l: Ledger, cache: Cache, request: Request, report: Report, nowUtc: Instant, clock: Instant, tf: Timeframe)
    requires tf != request.tf || (!report.Succeeded() && !report.tripped) || !report.recorded
    ensures
      var (l', cache') := Recorded(l, cache, request, report, nowUtc, clock);
      SameCircuit(l, cache, l', cache', tf)
  {
    ChargedKeepsCircuit(l, cache, report.sent, nowUtc, clock, tf);
    var (l1, cache1) := Charged(l, cache, report.sent, nowUtc, clock);
    if report.recorded {
      AttemptKeepsCircuit(l1, cache1, request, report.success, report.Retried(), nowUtc, clock, tf);
      var (l2, cache2) := RecordAttempt(l1, cache1, request, report.success, report.Retried(), nowUtc, clock);
      if report.tripped {
        OtherTripKeepsCircuit(l2, cache2, request.tf, nowUtc, clock, tf);
      }
    }
  }

  /** The circuit open locally and in the cache, as a trip for `nowUtc` at `clock` leaves it. */
  ghost predicate TrippedAt(l: Ledger, cache: Cache, tf: Timeframe, nowUtc: Instant, clock: Instant) {
    var expires := clock + TripTimeoutSeconds(nowUtc) * SECOND;
    && Lookup(l.circuitOpen, tf, false) && tf in l.circuitUntil && l.circuitUntil[tf] == TripUntil(nowUtc)
    && CircuitOpenKey(tf) in cache && cache[CircuitOpenKey(tf)] == CacheEntry(1, expires)
    && CircuitUntilKey(tf) in cache && cache[CircuitUntilKey(tf)] == CacheEntry(TripUntil(nowUtc), expires)
  }

  lemma RecordedTrip(l: Ledger, cache: Cache, request: Request, report: Report, nowUtc: Instant, clock: Instant)
    requires report.recorded && report.tripped
    ensures
      var (l', cache') := Recorded(l, cache, request, report, nowUtc, clock);
      TrippedAt(l', cache', request.tf, nowUtc, clock)
  {
    var (l1, cache1) := Charged(l, cache, report.sent, nowUtc, clock);
    var (l2, cache2) := RecordAttempt(l1, cache1, request, report.success, report.Retried(), nowUtc, clock);
  }

  lemma RecordedSuccess(l: Ledger, cache: Cache, request: Request, report: Report, nowUtc: Instant, clock: Instant)
    requires report.Succeeded() && !report.tripped
    ensures !Lookup(Recorded(l, cache, request, report, nowUtc, clock).0.circuitOpen, request.tf, false)
  {
  }

  // ---------------------------------------------------------------------------
  // Looking at the circuit
  // ---------------------------------------------------------------------------

  lemma LookKeepsSuppression(l: Ledger, cache: Cache, tf: Timeframe, t: Instant, r: Request)
    ensures
      var (open, l', cache') := CheckCircuit(l, cache, tf, t, t);
      SameSuppression(l, cache, l', cache', r)
  {
  }

  /** Looking at a circuit answers the credit and suppression questions as before. */
  lemma LookKeepsAnswers(l: Ledger, cache: Cache, tf: Timeframe, t: Instant, r: Request)
    ensures
      var (open, l', cache') := CheckCircuit(l, cache, tf, t, t);
      (CanConsume(l', cache', t, t) <==> CanConsume(l, cache, t, t))
        && (IsSuppressed(l', cache', r, t) <==> IsSuppressed(l, cache, r, t))
  {
  }

  lemma LookElsewhere(l: Ledger, cache: Cache, looked: Timeframe, t: Instant, tf: Timeframe)
    requires looked != tf
    ensures
      var (open, l', cache') := CheckCircuit(l, cache, looked, t, t);
      SameCircuit(l, cache, l', cache', tf)
  {
  }

  // ---------------------------------------------------------------------------
  // Daily retries
  // ---------------------------------------------------------------------------

  /** The retry counters of one day are left alone. */
  ghost predicate SameRetries(l: Ledger, cache: Cache, l': Ledger, cache': Cache, day: int) {
    Lookup(l'.retries, day, 0) == Lookup(l.retries, day, 0) && SameEntry(cache, cache', RetryCreditsKey(day))
  }

  /** One more retry of the day is counted locally, and in the entry or a new one. */
  ghost predicate CountsRetry(l: Ledger, cache: Cache, l': Ledger, cache': Cache, day: int, clock: Instant) {
    var key := RetryCreditsKey(day);
    && Lookup(l'.retries, day, 0) == Lookup(l.retries, day, 0) + 1
    && key in cache'
    && cache'[key] == if key in cache && clock < cache[key].expires
                      then CacheEntry(cache[key].value + 1, cache[key].expires)
                      else CacheEntry(Lookup(l'.retries, day, 0), clock + DAY)
  }

  lemma ChargedKeepsRetries(l: Ledger, cache: Cache, sent: nat, nowUtc: Instant, clock: Instant, day: int)
    ensures
      var (l', cache') := Charged(l, cache, sent, nowUtc, clock);
      SameRetries(l, cache, l', cache', day)
  {
    if sent > 0 {
      var (l1, cache1) := Charge(l, cache, nowUtc, clock);
      assert SameRetries(l, cache, l1, cache1, day);
    }
  }

  lemma AttemptKeepsRetries(
    l: Ledger, cache: Cache, request: Request, success: bool, isRetry: bool, nowUtc: Instant, clock: Instant, day: int)
    requires success || !isRetry || DayIndex(nowUtc) != day
    ensures
      var (l', cache') := RecordAttempt(l, cache, request, success, isRetry, nowUtc, clock);
      SameRetries(l, cache, l', cache', day)
  {
  }

  lemma AttemptCountsRetry(l: Ledger, cache: Cache, request: Request, nowUtc: Instant, clock: Instant)
    ensures
      var (l', cache') := RecordAttempt(l, cache, request, false, true, nowUtc, clock);
      CountsRetry(l, cache, l', cache', DayIndex(nowUtc), clock)
  {
  }

  lemma TripKeepsRetries(l: Ledger, cache: Cache, tf: Timeframe, nowUtc: Instant, clock: Instant, day: int)
    ensures
      var (l', cache') := TripCircuit(l, cache, tf, nowUtc, clock);
      SameRetries(l, cache, l', cache', day)
  {
  }

  lemma LookKeepsRetries(l: Ledger, cache: Cache, tf: Timeframe, t: Instant, day: int)
    ensures
      var (open, l', cache') := CheckCircuit(l, cache, tf, t, t);
      SameRetries(l, cache, l', cache', day)
  {
  }

  lemma RecordedRetries(
    l: Ledger, cache: Cache, request: Request, report: Report, nowUtc: Instant, clock: Instant, day: int)
    ensures
      var (l', cache') := Recorded(l, cache, request, report, nowUtc, clock);
      if report.Failed() && report.Retried() && DayIndex(nowUtc) == day
      then CountsRetry(l, cache, l', cache', day, clock)
      else SameRetries(l, cache, l', cache', day)
  {
    ChargedKeepsRetries(l, cache, report.sent, nowUtc, clock, day);
    var (l1, cache1) := Charged(l, cache, report.sent, nowUtc, clock);
    if report.recorded {
      var (l2, cache2) := RecordAttempt(l1, cache1, request, report.success, report.Retried(), nowUtc, clock);
      if report.Failed() && report.Retried() && DayIndex(nowUtc) == day {
        AttemptCountsRetry(l1, cache1, request, nowUtc, clock);
      } else {
        AttemptKeepsRetries(l1, cache1, request, report.success, report.Retried(), nowUtc, clock, day);
      }
      TripKeepsRetries(l2, cache2, request.tf, nowUtc, clock, day);
    }
  }
}
