/** Retries that succeed are not counted: a day can have many more of them than its retry budget. */
module RetryBounds {
  import opened Wrappers
  import opened UtcTime
  import opened CandleClock
  import opened RequestLedger
  import opened Dispatch
  import opened DispatchRuns
  import opened SuppressionRuns
  import Scheduler

  const BROKEN := Refused(false, false, false)
  const RETRIED := Report(2, true, true, false)

  function Retries(run: seq<Event>, did: seq<Outcome>, day: int, k: nat): nat
    requires k <= |run| == |did|
  {
    if k == 0 then 0 else Retries(run, did, day, k - 1) + if IsRetry(run[k - 1], did[k - 1], day) then 1 else 0
  }

  lemma {:induction false} RetriesPrefix(run: seq<Event>, did: seq<Outcome>, e: Event, o: Outcome, day: int, k: nat)
    requires k <= |run| == |did|
    ensures Retries(run + [e], did + [o], day, k) == Retries(run, did, day, k)
    ensures FailedRetries(run + [e], did + [o], day, k) == FailedRetries(run, did, day, k)
  {
    if k > 0 {
      RetriesPrefix(run, did, e, o, day, k - 1);
    }
  }

  // ---------------------------------------------------------------------------
  // One close of the day
  // ---------------------------------------------------------------------------

  /** The `k`-th fifteen-minute close of day 0. */
  function CloseAt(k: nat): Instant {
    k * (15 * MINUTE)
  }

  /** Twenty seconds after it. */
  function LookTime(k: nat): Instant {
    CloseAt(k) + Scheduler.POST_CLOSE_DELAY
  }

  function RequestAt(k: nat): Request {
    Request(M15, CloseAt(k))
  }

  ghost function RetriedBatch(k: nat): Event {
    Event.Batch(0, RequestAt(k), CloseAt(k), BROKEN, Delivered, LookTime(k))
  }

  lemma LookTimes(k: nat)
    requires k < 96
    ensures 0 <= LookTime(k) < DAY && DayIndex(LookTime(k)) == 0
    ensures LatestClosed(M15, LookTime(k) - Scheduler.POST_CLOSE_DELAY, None) == Ok(CloseAt(k))
  {
    DayParts(LookTime(k), 0, LookTime(k));
  }

  ghost predicate NothingSuppressed(l: Ledger, cache: Cache) {
    (forall r: Request :: !Lookup(l.suppressed, r, false)) && (forall r: Request :: SuppressedKey(r) !in cache)
  }

  /** `k` batches have cost two credits each and left neither a retry counted nor anything suppressed or tripped. */
  ghost predicate Unmarked(l: Ledger, cache: Cache, k: nat) {
    && l.retries == map[] && RetryCreditsKey(0) !in cache
    && !Lookup(l.circuitOpen, M15, false) && CircuitOpenKey(M15) !in cache
    && NothingSuppressed(l, cache)
    && (if k == 0 then CreditsKey(0) !in cache && Lookup(l.credits, 0, 0) == 0
        else CreditsKey(0) in cache && cache[CreditsKey(0)].value == k && DAY <= cache[CreditsKey(0)].expires)
  }

  lemma Charges(l: Ledger, cache: Cache, k: nat, t: Instant)
    requires Unmarked(l, cache, k) && 0 <= t < DAY && DayIndex(t) == 0
    ensures CanConsume(l, cache, t, t) <==> k < MAX_CREDITS
    ensures
      var (l', cache') := Charge(l, cache, t, t);
      k > 0 || Lookup(l.credits, 0, 0) == 0 ==> Unmarked(l', cache', k + 1)
  {
  }

  lemma RetriedReport(l: Ledger, cache: Cache, k: nat, request: Request, t: Instant)
    requires Unmarked(l, cache, k) && k + 1 < MAX_CREDITS && 0 <= t < DAY && DayIndex(t) == 0
    ensures ReportOf(l, cache, request, t, t, BROKEN, Delivered) == RETRIED
  {
    Charges(l, cache, k, t);
    var (l1, cache1) := Charge(l, cache, t, t);
    Charges(l1, cache1, k + 1, t);
    assert !IsSuppressed(l1, cache1, request, t);
  }

  lemma SuccessUnmarked(l: Ledger, cache: Cache, k: nat, request: Request, t: Instant)
    requires Unmarked(l, cache, k) && request.tf == M15
    ensures
      var (l', cache') := RecordAttempt(l, cache, request, true, true, t, t);
      Unmarked(l', cache', k)
  {
    var (l', cache') := RecordAttempt(l, cache, request, true, true, t, t);
    assert l' == l.(attempts := l'.attempts, suppressed := l.suppressed[request := false],
                    circuitOpen := l.circuitOpen[M15 := false], circuitUntil := l'.circuitUntil);
    forall r: Request ensures !Lookup(l'.suppressed, r, false) && SuppressedKey(r) !in cache' {
      assert !Lookup(l.suppressed, r, false);
    }
  }

  lemma RetriedRecorded(l: Ledger, cache: Cache, k: nat, request: Request, t: Instant)
    requires Unmarked(l, cache, k) && 0 <= t < DAY && DayIndex(t) == 0 && request.tf == M15
    ensures
      var (l', cache') := Recorded(l, cache, request, RETRIED, t, t);
      Unmarked(l', cache', k + 2)
  {
    Charges(l, cache, k, t);
    var (l1, cache1) := Charge(l, cache, t, t);
    Charges(l1, cache1, k + 1, t);
    var (l2, cache2) := Charge(l1, cache1, t, t);
    SuccessUnmarked(l2, cache2, k + 2, request, t);
  }

  ghost predicate Alone(s: Group, k: nat) {
    |s.ledgers| == |s.due| == 1 && Unmarked(s.ledgers[0], s.cache, 2 * k)
  }

  lemma LookStep(s: Group, k: nat)
    requires Alone(s, k) && k < 96
    ensures
      var e := Look(0, RequestAt(k), LookTime(k));
      && Did(s, e) == Looked(true) && Alone(After(s, e), k)
      && M15 in After(s, e).due[0] && After(s, e).due[0][M15] == Due(CloseAt(k), LookTime(k))
  {
    LookTimes(k);
    Charges(s.ledgers[0], s.cache, 2 * k, LookTime(k));
  }

  lemma BatchStep(s: Group, k: nat)
    requires Alone(s, k) && k < 96 && M15 in s.due[0] && s.due[0][M15] == Due(CloseAt(k), LookTime(k))
    ensures Did(s, RetriedBatch(k)) == Ran(RETRIED, LookTime(k)) && Alone(After(s, RetriedBatch(k)), k + 1)
  {
    LookTimes(k);
    RetriedReport(s.ledgers[0], s.cache, 2 * k, RequestAt(k), LookTime(k));
    RetriedRecorded(s.ledgers[0], s.cache, 2 * k, RequestAt(k), LookTime(k));
  }

  // ---------------------------------------------------------------------------
  // All closes of the day
  // ---------------------------------------------------------------------------

  ghost predicate Tallied(run: seq<Event>, did: seq<Outcome>, k: nat) {
    && |run| == |did| && LooksInTime(run)
    && Retries(run, did, 0, |run|) == k && FailedRetries(run, did, 0, |run|) == 0
  }

  lemma TallyAppend(run: seq<Event>, did: seq<Outcome>, k: nat, e: Event, o: Outcome)
    requires Tallied(run, did, k) && !FailedRetry(e, o, 0)
    requires e.Look? ==> LatestClosed(e.expected.tf, e.at - Scheduler.POST_CLOSE_DELAY, None) == Ok(e.expected.close)
    ensures Tallied(run + [e], did + [o], k + if IsRetry(e, o, 0) then 1 else 0)
  {
    RetriesPrefix(run, did, e, o, 0, |run|);
  }

  lemma RoundTallied(run: seq<Event>, did: seq<Outcome>, k: nat)
    requires Tallied(run, did, k) && k < 96
    ensures
      Tallied(run + [Look(0, RequestAt(k), LookTime(k))] + [RetriedBatch(k)] + [TaskEnds(0, LookTime(k))],
              did + [Looked(true)] + [Ran(RETRIED, LookTime(k))] + [Ended], k + 1)
  {
    LookTimes(k);
    var look, batch := Look(0, RequestAt(k), LookTime(k)), RetriedBatch(k);
    TallyAppend(run, did, k, look, Looked(true));
    TallyAppend(run + [look], did + [Looked(true)], k, batch, Ran(RETRIED, LookTime(k)));
    TallyAppend(run + [look] + [batch], did + [Looked(true)] + [Ran(RETRIED, LookTime(k))], k + 1,
                TaskEnds(0, LookTime(k)), Ended);
  }

  lemma TaskEndStep(s: Group, k: nat, t: Instant)
    requires Alone(s, k)
    ensures Did(s, TaskEnds(0, t)) == Ended && Alone(After(s, TaskEnds(0, t)), k)
  {
  }

  lemma RoundReached(run: seq<Event>, did: seq<Outcome>, w: Group, k: nat, t: Instant) returns (w': Group)
    requires Reaches(1, run, did, w, t) && Alone(w, k) && k < 96 && t <= LookTime(k)
    ensures Alone(w', k + 1)
    ensures
      Reaches(1, run + [Look(0, RequestAt(k), LookTime(k))] + [RetriedBatch(k)] + [TaskEnds(0, LookTime(k))],
              did + [Looked(true)] + [Ran(RETRIED, LookTime(k))] + [Ended], w', LookTime(k))
  {
    var look, batch, ends := Look(0, RequestAt(k), LookTime(k)), RetriedBatch(k), TaskEnds(0, LookTime(k));
    LookStep(w, k);
    var looked := After(w, look);
    ReachesNext(1, run, did, w, t, look, looked, Looked(true));
    BatchStep(looked, k);
    var sent := After(looked, batch);
    var o := Ran(RETRIED, LookTime(k));
    ReachesNext(1, run + [look], did + [Looked(true)], looked, LookTime(k), batch, sent, o);
    TaskEndStep(sent, k + 1, LookTime(k));
    w' := After(sent, ends);
    ReachesNext(1, run + [look] + [batch], did + [Looked(true)] + [o], sent, LookTime(k), ends, w', Ended);
  }

  function LastTime(k: nat): Instant {
    if k == 0 then 0 else LookTime(k - 1)
  }

  ghost function RetriedEvents(n: nat): seq<Event> {
    if n == 0 then []
    else
      var k := n - 1;
      RetriedEvents(k) + [Look(0, RequestAt(k), LookTime(k))] + [RetriedBatch(k)] + [TaskEnds(0, LookTime(k))]
  }

  ghost function RetriedOutcomes(n: nat): seq<Outcome> {
    if n == 0 then []
    else RetriedOutcomes(n - 1) + [Looked(true)] + [Ran(RETRIED, LookTime(n - 1))] + [Ended]
  }

  lemma {:induction false} EventsTallied(n: nat)
    requires n <= 96
    ensures Tallied(RetriedEvents(n), RetriedOutcomes(n), n)
  {
    if n > 0 {
      EventsTallied(n - 1);
      RoundTallied(RetriedEvents(n - 1), RetriedOutcomes(n - 1), n - 1);
    }
  }

  lemma {:induction false} EventsReach(n: nat) returns (w: Group)
    requires n <= 96
    ensures Reaches(1, RetriedEvents(n), RetriedOutcomes(n), w, LastTime(n)) && Alone(w, n)
  {
    if n == 0 {
      w := Start(1);
    } else {
      w := EventsReach(n - 1);
      w := RoundReached(RetriedEvents(n - 1), RetriedOutcomes(n - 1), w, n - 1, LastTime(n - 1));
    }
  }

  /**
   The retry budget does not bound retries.  One process that retries every fifteen-minute close
   of a day with success sends up to 96 of them, of which none is counted.
   */
  lemma SuccessfulRetriesUncounted(n: nat)
    requires n <= 96
    ensures exists run: seq<Event> ::
      && IsRun(Start(1), run) && LooksInTime(run) && (forall i :: 0 <= i < |run| ==> run[i].at < DAY)
      && Retries(run, Outcomes(Start(1), run), 0, |run|) == n
      && FailedRetries(run, Outcomes(Start(1), run), 0, |run|) == 0
  {
    EventsTallied(n);
    var w := EventsReach(n);
    if n > 0 {
      LookTimes(n - 1);
    }
    assert Outcomes(Start(1), RetriedEvents(n)) == RetriedOutcomes(n);
  }
}
