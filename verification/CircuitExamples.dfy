/** Two runs in which a batch goes out a minute after another one found no data. */
module CircuitExamples {
  import opened Wrappers
  import opened UtcTime
  import opened CandleClock
  import opened MarketHours
  import opened RequestLedger
  import opened Dispatch
  import opened DispatchRuns
  import Scheduler
  import opened CircuitRuns

  const NO_DATA := Refused(false, true, true)
  const TRIPPING := Report(2, true, false, true)

  const FIRST := Request(M15, 0)
  const LATER := Request(M15, 60 * MINUTE)

  /** Twenty seconds after the first close, and a minute after that. */
  const T0 := 20_000_000
  const T1 := 80_000_000

  /** Forty seconds after the later close, when a first trip has ended, and a minute after that. */
  const T2 := 61 * MINUTE
  const T3 := 62 * MINUTE

  ghost function NoDataBatch(p: nat, request: Request, t: Instant): Event {
    Event.Batch(p, request, request.close, NO_DATA, NO_DATA, t)
  }

  lemma NoDataSends(l: Ledger, cache: Cache, request: Request, nowUtc: Instant, clock: Instant)
    requires DailyCredits(l, cache, DayIndex(nowUtc), clock) < 100
    requires DailyRetries(l, cache, DayIndex(nowUtc), clock) < MAX_RETRY_CREDITS
    requires !IsSuppressed(l, cache, request, clock)
    ensures ReportOf(l, cache, request, nowUtc, clock, NO_DATA, NO_DATA) == TRIPPING
  {
  }

  lemma LookIsDue(s: Group, p: nat, request: Request, t: Instant, l: Ledger)
    requires p < |s.ledgers| == |s.due| && CheckCircuit(s.ledgers[p], s.cache, request.tf, t, t) == (false, l, s.cache)
    requires CanConsume(l, s.cache, t, t) && !IsSuppressed(l, s.cache, request, t)
    ensures
      var e := Look(p, request, t);
      && Did(s, e) == Looked(true)
      && After(s, e) == Group(s.ledgers[p := l], s.due[p := s.due[p][request.tf := Due(request.close, t)]], s.cache)
  {
  }

  // ---------------------------------------------------------------------------
  // The first trip, by process 1
  // ---------------------------------------------------------------------------

  const TRIPPED := Ledger(map[FIRST := 1], map[], map[0 := 1], map[0 := 2], map[M15 := true],
    map[M15 := T0 + 60 * MINUTE])

  const TRIPPED_CACHE: Cache := map[
    CreditsKey(0) := CacheEntry(2, T0 + DAY), RetryCreditsKey(0) := CacheEntry(1, T0 + DAY),
    CircuitOpenKey(M15) := CacheEntry(1, T0 + 60 * MINUTE),
    CircuitUntilKey(M15) := CacheEntry(T0 + 60 * MINUTE, T0 + 60 * MINUTE)]

  lemma FirstTripCharged()
    ensures Charged(EMPTY_LEDGER, map[], 2, T0, T0)
      == (EMPTY_LEDGER.(credits := map[0 := 2]), map[CreditsKey(0) := CacheEntry(2, T0 + DAY)])
  {
    var (l1, cache1) := Charge(EMPTY_LEDGER, map[], T0, T0);
    assert l1 == EMPTY_LEDGER.(credits := map[0 := 1]) && cache1 == map[CreditsKey(0) := CacheEntry(1, T0 + DAY)];
    var (l2, cache2) := Charge(l1, cache1, T0, T0);
    assert l2.credits == map[0 := 2] && cache2 == map[CreditsKey(0) := CacheEntry(2, T0 + DAY)];
  }

  lemma FirstTripRecorded()
    ensures Recorded(EMPTY_LEDGER, map[], FIRST, TRIPPING, T0, T0) == (TRIPPED, TRIPPED_CACHE)
  {
    FirstTripCharged();
    var l2, cache2 := EMPTY_LEDGER.(credits := map[0 := 2]), map[CreditsKey(0) := CacheEntry(2, T0 + DAY)];
    var (l3, cache3) := RecordAttempt(l2, cache2, FIRST, false, true, T0, T0);
    assert l3 == l2.(attempts := map[FIRST := 1], retries := map[0 := 1]);
    assert cache3 == map[CreditsKey(0) := CacheEntry(2, T0 + DAY), RetryCreditsKey(0) := CacheEntry(1, T0 + DAY)];
    assert !WeekendClosed(T0);
  }

  /** Process 1 has looked, and `due0` is what process 0 has found. */
  ghost function Ready(due0: map<Timeframe, Due>): Group {
    Group([EMPTY_LEDGER, EMPTY_LEDGER], [due0, map[M15 := Due(0, T0)]], map[])
  }

  ghost function Tripped(due0: map<Timeframe, Due>): Group {
    Group([EMPTY_LEDGER, TRIPPED], [due0, map[]], TRIPPED_CACHE)
  }

  lemma FirstTrip(due0: map<Timeframe, Due>)
    ensures
      var s, e := Ready(due0), NoDataBatch(1, FIRST, T0);
      WellFormed(s, e) && Did(s, e) == Ran(TRIPPING, T0) && After(s, e) == Tripped(due0)
  {
    var s, e := Ready(due0), NoDataBatch(1, FIRST, T0);
    NoDataSends(EMPTY_LEDGER, map[], FIRST, T0, T0);
    FirstTripRecorded();
    assert s.due[1] - {M15} == map[];
    assert Tripped(due0).due == s.due[1 := s.due[1] - {M15}] && Tripped(due0).ledgers == s.ledgers[1 := TRIPPED];
    BatchOf(s, e, Tripped(due0), TRIPPING, T0);
  }

  lemma FirstLook(due0: map<Timeframe, Due>)
    ensures
      var s, e := Group([EMPTY_LEDGER, EMPTY_LEDGER], [due0, map[]], map[]), Look(1, FIRST, T0);
      WellFormed(s, e) && Did(s, e) == Looked(true) && After(s, e) == Ready(due0)
  {
    var s := Group([EMPTY_LEDGER, EMPTY_LEDGER], [due0, map[]], map[]);
    LookIsDue(s, 1, FIRST, T0, EMPTY_LEDGER);
    assert Ready(due0).due == s.due[1 := s.due[1][M15 := Due(0, T0)]]
      && Ready(due0).ledgers == s.ledgers[1 := EMPTY_LEDGER];
  }

  // ---------------------------------------------------------------------------
  // A look before the trip
  // ---------------------------------------------------------------------------

  lemma EarlyLook()
    ensures
      var s, e := Start(2), Look(0, FIRST, T0);
      WellFormed(s, e) && Did(s, e) == Looked(true)
      && After(s, e) == Group([EMPTY_LEDGER, EMPTY_LEDGER], [map[M15 := Due(0, T0)], map[]], map[])
  {
    var s, s' := Start(2), Group([EMPTY_LEDGER, EMPTY_LEDGER], [map[M15 := Due(0, T0)], map[]], map[]);
    LookIsDue(s, 0, FIRST, T0, EMPTY_LEDGER);
    assert s.due[0][M15 := Due(0, T0)] == map[M15 := Due(0, T0)];
    assert s'.due == s.due[0 := map[M15 := Due(0, T0)]] && s'.ledgers == s.ledgers[0 := EMPTY_LEDGER];
  }

  /** Process 0 sends at T1 for what it found at T0, with the circuit open to it. */
  lemma LateBatch()
    ensures
      var s, e := Tripped(map[M15 := Due(0, T0)]), NoDataBatch(0, FIRST, T1);
      && WellFormed(s, e) && Did(s, e) == Ran(TRIPPING, T0)
      && CheckCircuit(s.ledgers[0], s.cache, M15, T1, T1).0
  {
    NoDataSends(EMPTY_LEDGER, TRIPPED_CACHE, FIRST, T0, T1);
  }

  // ---------------------------------------------------------------------------
  // A look with an expired trip
  // ---------------------------------------------------------------------------

  /** Process 0 has looked at T2, when the shared trip is over. */
  ghost function ReadyAgain(): Group {
    Group([EMPTY_LEDGER, TRIPPED], [map[M15 := Due(60 * MINUTE, T2)], map[]], TRIPPED_CACHE)
  }

  lemma SecondLook()
    ensures
      var s, e := Tripped(map[]), Look(0, LATER, T2);
      WellFormed(s, e) && Did(s, e) == Looked(true) && After(s, e) == ReadyAgain()
  {
    var s, due: map<Timeframe, Due> := Tripped(map[]), map[M15 := Due(60 * MINUTE, T2)];
    LookIsDue(s, 0, LATER, T2, EMPTY_LEDGER);
    assert s.due[0][M15 := Due(60 * MINUTE, T2)] == due;
    assert ReadyAgain().due == s.due[0 := due] && ReadyAgain().ledgers == s.ledgers[0 := EMPTY_LEDGER];
  }

  /** What process 1 needs of the cache after the second trip. */
  ghost predicate RoomLeft(cache: Cache) {
    && Get(cache, CreditsKey(0), T3) == Some(4) && Get(cache, RetryCreditsKey(0), T3) == Some(2)
    && SuppressedKey(LATER) !in cache
  }

  lemma SecondTripRecorded()
    ensures RoomLeft(Recorded(EMPTY_LEDGER, TRIPPED_CACHE, LATER, TRIPPING, T2, T2).1)
  {
    var (l1, cache1) := Charge(EMPTY_LEDGER, TRIPPED_CACHE, T2, T2);
    assert cache1[CreditsKey(0)] == CacheEntry(3, T0 + DAY) && cache1.Keys == TRIPPED_CACHE.Keys;
    var (l2, cache2) := Charge(l1, cache1, T2, T2);
    assert cache2[CreditsKey(0)] == CacheEntry(4, T0 + DAY) && cache2.Keys == TRIPPED_CACHE.Keys;
    var (l3, cache3) := RecordAttempt(l2, cache2, LATER, false, true, T2, T2);
    assert cache3[RetryCreditsKey(0)] == CacheEntry(2, T0 + DAY) && cache3.Keys == TRIPPED_CACHE.Keys;
  }

  ghost predicate TrippedAgain(s: Group) {
    |s.ledgers| == |s.due| == 2 && s.ledgers[1] == TRIPPED && s.due[1] == map[] && RoomLeft(s.cache)
  }

  lemma SecondTrip()
    ensures
      var s, e := ReadyAgain(), NoDataBatch(0, LATER, T2);
      WellFormed(s, e) && Did(s, e) == Ran(TRIPPING, T2) && TrippedAgain(After(s, e))
  {
    var s, e := ReadyAgain(), NoDataBatch(0, LATER, T2);
    NoDataSends(EMPTY_LEDGER, TRIPPED_CACHE, LATER, T2, T2);
    SecondTripRecorded();
    var (l, cache) := Recorded(EMPTY_LEDGER, TRIPPED_CACHE, LATER, TRIPPING, T2, T2);
    BatchOf(s, e, Group(s.ledgers[0 := l], s.due[0 := s.due[0] - {M15}], cache), TRIPPING, T2);
  }

  const EXPIRED := TRIPPED.(circuitOpen := TRIPPED.circuitOpen[M15 := false])

  lemma ThirdLook(s: Group)
    requires TrippedAgain(s)
    ensures
      var e := Look(1, LATER, T3);
      && HoldsExpiredTrip(s.ledgers[1], M15, T3) && Did(s, e) == Looked(true)
      && After(s, e) == Group(s.ledgers[1 := EXPIRED], s.due[1 := map[M15 := Due(60 * MINUTE, T3)]], s.cache)
  {
    LookIsDue(s, 1, LATER, T3, EXPIRED);
    assert s.due[1][M15 := Due(60 * MINUTE, T3)] == map[M15 := Due(60 * MINUTE, T3)];
  }

  lemma ThirdBatch(s: Group)
    requires |s.ledgers| == |s.due| == 2 && s.ledgers[1] == EXPIRED && s.due[1] == map[M15 := Due(60 * MINUTE, T3)]
    requires RoomLeft(s.cache)
    ensures Did(s, NoDataBatch(1, LATER, T3)) == Ran(TRIPPING, T3)
  {
    NoDataSends(EXPIRED, s.cache, LATER, T3, T3);
  }

  // ---------------------------------------------------------------------------
  // The two runs
  // ---------------------------------------------------------------------------

  /** A minute after batch `i` found no data, and with no success since, batch `j` of another process sends requests. */
  ghost predicate MinuteLater(run: seq<Event>, i: nat, j: nat) {
    && IsRun(Start(2), run) && LooksInTime(run) && i < j < |run|
    && var did := Outcomes(Start(2), run);
       && TripsOn(run[i], did[i], M15) && TripHolds(run, did, M15, i, j, TripEnd(run[i], did[i]))
       && SendsOn(run[j], did[j], M15) && run[j].p != run[i].p && run[j].at == run[i].at + MINUTE
  }

  lemma IsMinuteLater(run: seq<Event>, did: seq<Outcome>, w: Group, t: Instant, i: nat, j: nat)
    requires Reaches(2, run, did, w, t) && LooksInTime(run) && i < j < |run| == |did|
    requires TripsOn(run[i], did[i], M15) && TripHolds(run, did, M15, i, j, TripEnd(run[i], did[i]))
    requires SendsOn(run[j], did[j], M15) && run[j].p != run[i].p && run[j].at == run[i].at + MINUTE
    ensures MinuteLater(run, i, j)
  {
  }

  lemma InTime()
    ensures LatestClosed(M15, T0 - Scheduler.POST_CLOSE_DELAY, None) == Ok(0)
    ensures LatestClosed(M15, T2 - Scheduler.POST_CLOSE_DELAY, None) == Ok(60 * MINUTE)
    ensures LatestClosed(M15, T3 - Scheduler.POST_CLOSE_DELAY, None) == Ok(60 * MINUTE)
  {
  }

  lemma StartReached()
    ensures Reaches(2, [], [], Start(2), T0) && Start(2) == Group([EMPTY_LEDGER, EMPTY_LEDGER], [map[], map[]], map[])
  {
  }

  /** Process 1 looks and its batch finds no data. */
  lemma TripReached(due0: map<Timeframe, Due>, run: seq<Event>, did: seq<Outcome>)
    requires Reaches(2, run, did, Group([EMPTY_LEDGER, EMPTY_LEDGER], [due0, map[]], map[]), T0)
    ensures Reaches(2, run + [Look(1, FIRST, T0)] + [NoDataBatch(1, FIRST, T0)],
                    did + [Looked(true)] + [Ran(TRIPPING, T0)],
                    Tripped(due0), T0)
  {
    FirstLook(due0);
    ReachesNext(2, run, did, Group([EMPTY_LEDGER, EMPTY_LEDGER], [due0, map[]], map[]), T0, Look(1, FIRST, T0),
      Ready(due0), Looked(true));
    FirstTrip(due0);
    ReachesNext(2, run + [Look(1, FIRST, T0)], did + [Looked(true)], Ready(due0), T0, NoDataBatch(1, FIRST, T0),
                Tripped(due0), Ran(TRIPPING, T0));
  }

  lemma EarlyLookReached()
    ensures Reaches(2, [Look(0, FIRST, T0)], [Looked(true)],
                    Group([EMPTY_LEDGER, EMPTY_LEDGER], [map[M15 := Due(0, T0)], map[]], map[]), T0)
  {
    StartReached();
    EarlyLook();
    assert [Look(0, FIRST, T0)] == [] + [Look(0, FIRST, T0)] && [Looked(true)] == [] + [Looked(true)];
    ReachesNext(2, [], [], Start(2), T0, Look(0, FIRST, T0),
                Group([EMPTY_LEDGER, EMPTY_LEDGER], [map[M15 := Due(0, T0)], map[]], map[]), Looked(true));
  }

  lemma StaleRun() returns (run: seq<Event>, did: seq<Outcome>)
    ensures Reaches(2, run, did, Tripped(map[M15 := Due(0, T0)]), T0)
    ensures run == [Look(0, FIRST, T0), Look(1, FIRST, T0), NoDataBatch(1, FIRST, T0)]
    ensures did == [Looked(true), Looked(true), Ran(TRIPPING, T0)]
  {
    EarlyLookReached();
    TripReached(map[M15 := Due(0, T0)], [Look(0, FIRST, T0)], [Looked(true)]);
    run := [Look(0, FIRST, T0)] + [Look(1, FIRST, T0)] + [NoDataBatch(1, FIRST, T0)];
    did := [Looked(true)] + [Looked(true)] + [Ran(TRIPPING, T0)];
  }

  /** The circuit is open to the process of event `k` when the event comes. */
  ghost predicate OpenTo(run: seq<Event>, k: nat) {
    && IsRun(Start(2), run) && k < |run|
    && var s := States(Start(2), run)[k];
       run[k].p < |s.ledgers| && CheckCircuit(s.ledgers[run[k].p], s.cache, M15, run[k].at, run[k].at).0
  }

  /** The process of event `k` still carries an expired trip of its own when the event comes. */
  ghost predicate ExpiredFor(run: seq<Event>, k: nat) {
    && IsRun(Start(2), run) && k < |run|
    && var s := States(Start(2), run)[k];
       run[k].p < |s.ledgers| && HoldsExpiredTrip(s.ledgers[run[k].p], M15, run[k].at)
  }

  lemma StateBeforeLast(run: seq<Event>, did: seq<Outcome>, w: Group, t: Instant, e: Event)
    requires Reaches(2, run, did, w, t) && IsRun(Start(2), run + [e])
    ensures States(Start(2), run + [e])[|run|] == w
  {
    StatesPrefix(Start(2), run, e, |run|);
  }

  lemma StaleSends(run: seq<Event>, did: seq<Outcome>)
    requires |run| == |did| == 3 && LooksInTime(run)
    requires run == [Look(0, FIRST, T0), Look(1, FIRST, T0), NoDataBatch(1, FIRST, T0)]
    requires did == [Looked(true), Looked(true), Ran(TRIPPING, T0)]
    ensures
      var run', did' := run + [NoDataBatch(0, FIRST, T1)], did + [Ran(TRIPPING, T0)];
      && LooksInTime(run') && TripsOn(run'[2], did'[2], M15)
      && TripHolds(run', did', M15, 2, 3, TripEnd(run'[2], did'[2]))
      && SendsOn(run'[3], did'[3], M15) && run'[3].p != run'[2].p && run'[3].at == run'[2].at + MINUTE
  {
  }

  lemma LateBatchReached(run: seq<Event>, did: seq<Outcome>)
    requires Reaches(2, run, did, Tripped(map[M15 := Due(0, T0)]), T0)
    ensures
      var e, w := NoDataBatch(0, FIRST, T1), Tripped(map[M15 := Due(0, T0)]);
      Reaches(2, run + [e], did + [Ran(TRIPPING, T0)], After(w, e), T1) && OpenTo(run + [e], |run|)
  {
    var e, w := NoDataBatch(0, FIRST, T1), Tripped(map[M15 := Due(0, T0)]);
    LateBatch();
    ReachesNext(2, run, did, w, T0, e, After(w, e), Ran(TRIPPING, T0));
    StateBeforeLast(run, did, w, T0, e);
  }

  /** A batch whose task looked before the trip goes out after it, with the circuit open to its process. */
  lemma StaleLook()
    ensures exists run :: MinuteLater(run, 2, 3) && OpenTo(run, 3)
  {
    var run, did := StaleRun();
    var e, w := NoDataBatch(0, FIRST, T1), Tripped(map[M15 := Due(0, T0)]);
    InTime();
    LateBatchReached(run, did);
    StaleSends(run, did);
    IsMinuteLater(run + [e], did + [Ran(TRIPPING, T0)], After(w, e), T1, 2, 3);
    assert MinuteLater(run + [e], 2, 3) && OpenTo(run + [e], 3);
  }

  lemma TrippedRun() returns (run: seq<Event>, did: seq<Outcome>)
    ensures Reaches(2, run, did, Tripped(map[]), T0)
    ensures run == [Look(1, FIRST, T0), NoDataBatch(1, FIRST, T0)] && did == [Looked(true), Ran(TRIPPING, T0)]
  {
    StartReached();
    TripReached(map[], [], []);
    run, did := [] + [Look(1, FIRST, T0)] + [NoDataBatch(1, FIRST, T0)], [] + [Looked(true)] + [Ran(TRIPPING, T0)];
  }

  /** Process 0 looks for the later close and its batch finds no data. */
  lemma SecondTripReached(run: seq<Event>, did: seq<Outcome>)
    requires Reaches(2, run, did, Tripped(map[]), T0)
    ensures
      var w := After(ReadyAgain(), NoDataBatch(0, LATER, T2));
      && TrippedAgain(w)
      && Reaches(2, run + [Look(0, LATER, T2)] + [NoDataBatch(0, LATER, T2)],
        did + [Looked(true)] + [Ran(TRIPPING, T2)], w, T2)
  {
    SecondLook();
    ReachesNext(2, run, did, Tripped(map[]), T0, Look(0, LATER, T2), ReadyAgain(), Looked(true));
    SecondTrip();
    ReachesNext(2, run + [Look(0, LATER, T2)], did + [Looked(true)], ReadyAgain(), T2, NoDataBatch(0, LATER, T2),
                After(ReadyAgain(), NoDataBatch(0, LATER, T2)), Ran(TRIPPING, T2));
  }

  lemma TwiceTrippedRun() returns (run: seq<Event>, did: seq<Outcome>, w: Group)
    ensures Reaches(2, run, did, w, T2) && TrippedAgain(w)
    ensures |run| == |did| == 4 && run[..3] == [Look(1, FIRST, T0), NoDataBatch(1, FIRST, T0), Look(0, LATER, T2)]
    ensures run[3] == NoDataBatch(0, LATER, T2) && did[3] == Ran(TRIPPING, T2)
  {
    var first, before := TrippedRun();
    SecondTripReached(first, before);
    run, did := first + [Look(0, LATER, T2)] + [NoDataBatch(0, LATER, T2)],
      before + [Looked(true)] + [Ran(TRIPPING, T2)];
    assert run[..3] == first + [Look(0, LATER, T2)];
    w := After(ReadyAgain(), NoDataBatch(0, LATER, T2));
  }

  lemma MissedTripSends(run: seq<Event>, did: seq<Outcome>)
    requires |run| == |did| == 5 && run[..3] == [Look(1, FIRST, T0), NoDataBatch(1, FIRST, T0), Look(0, LATER, T2)]
    requires run[3] == NoDataBatch(0, LATER, T2) && did[3] == Ran(TRIPPING, T2)
    requires run[4] == Look(1, LATER, T3) && did[4] == Looked(true)
    ensures
      var run', did' := run + [NoDataBatch(1, LATER, T3)], did + [Ran(TRIPPING, T3)];
      && LooksInTime(run') && TripsOn(run'[3], did'[3], M15)
      && TripHolds(run', did', M15, 3, 5, TripEnd(run'[3], did'[3]))
      && SendsOn(run'[5], did'[5], M15) && run'[5].p != run'[3].p && run'[5].at == run'[3].at + MINUTE
  {
    InTime();
    assert run[0] == run[..3][0] && run[1] == run[..3][1] && run[2] == run[..3][2];
  }

  lemma ExpiredStays(run: seq<Event>, e: Event, k: nat)
    requires ExpiredFor(run, k) && IsRun(Start(2), run + [e])
    ensures ExpiredFor(run + [e], k)
  {
    StatesPrefix(Start(2), run, e, k);
  }

  lemma ThirdLookReached(run: seq<Event>, did: seq<Outcome>, s: Group)
    requires Reaches(2, run, did, s, T2) && TrippedAgain(s)
    ensures Reaches(2, run + [Look(1, LATER, T3)], did + [Looked(true)], After(s, Look(1, LATER, T3)), T3)
    ensures ExpiredFor(run + [Look(1, LATER, T3)], |run|)
  {
    var e := Look(1, LATER, T3);
    ThirdLook(s);
    ReachesNext(2, run, did, s, T2, e, After(s, e), Looked(true));
    StateBeforeLast(run, did, s, T2, e);
  }

  lemma ThirdLookRun() returns (run: seq<Event>, did: seq<Outcome>, w: Group)
    ensures Reaches(2, run, did, w, T3) && |run| == |did| == 5 && ExpiredFor(run, 4)
    ensures |w.ledgers| == |w.due| == 2 && w.ledgers[1] == EXPIRED && w.due[1] == map[M15 := Due(60 * MINUTE, T3)]
    ensures RoomLeft(w.cache)
    ensures run[..3] == [Look(1, FIRST, T0), NoDataBatch(1, FIRST, T0), Look(0, LATER, T2)]
    ensures run[3] == NoDataBatch(0, LATER, T2) && did[3] == Ran(TRIPPING, T2)
    ensures run[4] == Look(1, LATER, T3) && did[4] == Looked(true)
  {
    var s;
    run, did, s := TwiceTrippedRun();
    var e := Look(1, LATER, T3);
    ThirdLook(s);
    w := After(s, e);
    ThirdLookReached(run, did, s);
    run, did := run + [e], did + [Looked(true)];
  }

  lemma ThirdBatchReached(run: seq<Event>, did: seq<Outcome>, w: Group)
    requires Reaches(2, run, did, w, T3)
    requires |w.ledgers| == |w.due| == 2 && w.ledgers[1] == EXPIRED && w.due[1] == map[M15 := Due(60 * MINUTE, T3)]
    requires RoomLeft(w.cache)
    ensures Reaches(2, run + [NoDataBatch(1, LATER, T3)], did + [Ran(TRIPPING, T3)],
      After(w, NoDataBatch(1, LATER, T3)), T3)
  {
    ThirdBatch(w);
    ReachesNext(2, run, did, w, T3, NoDataBatch(1, LATER, T3), After(w, NoDataBatch(1, LATER, T3)), Ran(TRIPPING, T3));
  }

  /** A look with an expired trip of its own misses the fresh trip of another process, and its batch goes out. */
  lemma MissedTrip()
    ensures exists run :: MinuteLater(run, 3, 5) && ExpiredFor(run, 4)
  {
    var run, did, w := ThirdLookRun();
    var e := NoDataBatch(1, LATER, T3);
    ThirdBatchReached(run, did, w);
    MissedTripSends(run, did);
    IsMinuteLater(run + [e], did + [Ran(TRIPPING, T3)], After(w, e), T3, 3, 5);
    ExpiredStays(run, e, 4);
    assert MinuteLater(run + [e], 3, 5) && ExpiredFor(run + [e], 4);
  }
}
