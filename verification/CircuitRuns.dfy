/** Runs of the circuit breaker: what one trip suppresses, for how long, and for whom. */
module CircuitRuns {
  import opened Wrappers
  import opened UtcTime
  import opened CandleClock
  import opened MarketHours
  import opened RequestLedger
  import opened Dispatch
  import opened BatchEffects
  import opened DispatchRuns
  import opened Sums

  // ---------------------------------------------------------------------------
  // One trip
  // ---------------------------------------------------------------------------

  /** A weekend trip ends at the reopen that follows the closure window, one hour after its end. */
  lemma WeekendTripEnd(t: Instant)
    requires WeekendClosed(t)
    ensures TripUntil(t) == WindowStart(t) + 49 * HOUR && IsReopen(TripUntil(t))
  {
    ClosedByPhase(t);
    WeekParts(t);
    NextReopenByWeek(t);
    NextReopenIsFirst(t);
  }

  lemma TripLength(t: Instant)
    ensures t + 60 * MINUTE <= TripUntil(t) <= t + 49 * HOUR
    ensures !WeekendClosed(t) ==> TripUntil(t) == t + 60 * MINUTE
    ensures TripTimeoutSeconds(t) >= 3600
  {
    if WeekendClosed(t) {
      WeekendTripEnd(t);
      WindowBounds(t);
    }
  }

  /** The cache answers "open" and for how long. */
  ghost predicate SharedOpen(cache: Cache, tf: Timeframe, clock: Instant) {
    Get(cache, CircuitOpenKey(tf), clock).Some? && Get(cache, CircuitOpenKey(tf), clock).value != 0
    && Get(cache, CircuitUntilKey(tf), clock).Some?
  }

  /**
   A process with a trip of its own goes by that alone; any other by the cache, where both
   entries must answer.  A look that finds the end passed clears the trip it went by.
   */
  lemma LookAnswers(l: Ledger, cache: Cache, tf: Timeframe, nowUtc: Instant, clock: Instant)
    ensures
      var (open, l', cache') := CheckCircuit(l, cache, tf, nowUtc, clock);
      if Lookup(l.circuitOpen, tf, false) then
        && (open <==> tf in l.circuitUntil && nowUtc < l.circuitUntil[tf])
        && Lookup(l'.circuitOpen, tf, false) == open && cache' == cache
      else if SharedOpen(cache, tf, clock) then
        && (open <==> nowUtc < Get(cache, CircuitUntilKey(tf), clock).value)
        && l' == l && (open ==> cache' == cache)
        && (!open ==> CircuitOpenKey(tf) !in cache' && CircuitUntilKey(tf) !in cache')
        && (forall key :: key in cache && key !in {CircuitOpenKey(tf), CircuitUntilKey(tf)} ==>
              key in cache' && cache'[key] == cache[key])
      else !open && l' == l && cache' == cache
  {
  }

  /** The process that tripped sees its circuit open up to the end and closed from then on. */
  lemma OwnTripHolds(l: Ledger, cache: Cache, tf: Timeframe, tripped: Instant, later: Cache, t: Instant)
    requires tripped <= t
    ensures
      var l' := TripCircuit(l, cache, tf, tripped, tripped).0;
      CheckCircuit(l', later, tf, t, t).0 <==> t < TripUntil(tripped)
  {
  }

  /** A trip of one timeframe leaves every other timeframe's verdict as it was. */
  lemma TripIsLocalToTimeframe(l: Ledger, cache: Cache, tf: Timeframe, other: Timeframe, tripped: Instant, t: Instant)
    requires tf != other
    ensures
      var (l', cache') := TripCircuit(l, cache, tf, tripped, tripped);
      CheckCircuit(l', cache', other, t, t).0 == CheckCircuit(l, cache, other, t, t).0
  {
  }

  /** A success closes the circuit of its timeframe for the process and in the cache. */
  lemma SuccessCloses(l: Ledger, cache: Cache, request: Request, t: Instant)
    ensures
      var (l', cache') := RecordSuccess(l, cache, request);
      && !CheckCircuit(l', cache', request.tf, t, t).0
      && !CheckCircuit(EMPTY_LEDGER, cache', request.tf, t, t).0
  {
  }

  /** `l` still carries a circuit it opened itself and whose time is over. */
  predicate HoldsExpiredTrip(l: Ledger, tf: Timeframe, t: Instant) {
    Lookup(l.circuitOpen, tf, false) && !(tf in l.circuitUntil && t < l.circuitUntil[tf])
  }

  /**
   The end of a trip in the cache, for a task that looked at `nowUtc` and recorded it at
   `clock`: the entries last whole seconds from then on, and say when the trip is over.
   */
  function SharedEnd(nowUtc: Instant, clock: Instant): Instant {
    var expires := clock + TripTimeoutSeconds(nowUtc) * SECOND;
    if expires < TripUntil(nowUtc) then expires else TripUntil(nowUtc)
  }

  /** The shared trip ends less than a second early, and not early at all when recorded a second after the look. */
  lemma SharedEndBounds(nowUtc: Instant, clock: Instant)
    requires nowUtc <= clock
    ensures TripUntil(nowUtc) - SECOND < SharedEnd(nowUtc, clock) <= TripUntil(nowUtc)
    ensures nowUtc + 60 * MINUTE <= SharedEnd(nowUtc, clock)
    ensures nowUtc + SECOND <= clock ==> SharedEnd(nowUtc, clock) == TripUntil(nowUtc)
  {
    TripLength(nowUtc);
    var span := TripUntil(nowUtc) - nowUtc;
    assert span / SECOND * SECOND == span - span % SECOND;
  }

  /**
   Another process sees the trip through the cache up to that end, unless it still holds an
   expired trip of its own: it then answers "closed" without reading the cache.
   */
  lemma SharedTripSeenIff(
    tripper: Ledger, cache: Cache, tf: Timeframe, nowUtc: Instant, clock: Instant, other: Ledger, t: Instant)
    requires nowUtc <= clock <= t < SharedEnd(nowUtc, clock)
    ensures
      var shared := TripCircuit(tripper, cache, tf, nowUtc, clock).1;
      CheckCircuit(other, shared, tf, t, t).0 <==> !HoldsExpiredTrip(other, tf, t)
  {
  }

  /** A process with no trip of its own sees the cached trip up to exactly that end. */
  lemma SharedTripEnd(
    tripper: Ledger, cache: Cache, tf: Timeframe, nowUtc: Instant, clock: Instant, other: Ledger, t: Instant)
    requires nowUtc <= clock <= t && !Lookup(other.circuitOpen, tf, false)
    ensures
      var shared := TripCircuit(tripper, cache, tf, nowUtc, clock).1;
      CheckCircuit(other, shared, tf, t, t).0 <==> t < SharedEnd(nowUtc, clock)
  {
  }

  lemma OpenBeforeWindow(w: Instant)
    requires WeekendClosed(w) && WindowStart(w) == w
    ensures !WeekendClosed(w - 10 * SECOND)
  {
    if WeekendClosed(w - 10 * SECOND) {
      SameWindow(w - 10 * SECOND, w);
      WindowBounds(w - 10 * SECOND);
    }
  }

  /**
   The last trip recorded decides for the others.  A task that looked ten seconds before the
   closure and trips after one that looked in it ends a trip to Sunday within the hour.
   */
  lemma EarlierLookShortensTrip(
    w: Instant, first: Ledger, second: Ledger, cache: Cache, tf: Timeframe, other: Ledger)
    requires WeekendClosed(w) && WindowStart(w) == w && !Lookup(other.circuitOpen, tf, false)
    ensures
      var weekend := TripCircuit(first, cache, tf, w + 20 * SECOND, w + 30 * SECOND).1;
      var shortened := TripCircuit(second, weekend, tf, w - 10 * SECOND, w + 40 * SECOND).1;
      var t := w + 60 * MINUTE;
      && t < TripUntil(w + 20 * SECOND) - 47 * HOUR
      && CheckCircuit(other, weekend, tf, t, t).0 && !CheckCircuit(other, shortened, tf, t, t).0
  {
    ClosedInWindow(w, w + 20 * SECOND);
    SameWindow(w, w + 20 * SECOND);
    WeekendTripEnd(w + 20 * SECOND);
    SharedEndBounds(w + 20 * SECOND, w + 30 * SECOND);
    OpenBeforeWindow(w);
    var weekend := TripCircuit(first, cache, tf, w + 20 * SECOND, w + 30 * SECOND).1;
    SharedTripEnd(first, cache, tf, w + 20 * SECOND, w + 30 * SECOND, other, w + 60 * MINUTE);
    SharedTripEnd(second, weekend, tf, w - 10 * SECOND, w + 40 * SECOND, other, w + 60 * MINUTE);
  }

  // ---------------------------------------------------------------------------
  // One event and the circuit of one timeframe
  // ---------------------------------------------------------------------------

  /** The cached circuit of `tf` answers "open" up to `end`. */
  ghost predicate SharedUntil(cache: Cache, tf: Timeframe, end: Instant) {
    var open, until := CircuitOpenKey(tf), CircuitUntilKey(tf);
    && open in cache && cache[open].value != 0 && end <= cache[open].expires
    && until in cache && end <= cache[until].value && end <= cache[until].expires
  }

  /** A process that carries no trip of its own ending before `end`. */
  ghost predicate NothingToExpire(l: Ledger, tf: Timeframe, end: Instant) {
    Lookup(l.circuitOpen, tf, false) ==> tf in l.circuitUntil && end <= l.circuitUntil[tf]
  }

  /** A process that carries a trip of its own up to `end` at least. */
  ghost predicate OpenUntil(l: Ledger, tf: Timeframe, end: Instant) {
    Lookup(l.circuitOpen, tf, false) && tf in l.circuitUntil && end <= l.circuitUntil[tf]
  }

  predicate On(e: Event, tf: Timeframe) {
    !e.TaskEnds? && e.expected.tf == tf
  }

  predicate SucceedsOn(e: Event, did: Outcome, tf: Timeframe) {
    e.Batch? && On(e, tf) && ReportIn(did).Succeeded()
  }

  predicate TripsOn(e: Event, did: Outcome, tf: Timeframe) {
    e.Batch? && On(e, tf) && did.Ran? && did.report.recorded && did.report.tripped
  }

  /** The end of the trip of a batch for the other processes. */
  function TripEnd(e: Event, did: Outcome): Instant
    requires did.Ran?
  {
    SharedEnd(did.nowUtc, e.at)
  }

  /** Credit is left and the close is not suppressed. */
  ghost predicate Wanted(l: Ledger, cache: Cache, e: Event)
    requires e.Look?
  {
    CanConsume(l, cache, e.at, e.at) && !IsSuppressed(l, cache, e.expected, e.at)
  }

  /** An event before `end` that neither succeeds on `tf` nor trips it for a shorter time. */
  predicate LeavesTrip(e: Event, did: Outcome, tf: Timeframe, end: Instant) {
    e.at < end && !SucceedsOn(e, did, tf) && (TripsOn(e, did, tf) ==> end <= TripEnd(e, did))
  }

  /** What one event means for the circuit of `tf` up to `end`. */
  ghost predicate CircuitStep(s: Group, s': Group, e: Event, did: Outcome, tf: Timeframe, end: Instant) {
    && DueStep(s, s', e, did)
    && var l, l' := s.ledgers[e.p], s'.ledgers[e.p];
       && (TripsOn(e, did, tf) ==>
             SharedUntil(s'.cache, tf, TripEnd(e, did)) && OpenUntil(l', tf, TripUntil(did.nowUtc)))
       && (SharedUntil(s.cache, tf, end) && LeavesTrip(e, did, tf, end) ==>
             SharedUntil(s'.cache, tf, end) && (NothingToExpire(l, tf, end) ==> NothingToExpire(l', tf, end)))
       && (e.Look? && On(e, tf) && e.at < end && SharedUntil(s.cache, tf, end) ==>
             && (CircuitPasses(s, e) <==> HoldsExpiredTrip(l, tf, e.at))
             && (CircuitPasses(s, e) ==> NothingToExpire(l', tf, end)))
       && (OpenUntil(l, tf, end) && e.at < end && !SucceedsOn(e, did, tf) && !TripsOn(e, did, tf) ==>
             OpenUntil(l', tf, end))
       && (e.Look? && On(e, tf) && OpenUntil(l, tf, end) && e.at < end ==> !CircuitPasses(s, e))
       && (!TripsOn(e, did, tf) && !Lookup(l.circuitOpen, tf, false) ==> !Lookup(l'.circuitOpen, tf, false))
       && (e.Look? && On(e, tf) && did.due ==> !Lookup(l'.circuitOpen, tf, false))
       && (e.Look? ==> (did.due <==> CircuitPasses(s, e) && Wanted(l, s.cache, e)))
  }

  /** While the cache says "open", looking passes exactly for a process with an expired trip of its own. */
  lemma LookWhileShared(l: Ledger, cache: Cache, tf: Timeframe, end: Instant, t: Instant)
    requires SharedUntil(cache, tf, end) && t < end
    ensures
      var (open, l', cache') := CheckCircuit(l, cache, tf, t, t);
      && (!open <==> HoldsExpiredTrip(l, tf, t))
      && cache' == cache && (!open ==> !Lookup(l'.circuitOpen, tf, false)) && (open ==> l' == l)
  {
  }

  lemma LookWhileOpen(l: Ledger, cache: Cache, tf: Timeframe, end: Instant, t: Instant)
    requires OpenUntil(l, tf, end) && t < end
    ensures CheckCircuit(l, cache, tf, t, t) == (true, l, cache)
  {
  }

  lemma LookCircuitOn(s: Group, e: Event, tf: Timeframe, end: Instant)
    requires WellFormed(s, e) && e.Look? && On(e, tf)
    ensures CircuitStep(s, After(s, e), e, Did(s, e), tf, end)
  {
    StepDue(s, e);
    var l := s.ledgers[e.p];
    LookKeepsAnswers(l, s.cache, tf, e.at, e.expected);
    if e.at < end {
      if SharedUntil(s.cache, tf, end) {
        LookWhileShared(l, s.cache, tf, end, e.at);
      }
      if OpenUntil(l, tf, end) {
        LookWhileOpen(l, s.cache, tf, end, e.at);
      }
    }
  }

  lemma LookCircuitElsewhere(s: Group, e: Event, tf: Timeframe, end: Instant)
    requires WellFormed(s, e) && e.Look? && !On(e, tf)
    ensures CircuitStep(s, After(s, e), e, Did(s, e), tf, end)
  {
    StepDue(s, e);
    var l := s.ledgers[e.p];
    LookKeepsAnswers(l, s.cache, e.expected.tf, e.at, e.expected);
    LookElsewhere(l, s.cache, e.expected.tf, e.at, tf);
  }

  lemma TripLasts(l: Ledger, cache: Cache, tf: Timeframe, nowUtc: Instant, clock: Instant)
    requires TrippedAt(l, cache, tf, nowUtc, clock)
    ensures SharedUntil(cache, tf, SharedEnd(nowUtc, clock)) && OpenUntil(l, tf, TripUntil(nowUtc))
  {
    TripLength(nowUtc);
  }

  lemma TripCircuitStep(s: Group, e: Event, tf: Timeframe)
    requires WellFormed(s, e) && e.Batch? && TripsOn(e, Did(s, e), tf)
    ensures SharedUntil(After(s, e).cache, tf, TripEnd(e, Did(s, e)))
    ensures OpenUntil(After(s, e).ledgers[e.p], tf, TripUntil(Did(s, e).nowUtc))
  {
    var report, nowUtc := Did(s, e).report, Did(s, e).nowUtc;
    RecordedTrip(s.ledgers[e.p], s.cache, Target(e), report, nowUtc, e.at);
    var (l, cache) := Recorded(s.ledgers[e.p], s.cache, Target(e), report, nowUtc, e.at);
    TripLasts(l, cache, tf, nowUtc, e.at);
  }

  lemma QuietCircuitStep(s: Group, e: Event, tf: Timeframe)
    requires WellFormed(s, e) && e.Batch? && !TripsOn(e, Did(s, e), tf) && !SucceedsOn(e, Did(s, e), tf)
    ensures SameCircuit(s.ledgers[e.p], s.cache, After(s, e).ledgers[e.p], After(s, e).cache, tf)
  {
    StepDue(s, e);
    if IsDue(s, e) {
      RecordedQuietly(s.ledgers[e.p], s.cache, Target(e), Did(s, e).report, Did(s, e).nowUtc, e.at, tf);
    }
  }

  lemma SameCircuitKeeps(l: Ledger, cache: Cache, l': Ledger, cache': Cache, tf: Timeframe, end: Instant)
    requires SameCircuit(l, cache, l', cache', tf)
    ensures SharedUntil(cache, tf, end) ==> SharedUntil(cache', tf, end)
    ensures NothingToExpire(l, tf, end) ==> NothingToExpire(l', tf, end)
    ensures OpenUntil(l, tf, end) ==> OpenUntil(l', tf, end)
  {
  }

  lemma OpensEarlier(l: Ledger, cache: Cache, tf: Timeframe, end: Instant, later: Instant)
    requires end <= later && SharedUntil(cache, tf, later) && OpenUntil(l, tf, later)
    ensures SharedUntil(cache, tf, end) && NothingToExpire(l, tf, end)
  {
  }

  lemma BatchCircuit(s: Group, e: Event, tf: Timeframe, end: Instant)
    requires WellFormed(s, e) && e.Batch?
    ensures CircuitStep(s, After(s, e), e, Did(s, e), tf, end)
  {
    StepDue(s, e);
    var s', did := After(s, e), Did(s, e);
    BatchCircuitOf(s, s', e, did, tf, end) by {
      if TripsOn(e, did, tf) {
        TripCircuitStep(s, e, tf);
      } else if SucceedsOn(e, did, tf) {
        RecordedSuccess(s.ledgers[e.p], s.cache, Target(e), did.report, did.nowUtc, e.at);
      } else {
        QuietCircuitStep(s, e, tf);
      }
    }
  }

  lemma BatchCircuitOf(s: Group, s': Group, e: Event, did: Outcome, tf: Timeframe, end: Instant)
    requires e.Batch? && DueStep(s, s', e, did)
    requires TripsOn(e, did, tf) ==>
      SharedUntil(s'.cache, tf, TripEnd(e, did)) && OpenUntil(s'.ledgers[e.p], tf, TripUntil(did.nowUtc))
    requires SucceedsOn(e, did, tf) ==> !Lookup(s'.ledgers[e.p].circuitOpen, tf, false)
    requires TripsOn(e, did, tf) || SucceedsOn(e, did, tf)
      || SameCircuit(s.ledgers[e.p], s.cache, s'.ledgers[e.p], s'.cache, tf)
    ensures CircuitStep(s, s', e, did, tf, end)
  {
    if TripsOn(e, did, tf) {
      if end <= TripEnd(e, did) {
        OpensEarlier(s'.ledgers[e.p], s'.cache, tf, end, TripEnd(e, did));
      }
    } else if !SucceedsOn(e, did, tf) {
      SameCircuitKeeps(s.ledgers[e.p], s.cache, s'.ledgers[e.p], s'.cache, tf, end);
    }
  }

  lemma StepCircuit(s: Group, e: Event, tf: Timeframe, end: Instant)
    requires WellFormed(s, e)
    ensures CircuitStep(s, After(s, e), e, Did(s, e), tf, end)
  {
    StepDue(s, e);
    match e
    case Look(_, _, _) =>
      if On(e, tf) {
        LookCircuitOn(s, e, tf, end);
      } else {
        LookCircuitElsewhere(s, e, tf, end);
      }
    case Batch(_, _, _, _, _, _) => BatchCircuit(s, e, tf, end);
    case TaskEnds(_, _) =>
  }

  // ---------------------------------------------------------------------------
  // Runs of N processes
  // ---------------------------------------------------------------------------

  ghost predicate CircuitAt(states: seq<Group>, run: seq<Event>, did: seq<Outcome>, tf: Timeframe, end: Instant, k: nat)
    requires k < |run| == |did| && |states| == |run| + 1
  {
    CircuitStep(states[k], states[k + 1], run[k], did[k], tf, end)
  }

  /** The states and outcomes of a run, as far as one timeframe is concerned. */
  ghost predicate CircuitTrace(states: seq<Group>, run: seq<Event>, did: seq<Outcome>, tf: Timeframe, end: Instant) {
    && |states| == |run| + 1 && |did| == |run| && Chronological(run)
    && forall k: nat :: k < |run| ==> CircuitAt(states, run, did, tf, end, k)
  }

  lemma CircuitOf(states: seq<Group>, run: seq<Event>, did: seq<Outcome>, tf: Timeframe, end: Instant, k: nat)
    requires k < |run| == |did| && |states| == |run| + 1 && WellFormed(states[k], run[k])
    requires states[k + 1] == After(states[k], run[k]) && did[k] == Did(states[k], run[k])
    ensures CircuitAt(states, run, did, tf, end, k)
  {
    StepCircuit(states[k], run[k], tf, end);
  }

  lemma RunCircuitAt(s: Group, run: seq<Event>, tf: Timeframe, end: Instant, k: nat)
    requires IsRun(s, run) && k < |run|
    ensures CircuitAt(States(s, run), run, Outcomes(s, run), tf, end, k)
  {
    RunStep(s, run, k);
    CircuitOf(States(s, run), run, Outcomes(s, run), tf, end, k);
  }

  lemma RunCircuit(s: Group, run: seq<Event>, tf: Timeframe, end: Instant)
    requires IsRun(s, run)
    ensures CircuitTrace(States(s, run), run, Outcomes(s, run), tf, end)
  {
    forall k: nat | k < |run| ensures CircuitAt(States(s, run), run, Outcomes(s, run), tf, end, k) {
      RunCircuitAt(s, run, tf, end, k);
    }
  }

  /**
   Batch `i` tripped `tf`.  Up to `j` nothing succeeded on `tf`, everything came before `end`,
   and `end` is not past the shared end of any trip of `tf`.
   */
  ghost predicate TripHolds(run: seq<Event>, did: seq<Outcome>, tf: Timeframe, i: nat, j: nat, end: Instant) {
    && i < j <= |run| == |did| && TripsOn(run[i], did[i], tf)
    && (forall m: nat :: i < m < j ==> run[m].at < end && !SucceedsOn(run[m], did[m], tf))
    && (forall m: nat :: i <= m < j && TripsOn(run[m], did[m], tf) ==> end <= TripEnd(run[m], did[m]))
  }

  lemma {:induction false} SharedWhileTripped(
    states: seq<Group>, run: seq<Event>, did: seq<Outcome>, tf: Timeframe, i: nat, j: nat, end: Instant)
    requires TripHolds(run, did, tf, i, j, end) && CircuitTrace(states, run, did, tf, end)
    ensures SharedUntil(states[j].cache, tf, end)
    decreases j
  {
    assert CircuitAt(states, run, did, tf, end, j - 1);
    if j > i + 1 {
      SharedWhileTripped(states, run, did, tf, i, j - 1, end);
    }
  }

  lemma TraceLookIff(
    states: seq<Group>, run: seq<Event>, did: seq<Outcome>, tf: Timeframe, i: nat, j: nat, end: Instant)
    requires TripHolds(run, did, tf, i, j, end) && CircuitTrace(states, run, did, tf, end)
    requires j < |run| && run[j].Look? && On(run[j], tf) && run[j].at < end && WellFormed(states[j], run[j])
    ensures CircuitPasses(states[j], run[j]) <==> HoldsExpiredTrip(states[j].ledgers[run[j].p], tf, run[j].at)
    ensures did[j] == Looked(true) ==> CircuitPasses(states[j], run[j])
    ensures run[j].p < |states[j + 1].ledgers|
    ensures CircuitPasses(states[j], run[j]) ==> NothingToExpire(states[j + 1].ledgers[run[j].p], tf, end)
  {
    SharedWhileTripped(states, run, did, tf, i, j, end);
    assert CircuitAt(states, run, did, tf, end, j);
  }

  lemma RunWellFormed(s: Group, run: seq<Event>, k: nat)
    requires IsRun(s, run) && k < |run|
    ensures WellFormed(States(s, run)[k], run[k])
  {
    assert States(s, run)[k] == StateAt(s, run, k);
  }

  /**
   Until the shared trip of a batch that found no data ends, up to 49 hours after its look, and
   before a success, the circuit lets a
   look at the timeframe through exactly if its process still carries an expired trip of its
   own; it then does not read the cache.
   */
  lemma LookWhileTrippedIff(s: Group, run: seq<Event>, tf: Timeframe, i: nat, j: nat, end: Instant)
    requires IsRun(s, run) && j < |run| && TripHolds(run, Outcomes(s, run), tf, i, j, end)
    requires run[j].Look? && On(run[j], tf) && run[j].at < end
    ensures WellFormed(States(s, run)[j], run[j])
    ensures CircuitPasses(States(s, run)[j], run[j])
      <==> HoldsExpiredTrip(States(s, run)[j].ledgers[run[j].p], tf, run[j].at)
  {
    RunWellFormed(s, run, j);
    RunCircuit(s, run, tf, end);
    TraceLookIff(States(s, run), run, Outcomes(s, run), tf, i, j, end);
  }

  /** Batch `i` was due and found no data at the provider, by the answers it got. */
  ghost predicate NoDataAt(s: Group, run: seq<Event>, tf: Timeframe, i: nat)
    requires IsRun(s, run) && i < |run| && WellFormed(States(s, run)[i], run[i])
  {
    var w, e := States(s, run)[i], run[i];
    && e.Batch? && On(e, tf) && IsDue(w, e)
    && FindsNoData(w.ledgers[e.p], w.cache, Target(e), w.due[e.p][tf].lookedAt, e.at, e.first, e.second)
  }

  /** The trips of a run are exactly the due batches that found no data. */
  lemma TripsIffNoData(s: Group, run: seq<Event>, tf: Timeframe, i: nat)
    requires IsRun(s, run) && i < |run|
    ensures WellFormed(States(s, run)[i], run[i])
    ensures TripsOn(run[i], Outcomes(s, run)[i], tf) <==> NoDataAt(s, run, tf, i)
  {
    RunStep(s, run, i);
    var w, e := States(s, run)[i], run[i];
    if e.Batch? && IsDue(w, e) {
      var nowUtc := w.due[e.p][e.expected.tf].lookedAt;
      BatchOutcome(w.ledgers[e.p], w.cache, Target(e), nowUtc, e.at, e.first, e.second);
    }
  }

  /**
   A due batch that found no data leaves the circuit open in the cache up to the shared end of
   its trip, and for its own process up to the end.
   */
  lemma NoDataOpensCircuit(s: Group, run: seq<Event>, tf: Timeframe, i: nat)
    requires IsRun(s, run) && i < |run| && WellFormed(States(s, run)[i], run[i]) && NoDataAt(s, run, tf, i)
    ensures Outcomes(s, run)[i].Ran? && run[i].p < |States(s, run)[i + 1].ledgers|
    ensures
      var after, did := States(s, run)[i + 1], Outcomes(s, run)[i];
      && SharedUntil(after.cache, tf, TripEnd(run[i], did))
      && OpenUntil(after.ledgers[run[i].p], tf, TripUntil(did.nowUtc))
  {
    TripsIffNoData(s, run, tf, i);
    RunCircuitAt(s, run, tf, run[i].at, i);
  }

  // ---------------------------------------------------------------------------
  // From looks to batches
  // ---------------------------------------------------------------------------

  /** An event of process `p` that ends its work on `tf`, or starts it anew. */
  predicate Resets(e: Event, did: Outcome, p: nat, tf: Timeframe) {
    && e.p == p
    && (e.TaskEnds? || (e.Look? && On(e, tf)) || (e.Batch? && On(e, tf) && did.Ran? && !did.report.Succeeded()))
  }

  /** Look `g` of process `p` was for `due`, and up to `j` nothing has ended that work or started it anew. */
  ghost predicate Pending(run: seq<Event>, did: seq<Outcome>, p: nat, tf: Timeframe, due: Due, g: nat, j: nat) {
    && g < j <= |run| == |did| && run[g] == Look(p, Request(tf, due.close), due.lookedAt)
    && forall m: nat :: g < m < j ==> !Resets(run[m], did[m], p, tf)
  }

  ghost predicate Grants(run: seq<Event>, did: seq<Outcome>, p: nat, tf: Timeframe, due: Due, g: nat, j: nat) {
    Pending(run, did, p, tf, due, g, j) && did[g] == Looked(true)
  }

  ghost predicate HasDue(s: Group, p: nat, tf: Timeframe, due: Due) {
    p < |s.due| && tf in s.due[p] && s.due[p][tf] == due
  }

  ghost predicate NothingDue(s: Group) {
    forall p :: 0 <= p < |s.due| ==> s.due[p] == map[]
  }

  predicate LookedAt(e: Event, did: Outcome, p: nat, tf: Timeframe, due: Due) {
    e == Look(p, Request(tf, due.close), due.lookedAt) && did == Looked(true)
  }

  /** One more event: it grants the work itself, or an earlier look did and the event does not end it. */
  lemma GrantsNext(run: seq<Event>, did: seq<Outcome>, p: nat, tf: Timeframe, due: Due, g: nat, j: nat)
    requires j < |run| == |did|
    ensures Grants(run, did, p, tf, due, g, j + 1) <==>
      || (g == j && LookedAt(run[j], did[j], p, tf, due))
      || (Grants(run, did, p, tf, due, g, j) && !Resets(run[j], did[j], p, tf))
  {
  }

  ghost predicate Granted(run: seq<Event>, did: seq<Outcome>, p: nat, tf: Timeframe, due: Due, j: nat) {
    exists g: nat :: Grants(run, did, p, tf, due, g, j)
  }

  lemma GrantedNext(run: seq<Event>, did: seq<Outcome>, p: nat, tf: Timeframe, due: Due, j: nat)
    requires j < |run| == |did|
    ensures Granted(run, did, p, tf, due, j + 1) <==>
      LookedAt(run[j], did[j], p, tf, due) || (Granted(run, did, p, tf, due, j) && !Resets(run[j], did[j], p, tf))
  {
    if Granted(run, did, p, tf, due, j + 1) {
      var g: nat :| Grants(run, did, p, tf, due, g, j + 1);
      GrantsNext(run, did, p, tf, due, g, j);
    }
    if Granted(run, did, p, tf, due, j) {
      var g: nat :| Grants(run, did, p, tf, due, g, j);
      GrantsNext(run, did, p, tf, due, g, j);
    }
    GrantsNext(run, did, p, tf, due, j, j);
  }

  lemma DueNext(s: Group, s': Group, e: Event, did: Outcome, p: nat, tf: Timeframe, due: Due)
    requires DueStep(s, s', e, did) && p < |s.due|
    ensures HasDue(s', p, tf, due)
      <==> LookedAt(e, did, p, tf, due) || (HasDue(s, p, tf, due) && !Resets(e, did, p, tf))
  {
  }

  /** A close is due for a process exactly while some look of its task found it so and nothing has ended that since. */
  lemma {:induction false} DueIffGranted(
    states: seq<Group>, run: seq<Event>, did: seq<Outcome>, tf: Timeframe, end: Instant, p: nat, due: Due, j: nat)
    requires CircuitTrace(states, run, did, tf, end) && j <= |run| && NothingDue(states[0]) && p < |states[0].due|
    ensures HasDue(states[j], p, tf, due) <==> Granted(run, did, p, tf, due, j)
    ensures |states[j].due| == |states[0].due|
  {
    if j > 0 {
      DueIffGranted(states, run, did, tf, end, p, due, j - 1);
      assert CircuitAt(states, run, did, tf, end, j - 1);
      DueNext(states[j - 1], states[j], run[j - 1], did[j - 1], p, tf, due);
      GrantedNext(run, did, p, tf, due, j - 1);
    }
  }

  /** Credit is left for the request of a batch whose task looked at `lookedAt`. */
  ghost predicate CreditLeft(s: Group, e: Event, lookedAt: Instant)
    requires WellFormed(s, e)
  {
    CanConsume(s.ledgers[e.p], s.cache, lookedAt, e.at)
  }

  lemma BatchSends(s: Group, e: Event)
    requires WellFormed(s, e) && e.Batch?
    ensures ReportIn(Did(s, e)).sent > 0 <==> IsDue(s, e) && CreditLeft(s, e, s.due[e.p][e.expected.tf].lookedAt)
  {
    if IsDue(s, e) {
      BatchRequests(s.ledgers[e.p], s.cache, Target(e), s.due[e.p][e.expected.tf].lookedAt, e.at, e.first, e.second);
    }
  }

  lemma RunBatchSends(s: Group, run: seq<Event>, j: nat)
    requires IsRun(s, run) && j < |run| && run[j].Batch?
    ensures WellFormed(States(s, run)[j], run[j])
    ensures
      var w, e := States(s, run)[j], run[j];
      ReportIn(Outcomes(s, run)[j]).sent > 0 <==> IsDue(w, e) && CreditLeft(w, e, w.due[e.p][e.expected.tf].lookedAt)
  {
    RunWellFormed(s, run, j);
    BatchSends(StateAt(s, run, j), run[j]);
  }

  /**
   What a look must find for the batches of its task.  Before the trip `i` it has to find the
   close due; after it, an expired trip of its process, credit, and no suppression.
   */
  ghost predicate LookAllows(s: Group, e: Event, did: Outcome, before: bool) {
    && e.Look? && WellFormed(s, e)
    && if before then did == Looked(true)
       else HoldsExpiredTrip(s.ledgers[e.p], e.expected.tf, e.at) && Wanted(s.ledgers[e.p], s.cache, e)
  }

  /** Look `g` allows batch `j`, its work is still on, and the credit is not spent. */
  ghost predicate AllowedBy(states: seq<Group>, run: seq<Event>, did: seq<Outcome>, i: nat, j: nat, g: nat)
    requires j < |run| == |did| && |states| == |run| + 1 && run[j].Batch? && WellFormed(states[j], run[j])
  {
    var e := run[j];
    && g < j && Pending(run, did, e.p, e.expected.tf, Due(e.expected.close, run[g].at), g, j)
    && LookAllows(states[g], run[g], did[g], g < i) && CreditLeft(states[j], e, run[g].at)
  }

  lemma TraceLookAllows(
    states: seq<Group>, run: seq<Event>, did: seq<Outcome>, tf: Timeframe, i: nat, j: nat, end: Instant, g: nat)
    requires TripHolds(run, did, tf, i, j, end) && CircuitTrace(states, run, did, tf, end)
    requires g < j && run[g].Look? && On(run[g], tf) && WellFormed(states[g], run[g])
    ensures LookAllows(states[g], run[g], did[g], g < i) <==> did[g] == Looked(true)
  {
    if i < g {
      assert TripHolds(run, did, tf, i, g, end);
      TraceLookIff(states, run, did, tf, i, g, end);
      assert CircuitAt(states, run, did, tf, end, g);
    }
  }

  lemma TraceAllowed(
    states: seq<Group>, run: seq<Event>, did: seq<Outcome>, tf: Timeframe, i: nat, j: nat, end: Instant, g: nat)
    requires TripHolds(run, did, tf, i, j, end) && CircuitTrace(states, run, did, tf, end)
    requires j < |run| && run[j].Batch? && On(run[j], tf) && WellFormed(states[j], run[j])
    requires g < j && WellFormed(states[g], run[g])
    ensures AllowedBy(states, run, did, i, j, g) <==>
      && Grants(run, did, run[j].p, tf, Due(run[j].expected.close, run[g].at), g, j)
      && CreditLeft(states[j], run[j], run[g].at)
  {
    if run[g].Look? && On(run[g], tf) {
      TraceLookAllows(states, run, did, tf, i, j, end, g);
    }
  }

  /** A batch is due exactly if some look still grants it, and then for that look's time. */
  lemma TraceDueIff(
    states: seq<Group>, run: seq<Event>, did: seq<Outcome>, tf: Timeframe, end: Instant, j: nat, lookedAt: Instant)
    requires CircuitTrace(states, run, did, tf, end) && NothingDue(states[0]) && j < |run| && run[j].p < |states[0].due|
    requires run[j].Batch? && On(run[j], tf) && WellFormed(states[j], run[j])
    ensures IsDue(states[j], run[j]) && states[j].due[run[j].p][tf].lookedAt == lookedAt <==>
      Granted(run, did, run[j].p, tf, Due(run[j].expected.close, lookedAt), j)
  {
    var p, due := run[j].p, Due(run[j].expected.close, lookedAt);
    DueIffGranted(states, run, did, tf, end, p, due, j);
    if Granted(run, did, p, tf, due, j) {
      var g: nat :| Grants(run, did, p, tf, due, g, j);
      assert run[g].at <= run[j].at;
    }
  }

  /**
   Until the shared trip of a batch that found no data ends, and before a success, a batch for the
   timeframe sends a request exactly if credit is left and its task has looked, for its close,
   either before that batch and found it due, or since and while its process held an expired
   trip of its own.
   */
  lemma BatchWhileTrippedIff(s: Group, run: seq<Event>, tf: Timeframe, i: nat, j: nat, end: Instant)
    requires IsRun(s, run) && NothingDue(s) && j < |run| && TripHolds(run, Outcomes(s, run), tf, i, j, end)
    requires run[j].Batch? && On(run[j], tf)
    ensures WellFormed(States(s, run)[j], run[j])
    ensures ReportIn(Outcomes(s, run)[j]).sent > 0 <==>
      exists g: nat :: AllowedBy(States(s, run), run, Outcomes(s, run), i, j, g)
  {
    var states, did := States(s, run), Outcomes(s, run);
    RunBatchSends(s, run, j);
    RunCircuit(s, run, tf, end);
    assert states[0] == s;
    if ReportIn(did[j]).sent > 0 {
      var lookedAt := states[j].due[run[j].p][tf].lookedAt;
      TraceDueIff(states, run, did, tf, end, j, lookedAt);
      var g: nat :| Grants(run, did, run[j].p, tf, Due(run[j].expected.close, lookedAt), g, j);
      RunWellFormed(s, run, g);
      TraceAllowed(states, run, did, tf, i, j, end, g);
    }
    if g: nat :| AllowedBy(states, run, did, i, j, g) {
      RunWellFormed(s, run, g);
      TraceAllowed(states, run, did, tf, i, j, end, g);
      assert Granted(run, did, run[j].p, tf, Due(run[j].expected.close, run[g].at), j);
      TraceDueIff(states, run, did, tf, end, j, run[g].at);
    }
  }

  // ---------------------------------------------------------------------------
  // Batches of one process while the trip lasts
  // ---------------------------------------------------------------------------

  /** Batches of process `p` on `tf` after the `i`-th event that sent a request. */
  function SentBy(run: seq<Event>, did: seq<Outcome>, p: nat, tf: Timeframe, i: nat, k: nat): nat
    requires k <= |run| == |did|
  {
    if k <= i + 1 then 0
    else SentBy(run, did, p, tf, i, k - 1) + if run[k - 1].p == p && SendsOn(run[k - 1], did[k - 1], tf) then 1 else 0
  }

  predicate SendsOn(e: Event, did: Outcome, tf: Timeframe) {
    e.Batch? && On(e, tf) && ReportIn(did).sent > 0
  }

  /** A process with a close of `tf` due holds no trip of `tf` of its own. */
  ghost predicate DueIsClosed(s: Group, p: nat, tf: Timeframe) {
    p < |s.ledgers| == |s.due| && (tf in s.due[p] ==> !Lookup(s.ledgers[p].circuitOpen, tf, false))
  }

  /** The process may still send a batch before `end`: a close is due for it, or it holds a trip that expires. */
  ghost predicate MaySend(s: Group, p: nat, tf: Timeframe, end: Instant)
    requires p < |s.ledgers| == |s.due|
  {
    tf in s.due[p] || !NothingToExpire(s.ledgers[p], tf, end)
  }

  lemma {:induction false} TraceDueIsClosed(
    states: seq<Group>, run: seq<Event>, did: seq<Outcome>, tf: Timeframe, end: Instant, p: nat, k: nat)
    requires CircuitTrace(states, run, did, tf, end) && k <= |run| && DueIsClosed(states[0], p, tf)
    ensures DueIsClosed(states[k], p, tf)
  {
    if k > 0 {
      TraceDueIsClosed(states, run, did, tf, end, p, k - 1);
      assert CircuitAt(states, run, did, tf, end, k - 1);
      var s, s', e := states[k - 1], states[k], run[k - 1];
      if e.p == p && e.Batch? && TripsOn(e, did[k - 1], tf) {
        assert tf !in s'.due[p];
      }
    }
  }

  /** An event while the trip lasts: sending uses up what allows it, and nothing allows more. */
  lemma MaySendStep(s: Group, s': Group, e: Event, did: Outcome, tf: Timeframe, end: Instant, p: nat)
    requires CircuitStep(s, s', e, did, tf, end) && DueIsClosed(s, p, tf)
    requires SharedUntil(s.cache, tf, end) && LeavesTrip(e, did, tf, end)
    ensures p < |s'.ledgers| == |s'.due| && (MaySend(s', p, tf, end) ==> MaySend(s, p, tf, end))
    ensures e.p == p && SendsOn(e, did, tf) ==> MaySend(s, p, tf, end) && !MaySend(s', p, tf, end)
  {
  }

  lemma {:induction false} TraceSentBy(
    states: seq<Group>, run: seq<Event>, did: seq<Outcome>, tf: Timeframe, i: nat, k: nat, end: Instant, p: nat)
    requires TripHolds(run, did, tf, i, k, end) && CircuitTrace(states, run, did, tf, end)
    requires DueIsClosed(states[0], p, tf)
    ensures DueIsClosed(states[k], p, tf)
    ensures SentBy(run, did, p, tf, i, k) + (if MaySend(states[k], p, tf, end) then 1 else 0)
         <= if p == run[i].p then 0 else 1
    decreases k
  {
    TraceDueIsClosed(states, run, did, tf, end, p, k);
    TraceDueIsClosed(states, run, did, tf, end, p, k - 1);
    assert CircuitAt(states, run, did, tf, end, k - 1);
    if k > i + 1 {
      TraceSentBy(states, run, did, tf, i, k - 1, end, p);
      SharedWhileTripped(states, run, did, tf, i, k - 1, end);
      MaySendStep(states[k - 1], states[k], run[k - 1], did[k - 1], tf, end, p);
    }
  }

  /**
   Until the shared trip of a batch that found no data ends, and before a success, its process sends no
   other batch for the timeframe, and each other process at most one.
   */
  lemma AtMostOncePerProcess(s: Group, run: seq<Event>, tf: Timeframe, i: nat, k: nat, end: Instant, p: nat)
    requires IsRun(s, run) && TripHolds(run, Outcomes(s, run), tf, i, k, end) && DueIsClosed(s, p, tf)
    ensures SentBy(run, Outcomes(s, run), p, tf, i, k) <= if p == run[i].p then 0 else 1
  {
    RunCircuit(s, run, tf, end);
    TraceSentBy(States(s, run), run, Outcomes(s, run), tf, i, k, end, p);
  }

  // ---------------------------------------------------------------------------
  // Batches of all processes while the trip lasts
  // ---------------------------------------------------------------------------

  function SentByAll(run: seq<Event>, did: seq<Outcome>, tf: Timeframe, i: nat, k: nat): nat
    requires k <= |run| == |did|
  {
    if k <= i + 1 then 0
    else SentByAll(run, did, tf, i, k - 1) + if SendsOn(run[k - 1], did[k - 1], tf) then 1 else 0
  }

  ghost function SentCounts(run: seq<Event>, did: seq<Outcome>, tf: Timeframe, i: nat, n: nat, k: nat): seq<int>
    requires k <= |run| == |did|
  {
    seq(n, p requires 0 <= p < n => SentBy(run, did, p, tf, i, k))
  }

  lemma {:induction false} SentAddsUp(run: seq<Event>, did: seq<Outcome>, tf: Timeframe, i: nat, n: nat, k: nat)
    requires k <= |run| == |did| && forall m :: 0 <= m < |run| ==> run[m].p < n
    ensures Sum(SentCounts(run, did, tf, i, n, k)) == SentByAll(run, did, tf, i, k)
  {
    var counts := SentCounts(run, did, tf, i, n, k);
    if k <= i + 1 {
      SumBounds(counts, 0, 0);
    } else {
      SentAddsUp(run, did, tf, i, n, k - 1);
      var before, p := SentCounts(run, did, tf, i, n, k - 1), run[k - 1].p;
      if SendsOn(run[k - 1], did[k - 1], tf) {
        assert counts == before[p := before[p] + 1];
        SumUpdate(before, p, before[p] + 1);
      } else {
        assert counts == before;
      }
    }
  }

  /** So N processes send at most N - 1 more batches for the timeframe while the trip lasts. */
  lemma BatchesWhileTripped(s: Group, run: seq<Event>, tf: Timeframe, i: nat, k: nat, end: Instant)
    requires IsRun(s, run) && TripHolds(run, Outcomes(s, run), tf, i, k, end)
    requires forall p: nat :: p < |s.ledgers| ==> DueIsClosed(s, p, tf)
    ensures SentByAll(run, Outcomes(s, run), tf, i, k) <= |s.ledgers| - 1
  {
    var did, n, tripper := Outcomes(s, run), |s.ledgers|, run[i].p;
    var counts := SentCounts(run, did, tf, i, n, k);
    forall p: nat | p < n ensures counts[p] <= if p == tripper then 0 else 1 {
      AtMostOncePerProcess(s, run, tf, i, k, end, p);
    }
    SumUpdate(counts, tripper, 1);
    SumBounds(counts[tripper := 1], 0, 1);
    SentAddsUp(run, did, tf, i, n, k);
  }

  lemma TripUntilMonotone(t: Instant, u: Instant)
    requires t <= u
    ensures TripUntil(t) <= TripUntil(u)
  {
    TripLength(u);
    if WeekendClosed(t) {
      WeekendTripEnd(t);
      WindowBounds(t);
      if u < WindowStart(t) + 48 * HOUR {
        ClosedInWindow(t, u);
        SameWindow(t, u);
        WeekendTripEnd(u);
      }
    }
  }

  /** After trip `i` and up to `k` every trip of `tf` is by a task that looked no earlier. */
  ghost predicate LaterTripsLookLater(run: seq<Event>, did: seq<Outcome>, tf: Timeframe, i: nat, k: nat) {
    && i < k <= |run| == |did| && did[i].Ran?
    && forall m: nat :: i < m < k && TripsOn(run[m], did[m], tf) ==> did[i].nowUtc <= did[m].nowUtc
  }

  /** Between `i` and `k` all events come before `end` and none succeeds on `tf`. */
  ghost predicate QuietUntil(run: seq<Event>, did: seq<Outcome>, tf: Timeframe, i: nat, k: nat, end: Instant) {
    && k <= |run| == |did|
    && forall m: nat :: i < m < k ==> run[m].at < end && !SucceedsOn(run[m], did[m], tf)
  }

  /** Within the hour, and up to a second before the end, the trip holds. */
  lemma TripHoldsUntil(
    states: seq<Group>, run: seq<Event>, did: seq<Outcome>, tf: Timeframe, i: nat, k: nat, end: Instant)
    requires CircuitTrace(states, run, did, tf, end) && LaterTripsLookLater(run, did, tf, i, k)
    requires TripsOn(run[i], did[i], tf) && QuietUntil(run, did, tf, i, k, end)
    requires end <= did[i].nowUtc + 60 * MINUTE || end <= TripUntil(did[i].nowUtc) - SECOND
    ensures TripHolds(run, did, tf, i, k, end)
  {
    forall m: nat | i <= m < k && TripsOn(run[m], did[m], tf) ensures end <= TripEnd(run[m], did[m]) {
      assert CircuitAt(states, run, did, tf, end, m);
      SharedEndBounds(did[m].nowUtc, run[m].at);
      TripUntilMonotone(did[i].nowUtc, did[m].nowUtc);
    }
  }

  lemma BatchesUntil(s: Group, run: seq<Event>, tf: Timeframe, i: nat, k: nat, end: Instant)
    requires IsRun(s, run) && LaterTripsLookLater(run, Outcomes(s, run), tf, i, k)
    requires TripsOn(run[i], Outcomes(s, run)[i], tf) && QuietUntil(run, Outcomes(s, run), tf, i, k, end)
    requires
      var looked := Outcomes(s, run)[i].nowUtc;
      end <= looked + 60 * MINUTE || end <= TripUntil(looked) - SECOND
    requires forall p: nat :: p < |s.ledgers| ==> DueIsClosed(s, p, tf)
    ensures SentByAll(run, Outcomes(s, run), tf, i, k) <= |s.ledgers| - 1
  {
    RunCircuit(s, run, tf, end);
    TripHoldsUntil(States(s, run), run, Outcomes(s, run), tf, i, k, end);
    BatchesWhileTripped(s, run, tf, i, k, end);
  }

  /** The same from the answers: after a due batch that found no data, N processes send at most N - 1 more batches. */
  lemma BatchesAfterNoData(s: Group, run: seq<Event>, tf: Timeframe, i: nat, k: nat, end: Instant)
    requires IsRun(s, run) && LaterTripsLookLater(run, Outcomes(s, run), tf, i, k)
    requires WellFormed(States(s, run)[i], run[i]) && NoDataAt(s, run, tf, i)
    requires QuietUntil(run, Outcomes(s, run), tf, i, k, end)
    requires
      var looked := Outcomes(s, run)[i].nowUtc;
      end <= looked + 60 * MINUTE || end <= TripUntil(looked) - SECOND
    requires forall p: nat :: p < |s.ledgers| ==> DueIsClosed(s, p, tf)
    ensures SentByAll(run, Outcomes(s, run), tf, i, k) <= |s.ledgers| - 1
  {
    TripsIffNoData(s, run, tf, i);
    BatchesUntil(s, run, tf, i, k, end);
  }

  /** At least an hour: N processes send at most N - 1 more batches in the hour from the look behind the trip. */
  lemma BatchesWithinHour(s: Group, run: seq<Event>, tf: Timeframe, i: nat, k: nat)
    requires IsRun(s, run) && LaterTripsLookLater(run, Outcomes(s, run), tf, i, k)
    requires TripsOn(run[i], Outcomes(s, run)[i], tf)
    requires QuietUntil(run, Outcomes(s, run), tf, i, k, Outcomes(s, run)[i].nowUtc + 60 * MINUTE)
    requires forall p: nat :: p < |s.ledgers| ==> DueIsClosed(s, p, tf)
    ensures SentByAll(run, Outcomes(s, run), tf, i, k) <= |s.ledgers| - 1
  {
    BatchesUntil(s, run, tf, i, k, Outcomes(s, run)[i].nowUtc + 60 * MINUTE);
  }

  /**
   And over a weekend: from a trip in the closure up to one second before it ends, which is at
   the reopen on Sunday 22:00 UTC, N processes send at most N - 1 more batches of the timeframe.
   */
  lemma BatchesOverWeekend(s: Group, run: seq<Event>, tf: Timeframe, i: nat, k: nat, looked: Instant, reopen: Instant)
    requires IsRun(s, run) && LaterTripsLookLater(run, Outcomes(s, run), tf, i, k)
    requires TripsOn(run[i], Outcomes(s, run)[i], tf) && Outcomes(s, run)[i].nowUtc == looked
    requires WeekendClosed(looked) && reopen == WindowStart(looked) + 49 * HOUR
    requires QuietUntil(run, Outcomes(s, run), tf, i, k, reopen - SECOND)
    requires forall p: nat :: p < |s.ledgers| ==> DueIsClosed(s, p, tf)
    ensures SentByAll(run, Outcomes(s, run), tf, i, k) <= |s.ledgers| - 1
  {
    WeekendTripEnd(looked);
    BatchesUntil(s, run, tf, i, k, reopen - SECOND);
  }

  // ---------------------------------------------------------------------------
  // One process after its own trip
  // ---------------------------------------------------------------------------

  /** The process waits for its own trip: nothing of `tf` is due for it. */
  ghost predicate Waits(s: Group, p: nat, tf: Timeframe, end: Instant) {
    p < |s.ledgers| == |s.due| && OpenUntil(s.ledgers[p], tf, end) && tf !in s.due[p]
  }

  lemma WaitsStep(s: Group, s': Group, e: Event, did: Outcome, tf: Timeframe, end: Instant, p: nat)
    requires CircuitStep(s, s', e, did, tf, end) && Waits(s, p, tf, end) && e.at < end
    ensures Waits(s', p, tf, end) && !(e.p == p && SendsOn(e, did, tf))
  {
  }

  lemma {:induction false} TraceWaits(
    states: seq<Group>, run: seq<Event>, did: seq<Outcome>, tf: Timeframe, i: nat, k: nat, end: Instant)
    requires i < k <= |run| && CircuitTrace(states, run, did, tf, end) && TripsOn(run[i], did[i], tf)
    requires end == TripUntil(did[i].nowUtc) && run[k - 1].at < end
    ensures Waits(states[k], run[i].p, tf, end)
    decreases k
  {
    assert CircuitAt(states, run, did, tf, end, k - 1);
    if k > i + 1 {
      assert run[k - 2].at <= run[k - 1].at;
      TraceWaits(states, run, did, tf, i, k - 1, end);
      WaitsStep(states[k - 1], states[k], run[k - 1], did[k - 1], tf, end, run[i].p);
    }
  }

  /**
   After a batch that found no data its process sends no batch for the timeframe before the
   trip ends, an hour or more after its task looked, whatever the other processes do,
   successes included.
   */
  lemma OwnBatchesAnHourApart(s: Group, run: seq<Event>, tf: Timeframe, i: nat, j: nat)
    requires IsRun(s, run) && i < j < |run| && TripsOn(run[i], Outcomes(s, run)[i], tf)
    requires run[j].p == run[i].p && SendsOn(run[j], Outcomes(s, run)[j], tf)
    ensures run[j].at >= TripUntil(Outcomes(s, run)[i].nowUtc) >= Outcomes(s, run)[i].nowUtc + 60 * MINUTE
  {
    var states, did := States(s, run), Outcomes(s, run);
    var end := TripUntil(did[i].nowUtc);
    TripLength(did[i].nowUtc);
    if run[j].at < end {
      RunCircuit(s, run, tf, end);
      assert CircuitAt(states, run, did, tf, end, j);
      assert run[j - 1].at <= run[j].at;
      TraceWaits(states, run, did, tf, i, j, end);
      WaitsStep(states[j], states[j + 1], run[j], did[j], tf, end, run[j].p);
      assert false;
    }
  }
}
