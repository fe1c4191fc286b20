/**
 A daily budget, of credits or of retry credits, as a protocol of N processes over one shared
 cache.  Checking the budget and recording a credit are two separate steps, so checks of
 several processes can pass before any of them records.
 */
module CreditProtocol {
  import opened Wrappers
  import opened UtcTime
  import opened RequestLedger
  import opened Sums

  datatype Budget = Credits | Retries

  function Counters(b: Budget, l: Ledger): map<int, int> {
    if b.Credits? then l.credits else l.retries
  }

  function Key(b: Budget, day: int): CacheKey {
    if b.Credits? then CreditsKey(day) else RetryCreditsKey(day)
  }

  function Cap(b: Budget): nat {
    if b.Credits? then MAX_CREDITS else MAX_RETRY_CREDITS
  }

  /** The check of the budget; that of the retry budget asks for a credit too. */
  predicate Passes(b: Budget, l: Ledger, cache: Cache, nowUtc: Instant, clock: Instant) {
    if b.Credits? then CanConsume(l, cache, nowUtc, clock) else CanConsumeRetry(l, cache, nowUtc, clock)
  }

  /** What a process reads of a day's counter. */
  function Daily(b: Budget, l: Ledger, cache: Cache, day: int, clock: Instant): int {
    if b.Credits? then DailyCredits(l, cache, day, clock) else DailyRetries(l, cache, day, clock)
  }

  ghost predicate SameEntries(b: Budget, cache: Cache, cache': Cache) {
    && (forall d :: Key(b, d) in cache' <==> Key(b, d) in cache)
    && (forall d :: Key(b, d) in cache ==> cache'[Key(b, d)] == cache[Key(b, d)])
  }

  /** Counters and entries of the budget are as before. */
  ghost predicate KeepsCounters(b: Budget, l: Ledger, cache: Cache, l': Ledger, cache': Cache) {
    Counters(b, l') == Counters(b, l) && SameEntries(b, cache, cache')
  }

  /** One credit of the day of `nowUtc` is counted, whatever else is written. */
  ghost predicate CountsOne(
    b: Budget, l: Ledger, cache: Cache, l': Ledger, cache': Cache, nowUtc: Instant, clock: Instant) {
    var day := DayIndex(nowUtc);
    var (counters, counted) := Bump(Counters(b, l), cache, Key(b, day), day, 1, clock);
    Counters(b, l') == counters && SameEntries(b, counted, cache')
  }

  /**
   The processes and the budget looked at.  `pending[p]` is the time for which process `p`
   passed a check it has not yet recorded.
   */
  datatype Fleet = Fleet(
    budget: Budget, ledgers: seq<Ledger>, pending: seq<Option<Instant>>, cache: Cache, clock: Instant)

  ghost predicate Init(s: Fleet, n: nat) {
    && |s.ledgers| == |s.pending| == n && s.cache == map[]
    && forall p :: 0 <= p < n ==> s.ledgers[p] == EMPTY_LEDGER && s.pending[p] == None
  }

  ghost predicate SameCounters(s: Fleet, s': Fleet) {
    && |s'.ledgers| == |s.ledgers| && SameEntries(s.budget, s.cache, s'.cache)
    && forall p :: 0 <= p < |s.ledgers| ==> Counters(s.budget, s'.ledgers[p]) == Counters(s.budget, s.ledgers[p])
  }

  datatype Step =
    | Tick(clock: Instant)    // time passes
    | Check(p: nat, nowUtc: Instant)    // a check that passes, for a time taken earlier
    | Record(p: nat)          // the credit of a passed check is recorded
    | Release(p: nat)         // a retry that succeeded is not recorded
    | Other                   // any ledger operation that leaves the budget's counters alone

  ghost predicate NextStep(s: Fleet, s': Fleet, step: Step) {
    match step
    case Tick(clock) =>
      s.clock <= clock && s' == s.(clock := clock)
    case Check(p, nowUtc) =>
      && p < |s.ledgers| == |s.pending| && s.pending[p] == None && nowUtc <= s.clock
      && Passes(s.budget, s.ledgers[p], s.cache, nowUtc, s.clock)
      && s' == s.(pending := s.pending[p := Some(nowUtc)])
    case Record(p) =>
      && p < |s.ledgers| == |s.pending| && s.pending[p].Some? && |s'.ledgers| == |s.ledgers|
      && s' == s.(ledgers := s.ledgers[p := s'.ledgers[p]], pending := s.pending[p := None], cache := s'.cache)
      && CountsOne(s.budget, s.ledgers[p], s.cache, s'.ledgers[p], s'.cache, s.pending[p].value, s.clock)
    case Release(p) =>
      && p < |s.ledgers| == |s.pending| && s.pending[p].Some? && s.budget.Retries?
      && s' == s.(pending := s.pending[p := None])
    case Other =>
      SameCounters(s, s') && s'.pending == s.pending && s'.clock == s.clock && s'.budget == s.budget
  }

  ghost predicate Next(s: Fleet, s': Fleet) {
    exists step :: NextStep(s, s', step)
  }

  ghost predicate IsRun(run: seq<Fleet>, n: nat) {
    && run != [] && Init(run[0], n)
    && forall i :: 0 <= i < |run| - 1 ==> Next(run[i], run[i + 1])
  }

  // ---------------------------------------------------------------------------
  // Counting
  // ---------------------------------------------------------------------------

  ghost function Counts(s: Fleet, day: int): seq<int> {
    seq(|s.ledgers|, p requires 0 <= p < |s.ledgers| => Lookup(Counters(s.budget, s.ledgers[p]), day, 0))
  }

  /** Credits charged to `day` by all processes together. */
  ghost function Spent(s: Fleet, day: int): int {
    Sum(Counts(s, day))
  }

  ghost predicate Waits(s: Fleet, p: nat, day: int)
    requires p < |s.pending|
  {
    s.pending[p].Some? && DayIndex(s.pending[p].value) == day
  }

  ghost function WaitFlags(s: Fleet, day: int): seq<int> {
    seq(|s.pending|, p requires 0 <= p < |s.pending| => if Waits(s, p, day) then 1 else 0)
  }

  /** Passed checks of `day` not yet recorded. */
  ghost function Waiting(s: Fleet, day: int): int {
    Sum(WaitFlags(s, day))
  }

  // ---------------------------------------------------------------------------
  // Invariant
  // ---------------------------------------------------------------------------

  /** The entry of the day is there and no longer answers. */
  ghost predicate Expired(s: Fleet, day: int) {
    Key(s.budget, day) in s.cache && s.cache[Key(s.budget, day)].expires <= s.clock
  }

  /** The entry is the sum of the local counts, and while there is none nothing is spent. */
  ghost predicate EntryAgrees(s: Fleet, day: int) {
    Spent(s, day) == if Key(s.budget, day) in s.cache then s.cache[Key(s.budget, day)].value else 0
  }

  /** `lost` tells whether the entry of the day has ever expired. */
  ghost predicate DayInv(s: Fleet, n: nat, day: int, lost: bool) {
    && (forall p :: 0 <= p < |s.ledgers| ==> Counts(s, day)[p] >= 0)
    && (Key(s.budget, day) in s.cache ==> (day + 1) * DAY <= s.cache[Key(s.budget, day)].expires)
    && (!lost ==> EntryAgrees(s, day) && !Expired(s, day))
    && Spent(s, day) + Waiting(s, day) <= Cap(s.budget) - 1 + n
  }

  ghost predicate Shape(s: Fleet, n: nat) {
    && |s.ledgers| == |s.pending| == n && n > 0
    && forall p :: 0 <= p < n && s.pending[p].Some? ==> s.pending[p].value <= s.clock
  }

  ghost predicate ChecksFor(s: Fleet, s': Fleet, day: int) {
    exists p: nat, nowUtc: Instant :: NextStep(s, s', Check(p, nowUtc)) && DayIndex(nowUtc) == day
  }

  lemma InitInv(s: Fleet, n: nat, day: int)
    requires Init(s, n) && n > 0
    ensures Shape(s, n) && DayInv(s, n, day, false)
  {
    SumBounds(Counts(s, day), 0, 0);
    SumBounds(WaitFlags(s, day), 0, 0);
  }

  /** What a passing check saw: fewer credits spent that day than the cap. */
  lemma CheckSawRoom(s: Fleet, n: nat, p: nat, nowUtc: Instant)
    requires Shape(s, n) && DayInv(s, n, DayIndex(nowUtc), false) && p < n
    requires Passes(s.budget, s.ledgers[p], s.cache, nowUtc, s.clock)
    ensures Spent(s, DayIndex(nowUtc)) < Cap(s.budget)
  {
  }

  lemma CheckInv(s: Fleet, s': Fleet, n: nat, p: nat, nowUtc: Instant, day: int, lost: bool)
    requires Shape(s, n) && DayInv(s, n, day, lost) && NextStep(s, s', Check(p, nowUtc))
    requires (day == DayIndex(nowUtc) ==> !lost)
    ensures Shape(s', n) && DayInv(s', n, day, lost)
  {
    assert Counts(s', day) == Counts(s, day);
    if day == DayIndex(nowUtc) {
      CheckSawRoom(s, n, p, nowUtc);
      var flags := WaitFlags(s, day);
      assert WaitFlags(s', day) == flags[p := 1];
      SumUpdate(flags, p, 0);
      SumUpdate(flags, p, 1);
      OthersWaiting(flags, p);
    } else {
      assert WaitFlags(s', day) == WaitFlags(s, day);
    }
  }

  /** If `p` does not wait, at most the other n - 1 do. */
  lemma OthersWaiting(flags: seq<int>, p: nat)
    requires p < |flags| && flags[p] == 0 && forall i :: 0 <= i < |flags| ==> 0 <= flags[i] <= 1
    ensures Sum(flags) <= |flags| - 1
  {
    SumUpdate(flags, p, 1);
    SumBounds(flags[p := 1], 0, 1);
  }

  /** What recording one credit does to the two counters of its day. */
  lemma CountEffect(b: Budget, l: Ledger, cache: Cache, l': Ledger, cache': Cache, t: Instant, clock: Instant)
    requires CountsOne(b, l, cache, l', cache', t, clock)
    ensures
      var day := DayIndex(t);
      && (forall d :: Lookup(Counters(b, l'), d, 0) == Lookup(Counters(b, l), d, 0) + if d == day then 1 else 0)
      && (forall d :: d != day ==> (Key(b, d) in cache' <==> Key(b, d) in cache))
      && (forall d :: d != day && Key(b, d) in cache ==> cache'[Key(b, d)] == cache[Key(b, d)])
    ensures
      var key := Key(b, DayIndex(t));
      && key in cache'
      && (if key in cache && clock < cache[key].expires
          then cache'[key] == CacheEntry(cache[key].value + 1, cache[key].expires)
          else cache'[key] == CacheEntry(Lookup(Counters(b, l'), DayIndex(t), 0), clock + DAY))
  {
  }

  /** Before any credit of the day is recorded every local count is zero. */
  lemma NothingSpent(s: Fleet, day: int, p: nat)
    requires p < |s.ledgers| && Spent(s, day) == 0
    requires forall q :: 0 <= q < |s.ledgers| ==> Counts(s, day)[q] >= 0
    ensures Counts(s, day)[p] == 0
  {
    SummandBound(Counts(s, day), p);
  }

  lemma RecordSpends(s: Fleet, s': Fleet, p: nat)
    requires p < |s.ledgers| == |s.pending| && NextStep(s, s', Record(p))
    ensures
      var day := DayIndex(s.pending[p].value);
      && Spent(s', day) == Spent(s, day) + 1
      && Waiting(s', day) == Waiting(s, day) - 1
      && |Counts(s', day)| == |Counts(s, day)|
      && forall q :: 0 <= q < |s.ledgers| ==> Counts(s', day)[q] == Counts(s, day)[q] + if q == p then 1 else 0
  {
    var t := s.pending[p].value;
    var day := DayIndex(t);
    CountEffect(s.budget, s.ledgers[p], s.cache, s'.ledgers[p], s'.cache, t, s.clock);
    var counts, flags := Counts(s, day), WaitFlags(s, day);
    assert Counts(s', day) == counts[p := counts[p] + 1];
    assert WaitFlags(s', day) == flags[p := 0];
    SumUpdate(counts, p, counts[p] + 1);
    SumUpdate(flags, p, 0);
  }

  lemma RecordOwnDay(s: Fleet, s': Fleet, n: nat, p: nat, lost: bool)
    requires Shape(s, n) && NextStep(s, s', Record(p)) && DayInv(s, n, DayIndex(s.pending[p].value), lost)
    ensures DayInv(s', n, DayIndex(s.pending[p].value), lost)
  {
    var t := s.pending[p].value;
    var day := DayIndex(t);
    CountEffect(s.budget, s.ledgers[p], s.cache, s'.ledgers[p], s'.cache, t, s.clock);
    RecordSpends(s, s', p);
    assert day * DAY <= t <= s.clock;
    if Key(s.budget, day) !in s.cache && !lost {
      NothingSpent(s, day, p);
    }
  }

  lemma RecordInv(s: Fleet, s': Fleet, n: nat, p: nat, day: int, lost: bool)
    requires Shape(s, n) && DayInv(s, n, day, lost) && NextStep(s, s', Record(p))
    ensures Shape(s', n) && DayInv(s', n, day, lost)
  {
    if day == DayIndex(s.pending[p].value) {
      RecordOwnDay(s, s', n, p, lost);
    } else {
      CountEffect(s.budget, s.ledgers[p], s.cache, s'.ledgers[p], s'.cache, s.pending[p].value, s.clock);
      assert Counts(s', day) == Counts(s, day);
      assert WaitFlags(s', day) == WaitFlags(s, day);
    }
  }

  lemma ReleaseInv(s: Fleet, s': Fleet, n: nat, p: nat, day: int, lost: bool)
    requires Shape(s, n) && DayInv(s, n, day, lost) && NextStep(s, s', Release(p))
    ensures Shape(s', n) && DayInv(s', n, day, lost)
  {
    assert Counts(s', day) == Counts(s, day);
    var flags := WaitFlags(s, day);
    assert WaitFlags(s', day) == flags[p := 0];
    SumUpdate(flags, p, 0);
  }

  lemma OtherInv(s: Fleet, s': Fleet, n: nat, step: Step, day: int, lost: bool)
    requires Shape(s, n) && DayInv(s, n, day, lost) && NextStep(s, s', step) && (step.Tick? || step.Other?)
    ensures Shape(s', n) && DayInv(s', n, day, lost || Expired(s', day))
  {
    assert Counts(s', day) == Counts(s, day);
    assert WaitFlags(s', day) == WaitFlags(s, day);
  }

  /** Up to state `i` the entry of `day` has expired. */
  ghost predicate Lost(run: seq<Fleet>, i: nat, day: int)
    requires i < |run|
  {
    exists h :: 0 <= h <= i && Expired(run[h], day)
  }

  /** Up to state `i`, no check for `day` is made once its entry has expired. */
  ghost predicate Timely(run: seq<Fleet>, i: nat, day: int)
    requires i < |run|
  {
    forall j :: 0 <= j < i && ChecksFor(run[j], run[j + 1], day) ==> !Lost(run, j, day)
  }

  lemma StepInv(s: Fleet, s': Fleet, n: nat, day: int, lost: bool)
    requires Shape(s, n) && DayInv(s, n, day, lost) && Next(s, s') && (ChecksFor(s, s', day) ==> !lost)
    ensures Shape(s', n) && DayInv(s', n, day, lost || Expired(s', day))
  {
    var step :| NextStep(s, s', step);
    match step
    case Check(p, nowUtc) => CheckInv(s, s', n, p, nowUtc, day, lost);
    case Record(p) => RecordInv(s, s', n, p, day, lost);
    case Release(p) => ReleaseInv(s, s', n, p, day, lost);
    case _ => OtherInv(s, s', n, step, day, lost);
  }

  lemma LostNext(run: seq<Fleet>, i: nat, day: int)
    requires i + 1 < |run|
    ensures Lost(run, i + 1, day) <==> Lost(run, i, day) || Expired(run[i + 1], day)
  {
  }

  lemma {:induction false} RunInv(run: seq<Fleet>, n: nat, i: nat, day: int)
    requires IsRun(run, n) && n > 0 && i < |run| && Timely(run, i, day)
    ensures Shape(run[i], n) && DayInv(run[i], n, day, Lost(run, i, day))
  {
    if i == 0 {
      InitInv(run[0], n, day);
    } else {
      RunInv(run, n, i - 1, day);
      assert Next(run[i - 1], run[i - 1 + 1]);
      assert ChecksFor(run[i - 1], run[i - 1 + 1], day) ==> !Lost(run, i - 1, day);
      StepInv(run[i - 1], run[i], n, day, Lost(run, i - 1, day));
      LostNext(run, i - 1, day);
    }
  }

  lemma {:induction false} ClockNeverGoesBack(run: seq<Fleet>, n: nat, j: nat, i: nat)
    requires IsRun(run, n) && j <= i < |run|
    ensures run[j].clock <= run[i].clock
    decreases i
  {
    if j < i {
      ClockNeverGoesBack(run, n, j, i - 1);
      assert Next(run[i - 1], run[i - 1 + 1]);
    }
  }

  /** While a day lasts its entry has not expired. */
  lemma {:induction false} LastsItsDay(run: seq<Fleet>, n: nat, i: nat, day: int)
    requires IsRun(run, n) && n > 0 && i < |run| && run[i].clock < (day + 1) * DAY
    ensures !Lost(run, i, day) && Timely(run, i, day)
  {
    if i > 0 {
      ClockNeverGoesBack(run, n, i - 1, i);
      LastsItsDay(run, n, i - 1, day);
      LostNext(run, i - 1, day);
    }
    RunInv(run, n, i, day);
  }

  /**
   For every UTC day for which no check is made once the day's cache entry has expired, N
   processes never spend more than 200 + N - 1 credits, nor count more than 25 + N - 1 retries.
   */
  lemma CreditCap(run: seq<Fleet>, n: nat, i: nat, day: int)
    requires IsRun(run, n) && n > 0 && i < |run| && Timely(run, i, day)
    ensures Spent(run[i], day) <= (if run[i].budget.Credits? then 200 else 25) + n - 1
  {
    RunInv(run, n, i, day);
    SumBounds(WaitFlags(run[i], day), 0, 1);
  }

  /** While a day lasts every process reads exactly the total spent on it, and that is within the cap. */
  lemma CreditsReadExactly(run: seq<Fleet>, n: nat, i: nat, day: int, p: nat)
    requires IsRun(run, n) && p < n && i < |run| && run[i].clock < (day + 1) * DAY
    ensures p < |run[i].ledgers|
    ensures Daily(run[i].budget, run[i].ledgers[p], run[i].cache, day, run[i].clock) == Spent(run[i], day)
    ensures Spent(run[i], day) <= Cap(run[i].budget) + n - 1
  {
    LastsItsDay(run, n, i, day);
    RunInv(run, n, i, day);
    CreditCap(run, n, i, day);
    if Key(run[i].budget, day) !in run[i].cache {
      NothingSpent(run[i], day, p);
      assert Counts(run[i], day)[p] == 0;
    }
  }

  // ---------------------------------------------------------------------------
  // Ledger operations as steps
  // ---------------------------------------------------------------------------

  /** Charging a credit counts one credit and no retry. */
  lemma ChargeCountsOne(l: Ledger, cache: Cache, t: Instant, clock: Instant)
    ensures
      var (l', cache') := RecordCredits(l, cache, t, 1, clock);
      CountsOne(Credits, l, cache, l', cache', t, clock) && KeepsCounters(Retries, l, cache, l', cache')
  {
  }

  /** A retry that failed is counted once in the retry budget. */
  lemma FailedRetryCountsOne(l: Ledger, cache: Cache, request: Request, t: Instant, clock: Instant)
    ensures
      var (l', cache') := RecordAttempt(l, cache, request, false, true, t, clock);
      CountsOne(Retries, l, cache, l', cache', t, clock)
  {
  }

  /** Any other attempt, a retry that succeeded included, counts in neither budget. */
  lemma AttemptKeepsCounters(
    b: Budget, l: Ledger, cache: Cache, request: Request, success: bool, isRetry: bool, t: Instant, clock: Instant)
    requires b.Credits? || success || !isRetry
    ensures
      var (l', cache') := RecordAttempt(l, cache, request, success, isRetry, t, clock);
      KeepsCounters(b, l, cache, l', cache')
  {
  }

  lemma CircuitKeepsCounters(b: Budget, l: Ledger, cache: Cache, request: Request, t: Instant, clock: Instant)
    ensures
      var (l', cache') := TripCircuit(l, cache, request.tf, t, clock);
      KeepsCounters(b, l, cache, l', cache')
    ensures
      var (open, l', cache') := CheckCircuit(l, cache, request.tf, t, clock);
      KeepsCounters(b, l, cache, l', cache')
  {
  }

  /** Every ledger operation that counts nothing is an `Other` step. */
  lemma OtherOperationsAreSteps(s: Fleet, p: nat, l': Ledger, cache': Cache)
    requires p < |s.ledgers| && KeepsCounters(s.budget, s.ledgers[p], s.cache, l', cache')
    ensures Next(s, s.(ledgers := s.ledgers[p := l'], cache := cache'))
  {
    assert NextStep(s, s.(ledgers := s.ledgers[p := l'], cache := cache'), Other);
  }

  // ---------------------------------------------------------------------------
  // The bound is reached
  // ---------------------------------------------------------------------------

  ghost predicate Reachable(s: Fleet, n: nat) {
    exists run :: IsRun(run, n) && run[|run| - 1] == s
  }

  lemma ReachNext(s: Fleet, s': Fleet, n: nat, step: Step)
    requires Reachable(s, n) && NextStep(s, s', step)
    ensures Reachable(s', n)
  {
    var run :| IsRun(run, n) && run[|run| - 1] == s;
    var run' := run + [s'];
    assert Next(s, s');
    forall i | 0 <= i < |run'| - 1 ensures Next(run'[i], run'[i + 1]) {
      if i < |run| - 1 {
        assert Next(run[i], run[i + 1]);
      }
    }
    assert IsRun(run', n) && run'[|run'| - 1] == s';
  }

  lemma ReachableInv(s: Fleet, n: nat, day: int)
    requires Reachable(s, n) && n > 0 && s.clock < (day + 1) * DAY
    ensures Shape(s, n) && DayInv(s, n, day, false)
  {
    var run :| IsRun(run, n) && run[|run| - 1] == s;
    LastsItsDay(run, n, |run| - 1, day);
    RunInv(run, n, |run| - 1, day);
  }

  /** The first `w` processes wait on a check passed at time zero, the others on none. */
  ghost predicate FirstWait(s: Fleet, from: nat, to: nat) {
    && s.clock == 0 && to <= |s.pending| && s.budget.Credits?
    && forall p :: 0 <= p < |s.pending| ==> s.pending[p] == if from <= p < to then Some(0) else None
  }

  lemma CheckPasses(s: Fleet, n: nat, p: nat) returns (s': Fleet)
    requires Reachable(s, n) && s.clock == 0 && p < n == |s.pending| && s.pending[p] == None && s.budget.Credits?
    requires Spent(s, 0) < MAX_CREDITS
    ensures Reachable(s', n) && s' == s.(pending := s.pending[p := Some(0)]) && Spent(s', 0) == Spent(s, 0)
  {
    ReachableInv(s, n, 0);
    SummandBound(Counts(s, 0), p);
    s' := s.(pending := s.pending[p := Some(0)]);
    assert Counts(s', 0) == Counts(s, 0);
    ReachNext(s, s', n, Check(p, 0));
  }

  lemma RecordCounts(s: Fleet, n: nat, p: nat) returns (s': Fleet)
    requires Reachable(s, n) && s.clock == 0 && p < n == |s.pending| && s.pending[p] == Some(0) && s.budget.Credits?
    ensures Reachable(s', n) && Spent(s', 0) == Spent(s, 0) + 1
    ensures s'.clock == 0 && s'.pending == s.pending[p := None] && s'.budget.Credits?
    ensures |s'.ledgers| == |s.ledgers| == n && forall q :: 0 <= q < n && q != p ==> s'.ledgers[q] == s.ledgers[q]
  {
    ReachableInv(s, n, 0);
    var (l', cache') := RecordCredits(s.ledgers[p], s.cache, 0, 1, s.clock);
    s' := s.(ledgers := s.ledgers[p := l'], pending := s.pending[p := None], cache := cache');
    ChargeCountsOne(s.ledgers[p], s.cache, 0, s.clock);
    RecordSpends(s, s', p);
    ReachNext(s, s', n, Record(p));
  }

  lemma SpendNothing(n: nat) returns (s: Fleet)
    ensures Reachable(s, n) && |s.pending| == n && FirstWait(s, 0, 0) && Spent(s, 0) == 0
    ensures |s.ledgers| == n && forall p :: 0 < p < n ==> s.ledgers[p] == EMPTY_LEDGER
  {
    s := Fleet(Credits, seq(n, _ => EMPTY_LEDGER), seq(n, _ => None), map[], 0);
    SumBounds(Counts(s, 0), 0, 0);
    assert IsRun([s], n) && [s][|[s]| - 1] == s;
  }

  lemma {:induction false} SpendAlone(n: nat, k: nat) returns (s: Fleet)
    requires n > 0 && k < MAX_CREDITS
    ensures Reachable(s, n) && |s.pending| == n && FirstWait(s, 0, 0) && Spent(s, 0) == k
    ensures |s.ledgers| == n && forall p :: 0 < p < n ==> s.ledgers[p] == EMPTY_LEDGER
  {
    if k == 0 {
      s := SpendNothing(n);
    } else {
      var s0 := SpendAlone(n, k - 1);
      var s1 := CheckPasses(s0, n, 0);
      s := RecordCounts(s1, n, 0);
    }
  }

  lemma {:induction false} AllPass(n: nat, w: nat) returns (s: Fleet)
    requires n > 0 && w <= n
    ensures Reachable(s, n) && |s.pending| == n && FirstWait(s, 0, w) && Spent(s, 0) == MAX_CREDITS - 1
  {
    if w == 0 {
      s := SpendAlone(n, MAX_CREDITS - 1);
    } else {
      var s0 := AllPass(n, w - 1);
      s := CheckPasses(s0, n, w - 1);
    }
  }

  lemma {:induction false} AllRecord(n: nat, w: nat) returns (s: Fleet)
    requires n > 0 && w <= n
    ensures Reachable(s, n) && |s.pending| == n && FirstWait(s, w, n) && Spent(s, 0) == MAX_CREDITS - 1 + w
  {
    if w == 0 {
      s := AllPass(n, n);
    } else {
      var s0 := AllRecord(n, w - 1);
      s := RecordCounts(s0, n, w - 1);
    }
  }

  /** The bound of `CreditCap` is exact: some run of N processes spends 200 + N - 1 in one day. */
  lemma CapIsReached(n: nat)
    requires n > 0
    ensures exists s :: Reachable(s, n) && s.budget.Credits? && Spent(s, 0) == 200 + n - 1
  {
    var s := AllRecord(n, n);
  }

  // ---------------------------------------------------------------------------
  // Late checks
  // ---------------------------------------------------------------------------

  /** Process 0 has spent 199 credits of day 0 and its cache entry has expired; process 1 has spent none. */
  lemma LateStart(n: nat) returns (s: Fleet)
    requires n >= 2
    ensures Reachable(s, n) && LateState(s, n, 0)
  {
    var s0 := SpendAlone(n, MAX_CREDITS - 1);
    var expired := if CreditsKey(0) in s0.cache then s0.cache[CreditsKey(0)].expires else 0;
    var clock := if expired > DAY then expired else DAY;
    s := s0.(clock := clock);
    ReachNext(s0, s, n, Tick(clock));
    assert Counts(s, 0) == Counts(s0, 0);
  }

  /** Day 0 is over, and process 1 alone has since spent `k` credits of it by what the new entry says. */
  ghost predicate LateState(s: Fleet, n: nat, k: nat) {
    && n >= 2 && s.budget.Credits? && |s.ledgers| == |s.pending| == n && s.clock >= DAY && s.pending[1] == None
    && Lookup(s.ledgers[1].credits, 0, 0) == k && Spent(s, 0) == MAX_CREDITS - 1 + k
    && Get(s.cache, CreditsKey(0), s.clock) == if k == 0 then None else Some(k)
  }

  lemma LateCheck(s: Fleet, n: nat, k: nat) returns (s': Fleet)
    requires Reachable(s, n) && LateState(s, n, k) && k < MAX_CREDITS
    ensures Reachable(s', n) && s' == s.(pending := s.pending[1 := Some(0)])
  {
    s' := s.(pending := s.pending[1 := Some(0)]);
    ReachNext(s, s', n, Check(1, 0));
  }

  lemma LateEntry(l: Ledger, cache: Cache, clock: Instant, k: nat)
    requires Lookup(l.credits, 0, 0) == k && Get(cache, CreditsKey(0), clock) == if k == 0 then None else Some(k)
    ensures
      var (l', cache') := RecordCredits(l, cache, 0, 1, clock);
      Lookup(l'.credits, 0, 0) == k + 1 && Get(cache', CreditsKey(0), clock) == Some(k + 1)
  {
  }

  lemma LateCredit(s: Fleet, n: nat, k: nat) returns (s': Fleet)
    requires Reachable(s, n) && LateState(s, n, k) && k < MAX_CREDITS
    ensures Reachable(s', n) && LateState(s', n, k + 1)
  {
    var checked := LateCheck(s, n, k);
    assert Counts(checked, 0) == Counts(s, 0);
    var (l', cache') := RecordCredits(s.ledgers[1], s.cache, 0, 1, s.clock);
    s' := checked.(ledgers := checked.ledgers[1 := l'], pending := checked.pending[1 := None], cache := cache');
    LateEntry(s.ledgers[1], s.cache, s.clock, k);
    ChargeCountsOne(s.ledgers[1], s.cache, 0, s.clock);
    RecordSpends(checked, s', 1);
    ReachNext(checked, s', n, Record(1));
  }

  lemma {:induction false} LateSpend(n: nat, k: nat) returns (s: Fleet)
    requires n >= 2 && k <= MAX_CREDITS
    ensures Reachable(s, n) && LateState(s, n, k)
  {
    if k == 0 {
      s := LateStart(n);
    } else {
      var s0 := LateSpend(n, k - 1);
      s := LateCredit(s0, n, k - 1);
    }
  }

  /**
   The condition of `CreditCap` is needed: checks for a day made after its entry has expired
   see only their own process's count, and two processes spend 399 credits of one day.
   */
  lemma LateChecksOverrun(n: nat)
    requires n >= 2
    ensures exists s :: Reachable(s, n) && s.budget.Credits? && Spent(s, 0) == 399
  {
    var s := LateSpend(n, MAX_CREDITS);
  }

  // ---------------------------------------------------------------------------
  // One process
  // ---------------------------------------------------------------------------

  ghost predicate AloneInv(s: Fleet, day: int) {
    && |s.ledgers| == |s.pending| == 1
    && var count := Lookup(Counters(s.budget, s.ledgers[0]), day, 0);
       && (Key(s.budget, day) in s.cache ==> s.cache[Key(s.budget, day)].value == count)
       && count + (if Waits(s, 0, day) then 1 else 0) <= Cap(s.budget)
  }

  lemma AloneStep(s: Fleet, s': Fleet, step: Step, day: int)
    requires AloneInv(s, day) && NextStep(s, s', step)
    ensures AloneInv(s', day)
  {
    if step.Record? {
      CountEffect(s.budget, s.ledgers[0], s.cache, s'.ledgers[0], s'.cache, s.pending[0].value, s.clock);
    }
  }

  lemma SumOfOne(s: seq<int>)
    requires |s| == 1
    ensures Sum(s) == s[0]
  {
    assert s[..0] == [];
  }

  /** A single process never counts more than 200 credits or 25 retries of a day, however late its checks. */
  lemma {:induction false} AloneCap(run: seq<Fleet>, i: nat, day: int)
    requires IsRun(run, 1) && i < |run|
    ensures AloneInv(run[i], day) && Spent(run[i], day) <= if run[i].budget.Credits? then 200 else 25
  {
    if i > 0 {
      AloneCap(run, i - 1, day);
      assert Next(run[i - 1], run[i - 1 + 1]);
      var step :| NextStep(run[i - 1], run[i], step);
      AloneStep(run[i - 1], run[i], step, day);
    }
    SumOfOne(Counts(run[i], day));
  }
}
