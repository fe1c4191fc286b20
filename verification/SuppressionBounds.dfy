/** The bounds of `SuppressionRuns` are reached, and what they need of the dispatcher is needed. */
module SuppressionBounds {
  import opened Wrappers
  import opened UtcTime
  import opened CandleClock
  import opened RequestLedger
  import opened Dispatch
  import opened DispatchRuns
  import opened SuppressionRuns
  import opened Scheduler
  import opened Sums

  const RATE_LIMITED := Refused(true, false, false)
  const BROKEN := Refused(false, false, false)

  // ---------------------------------------------------------------------------
  // Failures counted event by event
  // ---------------------------------------------------------------------------

  /** A run of `failures` failed batches for `request`, with `requests` requests, and no success. */
  ghost predicate Counted(run: seq<Event>, did: seq<Outcome>, request: Request, failures: nat, requests: nat) {
    && |run| == |did| && NoSuccess(run, did, request)
    && Failures(run, did, request, |run|) == failures && FailedRequests(run, did, request, |run|) == requests
  }

  lemma {:induction false} CountsPrefix(
    run: seq<Event>, did: seq<Outcome>, e: Event, o: Outcome, request: Request, k: nat)
    requires k <= |run| == |did|
    ensures Failures(run + [e], did + [o], request, k) == Failures(run, did, request, k)
    ensures FailedRequests(run + [e], did + [o], request, k) == FailedRequests(run, did, request, k)
  {
    if k > 0 {
      CountsPrefix(run, did, e, o, request, k - 1);
    }
  }

  /** The event adds a failure. */
  function Fails(e: Event, o: Outcome, request: Request): bool {
    e.Batch? && Target(e) == request && ReportIn(o).Failed()
  }

  lemma CountsAppend(
    run: seq<Event>, did: seq<Outcome>, e: Event, o: Outcome, request: Request, failures: nat, requests: nat)
    requires Counted(run, did, request, failures, requests)
    requires !(e.Batch? && Target(e) == request && ReportIn(o).Succeeded())
    ensures
      var fails := Fails(e, o, request);
      Counted(run + [e], did + [o], request, failures + (if fails then 1 else 0),
              requests + if fails then ReportIn(o).sent else 0)
  {
    CountsPrefix(run, did, e, o, request, |run|);
    forall i: nat | i < |run| + 1 ensures !SucceededAt(run + [e], did + [o], request, i) {
      if i < |run| {
        assert !SucceededAt(run, did, request, i);
      }
    }
  }

  // ---------------------------------------------------------------------------
  // Groups in which every batch fails
  // ---------------------------------------------------------------------------

  /** Twenty seconds after a close, and a minute later. */
  const FIRST_ROUND := 20_000_000
  const SECOND_ROUND := 80_000_000

  function RoundTime(round: nat): Instant {
    if round == 0 then FIRST_ROUND else SECOND_ROUND
  }

  /** A ledger after `a` failed batches for `request`, each of one request or of two. */
  ghost function FailedLedger(request: Request, twice: bool, a: nat): Ledger {
    if a == 0 then EMPTY_LEDGER
    else
      EMPTY_LEDGER.(attempts := map[request := a], credits := map[0 := if twice then 2 * a else a],
                    retries := if twice then map[0 := a] else map[],
                    suppressed := if a < MAX_ATTEMPTS then map[] else map[request := true])
  }

  /** The cache after `b` such batches in all, with the shared flag or without. */
  ghost function FailedCache(request: Request, twice: bool, b: nat, flagged: bool): Cache {
    var credits: Cache := if b == 0 then map[]
      else map[CreditsKey(0) := CacheEntry(if twice then 2 * b else b, FIRST_ROUND + DAY)];
    var retries: Cache := if twice && b > 0 then map[RetryCreditsKey(0) := CacheEntry(b, FIRST_ROUND + DAY)] else map[];
    var flag: Cache := if flagged then map[SuppressedKey(request) := CacheEntry(1, SECOND_ROUND + DAY)] else map[];
    credits + retries + flag
  }

  ghost function FailingReport(twice: bool): Report {
    Report(if twice then 2 else 1, true, false, false)
  }

  ghost predicate RoomFor(twice: bool, b: nat) {
    if twice then b < MAX_RETRY_CREDITS else b < MAX_CREDITS
  }

  function Answer(twice: bool): Response {
    if twice then BROKEN else RATE_LIMITED
  }

  lemma FailedCacheEntries(request: Request, twice: bool, b: nat, flagged: bool, t: Instant)
    requires t < DAY
    ensures
      var cache := FailedCache(request, twice, b, flagged);
      && Get(cache, CreditsKey(0), t) == (if b == 0 then None else Some(if twice then 2 * b else b))
      && Get(cache, RetryCreditsKey(0), t) == (if twice && b > 0 then Some(b) else None)
      && Get(cache, SuppressedKey(request), t) == (if flagged then Some(1) else None)
      && (forall tf :: CircuitOpenKey(tf) !in cache)
  {
  }

  lemma FailingReports(request: Request, twice: bool, a: nat, b: nat, flagged: bool, t: Instant)
    requires a < MAX_ATTEMPTS && a <= b && RoomFor(twice, b) && 0 <= t < DAY && (twice ==> !flagged)
    ensures ReportOf(FailedLedger(request, twice, a), FailedCache(request, twice, b, flagged), request, t, t,
      Answer(twice), BROKEN)
         == FailingReport(twice)
  {
    FailedCacheEntries(request, twice, b, flagged, t);
    var l, cache := FailedLedger(request, twice, a), FailedCache(request, twice, b, flagged);
    var (l1, cache1) := Charge(l, cache, t, t);
    if twice {
      ChargedOnce(l, cache, t, 2 * b);
      assert Get(cache1, RetryCreditsKey(0), t) == Get(cache, RetryCreditsKey(0), t);
      assert Get(cache1, SuppressedKey(request), t) == None && l1.suppressed == map[];
    }
  }

  lemma ChargedOnce(l: Ledger, cache: Cache, t: Instant, spent: nat)
    requires 0 <= t < DAY
    requires Get(cache, CreditsKey(0), t) == (if spent == 0 then None else Some(spent))
    requires spent == 0 ==> Lookup(l.credits, 0, 0) == 0
    ensures
      var (l1, cache1) := Charge(l, cache, t, t);
      && Get(cache1, CreditsKey(0), t) == Some(spent + 1)
      && l1 == l.(credits := l.credits[0 := Lookup(l.credits, 0, 0) + 1])
      && cache1 == cache[CreditsKey(0) :=
           CacheEntry(spent + 1, if spent == 0 then t + DAY else cache[CreditsKey(0)].expires)]
  {
  }

  lemma PlainLedger(request: Request, twice: bool, a: nat)
    ensures
      var l := FailedLedger(request, twice, a);
      && l.circuitOpen == map[] && l.circuitUntil == map[]
      && Lookup(l.credits, 0, 0) == (if twice then 2 * a else a) && Lookup(l.retries, 0, 0) == (if twice then a else 0)
      && Lookup(l.attempts, request, 0) == a && Lookup(l.suppressed, request, false) == (a >= MAX_ATTEMPTS)
      && (forall x: int :: l.credits[0 := x] == map[0 := x])
        && (forall x: nat :: l.attempts[request := x] == map[request := x])
      && (twice ==> forall x: int :: l.retries[0 := x] == map[0 := x])
  {
  }

  ghost function WithCredits(cache: Cache, spent: nat): Cache {
    cache[CreditsKey(0) := CacheEntry(spent, FIRST_ROUND + DAY)]
  }

  lemma ChargeStep(l: Ledger, cache: Cache, t: Instant, spent: nat)
    requires 0 <= t < DAY
    requires (spent == 0 ==> t == FIRST_ROUND && Lookup(l.credits, 0, 0) == 0 && CreditsKey(0) !in cache)
    requires spent > 0 ==> CreditsKey(0) in cache && cache[CreditsKey(0)] == CacheEntry(spent, FIRST_ROUND + DAY)
    ensures Charge(l, cache, t, t)
      == (l.(credits := l.credits[0 := Lookup(l.credits, 0, 0) + 1]), WithCredits(cache, spent + 1))
  {
    ChargedOnce(l, cache, t, spent);
  }

  lemma ChargedOnceOnly(request: Request, a: nat, b: nat, flagged: bool, t: Instant)
    requires a <= b && 0 <= t < DAY && (b == 0 ==> t == FIRST_ROUND && !flagged)
    ensures
      var l, cache := FailedLedger(request, false, a), FailedCache(request, false, b, flagged);
      Charged(l, cache, 1, t, t) == (l.(credits := map[0 := a + 1]), WithCredits(cache, b + 1))
  {
    PlainLedger(request, false, a);
    ChargeStep(FailedLedger(request, false, a), FailedCache(request, false, b, flagged), t, b);
  }

  lemma ChargedTwice(request: Request, a: nat, b: nat, flagged: bool, t: Instant)
    requires a <= b && 0 <= t < DAY && (b == 0 ==> t == FIRST_ROUND && !flagged)
    ensures
      var l, cache := FailedLedger(request, true, a), FailedCache(request, true, b, flagged);
      Charged(l, cache, 2, t, t) == (l.(credits := map[0 := 2 * a + 2]), WithCredits(cache, 2 * b + 2))
  {
    var l, cache := FailedLedger(request, true, a), FailedCache(request, true, b, flagged);
    PlainLedger(request, true, a);
    ChargeStep(l, cache, t, 2 * b);
    var (l1, cache1) := Charge(l, cache, t, t);
    assert l1.credits == map[0 := 2 * a + 1];
    ChargeStep(l1, cache1, t, 2 * b + 1);
    assert l1.credits[0 := 2 * a + 2] == map[0 := 2 * a + 2];
    assert WithCredits(cache1, 2 * b + 2) == WithCredits(cache, 2 * b + 2);
  }

  lemma OnceRecorded(request: Request, a: nat, b: nat, flagged: bool)
    requires a < MAX_ATTEMPTS && a <= b && (a == 0 ==> !flagged)
    ensures
      var t := RoundTime(a);
      Recorded(FailedLedger(request, false, a), FailedCache(request, false, b, flagged), request, FailingReport(false),
        t, t)
        == (FailedLedger(request, false, a + 1), FailedCache(request, false, b + 1, a == 1))
  {
    var t, l, cache := RoundTime(a), FailedLedger(request, false, a), FailedCache(request, false, b, flagged);
    ChargedOnceOnly(request, a, b, flagged, t);
    PlainLedger(request, false, a);
    var l1, cache1 := l.(credits := map[0 := a + 1]), WithCredits(cache, b + 1);
    assert cache1 == FailedCache(request, false, b + 1, flagged);
    var (l2, cache2) := RecordAttempt(l1, cache1, request, false, false, t, t);
    assert l2 == FailedLedger(request, false, a + 1);
    assert cache2 == FailedCache(request, false, b + 1, a == 1);
  }

  lemma RetryBumped(local: map<int, int>, cache: Cache, b: nat, t: Instant)
    requires b > 0 ==> RetryCreditsKey(0) in cache && cache[RetryCreditsKey(0)] == CacheEntry(b, FIRST_ROUND + DAY)
    requires b == 0 ==> RetryCreditsKey(0) !in cache && t == FIRST_ROUND && Lookup(local, 0, 0) == 0
    requires 0 <= t < DAY
    ensures Bump(local, cache, RetryCreditsKey(0), 0, 1, t).1
         == cache[RetryCreditsKey(0) := CacheEntry(b + 1, FIRST_ROUND + DAY)]
  {
  }

  lemma TwiceCache(request: Request, b: nat, flagged: bool)
    ensures
      var charged := WithCredits(FailedCache(request, true, b, false), 2 * b + 2);
      var cache := charged[RetryCreditsKey(0) := CacheEntry(b + 1, FIRST_ROUND + DAY)];
      FailedCache(request, true, b + 1, flagged)
        == if flagged then cache[SuppressedKey(request) := CacheEntry(1, SECOND_ROUND + DAY)] else cache
  {
  }

  lemma TwiceRecorded(request: Request, a: nat, b: nat)
    requires a < MAX_ATTEMPTS && a <= b
    ensures
      var t := RoundTime(a);
      Recorded(FailedLedger(request, true, a), FailedCache(request, true, b, false), request, FailingReport(true), t, t)
        == (FailedLedger(request, true, a + 1), FailedCache(request, true, b + 1, a == 1))
  {
    var t, l, cache := RoundTime(a), FailedLedger(request, true, a), FailedCache(request, true, b, false);
    ChargedTwice(request, a, b, false, t);
    PlainLedger(request, true, a);
    TwiceCounted(request, a, b);
  }

  lemma TwiceCountedAt(l: Ledger, cache: Cache, request: Request, a: nat, t: Instant)
    requires Lookup(l.attempts, request, 0) == a < MAX_ATTEMPTS && DayIndex(t) == 0
    ensures
      var (retries, cache') := Bump(l.retries, cache, RetryCreditsKey(0), 0, 1, t);
      var counted := l.(attempts := l.attempts[request := a + 1], retries := retries);
      RecordFailure(l, cache, request, true, t, t)
        == if a == 1
           then (counted.(suppressed := l.suppressed[request := true]),
                 cache'[SuppressedKey(request) := CacheEntry(1, t + DAY)])
           else (counted, cache')
  {
  }

  lemma TwiceCounted(request: Request, a: nat, b: nat)
    requires a < MAX_ATTEMPTS && a <= b
    ensures
      var t, l := RoundTime(a), FailedLedger(request, true, a).(credits := map[0 := 2 * a + 2]);
      RecordFailure(l, WithCredits(FailedCache(request, true, b, false), 2 * b + 2), request, true, t, t)
        == (FailedLedger(request, true, a + 1), FailedCache(request, true, b + 1, a == 1))
  {
    var t, l := RoundTime(a), FailedLedger(request, true, a).(credits := map[0 := 2 * a + 2]);
    PlainLedger(request, true, a);
    TwiceCountedAt(l, WithCredits(FailedCache(request, true, b, false), 2 * b + 2), request, a, t);
    RetryBumped(l.retries, WithCredits(FailedCache(request, true, b, false), 2 * b + 2), b, t);
    TwiceCache(request, b, a == 1);
  }

  lemma FailureRecorded(request: Request, twice: bool, b: nat, flagged: bool, round: nat)
    requires round < MAX_ATTEMPTS && round <= b && (twice || round == 0 ==> !flagged)
    ensures
      var t := RoundTime(round);
      Recorded(FailedLedger(request, twice, round), FailedCache(request, twice, b, flagged), request,
        FailingReport(twice), t, t)
        == (FailedLedger(request, twice, round + 1), FailedCache(request, twice, b + 1, round == 1))
  {
    if twice {
      TwiceRecorded(request, round, b);
    } else {
      OnceRecorded(request, round, b, flagged);
    }
  }

  // ---------------------------------------------------------------------------
  // N processes in two rounds
  // ---------------------------------------------------------------------------

  /** Batches of the rounds before. */
  function DoneBefore(n: nat, round: nat): nat {
    if round == 0 then 0 else n
  }

  /** In this round the first `looked` processes have looked, and the first `failed` of them have failed. */
  ghost function RoundGroup(n: nat, request: Request, twice: bool, round: nat, looked: nat, failed: nat): Group {
    Group(seq(n, p requires 0 <= p < n => FailedLedger(request, twice, if p < failed then round + 1 else round)),
          seq(n, p requires 0 <= p < n =>
                if failed <= p < looked then map[request.tf := Due(request.close, RoundTime(round))] else map[]),
          FailedCache(request, twice, DoneBefore(n, round) + failed, round == 1 && failed > 0))
  }

  lemma NextRound(n: nat, request: Request, twice: bool)
    ensures RoundGroup(n, request, twice, 0, n, n) == RoundGroup(n, request, twice, 1, 0, 0)
    ensures RoundGroup(n, request, twice, 0, 0, 0) == Start(n)
  {
    var last, next := RoundGroup(n, request, twice, 0, n, n), RoundGroup(n, request, twice, 1, 0, 0);
    assert forall p :: 0 <= p < n ==> last.ledgers[p] == next.ledgers[p] && last.due[p] == next.due[p];
    assert last.ledgers == next.ledgers && last.due == next.due;
    var first := RoundGroup(n, request, twice, 0, 0, 0);
    assert FailedLedger(request, twice, 0) == EMPTY_LEDGER;
    assert forall p :: 0 <= p < n ==> first.ledgers[p] == Start(n).ledgers[p] && first.due[p] == Start(n).due[p];
    assert first.ledgers == Start(n).ledgers && first.due == Start(n).due;
    assert FailedCache(request, twice, 0, false) == map[];
  }

  lemma LooksDue(l: Ledger, cache: Cache, request: Request, twice: bool, a: nat, b: nat, t: Instant)
    requires l == FailedLedger(request, twice, a) && cache == FailedCache(request, twice, b, false)
    requires a < MAX_ATTEMPTS && a <= b && RoomFor(twice, b) && 0 <= t < DAY
    ensures CheckCircuit(l, cache, request.tf, t, t) == (false, l, cache)
    ensures CanConsume(l, cache, t, t) && !IsSuppressed(l, cache, request, t)
  {
    PlainLedger(request, twice, a);
    FailedCacheEntries(request, twice, b, false, t);
  }

  lemma RoundLook(n: nat, request: Request, twice: bool, round: nat, looked: nat, failed: nat)
    requires round <= 1 && failed <= looked < n && (round == 1 ==> failed == 0)
    requires RoomFor(twice, DoneBefore(n, round) + failed)
    ensures
      var s, e := RoundGroup(n, request, twice, round, looked, failed), Look(looked, request, RoundTime(round));
      && WellFormed(s, e) && Did(s, e) == Looked(true)
      && After(s, e) == RoundGroup(n, request, twice, round, looked + 1, failed)
  {
    var s, e := RoundGroup(n, request, twice, round, looked, failed), Look(looked, request, RoundTime(round));
    LooksDue(s.ledgers[looked], s.cache, request, twice, round, DoneBefore(n, round) + failed, e.at);
    RoundLookAfter(n, request, twice, round, looked, failed);
  }

  lemma RoundLookAfter(n: nat, request: Request, twice: bool, round: nat, looked: nat, failed: nat)
    requires round <= 1 && failed <= looked < n
    ensures
      var s, s' := RoundGroup(n, request, twice, round, looked, failed),
        RoundGroup(n, request, twice, round, looked + 1, failed);
      && s'.due == s.due[looked := s.due[looked][request.tf := Due(request.close, RoundTime(round))]]
      && s'.ledgers == s.ledgers[looked := s.ledgers[looked]] && s'.cache == s.cache
  {
  }

  ghost function FailingBatch(request: Request, twice: bool, round: nat, p: nat): Event {
    Event.Batch(p, request, request.close, Answer(twice), BROKEN, RoundTime(round))
  }

  lemma RoundBatchBefore(n: nat, request: Request, twice: bool, round: nat, looked: nat, failed: nat)
    requires round <= 1 && failed < looked <= n
    ensures
      var s, e := RoundGroup(n, request, twice, round, looked, failed), FailingBatch(request, twice, round, failed);
      && WellFormed(s, e) && IsDue(s, e) && Target(e) == request
      && s.due[failed][request.tf].lookedAt == RoundTime(round)
      && s.ledgers[failed] == FailedLedger(request, twice, round)
  {
  }

  lemma RoundBatch(n: nat, request: Request, twice: bool, round: nat, looked: nat, failed: nat)
    requires round <= 1 && failed < looked <= n && (round == 1 && twice ==> failed == 0)
    requires RoomFor(twice, DoneBefore(n, round) + failed)
    ensures
      var s, e := RoundGroup(n, request, twice, round, looked, failed), FailingBatch(request, twice, round, failed);
      && WellFormed(s, e) && Did(s, e) == Ran(FailingReport(twice), RoundTime(round))
      && After(s, e) == RoundGroup(n, request, twice, round, looked, failed + 1)
  {
    var b, flagged := DoneBefore(n, round) + failed, round == 1 && failed > 0;
    RoundBatchBefore(n, request, twice, round, looked, failed);
    RoundBatchAfter(n, request, twice, round, looked, failed);
    RoundBatchEnd(RoundGroup(n, request, twice, round, looked, failed),
                  RoundGroup(n, request, twice, round, looked, failed + 1),
                  request, twice, round, b, flagged, failed);
  }

  lemma RoundBatchEnd(s: Group, s': Group, request: Request, twice: bool, round: nat, b: nat, flagged: bool, p: nat)
    requires
      var e := FailingBatch(request, twice, round, p);
      && WellFormed(s, e) && IsDue(s, e) && s.due[p][request.tf].lookedAt == RoundTime(round)
    requires s.ledgers[p] == FailedLedger(request, twice, round) && s.cache == FailedCache(request, twice, b, flagged)
    requires round <= 1 && round <= b && RoomFor(twice, b) && (twice || round == 0 ==> !flagged)
    requires
      && s'.ledgers == s.ledgers[p := FailedLedger(request, twice, round + 1)]
      && s'.due == s.due[p := s.due[p] - {request.tf}] && s'.cache == FailedCache(request, twice, b + 1, round == 1)
    ensures Did(s, FailingBatch(request, twice, round, p)) == Ran(FailingReport(twice), RoundTime(round))
    ensures After(s, FailingBatch(request, twice, round, p)) == s'
  {
    FailingReports(request, twice, round, b, flagged, RoundTime(round));
    FailureRecorded(request, twice, b, flagged, round);
    BatchOf(s, FailingBatch(request, twice, round, p), s', FailingReport(twice), RoundTime(round));
  }

  lemma RoundBatchAfter(n: nat, request: Request, twice: bool, round: nat, looked: nat, failed: nat)
    requires round <= 1 && failed < looked <= n
    ensures
      var s, s' := RoundGroup(n, request, twice, round, looked, failed),
        RoundGroup(n, request, twice, round, looked, failed + 1);
      && s'.ledgers == s.ledgers[failed := FailedLedger(request, twice, round + 1)]
      && s'.due == s.due[failed := s.due[failed] - {request.tf}]
      && s'.cache == FailedCache(request, twice, DoneBefore(n, round) + failed + 1, round == 1)
  {
    var s, s' := RoundGroup(n, request, twice, round, looked, failed),
      RoundGroup(n, request, twice, round, looked, failed + 1);
    assert s'.due[failed] == s.due[failed] - {request.tf};
  }

  // ---------------------------------------------------------------------------
  // 2N batches
  // ---------------------------------------------------------------------------

  ghost predicate FailsAlone(
    n: nat, request: Request, run: seq<Event>, did: seq<Outcome>, w: Group, t: Instant, failures: nat
  ) {
    Reaches(n, run, did, w, t) && Counted(run, did, request, failures, failures) && CheckedForItself(run, request)
  }

  lemma FailsAloneAppend(
    n: nat, request: Request, run: seq<Event>, did: seq<Outcome>, w: Group, t: Instant, failures: nat,
    e: Event, w': Group, o: Outcome)
    requires FailsAlone(n, request, run, did, w, t, failures) && e.p < n && t <= e.at && ChecksItself(e, request)
    requires WellFormed(w, e) && After(w, e) == w' && Did(w, e) == o
    requires o == Looked(true) || (o.Ran? && o.report == FailingReport(false) && e.Batch? && Target(e) == request)
    ensures FailsAlone(n, request, run + [e], did + [o], w', e.at, failures + if o.Ran? then 1 else 0)
  {
    ReachesNext(n, run, did, w, t, e, w', o);
    CountsAppend(run, did, e, o, request, failures, failures);
  }

  lemma {:induction false} AllLook(
    n: nat, request: Request, round: nat, run: seq<Event>, did: seq<Outcome>, t: Instant, failures: nat, k: nat)
      returns (run': seq<Event>, did': seq<Outcome>)
    requires round <= 1 && k <= n && RoomFor(false, DoneBefore(n, round)) && t <= RoundTime(round)
    requires FailsAlone(n, request, run, did, RoundGroup(n, request, false, round, 0, 0), t, failures)
    ensures FailsAlone(n, request, run', did', RoundGroup(n, request, false, round, k, 0),
                       if k == 0 then t else RoundTime(round), failures)
  {
    if k == 0 {
      run', did' := run, did;
    } else {
      var shorter, before := AllLook(n, request, round, run, did, t, failures, k - 1);
      RoundLook(n, request, false, round, k - 1, 0);
      var e := Look(k - 1, request, RoundTime(round));
      FailsAloneAppend(n, request, shorter, before, RoundGroup(n, request, false, round, k - 1, 0),
                       if k == 1 then t else RoundTime(round), failures, e,
                       RoundGroup(n, request, false, round, k, 0), Looked(true));
      run', did' := shorter + [e], before + [Looked(true)];
    }
  }

  lemma {:induction false} AllFail(
    n: nat, request: Request, round: nat, run: seq<Event>, did: seq<Outcome>, failures: nat, k: nat)
      returns (run': seq<Event>, did': seq<Outcome>)
    requires round <= 1 && k <= n && (k > 0 ==> RoomFor(false, DoneBefore(n, round) + k - 1))
    requires FailsAlone(n, request, run, did, RoundGroup(n, request, false, round, n, 0), RoundTime(round), failures)
    ensures FailsAlone(n, request, run', did', RoundGroup(n, request, false, round, n, k), RoundTime(round),
      failures + k)
  {
    if k == 0 {
      run', did' := run, did;
    } else {
      var shorter, before := AllFail(n, request, round, run, did, failures, k - 1);
      RoundBatch(n, request, false, round, n, k - 1);
      var e, o := FailingBatch(request, false, round, k - 1), Ran(FailingReport(false), RoundTime(round));
      FailsAloneAppend(n, request, shorter, before, RoundGroup(n, request, false, round, n, k - 1), RoundTime(round),
                       failures + k - 1, e, RoundGroup(n, request, false, round, n, k), o);
      run', did' := shorter + [e], before + [o];
    }
  }

  lemma StartReached(n: nat, request: Request)
    ensures Reaches(n, [], [], Start(n), FIRST_ROUND) && Counted([], [], request, 0, 0) && CheckedForItself([], request)
    ensures Prompt([], [], request)
  {
  }

  /**
   2N is reached within a minute: all processes look, all fail, all look again and all fail
   again, as long as the daily budget lasts.
   */
  lemma TwoEachIsReached(n: nat, request: Request)
    requires 0 < n && 2 * n <= MAX_CREDITS
    ensures exists run ::
      && IsRun(Start(n), run) && CheckedForItself(run, request) && NoSuccess(run, Outcomes(Start(n), run), request)
      && Failures(run, Outcomes(Start(n), run), request, |run|) == 2 * n
  {
    StartReached(n, request);
    NextRound(n, request, false);
    var run1, did1 := AllLook(n, request, 0, [], [], FIRST_ROUND, 0, n);
    var run2, did2 := AllFail(n, request, 0, run1, did1, 0, n);
    var run3, did3 := AllLook(n, request, 1, run2, did2, FIRST_ROUND, n, n);
    var run4, did4 := AllFail(n, request, 1, run3, did3, n, n);
    assert Outcomes(Start(n), run4) == did4;
  }

  // ---------------------------------------------------------------------------
  // N + 1 prompt batches
  // ---------------------------------------------------------------------------

  ghost predicate FailsPromptly(
    n: nat, request: Request, run: seq<Event>, did: seq<Outcome>, w: Group, t: Instant, failures: nat, requests: nat) {
    Reaches(n, run, did, w, t) && Counted(run, did, request, failures, requests) && Prompt(run, did, request)
  }

  /** A look and the failing batch that follows it. */
  lemma PromptPair(run: seq<Event>, did: seq<Outcome>, look: Event, batch: Event, o: Outcome, request: Request)
    requires |run| == |did| && Prompt(run, did, request)
    requires look.Look? && batch.p == look.p && look.expected == request
    ensures Prompt((run + [look]) + [batch], (did + [Looked(true)]) + [o], request)
  {
    var run', did' := (run + [look]) + [batch], (did + [Looked(true)]) + [o];
    forall k: nat | k < |run'| ensures PromptAt(run', did', request, k) {
      if k < |run| {
        assert PromptAt(run, did, request, k);
      }
    }
  }

  lemma LookReaches(
    n: nat, request: Request, twice: bool, round: nat, looked: nat, failed: nat, run: seq<Event>, did: seq<Outcome>,
    t: Instant)
    requires round <= 1 && failed <= looked < n && (round == 1 ==> failed == 0)
    requires RoomFor(twice, DoneBefore(n, round) + failed) && t <= RoundTime(round)
    requires Reaches(n, run, did, RoundGroup(n, request, twice, round, looked, failed), t)
    ensures Reaches(n, run + [Look(looked, request, RoundTime(round))], did + [Looked(true)],
                   RoundGroup(n, request, twice, round, looked + 1, failed), RoundTime(round))
  {
    RoundLook(n, request, twice, round, looked, failed);
    ReachesNext(n, run, did, RoundGroup(n, request, twice, round, looked, failed), t,
               Look(looked, request, RoundTime(round)),
               RoundGroup(n, request, twice, round, looked + 1, failed), Looked(true));
  }

  lemma BatchReaches(
    n: nat, request: Request, twice: bool, round: nat, looked: nat, failed: nat, run: seq<Event>, did: seq<Outcome>)
    requires round <= 1 && failed < looked <= n && (round == 1 && twice ==> failed == 0)
    requires RoomFor(twice, DoneBefore(n, round) + failed)
    requires Reaches(n, run, did, RoundGroup(n, request, twice, round, looked, failed), RoundTime(round))
    ensures Reaches(n, run + [FailingBatch(request, twice, round, failed)],
                   did + [Ran(FailingReport(twice), RoundTime(round))],
                   RoundGroup(n, request, twice, round, looked, failed + 1), RoundTime(round))
  {
    RoundBatch(n, request, twice, round, looked, failed);
    ReachesNext(n, run, did, RoundGroup(n, request, twice, round, looked, failed), RoundTime(round),
               FailingBatch(request, twice, round, failed),
               RoundGroup(n, request, twice, round, looked, failed + 1), Ran(FailingReport(twice), RoundTime(round)));
  }

  lemma PromptReaches(
    n: nat, request: Request, twice: bool, round: nat, p: nat, run: seq<Event>, did: seq<Outcome>, t: Instant)
    requires round <= 1 && p < n && (round == 1 ==> p == 0) && RoomFor(twice, DoneBefore(n, round) + p)
    requires t <= RoundTime(round)
    requires Reaches(n, run, did, RoundGroup(n, request, twice, round, p, p), t)
    ensures
      var look, batch := Look(p, request, RoundTime(round)), FailingBatch(request, twice, round, p);
      Reaches(n, (run + [look]) + [batch], (did + [Looked(true)]) + [Ran(FailingReport(twice), RoundTime(round))],
             RoundGroup(n, request, twice, round, p + 1, p + 1), RoundTime(round))
  {
    LookReaches(n, request, twice, round, p, p, run, did, t);
    BatchReaches(n, request, twice, round, p + 1, p, run + [Look(p, request, RoundTime(round))], did + [Looked(true)]);
  }

  lemma PromptFailure(
    n: nat, request: Request, twice: bool, round: nat, p: nat, run: seq<Event>, did: seq<Outcome>, t: Instant,
    failures: nat, requests: nat)
      returns (run': seq<Event>, did': seq<Outcome>)
    requires round <= 1 && p < n && (round == 1 ==> p == 0) && RoomFor(twice, DoneBefore(n, round) + p)
    requires t <= RoundTime(round)
    requires FailsPromptly(n, request, run, did, RoundGroup(n, request, twice, round, p, p), t, failures, requests)
    ensures FailsPromptly(n, request, run', did', RoundGroup(n, request, twice, round, p + 1, p + 1), RoundTime(round),
                          failures + 1, requests + FailingReport(twice).sent)
  {
    var look, batch := Look(p, request, RoundTime(round)), FailingBatch(request, twice, round, p);
    var o := Ran(FailingReport(twice), RoundTime(round));
    PromptReaches(n, request, twice, round, p, run, did, t);
    CountsAppend(run, did, look, Looked(true), request, failures, requests);
    CountsAppend(run + [look], did + [Looked(true)], batch, o, request, failures, requests);
    PromptPair(run, did, look, batch, o, request);
    run', did' := (run + [look]) + [batch], (did + [Looked(true)]) + [o];
  }

  lemma PromptStart(n: nat, request: Request, twice: bool)
    ensures FailsPromptly(n, request, [], [], RoundGroup(n, request, twice, 0, 0, 0), FIRST_ROUND, 0, 0)
  {
    StartReached(n, request);
    NextRound(n, request, twice);
  }

  lemma OneMore(k: nat, sent: nat)
    ensures k * sent + sent == (k + 1) * sent
  {
  }

  lemma {:induction false} PromptRound(
    n: nat, request: Request, twice: bool, k: nat) returns (run: seq<Event>, did: seq<Outcome>)
    requires k <= n && RoomFor(twice, n)
    ensures FailsPromptly(n, request, run, did, RoundGroup(n, request, twice, 0, k, k), FIRST_ROUND, k,
      k * FailingReport(twice).sent)
  {
    if k == 0 {
      PromptStart(n, request, twice);
      run, did := [], [];
    } else {
      OneMore(k - 1, FailingReport(twice).sent);
      run, did := PromptRound(n, request, twice, k - 1);
      run, did := PromptFailure(n, request, twice, 0, k - 1, run, did, FIRST_ROUND, k - 1,
        (k - 1) * FailingReport(twice).sent);
    }
  }

  /** N + 1 prompt failing batches, and 2(N + 1) failing requests, are reached as far as the budgets go. */
  lemma PromptBoundIsReached(n: nat, request: Request, twice: bool)
    requires n > 0 && RoomFor(twice, n)
    ensures exists run ::
      && IsRun(Start(n), run) && Prompt(run, Outcomes(Start(n), run), request)
      && NoSuccess(run, Outcomes(Start(n), run), request)
      && Failures(run, Outcomes(Start(n), run), request, |run|) == n + 1
      && FailedRequests(run, Outcomes(Start(n), run), request, |run|) == (n + 1) * (if twice then 2 else 1)
  {
    NextRound(n, request, twice);
    var run1, did1 := PromptRound(n, request, twice, n);
    var run, did := PromptFailure(n, request, twice, 1, 0, run1, did1, FIRST_ROUND, n, n * FailingReport(twice).sent);
    assert Outcomes(Start(n), run) == did;
  }

  // ---------------------------------------------------------------------------
  // Batches recorded for a close nobody looked for
  // ---------------------------------------------------------------------------

  /** The daily close of day 0, looked for once a minute from twenty seconds after it. */
  const DAILY := Request(D1, 0)

  function MinuteTime(k: nat): Instant {
    FIRST_ROUND + k * MINUTE
  }

  /** One process that recovers a gap of days by batches ending at `ends`, after `k` of them have failed. */
  ghost function EarlierGroup(ends: Instant, k: nat, looked: bool): Group {
    var ended := Request(D1, ends);
    var flag: Cache := if k < MAX_ATTEMPTS then map[]
      else map[SuppressedKey(ended) := CacheEntry(1, MinuteTime(k - 1) + DAY)];
    var credits: Cache := if k == 0 then map[] else map[CreditsKey(0) := CacheEntry(k, FIRST_ROUND + DAY)];
    Group([FailedLedger(ended, false, 0).(
             attempts := if k == 0 then map[] else map[ended := k], credits := if k == 0 then map[] else map[0 := k],
             suppressed := if k < MAX_ATTEMPTS then map[] else map[ended := true])],
          [if looked then map[D1 := Due(0, MinuteTime(k))] else map[]], flag + credits)
  }

  lemma EarlierEntries(ends: Instant, k: nat, looked: bool)
    requires k < MAX_CREDITS
    ensures
      var s, t := EarlierGroup(ends, k, looked), MinuteTime(k);
      && 0 <= t < DAY && DayIndex(t) == 0 && |s.ledgers| == |s.due| == 1
      && Get(s.cache, CreditsKey(0), t) == (if k == 0 then None else Some(k)) && Lookup(s.ledgers[0].credits, 0, 0) == k
      && CircuitOpenKey(D1) !in s.cache && s.ledgers[0].circuitOpen == map[]
      && (ends != 0 ==> SuppressedKey(DAILY) !in s.cache && !Lookup(s.ledgers[0].suppressed, DAILY, false))
  {
  }

  lemma EarlierLook(ends: Instant, k: nat)
    requires k < MAX_CREDITS && ends != 0
    ensures
      var s, e := EarlierGroup(ends, k, false), Look(0, DAILY, MinuteTime(k));
      WellFormed(s, e) && Did(s, e) == Looked(true) && After(s, e) == EarlierGroup(ends, k, true)
  {
    var s, e := EarlierGroup(ends, k, false), Look(0, DAILY, MinuteTime(k));
    EarlierEntries(ends, k, false);
    assert CheckCircuit(s.ledgers[0], s.cache, D1, e.at, e.at) == (false, s.ledgers[0], s.cache);
    assert s.due[0][D1 := Due(0, e.at)] == map[D1 := Due(0, e.at)];
    assert s.ledgers[0 := s.ledgers[0]] == s.ledgers;
  }

  lemma EarlierCharged(ends: Instant, k: nat)
    requires k < MAX_CREDITS
    ensures
      var s, t := EarlierGroup(ends, k, true), MinuteTime(k);
      Charge(s.ledgers[0], s.cache, t, t)
        == (s.ledgers[0].(credits := map[0 := k + 1]), s.cache[CreditsKey(0) := CacheEntry(k + 1, FIRST_ROUND + DAY)])
  {
    var s, t := EarlierGroup(ends, k, true), MinuteTime(k);
    EarlierEntries(ends, k, true);
    ChargedOnce(s.ledgers[0], s.cache, t, k);
    assert s.ledgers[0].credits[0 := k + 1] == map[0 := k + 1];
  }

  lemma EarlierRecorded(ends: Instant, k: nat)
    requires k < MAX_CREDITS
    ensures
      var s, t := EarlierGroup(ends, k, true), MinuteTime(k);
      Recorded(s.ledgers[0], s.cache, Request(D1, ends), Report(1, true, false, false), t, t)
        == (EarlierGroup(ends, k + 1, false).ledgers[0], EarlierGroup(ends, k + 1, false).cache)
  {
    var s, t, ended := EarlierGroup(ends, k, true), MinuteTime(k), Request(D1, ends);
    EarlierCharged(ends, k);
    var l1, cache1 := s.ledgers[0].(credits := map[0 := k + 1]),
      s.cache[CreditsKey(0) := CacheEntry(k + 1, FIRST_ROUND + DAY)];
    var (l2, cache2) := RecordAttempt(l1, cache1, ended, false, false, t, t);
    assert l2.attempts == map[ended := k + 1];
    assert l2 == EarlierGroup(ends, k + 1, false).ledgers[0];
    assert cache2 == EarlierGroup(ends, k + 1, false).cache;
  }

  ghost function EarlierBatch(ends: Instant, k: nat): Event {
    Event.Batch(0, DAILY, ends, RATE_LIMITED, BROKEN, MinuteTime(k))
  }

  lemma EarlierReported(ends: Instant, k: nat)
    requires k < MAX_CREDITS
    ensures
      var s, t := EarlierGroup(ends, k, true), MinuteTime(k);
      ReportOf(s.ledgers[0], s.cache, Request(D1, ends), t, t, RATE_LIMITED, BROKEN) == Report(1, true, false, false)
  {
    EarlierEntries(ends, k, true);
  }

  lemma EarlierFails(ends: Instant, k: nat)
    requires k < MAX_CREDITS
    ensures
      var s, e := EarlierGroup(ends, k, true), EarlierBatch(ends, k);
      WellFormed(s, e) && Did(s, e) == Ran(Report(1, true, false, false), MinuteTime(k))
        && After(s, e) == EarlierGroup(ends, k + 1, false)
  {
    var s, e, s' := EarlierGroup(ends, k, true), EarlierBatch(ends, k), EarlierGroup(ends, k + 1, false);
    EarlierReported(ends, k);
    EarlierRecorded(ends, k);
    assert s.due[0] - {D1} == map[];
    assert s'.due == s.due[0 := s.due[0] - {D1}] && s'.ledgers == s.ledgers[0 := s'.ledgers[0]];
    BatchOf(s, e, s', Report(1, true, false, false), MinuteTime(k));
  }

  lemma EarlierStart(ends: Instant)
    ensures EarlierGroup(ends, 0, false) == Start(1)
  {
    assert EarlierGroup(ends, 0, false).ledgers == Start(1).ledgers && EarlierGroup(ends, 0, false).due == Start(1).due;
  }

  lemma DailyLookInTime(k: nat)
    requires k < MAX_CREDITS
    ensures LatestClosed(D1, MinuteTime(k) - POST_CLOSE_DELAY, None) == Ok(0)
  {
    assert 0 <= MinuteTime(k) - POST_CLOSE_DELAY < DAY;
    DayParts(MinuteTime(k) - POST_CLOSE_DELAY, 0, MinuteTime(k) - POST_CLOSE_DELAY);
  }

  lemma EarlierReaches(ends: Instant, k: nat, run: seq<Event>, did: seq<Outcome>, t: Instant)
    requires k < MAX_CREDITS && ends != 0 && t <= MinuteTime(k) && Reaches(1, run, did, EarlierGroup(ends, k, false), t)
    ensures Reaches(1, (run + [Look(0, DAILY, MinuteTime(k))]) + [EarlierBatch(ends, k)],
                   (did + [Looked(true)]) + [Ran(Report(1, true, false, false), MinuteTime(k))],
                   EarlierGroup(ends, k + 1, false), MinuteTime(k))
  {
    var look, batch, o := Look(0, DAILY, MinuteTime(k)), EarlierBatch(ends, k),
      Ran(Report(1, true, false, false), MinuteTime(k));
    EarlierLook(ends, k);
    ReachesNext(1, run, did, EarlierGroup(ends, k, false), t, look, EarlierGroup(ends, k, true), Looked(true));
    EarlierFails(ends, k);
    ReachesNext(1, run + [look], did + [Looked(true)], EarlierGroup(ends, k, true), MinuteTime(k), batch,
      EarlierGroup(ends, k + 1, false), o);
  }

  lemma EarlierCounts(ends: Instant, k: nat, run: seq<Event>, did: seq<Outcome>)
    requires Counted(run, did, Request(D1, ends), k, k)
    ensures Counted((run + [Look(0, DAILY, MinuteTime(k))]) + [EarlierBatch(ends, k)],
                    (did + [Looked(true)]) + [Ran(Report(1, true, false, false), MinuteTime(k))],
                    Request(D1, ends), k + 1, k + 1)
  {
    var look, batch, o := Look(0, DAILY, MinuteTime(k)), EarlierBatch(ends, k),
      Ran(Report(1, true, false, false), MinuteTime(k));
    CountsAppend(run, did, look, Looked(true), Request(D1, ends), k, k);
    CountsAppend(run + [look], did + [Looked(true)], batch, o, Request(D1, ends), k, k);
  }

  lemma EarlierInTime(ends: Instant, k: nat, run: seq<Event>)
    requires k < MAX_CREDITS && LooksInTime(run)
    ensures LooksInTime((run + [Look(0, DAILY, MinuteTime(k))]) + [EarlierBatch(ends, k)])
  {
    DailyLookInTime(k);
  }

  lemma {:induction false} EarlierRun(ends: Instant, n: nat) returns (run: seq<Event>, did: seq<Outcome>)
    requires n <= MAX_CREDITS && ends != 0
    ensures Reaches(1, run, did, EarlierGroup(ends, n, false), if n == 0 then FIRST_ROUND else MinuteTime(n - 1))
    ensures Counted(run, did, Request(D1, ends), n, n) && LooksInTime(run)
  {
    if n == 0 {
      StartReached(1, Request(D1, ends));
      EarlierStart(ends);
      run, did := [], [];
    } else {
      var k := n - 1;
      run, did := EarlierRun(ends, k);
      EarlierReaches(ends, k, run, did, if k == 0 then FIRST_ROUND else MinuteTime(k - 1));
      EarlierCounts(ends, k, run, did);
      EarlierInTime(ends, k, run);
      var o := Ran(Report(1, true, false, false), MinuteTime(k));
      run, did := (run + [Look(0, DAILY, MinuteTime(k))]) + [EarlierBatch(ends, k)], (did + [Looked(true)]) + [o];
    }
  }

  /**
   A batch that ends before the expected close is recorded for its own end, and nobody looks
   for that: suppression never stops it, and one process repeats it every minute until the
   day's credits are spent.
   */
  lemma UncheckedBatchesRepeat(n: nat, ends: Instant)
    requires n <= MAX_CREDITS && ends != 0
    ensures exists run ::
      && IsRun(Start(1), run) && LooksInTime(run)
      && Failures(run, Outcomes(Start(1), run), Request(D1, ends), |run|) == n
  {
    var run, did := EarlierRun(ends, n);
    assert Outcomes(Start(1), run) == did;
  }

  /** Such batches are planned: 52 missing days are fetched by 20, so the first batch ends 32 days early. */
  lemma EarlierBatchesArePlanned(batches: seq<Scheduler.Batch>)
    requires Tiles(batches, -52 * DAY, BarLength(D1), 20) && Sum(Bars(batches)) == 52
    ensures NeedsBatches(D1, 0, Some(-52 * DAY)) && MissingBars(0, -52 * DAY, BarLength(D1)) == 52
    ensures |batches| == 3 && batches[0].end == -32 * DAY
  {
    RecoveryPlanExact(batches, -52 * DAY, 0, BarLength(D1), 20);
    assert FollowsOn(batches, 0, -52 * DAY, BarLength(D1), 20);
  }
}
