/**
 Retry suppression over runs of the dispatcher in N processes sharing the cache, and the
 daily retry counter.
 */
module SuppressionRuns {
  import opened UtcTime
  import opened CandleClock
  import opened RequestLedger
  import opened Dispatch
  import opened BatchEffects
  import opened DispatchRuns
  import opened Sums

  /** The `i`-th event is a batch recorded for `request` that failed. */
  predicate FailedAt(run: seq<Event>, did: seq<Outcome>, request: Request, i: nat)
    requires i < |run| == |did|
  {
    run[i].Batch? && Target(run[i]) == request && ReportIn(did[i]).Failed()
  }

  predicate SucceededAt(run: seq<Event>, did: seq<Outcome>, request: Request, i: nat)
    requires i < |run| == |did|
  {
    run[i].Batch? && Target(run[i]) == request && ReportIn(did[i]).Succeeded()
  }

  /** Failed batches recorded for `request`. */
  function Failures(run: seq<Event>, did: seq<Outcome>, request: Request, k: nat): nat
    requires k <= |run| == |did|
  {
    if k == 0 then 0
    else Failures(run, did, request, k - 1) + if FailedAt(run, did, request, k - 1) then 1 else 0
  }

  /** Those of process `p`. */
  function FailuresOf(run: seq<Event>, did: seq<Outcome>, request: Request, p: nat, k: nat): nat
    requires k <= |run| == |did|
  {
    if k == 0 then 0
    else
      FailuresOf(run, did, request, p, k - 1)
      + if run[k - 1].p == p && FailedAt(run, did, request, k - 1) then 1 else 0
  }

  /** Requests the failed batches sent. */
  function FailedRequests(run: seq<Event>, did: seq<Outcome>, request: Request, k: nat): nat
    requires k <= |run| == |did|
  {
    if k == 0 then 0
    else
      FailedRequests(run, did, request, k - 1)
      + if FailedAt(run, did, request, k - 1) then ReportIn(did[k - 1]).sent else 0
  }

  /** No batch succeeded for `request`. */
  predicate NoSuccess(run: seq<Event>, did: seq<Outcome>, request: Request)
    requires |run| == |did|
  {
    forall i: nat :: i < |run| ==> !SucceededAt(run, did, request, i)
  }

  /** A batch recorded for `request` ends at the close its task looked for. */
  predicate ChecksItself(e: Event, request: Request) {
    e.Batch? && Target(e) == request ==> e.expected == request
  }

  predicate CheckedForItself(run: seq<Event>, request: Request) {
    forall i :: 0 <= i < |run| ==> ChecksItself(run[i], request)
  }

  // ---------------------------------------------------------------------------
  // What one event means for one request
  // ---------------------------------------------------------------------------

  ghost predicate SuppressionStep(s: Group, s': Group, e: Event, did: Outcome, request: Request) {
    && DueStep(s, s', e, did)
    && (if e.Batch? && Target(e) == request && ReportIn(did).recorded then
          ReportIn(did).Failed() ==> CountsFailure(s.ledgers[e.p], s.cache, s'.ledgers[e.p], s'.cache, request, e.at)
        else SameSuppression(s.ledgers[e.p], s.cache, s'.ledgers[e.p], s'.cache, request))
    && (e.Look? && did.due ==> !IsSuppressed(s.ledgers[e.p], s.cache, e.expected, e.at))
  }

  lemma LookSuppression(s: Group, e: Event, request: Request)
    requires WellFormed(s, e) && e.Look?
    ensures SuppressionStep(s, After(s, e), e, Did(s, e), request)
  {
    StepDue(s, e);
    LookKeepsSuppression(s.ledgers[e.p], s.cache, e.expected.tf, e.at, request);
    LookKeepsSuppression(s.ledgers[e.p], s.cache, e.expected.tf, e.at, e.expected);
  }

  lemma BatchSuppression(s: Group, e: Event, request: Request)
    requires WellFormed(s, e) && e.Batch?
    ensures SuppressionStep(s, After(s, e), e, Did(s, e), request)
  {
    StepDue(s, e);
    if IsDue(s, e) {
      var l, report, nowUtc := s.ledgers[e.p], Did(s, e).report, Did(s, e).nowUtc;
      if Target(e) != request || !report.recorded {
        RecordedElsewhere(l, s.cache, Target(e), report, nowUtc, e.at, request);
      } else if report.Failed() {
        RecordedFailure(l, s.cache, Target(e), report, nowUtc, e.at);
      }
    }
  }

  lemma StepSuppression(s: Group, e: Event, request: Request)
    requires WellFormed(s, e)
    ensures SuppressionStep(s, After(s, e), e, Did(s, e), request)
  {
    match e
    case Look(_, _, _) => LookSuppression(s, e, request);
    case Batch(_, _, _, _, _, _) => BatchSuppression(s, e, request);
    case TaskEnds(_, _) => StepDue(s, e);
  }

  ghost predicate SuppressionAt(states: seq<Group>, run: seq<Event>, did: seq<Outcome>, request: Request, k: nat)
    requires k < |run| == |did| && |states| == |run| + 1
  {
    SuppressionStep(states[k], states[k + 1], run[k], did[k], request)
  }

  /** The states and outcomes of a run, as far as one request is concerned. */
  ghost predicate SuppressionTrace(states: seq<Group>, run: seq<Event>, did: seq<Outcome>, request: Request) {
    && |states| == |run| + 1 && |did| == |run|
    && forall k: nat :: k < |run| ==> SuppressionAt(states, run, did, request, k)
  }

  lemma SuppressionOf(states: seq<Group>, run: seq<Event>, did: seq<Outcome>, request: Request, k: nat)
    requires k < |run| == |did| && |states| == |run| + 1 && WellFormed(states[k], run[k])
    requires states[k + 1] == After(states[k], run[k]) && did[k] == Did(states[k], run[k])
    ensures SuppressionAt(states, run, did, request, k)
  {
    StepSuppression(states[k], run[k], request);
  }

  lemma RunSuppressionAt(s: Group, run: seq<Event>, request: Request, k: nat)
    requires IsRun(s, run) && k < |run|
    ensures SuppressionAt(States(s, run), run, Outcomes(s, run), request, k)
  {
    RunStep(s, run, k);
    SuppressionOf(States(s, run), run, Outcomes(s, run), request, k);
  }

  lemma RunSuppression(s: Group, run: seq<Event>, request: Request)
    requires IsRun(s, run)
    ensures SuppressionTrace(States(s, run), run, Outcomes(s, run), request)
  {
    forall k: nat | k < |run| ensures SuppressionAt(States(s, run), run, Outcomes(s, run), request, k) {
      RunSuppressionAt(s, run, request, k);
    }
  }

  /** A failed batch is at most two failed requests. */
  lemma {:induction false} RequestsOfBatches(
    states: seq<Group>, run: seq<Event>, did: seq<Outcome>, request: Request, k: nat)
    requires SuppressionTrace(states, run, did, request) && k <= |run|
    ensures FailedRequests(run, did, request, k) <= 2 * Failures(run, did, request, k)
  {
    if k > 0 {
      RequestsOfBatches(states, run, did, request, k - 1);
      assert SuppressionAt(states, run, did, request, k - 1);
    }
  }

  /**
   A success gives a close back its attempts: neither its process nor any other without a flag of
   its own is suppressed afterwards, and again the second failure suppresses and not the first.
   */
  lemma SuccessForgives(l: Ledger, cache: Cache, request: Request, other: Ledger, nowUtc: Instant, clock: Instant)
    requires !Lookup(other.suppressed, request, false)
    ensures
      var (l0, cache0) := RecordAttempt(l, cache, request, true, false, nowUtc, clock);
      var (l1, cache1) := RecordAttempt(l0, cache0, request, false, false, nowUtc, clock);
      var (l2, cache2) := RecordAttempt(l1, cache1, request, false, false, nowUtc, clock);
      && !IsSuppressed(l0, cache0, request, clock) && !IsSuppressed(other, cache0, request, clock)
      && !IsSuppressed(l1, cache1, request, clock) && !IsSuppressed(other, cache1, request, clock)
      && IsSuppressed(l2, cache2, request, clock) && IsSuppressed(other, cache2, request, clock)
  {
  }

  // ---------------------------------------------------------------------------
  // One process
  // ---------------------------------------------------------------------------

  /**
   Two recorded failures set a process's own flag, and a close found due had fewer.  Both hold
   of every process that starts empty.
   */
  ghost predicate OwnCount(s: Group, p: nat, request: Request) {
    && p < |s.ledgers| == |s.due|
    && var attempts := Lookup(s.ledgers[p].attempts, request, 0);
       && attempts <= MAX_ATTEMPTS && (attempts == MAX_ATTEMPTS ==> Lookup(s.ledgers[p].suppressed, request, false))
       && (request.tf in s.due[p] && s.due[p][request.tf].close == request.close ==> attempts < MAX_ATTEMPTS)
  }

  ghost function Attempts(s: Group, p: nat, request: Request): nat
    requires p < |s.ledgers|
  {
    Lookup(s.ledgers[p].attempts, request, 0)
  }

  lemma OwnStep(s: Group, s': Group, e: Event, did: Outcome, request: Request, p: nat)
    requires SuppressionStep(s, s', e, did, request) && OwnCount(s, p, request)
    requires e.p == p ==> ChecksItself(e, request) && !(e.Batch? && Target(e) == request && ReportIn(did).Succeeded())
    ensures OwnCount(s', p, request)
    ensures Attempts(s', p, request)
         == Attempts(s, p, request)
            + if e.p == p && e.Batch? && Target(e) == request && ReportIn(did).Failed() then 1 else 0
  {
  }

  /** `p` has no success for `request`, and looks for the close its own batches end at. */
  predicate OwnPart(run: seq<Event>, did: seq<Outcome>, request: Request, p: nat)
    requires |run| == |did|
  {
    forall i: nat :: i < |run| && run[i].p == p ==> ChecksItself(run[i], request) && !SucceededAt(run, did, request, i)
  }

  lemma {:induction false} TraceOwn(
    states: seq<Group>, run: seq<Event>, did: seq<Outcome>, request: Request, p: nat, k: nat)
    requires SuppressionTrace(states, run, did, request) && OwnPart(run, did, request, p)
    requires k <= |run| && OwnCount(states[0], p, request)
    ensures OwnCount(states[k], p, request)
    ensures Attempts(states[k], p, request) == Attempts(states[0], p, request) + FailuresOf(run, did, request, p, k)
  {
    if k > 0 {
      TraceOwn(states, run, did, request, p, k - 1);
      assert SuppressionAt(states, run, did, request, k - 1);
      OwnStep(states[k - 1], states[k], run[k - 1], did[k - 1], request, p);
    }
  }

  /**
   Between its own successes, with no limit in time, a process sends at most two failing
   batches for one close, counting those it had recorded before, whatever the other processes
   do, successes included.
   */
  lemma FailuresBetweenOwnSuccesses(s: Group, run: seq<Event>, request: Request, p: nat)
    requires IsRun(s, run) && OwnCount(s, p, request) && OwnPart(run, Outcomes(s, run), request, p)
    ensures Attempts(s, p, request) + FailuresOf(run, Outcomes(s, run), request, p, |run|) <= 2
  {
    RunSuppression(s, run, request);
    TraceOwn(States(s, run), run, Outcomes(s, run), request, p, |run|);
  }

  // ---------------------------------------------------------------------------
  // N processes
  // ---------------------------------------------------------------------------

  ghost function OwnFailures(run: seq<Event>, did: seq<Outcome>, request: Request, n: nat, k: nat): seq<int>
    requires k <= |run| == |did|
  {
    seq(n, p requires 0 <= p < n => FailuresOf(run, did, request, p, k))
  }

  lemma {:induction false} FailuresAddUp(run: seq<Event>, did: seq<Outcome>, request: Request, n: nat, k: nat)
    requires k <= |run| == |did| && forall i :: 0 <= i < |run| ==> run[i].p < n
    ensures Sum(OwnFailures(run, did, request, n, k)) == Failures(run, did, request, k)
  {
    var counts := OwnFailures(run, did, request, n, k);
    if k == 0 {
      SumBounds(counts, 0, 0);
    } else {
      FailuresAddUp(run, did, request, n, k - 1);
      var before, p := OwnFailures(run, did, request, n, k - 1), run[k - 1].p;
      if FailedAt(run, did, request, k - 1) {
        assert counts == before[p := before[p] + 1];
        SumUpdate(before, p, before[p] + 1);
      } else {
        assert counts == before;
      }
    }
  }

  /** So N processes send at most 2N failing batches between successes, which are at most 4N requests. */
  lemma FailuresBetweenSuccesses(s: Group, run: seq<Event>, request: Request)
    requires IsRun(s, run) && (forall p: nat :: p < |s.ledgers| ==> OwnCount(s, p, request))
    requires NoSuccess(run, Outcomes(s, run), request) && CheckedForItself(run, request)
    ensures Failures(run, Outcomes(s, run), request, |run|) <= 2 * |s.ledgers|
    ensures FailedRequests(run, Outcomes(s, run), request, |run|) <= 4 * |s.ledgers|
  {
    var did, n := Outcomes(s, run), |s.ledgers|;
    forall p: nat | p < n ensures OwnFailures(run, did, request, n, |run|)[p] <= MAX_ATTEMPTS {
      FailuresBetweenOwnSuccesses(s, run, request, p);
    }
    SumBounds(OwnFailures(run, did, request, n, |run|), 0, MAX_ATTEMPTS);
    FailuresAddUp(run, did, request, n, |run|);
    RunSuppression(s, run, request);
    RequestsOfBatches(States(s, run), run, did, request, |run|);
  }

  // ---------------------------------------------------------------------------
  // Batches that follow their look directly
  // ---------------------------------------------------------------------------

  /** The shared flag of `request` answers up to `end`. */
  ghost predicate FlaggedUntil(s: Group, request: Request, end: Instant) {
    var key := SuppressedKey(request);
    key in s.cache && s.cache[key].value != 0 && end <= s.cache[key].expires
  }

  /** 1 for each process that can fail once more without reaching the attempt limit. */
  ghost function FreshFlags(s: Group, request: Request): seq<int> {
    seq(|s.ledgers|, p requires 0 <= p < |s.ledgers| => if Attempts(s, p, request) + 1 < MAX_ATTEMPTS then 1 else 0)
  }

  /** Failures the processes still have between them before `end`. */
  ghost function Allowance(s: Group, request: Request, end: Instant): int {
    if FlaggedUntil(s, request, end) then 0 else Sum(FreshFlags(s, request)) + 1
  }

  lemma AllowanceBounds(s: Group, request: Request, end: Instant)
    ensures 0 <= Allowance(s, request, end) <= |s.ledgers| + 1
  {
    SumBounds(FreshFlags(s, request), 0, 1);
  }

  lemma FailureSpendsAllowance(s: Group, s': Group, p: nat, request: Request, t: Instant, end: Instant)
    requires OnlyProcess(s, s', p) && CountsFailure(s.ledgers[p], s.cache, s'.ledgers[p], s'.cache, request, t)
    requires !FlaggedUntil(s, request, end) && end <= t + DAY
    ensures Allowance(s', request, end) <= Allowance(s, request, end) - 1
  {
    var flags := FreshFlags(s, request);
    if flags[p] == 1 {
      assert FreshFlags(s', request) == flags[p := 0];
      SumUpdate(flags, p, 0);
    } else {
      SumBounds(flags, 0, 1);
    }
  }

  lemma SameAllowance(s: Group, s': Group, p: nat, request: Request, end: Instant)
    requires OnlyProcess(s, s', p) && SameSuppression(s.ledgers[p], s.cache, s'.ledgers[p], s'.cache, request)
    ensures Allowance(s', request, end) == Allowance(s, request, end)
  {
    assert FreshFlags(s', request) == FreshFlags(s, request);
  }

  /** A failing batch for `request` comes directly after its own task's look, with nothing in between. */
  predicate PromptAt(run: seq<Event>, did: seq<Outcome>, request: Request, k: nat)
    requires k < |run| == |did|
  {
    FailedAt(run, did, request, k) ==>
      k > 0 && run[k - 1].Look? && run[k - 1].p == run[k].p && run[k - 1].expected == request
        && did[k - 1] == Looked(true)
  }

  predicate Prompt(run: seq<Event>, did: seq<Outcome>, request: Request)
    requires |run| == |did|
  {
    forall k: nat :: k < |run| ==> PromptAt(run, did, request, k)
  }

  /** The look found no flag that lasts, and it left things as they were. */
  lemma LookedUnflagged(s: Group, s': Group, e: Event, did: Outcome, request: Request, end: Instant)
    requires SuppressionStep(s, s', e, did, request) && e.Look? && e.expected == request && did == Looked(true)
    requires e.at < end
    ensures !FlaggedUntil(s', request, end)
  {
  }

  lemma AllowanceStep(states: seq<Group>, run: seq<Event>, did: seq<Outcome>, request: Request, end: Instant, k: nat)
    requires SuppressionTrace(states, run, did, request) && Prompt(run, did, request) && NoSuccess(run, did, request)
    requires k < |run| && Chronological(run) && run[k].at < end <= run[k].at + DAY
    ensures Allowance(states[k + 1], request, end) + (if FailedAt(run, did, request, k) then 1 else 0)
         <= Allowance(states[k], request, end)
  {
    assert SuppressionAt(states, run, did, request, k) && PromptAt(run, did, request, k)
      && !SucceededAt(run, did, request, k);
    if FailedAt(run, did, request, k) {
      assert SuppressionAt(states, run, did, request, k - 1);
      LookedUnflagged(states[k - 1], states[k], run[k - 1], did[k - 1], request, end);
      FailureSpendsAllowance(states[k], states[k + 1], run[k].p, request, run[k].at, end);
    } else {
      SameAllowance(states[k], states[k + 1], run[k].p, request, end);
    }
  }

  lemma {:induction false} FailuresWithinAllowance(
    states: seq<Group>, run: seq<Event>, did: seq<Outcome>, request: Request, start: Instant, k: nat)
    requires SuppressionTrace(states, run, did, request) && Prompt(run, did, request) && NoSuccess(run, did, request)
    requires k <= |run| && Chronological(run) && forall i :: 0 <= i < |run| ==> start <= run[i].at < start + DAY
    ensures Failures(run, did, request, k) + Allowance(states[k], request, start + DAY)
         <= Allowance(states[0], request, start + DAY)
  {
    if k > 0 {
      FailuresWithinAllowance(states, run, did, request, start, k - 1);
      AllowanceStep(states, run, did, request, start + DAY, k - 1);
    }
  }

  /**
   From any state, N processes each of whose failing batches directly follows its look send at
   most N + 1 of them, so at most 2(N + 1) failing requests, in 24 hours without a success.
   */
  lemma FailedRequestBound(s: Group, run: seq<Event>, request: Request, start: Instant)
    requires IsRun(s, run) && Prompt(run, Outcomes(s, run), request) && NoSuccess(run, Outcomes(s, run), request)
    requires forall i :: 0 <= i < |run| ==> start <= run[i].at < start + DAY
    ensures Failures(run, Outcomes(s, run), request, |run|) <= |s.ledgers| + 1
    ensures FailedRequests(run, Outcomes(s, run), request, |run|) <= 2 * (|s.ledgers| + 1)
  {
    var states, did := States(s, run), Outcomes(s, run);
    RunSuppression(s, run, request);
    FailuresWithinAllowance(states, run, did, request, start, |run|);
    AllowanceBounds(states[0], request, start + DAY);
    AllowanceBounds(states[|run|], request, start + DAY);
    RequestsOfBatches(states, run, did, request, |run|);
  }

  // ---------------------------------------------------------------------------
  // The daily retry counter
  // ---------------------------------------------------------------------------

  /** A batch of a task of `day` that sent a second request. */
  predicate IsRetry(e: Event, did: Outcome, day: int) {
    e.Batch? && did.Ran? && did.report.Retried() && DayIndex(did.nowUtc) == day
  }

  /** A failed one: it is recorded as a retry. */
  predicate FailedRetry(e: Event, did: Outcome, day: int) {
    IsRetry(e, did, day) && did.report.Failed()
  }

  function FailedRetries(run: seq<Event>, did: seq<Outcome>, day: int, k: nat): nat
    requires k <= |run| == |did|
  {
    if k == 0 then 0
    else FailedRetries(run, did, day, k - 1) + if FailedRetry(run[k - 1], did[k - 1], day) then 1 else 0
  }

  ghost function RetryCounts(s: Group, day: int): seq<int> {
    seq(|s.ledgers|, p requires 0 <= p < |s.ledgers| => Lookup(s.ledgers[p].retries, day, 0))
  }

  /** `total` retries of `day` are recorded, locally and in the shared entry. */
  ghost predicate RetryInv(s: Group, day: int, total: nat) {
    var key := RetryCreditsKey(day);
    && (forall p :: 0 <= p < |s.ledgers| ==> RetryCounts(s, day)[p] >= 0)
    && Sum(RetryCounts(s, day)) == total
    && (key in s.cache ==> (day + 1) * DAY <= s.cache[key].expires)
    && (if key in s.cache then s.cache[key].value == total else total == 0)
  }

  ghost predicate RetriesStep(s: Group, s': Group, e: Event, did: Outcome, day: int) {
    && OnlyProcess(s, s', e.p) && (e.Batch? && did.Ran? ==> did.nowUtc <= e.at)
    && (FailedRetry(e, did, day) ==> DailyRetries(s.ledgers[e.p], s.cache, day, e.at) < MAX_RETRY_CREDITS)
    && if FailedRetry(e, did, day) then CountsRetry(s.ledgers[e.p], s.cache, s'.ledgers[e.p], s'.cache, day, e.at)
       else SameRetries(s.ledgers[e.p], s.cache, s'.ledgers[e.p], s'.cache, day)
  }

  lemma StepRetries(s: Group, e: Event, day: int)
    requires WellFormed(s, e)
    ensures RetriesStep(s, After(s, e), e, Did(s, e), day)
  {
    StepOnlyProcess(s, e);
    match e
    case Look(p, expected, at) => LookKeepsRetries(s.ledgers[p], s.cache, expected.tf, at, day);
    case Batch(p, _, _, _, _, at) =>
      if IsDue(s, e) {
        BatchRequests(s.ledgers[p], s.cache, Target(e), Did(s, e).nowUtc, at, e.first, e.second);
        RecordedRetries(s.ledgers[p], s.cache, Target(e), Did(s, e).report, Did(s, e).nowUtc, at, day);
      }
    case TaskEnds(_, _) =>
  }

  ghost predicate RetryEntryExpired(s: Group, day: int, t: Instant) {
    RetryCreditsKey(day) in s.cache && s.cache[RetryCreditsKey(day)].expires <= t
  }

  lemma RetryStep(s: Group, s': Group, e: Event, did: Outcome, day: int, total: nat)
    requires RetriesStep(s, s', e, did, day) && RetryInv(s, day, total)
    requires FailedRetry(e, did, day) ==> !RetryEntryExpired(s, day, e.at)
    ensures RetryInv(s', day, total + if FailedRetry(e, did, day) then 1 else 0)
  {
    var retries := RetryCounts(s, day);
    if FailedRetry(e, did, day) {
      assert RetryCounts(s', day) == retries[e.p := retries[e.p] + 1];
      SumUpdate(retries, e.p, retries[e.p] + 1);
      SummandBound(retries, e.p);
      assert day * DAY <= did.nowUtc <= e.at;
    } else {
      assert RetryCounts(s', day) == retries;
    }
  }

  ghost predicate RetriesAt(states: seq<Group>, run: seq<Event>, did: seq<Outcome>, day: int, k: nat)
    requires k < |run| == |did| && |states| == |run| + 1
  {
    RetriesStep(states[k], states[k + 1], run[k], did[k], day)
  }

  /** No batch of a task of `day` fails a retry once the day's entry has expired. */
  ghost predicate RetriesInTime(states: seq<Group>, run: seq<Event>, did: seq<Outcome>, day: int, k: nat)
    requires k <= |run| == |did| && |states| == |run| + 1
  {
    forall i: nat :: i < k && FailedRetry(run[i], did[i], day) ==> !RetryEntryExpired(states[i], day, run[i].at)
  }

  lemma {:induction false} TraceRetries(states: seq<Group>, run: seq<Event>, did: seq<Outcome>, day: int, k: nat)
    requires |states| == |run| + 1 && |did| == |run| && k <= |run| && RetryInv(states[0], day, 0)
    requires forall i: nat :: i < |run| ==> RetriesAt(states, run, did, day, i)
    requires RetriesInTime(states, run, did, day, k)
    ensures RetryInv(states[k], day, FailedRetries(run, did, day, k)) && |states[k].ledgers| == |states[0].ledgers|
  {
    if k > 0 {
      TraceRetries(states, run, did, day, k - 1);
      assert RetriesAt(states, run, did, day, k - 1);
      RetryStep(states[k - 1], states[k], run[k - 1], did[k - 1], day, FailedRetries(run, did, day, k - 1));
    }
  }

  lemma RetriesOf(states: seq<Group>, run: seq<Event>, did: seq<Outcome>, day: int, k: nat)
    requires k < |run| == |did| && |states| == |run| + 1 && WellFormed(states[k], run[k])
    requires states[k + 1] == After(states[k], run[k]) && did[k] == Did(states[k], run[k])
    ensures RetriesAt(states, run, did, day, k)
  {
    StepRetries(states[k], run[k], day);
  }

  lemma RunRetriesAt(s: Group, run: seq<Event>, day: int, k: nat)
    requires IsRun(s, run) && k < |run|
    ensures RetriesAt(States(s, run), run, Outcomes(s, run), day, k)
  {
    RunStep(s, run, k);
    RetriesOf(States(s, run), run, Outcomes(s, run), day, k);
  }

  lemma ReadsTotal(s: Group, day: int, total: nat, p: nat, t: Instant)
    requires RetryInv(s, day, total) && p < |s.ledgers| && !RetryEntryExpired(s, day, t)
    ensures DailyRetries(s.ledgers[p], s.cache, day, t) == total
  {
    SummandBound(RetryCounts(s, day), p);
  }

  lemma {:induction false} TraceRetryCap(states: seq<Group>, run: seq<Event>, did: seq<Outcome>, day: int, k: nat)
    requires |states| == |run| + 1 && |did| == |run| && k <= |run| && RetryInv(states[0], day, 0)
    requires forall i: nat :: i < |run| ==> RetriesAt(states, run, did, day, i)
    requires RetriesInTime(states, run, did, day, k)
    ensures FailedRetries(run, did, day, k) <= MAX_RETRY_CREDITS
  {
    if k > 0 {
      TraceRetryCap(states, run, did, day, k - 1);
      TraceRetries(states, run, did, day, k - 1);
      assert RetriesAt(states, run, did, day, k - 1);
      if FailedRetry(run[k - 1], did[k - 1], day) {
        ReadsTotal(states[k - 1], day, FailedRetries(run, did, day, k - 1), run[k - 1].p, run[k - 1].at);
      }
    }
  }

  ghost predicate AllEmpty(s: Group) {
    s.cache == map[] && forall q :: 0 <= q < |s.ledgers| ==> s.ledgers[q] == EMPTY_LEDGER
  }

  lemma RunRetries(s: Group, run: seq<Event>, day: int)
    requires IsRun(s, run) && AllEmpty(s)
    ensures RetryInv(States(s, run)[0], day, 0)
    ensures forall i: nat :: i < |run| ==> RetriesAt(States(s, run), run, Outcomes(s, run), day, i)
  {
    SumBounds(RetryCounts(s, day), 0, 0);
    forall i: nat | i < |run| ensures RetriesAt(States(s, run), run, Outcomes(s, run), day, i) {
      RunRetriesAt(s, run, day, i);
    }
  }

  /**
   With a batch as one step at most 25 batches of the tasks of a UTC day fail a retry, if none
   does once the day's entry has expired.  Retries that succeed are not counted.
   */
  lemma FailedRetryCap(s: Group, run: seq<Event>, day: int, k: nat)
    requires IsRun(s, run) && AllEmpty(s) && k <= |run|
    requires RetriesInTime(States(s, run), run, Outcomes(s, run), day, k)
    ensures FailedRetries(run, Outcomes(s, run), day, k) <= 25
  {
    RunRetries(s, run, day);
    TraceRetryCap(States(s, run), run, Outcomes(s, run), day, k);
  }

  /** A day's entry outlives the day, so retries made while the day lasts are in time. */
  lemma {:induction false} InTimeWhileItLasts(states: seq<Group>, run: seq<Event>, did: seq<Outcome>, day: int, k: nat)
    requires |states| == |run| + 1 && |did| == |run| && k <= |run| && RetryInv(states[0], day, 0)
    requires forall i: nat :: i < |run| ==> RetriesAt(states, run, did, day, i)
    requires forall i :: 0 <= i < k ==> run[i].at < (day + 1) * DAY
    ensures RetriesInTime(states, run, did, day, k)
  {
    if k > 0 {
      InTimeWhileItLasts(states, run, did, day, k - 1);
      TraceRetries(states, run, did, day, k - 1);
    }
  }

  /** While a UTC day lasts, every process reads the number of its failed batches recorded as retries. */
  lemma RetryCounterExact(s: Group, run: seq<Event>, day: int, k: nat, p: nat, t: Instant)
    requires IsRun(s, run) && AllEmpty(s) && k <= |run| && p < |s.ledgers|
    requires (forall i :: 0 <= i < k ==> run[i].at <= t) && t < (day + 1) * DAY
    ensures
      var now := States(s, run)[k];
      && |now.ledgers| == |s.ledgers|
      && DailyRetries(now.ledgers[p], now.cache, day, t) == FailedRetries(run, Outcomes(s, run), day, k)
  {
    RunRetries(s, run, day);
    InTimeWhileItLasts(States(s, run), run, Outcomes(s, run), day, k);
    TraceRetries(States(s, run), run, Outcomes(s, run), day, k);
    ReadsTotal(States(s, run)[k], day, FailedRetries(run, Outcomes(s, run), day, k), p, t);
  }
}
