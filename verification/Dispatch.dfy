/**
 One batch of the ingestion dispatcher: the gate it passes, its request and the one retry
 it may make at once, and what is recorded of them.
 */
module Dispatch {
  import opened UtcTime
  import opened RequestLedger

  /** A provider's answer; a refusal is classified by what its reason mentions. */
  datatype Response = Delivered | Refused(rateLimited: bool, noData: bool, noUsableData: bool)

  /** Requests sent, and the one attempt recorded of them, if any. */
  datatype Report = Report(sent: nat, recorded: bool, success: bool, tripped: bool) {
    /** A second request was sent and the attempt recorded as a retry. */
    predicate Retried() {
      sent == 2
    }

    predicate Failed() {
      recorded && !success
    }

    predicate Succeeded() {
      recorded && success
    }
  }

  const NOTHING_SENT := Report(0, false, false, false)

  predicate SaysNoData(r: Response) {
    r.Refused? && (r.noData || r.noUsableData)
  }

  /** The requests of a batch once the budget has room for the first. */
  function Answered(mayRetry: bool, first: Response, second: Response): Report {
    if first.Delivered? then Report(1, true, true, false)
    else if first.rateLimited then Report(1, true, false, false)
    else if !mayRetry then Report(1, true, false, SaysNoData(first))
    else if second.Delivered? then Report(2, true, true, false)
    else Report(2, true, false, SaysNoData(first) || second.noUsableData)
  }

  function Charge(l: Ledger, cache: Cache, nowUtc: Instant, clock: Instant): (Ledger, Cache) {
    RecordCredits(l, cache, nowUtc, 1, clock)
  }

  function ReportOf(
    l: Ledger, cache: Cache, request: Request, nowUtc: Instant, clock: Instant, first: Response, second: Response
  ): Report {
    if !CanConsume(l, cache, nowUtc, clock) then NOTHING_SENT
    else
      var (l1, cache1) := Charge(l, cache, nowUtc, clock);
      Answered(CanConsumeRetry(l1, cache1, nowUtc, clock) && !IsSuppressed(l1, cache1, request, clock), first, second)
  }

  /** One credit for each request. */
  function Charged(l: Ledger, cache: Cache, sent: nat, nowUtc: Instant, clock: Instant): (Ledger, Cache) {
    if sent == 0 then (l, cache)
    else
      var (l1, cache1) := Charge(l, cache, nowUtc, clock);
      if sent == 1 then (l1, cache1) else Charge(l1, cache1, nowUtc, clock)
  }

  function Recorded(
    l: Ledger, cache: Cache, request: Request, report: Report, nowUtc: Instant, clock: Instant
  ): (Ledger, Cache) {
    var (l1, cache1) := Charged(l, cache, report.sent, nowUtc, clock);
    if !report.recorded then (l1, cache1)
    else
      var (l2, cache2) := RecordAttempt(l1, cache1, request, report.success, report.Retried(), nowUtc, clock);
      if report.tripped then TripCircuit(l2, cache2, request.tf, nowUtc, clock) else (l2, cache2)
  }

  // ---------------------------------------------------------------------------
  // What the answers and the budgets decide
  // ---------------------------------------------------------------------------

  /** Once the first request is charged, both budgets have room for another and the close is not suppressed. */
  predicate RetryAllowed(l: Ledger, cache: Cache, request: Request, nowUtc: Instant, clock: Instant) {
    && DailyCredits(l, cache, DayIndex(nowUtc), clock) + 1 < MAX_CREDITS
    && DailyRetries(l, cache, DayIndex(nowUtc), clock) < MAX_RETRY_CREDITS
    && !IsSuppressed(l, cache, request, clock)
  }

  /**
   The provider has no data as far as the batch can tell: a first refusal that is no rate limit
   says so and no retry is allowed, or the retry is refused too and one of the two says so.
   */
  predicate FindsNoData(
    l: Ledger, cache: Cache, request: Request, nowUtc: Instant, clock: Instant, first: Response, second: Response
  ) {
    && DailyCredits(l, cache, DayIndex(nowUtc), clock) < MAX_CREDITS
    && first.Refused? && !first.rateLimited
    && if RetryAllowed(l, cache, request, nowUtc, clock)
       then second.Refused? && (first.noData || first.noUsableData || second.noUsableData)
       else first.noData || first.noUsableData
  }

  /** Two requests go out exactly after a refusal that is no rate limit, if credit is left and a retry allowed. */
  predicate AsksTwice(l: Ledger, cache: Cache, request: Request, nowUtc: Instant, clock: Instant, first: Response) {
    && DailyCredits(l, cache, DayIndex(nowUtc), clock) < MAX_CREDITS
    && first.Refused? && !first.rateLimited && RetryAllowed(l, cache, request, nowUtc, clock)
  }

  lemma ChargeRead(l: Ledger, cache: Cache, request: Request, nowUtc: Instant, clock: Instant)
    ensures
      var (l', cache') := Charge(l, cache, nowUtc, clock);
      var day := DayIndex(nowUtc);
      && DailyCredits(l', cache', day, clock) == DailyCredits(l, cache, day, clock) + 1
      && DailyRetries(l', cache', day, clock) == DailyRetries(l, cache, day, clock)
      && (IsSuppressed(l', cache', request, clock) <==> IsSuppressed(l, cache, request, clock))
  {
  }

  /** What a batch sends, whether it succeeds and whether it trips, from the answers and the budgets before it. */
  lemma BatchOutcome(
    l: Ledger, cache: Cache, request: Request, nowUtc: Instant, clock: Instant, first: Response, second: Response)
    ensures
      var r := ReportOf(l, cache, request, nowUtc, clock, first, second);
      var twice := AsksTwice(l, cache, request, nowUtc, clock, first);
      && (r.sent == 0 <==> DailyCredits(l, cache, DayIndex(nowUtc), clock) >= MAX_CREDITS)
      && (r.sent == 2 <==> twice) && r.sent <= 2 && (r.recorded <==> r.sent > 0)
      && (r.success <==> r.sent > 0 && (first.Delivered? || (twice && second.Delivered?)))
      && (r.tripped <==> FindsNoData(l, cache, request, nowUtc, clock, first, second))
  {
    ChargeRead(l, cache, request, nowUtc, clock);
  }

  class Dispatcher {
    const ledger: CandleRequestLedger

    constructor (ledger: CandleRequestLedger)
      ensures this.ledger == ledger
    {
      this.ledger := ledger;
    }

    method RunBatch(request: Request, nowUtc: Instant, clock: Instant, first: Response, second: Response)
      returns (report: Report)
      modifies ledger, ledger.cache
      ensures report == ReportOf(old(ledger.Local()), old(ledger.cache.entries), request, nowUtc, clock, first, second)
      ensures (ledger.Local(), ledger.cache.entries)
           == Recorded(old(ledger.Local()), old(ledger.cache.entries), request, report, nowUtc, clock)
      ensures report.tripped
        <==> FindsNoData(old(ledger.Local()), old(ledger.cache.entries), request, nowUtc, clock, first, second)
    {
      BatchOutcome(ledger.Local(), ledger.cache.entries, request, nowUtc, clock, first, second);
      var room := ledger.CanConsumeAutomaticCredit(nowUtc, clock);
      if !room {
        return NOTHING_SENT;
      }
      ledger.RecordAutomaticCreditConsumed(nowUtc, 1, clock);
      if first.Delivered? {
        ledger.Record(request, true, false, nowUtc, clock);
        return Report(1, true, true, false);
      }
      if first.rateLimited {
        ledger.Record(request, false, false, nowUtc, clock);
        return Report(1, true, false, false);
      }
      var canRetry := ledger.CanConsumeRetryCredit(nowUtc, clock);
      if canRetry {
        var suppressed := ledger.Suppressed(request, clock);
        canRetry := !suppressed;
      }
      if canRetry {
        ledger.RecordAutomaticCreditConsumed(nowUtc, 1, clock);
        if second.Delivered? {
          ledger.Record(request, true, true, nowUtc, clock);
          return Report(2, true, true, false);
        }
        ledger.Record(request, false, true, nowUtc, clock);
        var trips := SaysNoData(first) || second.noUsableData;
        if trips {
          ledger.Trip(request.tf, nowUtc, clock);
        }
        return Report(2, true, false, trips);
      }
      ledger.Record(request, false, false, nowUtc, clock);
      if SaysNoData(first) {
        ledger.Trip(request.tf, nowUtc, clock);
      }
      return Report(1, true, false, SaysNoData(first));
    }
  }

  /**
   At most two requests a batch, one recorded attempt for both, and a second request only
   after a refusal that was no rate limit, within both budgets and for a close not suppressed.
   */
  lemma BatchRequests(
    l: Ledger, cache: Cache, request: Request, nowUtc: Instant, clock: Instant, first: Response, second: Response)
    ensures
      var r := ReportOf(l, cache, request, nowUtc, clock, first, second);
      && r.sent <= 2 && (r.recorded <==> r.sent > 0) && (r.sent > 0 <==> CanConsume(l, cache, nowUtc, clock))
      && (r.Retried() ==> first.Refused? && !first.rateLimited && !Lookup(l.suppressed, request, false))
      && (r.Retried() ==> DailyRetries(l, cache, DayIndex(nowUtc), clock) < MAX_RETRY_CREDITS)
      && (r.tripped ==> r.Failed())
  {
  }

  /** One credit is charged for each request, retries included. */
  lemma BatchCharges(
    l: Ledger, cache: Cache, request: Request, nowUtc: Instant, clock: Instant, first: Response, second: Response)
    ensures
      var report := ReportOf(l, cache, request, nowUtc, clock, first, second);
      var l' := Recorded(l, cache, request, report, nowUtc, clock).0;
      forall day ::
        Lookup(l'.credits, day, 0) == Lookup(l.credits, day, 0) + if day == DayIndex(nowUtc) then report.sent else 0
  {
    var report := ReportOf(l, cache, request, nowUtc, clock, first, second);
    BatchRequests(l, cache, request, nowUtc, clock, first, second);
    var (l1, cache1) := Charged(l, cache, report.sent, nowUtc, clock);
    if report.recorded {
      var (l2, cache2) := RecordAttempt(l1, cache1, request, report.success, report.Retried(), nowUtc, clock);
      assert l2.credits == l1.credits;
    }
  }
}
