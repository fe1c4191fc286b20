/**
 The request ledger of the candle scheduler: per-candle attempts and suppression, a
 market-closure circuit breaker, and daily credit counters.  Each process keeps its own
 dictionaries; all processes share one cache whose entries expire.
 */
module RequestLedger {
  import opened Wrappers
  import opened UtcTime
  import opened CandleClock
  import opened MarketHours

  const MAX_ATTEMPTS := 2
  const MAX_RETRY_CREDITS := 25
  const MAX_CREDITS := 200
  const CACHE_TIMEOUT_SECONDS := 86_400

  datatype Request = Request(tf: Timeframe, close: Instant)

  // ---------------------------------------------------------------------------
  // Shared cache
  // ---------------------------------------------------------------------------

  /** One constructor for each of the source's key prefixes. */
  datatype CacheKey =
    | SuppressedKey(request: Request)
    | RetryCreditsKey(day: int)
    | CreditsKey(day: int)
    | CircuitOpenKey(tf: Timeframe)
    | CircuitUntilKey(tf: Timeframe)

  datatype CacheEntry = CacheEntry(value: int, expires: Instant)

  type Cache = map<CacheKey, CacheEntry>

  /** An entry answers until its timeout and never after. */
  function Get(cache: Cache, key: CacheKey, clock: Instant): Option<int> {
    if key in cache && clock < cache[key].expires then Some(cache[key].value) else None
  }

  function Put(cache: Cache, key: CacheKey, value: int, clock: Instant, timeoutSeconds: int): Cache {
    cache[key := CacheEntry(value, clock + timeoutSeconds * SECOND)]
  }

  /** Increment of a live entry; its timeout stays. */
  function Increment(cache: Cache, key: CacheKey, count: int): Cache
    requires key in cache
  {
    cache[key := cache[key].(value := cache[key].value + count)]
  }

  class SharedCache {
    var entries: Cache

    constructor ()
      ensures entries == map[]
    {
      entries := map[];
    }
  }

  // ---------------------------------------------------------------------------
  // Specification of the ledger operations
  // ---------------------------------------------------------------------------

  datatype Ledger = Ledger(
    attempts: map<Request, nat>,
    suppressed: map<Request, bool>,
    retries: map<int, int>,
    credits: map<int, int>,
    circuitOpen: map<Timeframe, bool>,
    circuitUntil: map<Timeframe, Instant>)

  const EMPTY_LEDGER := Ledger(map[], map[], map[], map[], map[], map[])

  function Lookup<K, V>(m: map<K, V>, key: K, default: V): V {
    if key in m then m[key] else default
  }

  predicate IsSuppressed(l: Ledger, cache: Cache, request: Request, clock: Instant) {
    || Lookup(l.suppressed, request, false)
    || Get(cache, SuppressedKey(request), clock).GetOr(0) != 0
  }

  /** A daily counter: the local count, and the shared one incremented or restarted from it. */
  function Bump(
    local: map<int, int>, cache: Cache, key: CacheKey, day: int, count: int, clock: Instant
  ): (map<int, int>, Cache) {
    var local' := local[day := Lookup(local, day, 0) + count];
    (local',
     if Get(cache, key, clock).Some? then Increment(cache, key, count)
     else Put(cache, key, local'[day], clock, CACHE_TIMEOUT_SECONDS))
  }

  function ResetCircuit(l: Ledger, cache: Cache, tf: Timeframe): (Ledger, Cache) {
    (l.(circuitOpen := l.circuitOpen[tf := false], circuitUntil := l.circuitUntil - {tf}),
     cache - {CircuitOpenKey(tf), CircuitUntilKey(tf)})
  }

  function RecordSuccess(l: Ledger, cache: Cache, request: Request): (Ledger, Cache) {
    var (l1, cache1) := ResetCircuit(l, cache, request.tf);
    (l1.(attempts := l1.attempts[request := 0], suppressed := l1.suppressed[request := false]),
     cache1 - {SuppressedKey(request)})
  }

  /** `nowUtc` names the UTC day charged; `clock` is when the cache is written. */
  function RecordFailure(
    l: Ledger, cache: Cache, request: Request, isRetry: bool, nowUtc: Instant, clock: Instant
  ): (Ledger, Cache) {
    var current := Lookup(l.attempts, request, 0) + 1;
    var l1 := l.(attempts := l.attempts[request := current]);
    var day := DayIndex(nowUtc);
    var (retries2, cache2) :=
      if isRetry then Bump(l.retries, cache, RetryCreditsKey(day), day, 1, clock) else (l.retries, cache);
    var l2 := l1.(retries := retries2);
    if current >= MAX_ATTEMPTS then
      (l2.(suppressed := l2.suppressed[request := true]),
       Put(cache2, SuppressedKey(request), 1, clock, CACHE_TIMEOUT_SECONDS))
    else
      (l2, cache2)
  }

  function RecordAttempt(
    l: Ledger, cache: Cache, request: Request, success: bool, isRetry: bool, nowUtc: Instant, clock: Instant
  ): (Ledger, Cache) {
    if success then RecordSuccess(l, cache, request)
    else RecordFailure(l, cache, request, isRetry, nowUtc, clock)
  }

  /** The verdict, and the state once an expired circuit has been closed by looking at it. */
  function CheckCircuit(
    l: Ledger, cache: Cache, tf: Timeframe, nowUtc: Instant, clock: Instant
  ): (bool, Ledger, Cache) {
    if Lookup(l.circuitOpen, tf, false) then
      if tf in l.circuitUntil && nowUtc < l.circuitUntil[tf] then (true, l, cache)
      else (false, l.(circuitOpen := l.circuitOpen[tf := false]), cache)
    else if Get(cache, CircuitOpenKey(tf), clock).GetOr(0) != 0 then
      match Get(cache, CircuitUntilKey(tf), clock)
      case Some(until) =>
        if nowUtc < until then (true, l, cache)
        else (false, l, cache - {CircuitOpenKey(tf), CircuitUntilKey(tf)})
      case None => (false, l, cache)
    else (false, l, cache)
  }

  /** Sunday 22:00 from the weekend window, one hour ahead otherwise. */
  function TripUntil(nowUtc: Instant): Instant {
    if WeekendClosed(nowUtc) then NextWeekendReopen(nowUtc) else nowUtc + 60 * MINUTE
  }

  function TripTimeoutSeconds(nowUtc: Instant): int {
    var whole := (TripUntil(nowUtc) - nowUtc) / SECOND;
    if whole > 60 then whole else 60
  }

  function TripCircuit(l: Ledger, cache: Cache, tf: Timeframe, nowUtc: Instant, clock: Instant): (Ledger, Cache) {
    var until := TripUntil(nowUtc);
    (l.(circuitOpen := l.circuitOpen[tf := true], circuitUntil := l.circuitUntil[tf := until]),
     Put(Put(cache, CircuitOpenKey(tf), 1, clock, TripTimeoutSeconds(nowUtc)),
         CircuitUntilKey(tf), until, clock, TripTimeoutSeconds(nowUtc)))
  }

  function DailyCredits(l: Ledger, cache: Cache, day: int, clock: Instant): int {
    Get(cache, CreditsKey(day), clock).GetOr(Lookup(l.credits, day, 0))
  }

  predicate CanConsume(l: Ledger, cache: Cache, nowUtc: Instant, clock: Instant) {
    DailyCredits(l, cache, DayIndex(nowUtc), clock) < MAX_CREDITS
  }

  function DailyRetries(l: Ledger, cache: Cache, day: int, clock: Instant): int {
    Get(cache, RetryCreditsKey(day), clock).GetOr(Lookup(l.retries, day, 0))
  }

  predicate CanConsumeRetry(l: Ledger, cache: Cache, nowUtc: Instant, clock: Instant) {
    && CanConsume(l, cache, nowUtc, clock)
    && DailyRetries(l, cache, DayIndex(nowUtc), clock) < MAX_RETRY_CREDITS
  }

  function RecordCredits(l: Ledger, cache: Cache, nowUtc: Instant, count: int, clock: Instant): (Ledger, Cache) {
    var day := DayIndex(nowUtc);
    var (credits', cache') := Bump(l.credits, cache, CreditsKey(day), day, count, clock);
    (l.(credits := credits'), cache')
  }

  // ---------------------------------------------------------------------------
  // The ledger object
  // ---------------------------------------------------------------------------

  class CandleRequestLedger {
    var attempts: map<Request, nat>
    var suppressed: map<Request, bool>
    var dailyRetries: map<int, int>
    var totalAutoCredits: map<int, int>
    var circuitOpen: map<Timeframe, bool>
    var circuitSuppressedUntil: map<Timeframe, Instant>
    const cache: SharedCache

    ghost function Local(): Ledger
      reads this
    {
      Ledger(attempts, suppressed, dailyRetries, totalAutoCredits, circuitOpen, circuitSuppressedUntil)
    }

    constructor (cache: SharedCache)
      ensures this.cache == cache && Local() == EMPTY_LEDGER
    {
      attempts, suppressed, dailyRetries, totalAutoCredits := map[], map[], map[], map[];
      circuitOpen, circuitSuppressedUntil := map[], map[];
      this.cache := cache;
    }

    method Suppressed(request: Request, clock: Instant) returns (r: bool)
      ensures r <==> IsSuppressed(Local(), cache.entries, request, clock)
    {
      if Lookup(suppressed, request, false) {
        return true;
      }
      var val := Get(cache.entries, SuppressedKey(request), clock);
      if val.Some? {
        return val.value != 0;
      }
      return false;
    }

    method Record(request: Request, success: bool, isRetry: bool, nowUtc: Instant, clock: Instant)
      modifies this, cache
      ensures (Local(), cache.entries)
           == RecordAttempt(old(Local()), old(cache.entries), request, success, isRetry, nowUtc, clock)
    {
      if success {
        attempts := attempts[request := 0];
        suppressed := suppressed[request := false];
        Reset(request.tf);
        cache.entries := cache.entries - {SuppressedKey(request)};
        return;
      }
      var current := Lookup(attempts, request, 0) + 1;
      attempts := attempts[request := current];
      if isRetry {
        var today := DayIndex(nowUtc);
        dailyRetries := dailyRetries[today := Lookup(dailyRetries, today, 0) + 1];
        if Get(cache.entries, RetryCreditsKey(today), clock).Some? {
          cache.entries := Increment(cache.entries, RetryCreditsKey(today), 1);
        } else {
          cache.entries := Put(cache.entries, RetryCreditsKey(today), dailyRetries[today], clock,
            CACHE_TIMEOUT_SECONDS);
        }
      }
      if current >= MAX_ATTEMPTS {
        suppressed := suppressed[request := true];
        cache.entries := Put(cache.entries, SuppressedKey(request), 1, clock, CACHE_TIMEOUT_SECONDS);
      }
    }

    /** A query that also closes an expired circuit. */
    method IsCircuitOpen(tf: Timeframe, nowUtc: Instant, clock: Instant) returns (open: bool)
      modifies this, cache
      ensures (open, Local(), cache.entries) == CheckCircuit(old(Local()), old(cache.entries), tf, nowUtc, clock)
    {
      if Lookup(circuitOpen, tf, false) {
        if tf in circuitSuppressedUntil && nowUtc < circuitSuppressedUntil[tf] {
          return true;
        } else {
          circuitOpen := circuitOpen[tf := false];
          return false;
        }
      }
      if Get(cache.entries, CircuitOpenKey(tf), clock).GetOr(0) != 0 {
        var until := Get(cache.entries, CircuitUntilKey(tf), clock);
        if until.Some? {
          if nowUtc < until.value {
            return true;
          } else {
            cache.entries := cache.entries - {CircuitOpenKey(tf)};
            cache.entries := cache.entries - {CircuitUntilKey(tf)};
            assert cache.entries == old(cache.entries) - {CircuitOpenKey(tf), CircuitUntilKey(tf)};
          }
        }
      }
      return false;
    }

    method Trip(tf: Timeframe, nowUtc: Instant, clock: Instant)
      modifies this, cache
      ensures (Local(), cache.entries) == TripCircuit(old(Local()), old(cache.entries), tf, nowUtc, clock)
    {
      var until;
      if WeekendClosed(nowUtc) {
        until := NextWeekendReopen(nowUtc);
      } else {
        until := nowUtc + 60 * MINUTE;
      }
      circuitOpen := circuitOpen[tf := true];
      circuitSuppressedUntil := circuitSuppressedUntil[tf := until];
      var ttl := (until - nowUtc) / SECOND;
      if ttl < 60 {
        ttl := 60;
      }
      cache.entries := Put(cache.entries, CircuitOpenKey(tf), 1, clock, ttl);
      cache.entries := Put(cache.entries, CircuitUntilKey(tf), until, clock, ttl);
    }

    method Reset(tf: Timeframe)
      modifies this`circuitOpen, this`circuitSuppressedUntil, cache
      ensures (Local(), cache.entries) == ResetCircuit(old(Local()), old(cache.entries), tf)
    {
      circuitOpen := circuitOpen[tf := false];
      circuitSuppressedUntil := circuitSuppressedUntil - {tf};
      cache.entries := cache.entries - {CircuitOpenKey(tf)};
      cache.entries := cache.entries - {CircuitUntilKey(tf)};
      assert cache.entries == old(cache.entries) - {CircuitOpenKey(tf), CircuitUntilKey(tf)};
    }

    method CanConsumeAutomaticCredit(nowUtc: Instant, clock: Instant) returns (r: bool)
      ensures r <==> CanConsume(Local(), cache.entries, nowUtc, clock)
    {
      var today := DayIndex(nowUtc);
      var val := Get(cache.entries, CreditsKey(today), clock);
      if val.Some? {
        return val.value < MAX_CREDITS;
      }
      return Lookup(totalAutoCredits, today, 0) < MAX_CREDITS;
    }

    method RecordAutomaticCreditConsumed(nowUtc: Instant, count: int, clock: Instant)
      modifies this`totalAutoCredits, cache
      ensures (Local(), cache.entries) == RecordCredits(old(Local()), old(cache.entries), nowUtc, count, clock)
    {
      var today := DayIndex(nowUtc);
      totalAutoCredits := totalAutoCredits[today := Lookup(totalAutoCredits, today, 0) + count];
      if Get(cache.entries, CreditsKey(today), clock).Some? {
        cache.entries := Increment(cache.entries, CreditsKey(today), count);
      } else {
        cache.entries := Put(cache.entries, CreditsKey(today), totalAutoCredits[today], clock, CACHE_TIMEOUT_SECONDS);
      }
    }

    method CanConsumeRetryCredit(nowUtc: Instant, clock: Instant) returns (r: bool)
      ensures r <==> CanConsumeRetry(Local(), cache.entries, nowUtc, clock)
    {
      var automatic := CanConsumeAutomaticCredit(nowUtc, clock);
      if !automatic {
        return false;
      }
      var today := DayIndex(nowUtc);
      var val := Get(cache.entries, RetryCreditsKey(today), clock);
      if val.Some? {
        return val.value < MAX_RETRY_CREDITS;
      }
      return Lookup(dailyRetries, today, 0) < MAX_RETRY_CREDITS;
    }
  }
}
