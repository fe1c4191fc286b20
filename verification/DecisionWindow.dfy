/** The candles a decision is taken on, and when they count as healthy evidence. */
module DecisionWindow {
  import opened Wrappers
  import opened UtcTime
  import opened CandleClock
  import opened CandleGap
  import opened LiveState
  import opened Sorting

  datatype Candle = Candle(openAt: Instant, closeAt: Instant, price: real)

  /** A stored candle; several rows may describe one close. */
  datatype CandleRow = CandleRow(id: nat, candle: Candle, isClosed: bool, source: string)

  /** The active primary listing, by the source names that resolve to its provider. */
  datatype Listing = Listing(sources: set<string>)

  // ---------------------------------------------------------------------------
  // Collecting the window
  // ---------------------------------------------------------------------------

  predicate IsEligible(row: CandleRow, listing: Listing, ts: Instant) {
    row.candle.closeAt <= ts && row.isClosed && row.source in listing.sources
  }

  function Eligible(table: seq<CandleRow>, listing: Listing, ts: Instant): seq<CandleRow> {
    if table == [] then []
    else
      var n := |table| - 1;
      Eligible(table[..n], listing, ts) + if IsEligible(table[n], listing, ts) then [table[n]] else []
  }

  /** The order of the query: by close, then by id. */
  ghost predicate QueryOrder(table: seq<CandleRow>) {
    forall i, j :: 0 <= i < j < |table| ==>
      table[i].candle.closeAt < table[j].candle.closeAt
      || (table[i].candle.closeAt == table[j].candle.closeAt && table[i].id < table[j].id)
  }

  ghost predicate AscendingCloses(window: seq<Candle>) {
    forall i, j :: 0 <= i < j < |window| ==> window[i].closeAt < window[j].closeAt
  }

  /** `row` is the row of highest id among those of its close. */
  ghost predicate IsNewest(rows: seq<CandleRow>, row: CandleRow) {
    row in rows && forall r :: r in rows && r.candle.closeAt == row.candle.closeAt ==> r.id <= row.id
  }

  ghost predicate HasClose(window: seq<Candle>, close: Instant) {
    exists i :: 0 <= i < |window| && window[i].closeAt == close
  }

  /** The candle of the row of highest id of its close. */
  ghost predicate FromNewest(rows: seq<CandleRow>, c: Candle) {
    exists r :: IsNewest(rows, r) && r.candle == c
  }

  /** One candle for every close stored, from the row of highest id, in strictly ascending order. */
  ghost predicate IsWindow(rows: seq<CandleRow>, window: seq<Candle>) {
    && AscendingCloses(window)
    && (forall r :: r in rows ==> HasClose(window, r.candle.closeAt))
    && (forall c :: c in window ==> FromNewest(rows, c))
  }

  /**
   The candle of a stored row that is closed, from a listed source and not after `ts`, and that
   has the highest id among such rows of its close.
   */
  ghost predicate IsStored(table: seq<CandleRow>, listing: Listing, ts: Instant, c: Candle) {
    exists i ::
      && 0 <= i < |table| && table[i].candle == c
      && table[i].isClosed && table[i].source in listing.sources && c.closeAt <= ts
      && forall j ::
           (0 <= j < |table| && table[j].isClosed && table[j].source in listing.sources
            && table[j].candle.closeAt == c.closeAt) ==> table[j].id <= table[i].id
  }

  /** Every candle is a stored one, and every close of a closed row from a listed source up to `ts` is there. */
  ghost predicate ShowsTable(table: seq<CandleRow>, listing: Listing, ts: Instant, window: seq<Candle>) {
    && (forall c :: c in window ==> IsStored(table, listing, ts, c))
    && (forall i ::
          (0 <= i < |table| && table[i].isClosed && table[i].source in listing.sources
           && table[i].candle.closeAt <= ts) ==> HasClose(window, table[i].candle.closeAt))
  }

  const BY_CLOSE := (c: Candle) => c.closeAt as real

  ghost predicate DistinctCloses(cs: seq<Candle>) {
    forall i, j :: 0 <= i < j < |cs| ==> cs[i].closeAt != cs[j].closeAt
  }

  /**
   Stored candles up to `ts` of the primary source, in query order, the last row of a close
   replacing earlier ones.
   */
  method GetEngineCandles(table: seq<CandleRow>, listing: Option<Listing>, ts: Instant) returns (window: seq<Candle>)
    requires QueryOrder(table)
    ensures listing == None ==> window == []
    ensures listing.Some? ==> IsWindow(Eligible(table, listing.value, ts), window)
    ensures listing.Some? ==> ShowsTable(table, listing.value, ts, window)
  {
    if listing == None {
      return [];
    }
    var byClose: map<Instant, CandleRow> := map[];
    var keys: seq<Instant> := [];
    for k := 0 to |table|
      invariant Collected(table, listing.value, ts, k, byClose) && Keyed(byClose, keys)
    {
      var row := table[k];
      if IsEligible(row, listing.value, ts) {
        var close := row.candle.closeAt;
        CollectedNext(table, listing.value, ts, k, byClose);
        if close !in byClose {
          keys := keys + [close];
        }
        byClose := byClose[close := row];
      }
    }
    var values := Values(byClose, keys);
    window := Sort(values, BY_CLOSE);
    WindowCollected(table, listing.value, ts, byClose, keys, values);
    WindowShowsTable(table, listing.value, ts, window);
  }

  /** The keys of a dictionary, each once. */
  ghost predicate Keyed(newest: map<Instant, CandleRow>, keys: seq<Instant>) {
    && (forall t :: t in newest <==> t in keys)
    && (forall i, j :: 0 <= i < j < |keys| ==> keys[i] != keys[j])
    && (forall i :: 0 <= i < |keys| ==> keys[i] in newest)
  }

  function Values(newest: map<Instant, CandleRow>, keys: seq<Instant>): (values: seq<Candle>)
    requires Keyed(newest, keys)
    ensures Lists(values, newest, keys)
  {
    seq(|keys|, i requires 0 <= i < |keys| => newest[keys[i]].candle)
  }

  /** `newest` holds, for each close among the first `k` rows that are eligible, the last of them. */
  ghost predicate Collected(
    table: seq<CandleRow>, listing: Listing, ts: Instant, k: nat, newest: map<Instant, CandleRow>
  ) {
    && k <= |table|
    && (forall t :: t in newest ==>
          && newest[t].candle.closeAt == t
          && exists i :: 0 <= i < k && table[i] == newest[t] && IsEligible(table[i], listing, ts))
    && (forall i :: 0 <= i < k && IsEligible(table[i], listing, ts) ==>
          table[i].candle.closeAt in newest && table[i].id <= newest[table[i].candle.closeAt].id)
  }

  lemma CollectedNext(table: seq<CandleRow>, listing: Listing, ts: Instant, k: nat, newest: map<Instant, CandleRow>)
    requires QueryOrder(table) && k < |table| && Collected(table, listing, ts, k, newest)
    requires IsEligible(table[k], listing, ts)
    ensures Collected(table, listing, ts, k + 1, newest[table[k].candle.closeAt := table[k]])
  {
  }

  lemma {:induction false} EligibleMembers(table: seq<CandleRow>, listing: Listing, ts: Instant, r: CandleRow)
    ensures r in Eligible(table, listing, ts)
      <==> exists i :: 0 <= i < |table| && table[i] == r && IsEligible(r, listing, ts)
  {
    if table != [] {
      var n := |table| - 1;
      EligibleMembers(table[..n], listing, ts, r);
      assert forall i :: 0 <= i < n ==> table[..n][i] == table[i];
    }
  }

  /** `values` lists the candles of `newest`, each once. */
  ghost predicate Lists(values: seq<Candle>, newest: map<Instant, CandleRow>, keys: seq<Instant>) {
    && Keyed(newest, keys) && |values| == |keys|
    && (forall i :: 0 <= i < |keys| ==> values[i] == newest[keys[i]].candle)
  }

  lemma CollectedNewest(
    table: seq<CandleRow>, listing: Listing, ts: Instant, newest: map<Instant, CandleRow>, t: Instant)
    requires Collected(table, listing, ts, |table|, newest) && t in newest
    ensures FromNewest(Eligible(table, listing, ts), newest[t].candle)
  {
    var rows, row := Eligible(table, listing, ts), newest[t];
    EligibleMembers(table, listing, ts, row);
    forall r | r in rows && r.candle.closeAt == row.candle.closeAt ensures r.id <= row.id {
      EligibleMembers(table, listing, ts, r);
    }
    assert IsNewest(rows, row);
  }

  lemma CollectedCovers(table: seq<CandleRow>, listing: Listing, ts: Instant, newest: map<Instant, CandleRow>,
                        keys: seq<Instant>, values: seq<Candle>, r: CandleRow)
    requires Collected(table, listing, ts, |table|, newest) && Lists(values, newest, keys)
    requires r in Eligible(table, listing, ts)
    ensures HasClose(Sort(values, BY_CLOSE), r.candle.closeAt)
  {
    EligibleMembers(table, listing, ts, r);
    assert r.candle.closeAt in newest;
    var j :| 0 <= j < |keys| && keys[j] == r.candle.closeAt;
    SortMembers(values, BY_CLOSE, values[j]);
  }

  lemma WindowCollected(table: seq<CandleRow>, listing: Listing, ts: Instant, newest: map<Instant, CandleRow>,
                        keys: seq<Instant>, values: seq<Candle>)
    requires Collected(table, listing, ts, |table|, newest) && Lists(values, newest, keys)
    ensures IsWindow(Eligible(table, listing, ts), Sort(values, BY_CLOSE))
  {
    ValuesDistinct(table, listing, ts, newest, keys, values);
    SortStrict(values, BY_CLOSE);
    forall r | r in Eligible(table, listing, ts) ensures HasClose(Sort(values, BY_CLOSE), r.candle.closeAt) {
      CollectedCovers(table, listing, ts, newest, keys, values, r);
    }
    forall c | c in Sort(values, BY_CLOSE) ensures FromNewest(Eligible(table, listing, ts), c) {
      SortMembers(values, BY_CLOSE, c);
      var j :| 0 <= j < |values| && values[j] == c;
      CollectedNewest(table, listing, ts, newest, keys[j]);
    }
  }

  lemma ValuesDistinct(table: seq<CandleRow>, listing: Listing, ts: Instant, newest: map<Instant, CandleRow>,
                       keys: seq<Instant>, values: seq<Candle>)
    requires Collected(table, listing, ts, |table|, newest) && Lists(values, newest, keys)
    ensures DistinctCloses(values)
  {
    forall i, j | 0 <= i < j < |values| ensures values[i].closeAt != values[j].closeAt {
      assert values[i].closeAt == keys[i] && values[j].closeAt == keys[j];
    }
  }

  // ---------------------------------------------------------------------------
  // What the window is
  // ---------------------------------------------------------------------------

  ghost predicate DistinctIds(rows: seq<CandleRow>) {
    forall a, b :: a in rows && b in rows && a.id == b.id ==> a == b
  }

  lemma NewestUnique(rows: seq<CandleRow>, rows': seq<CandleRow>, c: Candle, d: Candle)
    requires DistinctIds(rows) && (forall r :: r in rows <==> r in rows')
    requires c.closeAt == d.closeAt && FromNewest(rows, c) && FromNewest(rows', d)
    ensures c == d
  {
    var r :| IsNewest(rows, r) && r.candle == c;
    var q :| IsNewest(rows', q) && q.candle == d;
    assert r in rows' && q in rows;
    assert r.id == q.id;
  }

  lemma WindowMembers(rows: seq<CandleRow>, rows': seq<CandleRow>, w: seq<Candle>, v: seq<Candle>, c: Candle)
    requires DistinctIds(rows) && (forall r :: r in rows <==> r in rows')
    requires IsWindow(rows, w) && IsWindow(rows', v) && c in w
    ensures c in v
  {
    assert FromNewest(rows, c);
    var r :| IsNewest(rows, r) && r.candle == c;
    assert HasClose(v, r.candle.closeAt);
    var i :| 0 <= i < |v| && v[i].closeAt == c.closeAt;
    assert v[i] in v;
    NewestUnique(rows, rows', c, v[i]);
  }

  lemma FirstIsLeast(w: seq<Candle>, c: Candle)
    requires AscendingCloses(w) && c in w
    ensures w[0].closeAt < c.closeAt || w[0] == c
  {
    var i :| 0 <= i < |w| && w[i] == c;
  }

  /** A sequence in strictly ascending order is determined by its members. */
  lemma {:induction false} AscendingDetermined(w: seq<Candle>, v: seq<Candle>)
    requires AscendingCloses(w) && AscendingCloses(v)
    requires forall c :: c in w <==> c in v
    ensures w == v
  {
    if v != [] {
      assert v[0] in v;
    }
    if w != [] {
      assert w[0] in v;
      assert v[0] in w;
      FirstIsLeast(w, v[0]);
      FirstIsLeast(v, w[0]);
      forall c ensures c in w[1..] <==> c in v[1..] {
        TailMember(w, c);
        TailMember(v, c);
      }
      AscendingDetermined(w[1..], v[1..]);
      assert w == [w[0]] + w[1..] && v == [v[0]] + v[1..];
    }
  }

  lemma TailMember(w: seq<Candle>, c: Candle)
    requires w != [] && AscendingCloses(w)
    ensures c in w[1..] <==> c in w && c != w[0]
  {
    assert w == [w[0]] + w[1..];
  }

  /** The window depends only on the set of rows, not on the order in which they were stored. */
  lemma WindowOfSet(rows: seq<CandleRow>, rows': seq<CandleRow>, w: seq<Candle>, v: seq<Candle>)
    requires DistinctIds(rows) && (forall r :: r in rows <==> r in rows')
    requires IsWindow(rows, w) && IsWindow(rows', v)
    ensures w == v
  {
    forall c ensures c in w <==> c in v {
      if c in w {
        WindowMembers(rows, rows', w, v, c);
      }
      if c in v {
        assert DistinctIds(rows');
        WindowMembers(rows', rows, v, w, c);
      }
    }
    AscendingDetermined(w, v);
  }

  lemma WindowEndsByDecision(table: seq<CandleRow>, listing: Listing, ts: Instant, w: seq<Candle>)
    requires IsWindow(Eligible(table, listing, ts), w)
    ensures forall c :: c in w ==> c.closeAt <= ts
  {
    forall c | c in w ensures c.closeAt <= ts {
      NewestEndsByDecision(table, listing, ts, c);
    }
  }

  lemma NewestIsStored(table: seq<CandleRow>, listing: Listing, ts: Instant, c: Candle)
    requires FromNewest(Eligible(table, listing, ts), c)
    ensures IsStored(table, listing, ts, c)
  {
    var r :| IsNewest(Eligible(table, listing, ts), r) && r.candle == c;
    EligibleMembers(table, listing, ts, r);
    var i :| 0 <= i < |table| && table[i] == r && IsEligible(r, listing, ts);
    forall j | 0 <= j < |table| && table[j].isClosed && table[j].source in listing.sources
      && table[j].candle.closeAt == c.closeAt
      ensures table[j].id <= table[i].id
    {
      EligibleMembers(table, listing, ts, table[j]);
    }
  }

  /** The window shows exactly what the table holds for the decision. */
  lemma WindowShowsTable(table: seq<CandleRow>, listing: Listing, ts: Instant, window: seq<Candle>)
    requires IsWindow(Eligible(table, listing, ts), window)
    ensures ShowsTable(table, listing, ts, window)
  {
    forall c | c in window ensures IsStored(table, listing, ts, c) {
      NewestIsStored(table, listing, ts, c);
    }
    forall i | 0 <= i < |table| && table[i].isClosed && table[i].source in listing.sources
      && table[i].candle.closeAt <= ts
      ensures HasClose(window, table[i].candle.closeAt)
    {
      EligibleMembers(table, listing, ts, table[i]);
    }
  }

  lemma NewestEndsByDecision(table: seq<CandleRow>, listing: Listing, ts: Instant, c: Candle)
    requires FromNewest(Eligible(table, listing, ts), c)
    ensures c.closeAt <= ts
  {
    var r :| IsNewest(Eligible(table, listing, ts), r) && r.candle == c;
    EligibleMembers(table, listing, ts, r);
  }

  // ---------------------------------------------------------------------------
  // The decision's evidence
  // ---------------------------------------------------------------------------

  const NORMAL_GAP := 1_350_000_000

  /** Adjacent candles further apart than one and a half bars, on a gap that should not be there. */
  predicate IsHole(prev: Candle, next: Candle) {
    next.openAt - prev.closeAt > NORMAL_GAP && Classify(prev.closeAt, next.openAt, M15) == IntrasessionDataGap
  }

  ghost predicate HasHole(window: seq<Candle>) {
    exists i :: 0 <= i < |window| - 1 && IsHole(window[i], window[i + 1])
  }

  /** Health of the primary provider: what was recorded by the decision, which a caller can only worsen. */
  function PrimaryHealth(listing: Option<Listing>, recorded: Option<Health>, caller: Option<Health>): Health {
    if listing == None || recorded == None then Missing
    else if recorded.value != Healthy || caller == None then recorded.value
    else caller.value
  }

  function MarketHealth(hasHole: bool, isStale: bool, hasCandles: bool): Health {
    if hasHole then Unhealthy else if isStale then Stale else if hasCandles then Healthy else Missing
  }

  function Merge(market: Health, primary: Health): Health {
    if market == Healthy && primary == Healthy then Healthy
    else if market == Stale || primary == Stale then Stale
    else if market == Unhealthy || primary == Unhealthy then Unhealthy
    else if market == Health.Transition || primary == Health.Transition then Health.Transition
    else Missing
  }

  /** How bad a status is. */
  function Severity(h: Health): nat {
    match h
    case Healthy => 0
    case Missing => 1
    case Transition => 2
    case Unhealthy => 3
    case Stale => 4
  }

  /** Of two statuses the worse one is reported. */
  lemma MergeIsWorse(a: Health, b: Health)
    ensures Merge(a, b) in {a, b} && Severity(Merge(a, b)) >= Severity(a) && Severity(Merge(a, b)) >= Severity(b)
  {
  }

  /** A caller can make a healthy primary worse and change nothing else. */
  lemma CallerOnlyWorsens(listing: Option<Listing>, recorded: Option<Health>, caller: Option<Health>)
    ensures
      var h := PrimaryHealth(listing, recorded, caller);
      && Severity(h) >= Severity(PrimaryHealth(listing, recorded, None))
      && (PrimaryHealth(listing, recorded, None) != Healthy ==> h == PrimaryHealth(listing, recorded, None))
      && (PrimaryHealth(listing, recorded, None) == Healthy <==> listing.Some? && recorded == Some(Healthy))
      && (h == Healthy ==> caller.GetOr(Healthy) == Healthy)
  {
  }

  datatype Evidence = Evidence(window: seq<Candle>, isStale: bool, health: Health)

  /** The stored 15-minute window, with the incoming candle added if the primary source sent it and none is stored. */
  ghost predicate IsCompleted(
    table: seq<CandleRow>, listing: Listing, event: Candle, fromPrimary: bool, window: seq<Candle>
  ) {
    var rows := Eligible(table, listing, event.closeAt);
    || (IsWindow(rows, window) && (HasClose(window, event.closeAt) || !fromPrimary))
    || (fromPrimary && |window| > 0 && window[|window| - 1] == event
        && IsWindow(rows, window[..|window| - 1]) && !HasClose(window[..|window| - 1], event.closeAt))
  }

  /** What is in the window is stored for the decision, or is the incoming candle as the primary source sent it. */
  ghost predicate ShowsEvidence(
    table: seq<CandleRow>, listing: Listing, event: Candle, fromPrimary: bool, window: seq<Candle>
  ) {
    && (forall c :: c in window ==> IsStored(table, listing, event.closeAt, c) || (fromPrimary && c == event))
    && (forall i ::
          (0 <= i < |table| && table[i].isClosed && table[i].source in listing.sources
           && table[i].candle.closeAt <= event.closeAt) ==> HasClose(window, table[i].candle.closeAt))
    && (fromPrimary ==> HasClose(window, event.closeAt))
  }

  lemma CompletedShowsEvidence(
    table: seq<CandleRow>, listing: Listing, event: Candle, fromPrimary: bool, window: seq<Candle>)
    requires IsCompleted(table, listing, event, fromPrimary, window)
    ensures ShowsEvidence(table, listing, event, fromPrimary, window)
  {
    var rows := Eligible(table, listing, event.closeAt);
    if IsWindow(rows, window) && (HasClose(window, event.closeAt) || !fromPrimary) {
      WindowShowsTable(table, listing, event.closeAt, window);
    } else {
      var n := |window| - 1;
      var stored := window[..n];
      WindowShowsTable(table, listing, event.closeAt, stored);
      assert window[n].closeAt == event.closeAt;
      forall close | HasClose(stored, close) ensures HasClose(window, close) {
        var i :| 0 <= i < |stored| && stored[i].closeAt == close;
        assert window[i].closeAt == close;
      }
      assert forall c :: c in window ==> c in stored || c == event;
    }
  }

  method DecisionCandles(table: seq<CandleRow>, listing: Option<Listing>, event: Candle, matchesPrimary: bool)
    returns (window: seq<Candle>)
    requires QueryOrder(table)
    ensures listing == None ==> window == []
    ensures listing.Some? ==> IsCompleted(table, listing.value, event, matchesPrimary, window)
    ensures listing.Some? ==> ShowsEvidence(table, listing.value, event, matchesPrimary, window)
    ensures AscendingCloses(window) && forall c :: c in window ==> c.closeAt <= event.closeAt
  {
    window := GetEngineCandles(table, listing, event.closeAt);
    if listing == None {
      return;
    }
    WindowEndsByDecision(table, listing.value, event.closeAt, window);
    var hasCandle := exists i :: 0 <= i < |window| && window[i].closeAt == event.closeAt;
    if !hasCandle && matchesPrimary {
      assert forall i :: 0 <= i < |window| ==> window[i] in window;
      assert (window + [event])[..|window|] == window;
      window := window + [event];
    }
    CompletedShowsEvidence(table, listing.value, event, matchesPrimary, window);
  }

  method GatherEvidence(table: seq<CandleRow>, listing: Option<Listing>, event: Candle, matchesPrimary: bool,
                        feedStale: Option<bool>, qualityStale: Option<bool>,
                        recorded: Option<Health>, caller: Option<Health>)
    returns (e: Evidence)
    requires QueryOrder(table)
    ensures listing == None ==> e.window == []
    ensures listing.Some? ==> IsCompleted(table, listing.value, event, matchesPrimary, e.window)
    ensures listing.Some? ==> ShowsEvidence(table, listing.value, event, matchesPrimary, e.window)
    ensures AscendingCloses(e.window) && forall c :: c in e.window ==> c.closeAt <= event.closeAt
    ensures e.isStale == (feedStale.GetOr(qualityStale.GetOr(true)) || HasHole(e.window))
    ensures e.health == Healthy <==>
      && e.window != [] && !HasHole(e.window) && !e.isStale
      && listing.Some? && recorded == Some(Healthy) && caller.GetOr(Healthy) == Healthy
    ensures HasHole(e.window) ==> e.health in {Unhealthy, Stale}
    ensures !HasHole(e.window) && e.isStale ==> e.health == Stale
  {
    var window := DecisionCandles(table, listing, event, matchesPrimary);
    var hasHole := FindHole(window);
    var isStale := feedStale.GetOr(qualityStale.GetOr(true));
    if hasHole {
      isStale := true;
    }
    var health := Merge(MarketHealth(hasHole, isStale, window != []), PrimaryHealth(listing, recorded, caller));
    e := Evidence(window, isStale, health);
  }

  method FindHole(window: seq<Candle>) returns (found: bool)
    ensures found <==> HasHole(window)
  {
    found := false;
    if |window| < 2 {
      return;
    }
    var i := 0;
    while i < |window| - 1
      invariant 0 <= i <= |window| - 1 && !found
      invariant forall j :: 0 <= j < i ==> !IsHole(window[j], window[j + 1])
    {
      var prev, next := window[i], window[i + 1];
      if next.openAt - prev.closeAt > NORMAL_GAP {
        if Classify(prev.closeAt, next.openAt, M15) == IntrasessionDataGap {
          found := true;
          return;
        }
      }
      i := i + 1;
    }
  }

  /** The gaps over one and a half bars that healthy evidence may still contain. */
  lemma HoleExcusedIff(prev: Candle, next: Candle)
    requires next.openAt - prev.closeAt > NORMAL_GAP
    ensures
      var close, reopen := prev.closeAt, next.openAt;
      var diff := reopen - close;
      !IsHole(prev, next) <==>
      || diff > 14 * DAY
      || Weekday(close) >= 5 || Weekday(reopen) >= 5
      || (diff <= 75 * MINUTE && HourOfDay(close) in {21, 22})
      || (20 * HOUR <= diff <= 65 * HOUR && Weekday(close) == 4 && HourOfDay(close) >= 15
          && Weekday(reopen) == 0 && HourOfDay(reopen) <= 3)
  {
  }

  /** The gap that is looked at is more than one and a half bars of fifteen minutes. */
  lemma NormalGap(prev: Candle, next: Candle)
    ensures NORMAL_GAP == 22 * MINUTE + 30 * SECOND
    ensures next.openAt <= prev.closeAt + 22 * MINUTE + 30 * SECOND ==> !IsHole(prev, next)
  {
  }

  /** Candles around a missing stretch that ends on a Tuesday noon, one day or fifteen days after a Monday noon. */
  const MONDAY := Candle(4 * DAY + 12 * HOUR - 15 * MINUTE, 4 * DAY + 12 * HOUR, 1.0)
  const TUESDAY := Candle(5 * DAY + 12 * HOUR, 5 * DAY + 12 * HOUR + 15 * MINUTE, 1.0)
  const LATER_TUESDAY := Candle(19 * DAY + 12 * HOUR, 19 * DAY + 12 * HOUR + 15 * MINUTE, 1.0)

  /** A missing day is a hole, and fifteen missing days are none, so that window can be healthy. */
  lemma LongHoleExcused()
    ensures HasHole([MONDAY, TUESDAY]) && !HasHole([MONDAY, LATER_TUESDAY])
  {
    var window := [MONDAY, TUESDAY];
    assert IsHole(window[0], window[0 + 1]);
  }
}
