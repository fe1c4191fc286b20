/** Counters of the fourteen-day paper observation, its idempotent records and its gate. */
module PaperLedger {
  import opened Wrappers
  import opened UtcTime
  import opened MarketHours

  // ---------------------------------------------------------------------------
  // Observations
  // ---------------------------------------------------------------------------

  datatype Side = Buy | Sell | Wait

  datatype Decision = Waits | NoTrade | Trades

  /** What an observation's fingerprint is computed from.  Its outcome is not part of it. */
  datatype Key = Key(side: Side, decisionAt: Instant, timeframe: string, signal: string,
                     codeRevision: string, engineVersion: string, configVersion: string, frictionModel: string)

  datatype Snapshot = Snapshot(key: Key, decision: Decision, entry: Option<Instant>, exit: Option<Instant>)

  type Records = map<Key, Snapshot>

  datatype Tally = Tally(total: nat, buy: nat, sell: nat, noTrade: nat,
                         positionsOpened: nat, positionsClosed: nat, resolved: nat, pending: nat)

  predicate IsNoTrade(s: Snapshot) {
    s.decision in {Waits, NoTrade} || s.key.side == Wait
  }

  // ---------------------------------------------------------------------------
  // State
  // ---------------------------------------------------------------------------

  datatype Status = NotStarted | Observing | Interrupted | Complete

  datatype Category = ExpectedMarketClosure | MissedEligibleInterval | OperationalFault

  datatype Cycles = Cycles(expected: nat, observed: nat, missing: nat, duplicates: nat, closures: nat)

  datatype Gate = Gate(status: Status, windowStart: Option<Instant>, day: int, completedDays: int,
                       unresolved: nat, runtimeErrors: nat, lastEvaluation: Option<Instant>)

  /** The singleton row of the observation. */
  datatype Row = Row(gate: Gate, cycles: Cycles, tally: Tally)

  const FRESH := Row(Gate(NotStarted, None, 0, 0, 0, 0, None), Cycles(0, 0, 0, 0, 0), Tally(0, 0, 0, 0, 0, 0, 0, 0))

  datatype Interruption = Interruption(category: Category, at: Instant, isFailure: bool)

  const WINDOW_DAYS := 14
  const MAX_STALE := 60 * MINUTE

  function Larger(a: nat, b: nat): nat {
    if a >= b then a else b
  }

  function DayProgress(start: Instant, now: Instant): (int, int) {
    if now < start then (1, 0)
    else
      var days := (now - start) / DAY;
      (if days + 1 < WINDOW_DAYS then days + 1 else WINDOW_DAYS, days)
  }

  function GateStatus(g: Gate, c: Cycles, now: Instant): Status {
    if g.windowStart == None then NotStarted
    else if g.unresolved > 0 || c.missing > 0 then Interrupted
    else if now - g.windowStart.value < WINDOW_DAYS * DAY then Observing
    else if c.expected > 0 && c.observed < c.expected then Interrupted
    else if !WeekendClosed(now) && c.expected > 0 && g.lastEvaluation == None then Interrupted
    else if !WeekendClosed(now) && g.lastEvaluation.Some? && now - g.lastEvaluation.value > MAX_STALE then Interrupted
    else Complete
  }

  predicate IsFailure(category: Category, at: Instant) {
    category != ExpectedMarketClosure && !WeekendClosed(at)
  }

  // ---------------------------------------------------------------------------
  // Operations as functions of the committed state
  // ---------------------------------------------------------------------------

  datatype World = World(row: Row, records: Records)

  datatype Op =
    | Observe(snap: Snapshot, now: Instant)
    | Interrupt(category: Category, at: Instant)
    | OpenInClosure(now: Instant)
    | Audit(now: Instant, grace: int, closes: seq<Instant>)

  function Opened(g: Gate, now: Instant): Gate {
    if g.windowStart.Some? then g
    else g.(windowStart := Some(now), status := Observing, unresolved := 0, runtimeErrors := 0)
  }

  function Counted(t: Tally, s: Snapshot): Tally {
    t.(total := t.total + 1,
       buy := t.buy + (if s.key.side == Buy then 1 else 0),
       sell := t.sell + (if s.key.side == Sell then 1 else 0),
       noTrade := t.noTrade + (if IsNoTrade(s) then 1 else 0),
       positionsOpened := t.positionsOpened + (if s.entry.Some? then 1 else 0),
       positionsClosed := t.positionsClosed + (if s.exit.Some? then 1 else 0),
       resolved := t.resolved + (if s.exit.Some? then 1 else 0),
       pending := t.pending + (if s.entry.Some? && s.exit == None then 1 else 0))
  }

  function CycleObserved(c: Cycles): Cycles {
    c.(observed := c.observed + 1, expected := Larger(c.expected, c.observed + 1))
  }

  function Observed(w: World, snap: Snapshot, now: Instant): World {
    var g := Opened(w.row.gate, now);
    var (day, completed) := DayProgress(g.windowStart.value, now);
    var g' := g.(day := day, completedDays := completed);
    if snap.key in w.records then
      w.(row := Row(g', w.row.cycles.(duplicates := w.row.cycles.duplicates + 1), w.row.tally))
    else
      var c := CycleObserved(w.row.cycles);
      var g'' := g'.(lastEvaluation := Some(now));
      World(Row(g''.(status := GateStatus(g'', c, now)), c, Counted(w.row.tally, snap)), w.records[snap.key := snap])
  }

  function InterruptedGate(g: Gate, category: Category, at: Instant): Gate {
    if IsFailure(category, at) then
      g.(runtimeErrors := g.runtimeErrors + 1, unresolved := g.unresolved + 1, status := Interrupted)
    else g
  }

  function OpenedInClosure(g: Gate, now: Instant): Gate {
    if WeekendClosed(now) && g.windowStart == None
    then g.(windowStart := Some(now), status := Observing, day := 1)
    else g
  }

  /** Closes an audit at `now` looks at. */
  predicate InScope(start: Instant, now: Instant, close: Instant) {
    start < close <= now
  }

  predicate IsMissing(records: Records, now: Instant, grace: int, close: Instant) {
    && !WeekendClosed(close) && now >= close + grace * MINUTE
    && close !in ObservedCloses(records)
  }

  function ObservedCloses(records: Records): set<Instant> {
    set k | k in records :: k.decisionAt
  }

  function ClosureCount(start: Instant, now: Instant, closes: seq<Instant>): nat {
    if closes == [] then 0
    else
      var n := |closes| - 1;
      ClosureCount(start, now, closes[..n])
        + if InScope(start, now, closes[n]) && WeekendClosed(closes[n]) then 1 else 0
  }

  function MissingCount(records: Records, start: Instant, now: Instant, grace: int, closes: seq<Instant>): nat {
    if closes == [] then 0
    else
      var n := |closes| - 1;
      MissingCount(records, start, now, grace, closes[..n])
        + if InScope(start, now, closes[n]) && IsMissing(records, now, grace, closes[n]) then 1 else 0
  }

  /** Newly missing cycles are reported through the row, which is then read back: other counts made so far are lost. */
  function Audited(w: World, now: Instant, grace: int, closes: seq<Instant>): World {
    var g, c := w.row.gate, w.row.cycles;
    if g.status == NotStarted || g.windowStart == None then w
    else
      var start := g.windowStart.value;
      var missing := MissingCount(w.records, start, now, grace, closes);
      var closures := ClosureCount(start, now, closes);
      if missing > c.missing then
        var g' := InterruptedGate(g, MissedEligibleInterval, now);
        var c' := c.(missing := missing);
        w.(row := Row(g'.(status := GateStatus(g', c', now)), c', w.row.tally))
      else
        var c' := c.(observed := Larger(c.observed, |w.records|), closures := Larger(c.closures, closures));
        w.(row := Row(g.(status := GateStatus(g, c', now)), c', w.row.tally))
  }

  function Step(w: World, op: Op): World {
    match op
    case Observe(snap, now) => Observed(w, snap, now)
    case Interrupt(category, at) => w.(row := w.row.(gate := InterruptedGate(w.row.gate, category, at)))
    case OpenInClosure(now) => w.(row := w.row.(gate := OpenedInClosure(w.row.gate, now)))
    case Audit(now, grace, closes) => Audited(w, now, grace, closes)
  }

  // ---------------------------------------------------------------------------
  // What the operations count
  // ---------------------------------------------------------------------------

  /** A missed interval or an operational fault outside the weekly closure. */
  predicate CountsAsFailure(category: Category, at: Instant) {
    category in {MissedEligibleInterval, OperationalFault} && !(CLOSES <= WeekPhase(at) < REOPENS)
  }

  /** Such an interruption counts one error and one failure and interrupts; any other changes nothing. */
  lemma InterruptionEffect(w: World, category: Category, at: Instant)
    ensures
      var w', g := Step(w, Interrupt(category, at)), w.row.gate;
      if CountsAsFailure(category, at) then
        && w'.row.gate.runtimeErrors == g.runtimeErrors + 1 && w'.row.gate.unresolved == g.unresolved + 1
        && w'.row.gate.status == Interrupted && w'.row.gate.windowStart == g.windowStart
        && (w'.row.cycles, w'.row.tally, w'.records) == (w.row.cycles, w.row.tally, w.records)
      else w' == w
  {
    ClosedByPhase(at);
  }

  /** An idle cycle opens a window exactly in the closure and if none is open yet. */
  lemma IdleCycleOpensIff(w: World, now: Instant)
    ensures
      var w' := Step(w, OpenInClosure(now));
      var opens := CLOSES <= WeekPhase(now) < REOPENS && w.row.gate.windowStart == None;
      if opens then w'.row.gate == w.row.gate.(windowStart := Some(now), status := Observing, day := 1)
      else w' == w
  {
    ClosedByPhase(now);
  }

  /** The day shown is the running one, at most the fourteenth; whole days elapsed are not cut off. */
  lemma DayProgressMeans(start: Instant, now: Instant)
    requires start <= now
    ensures
      var (day, completed) := DayProgress(start, now);
      && start + completed * DAY <= now < start + (completed + 1) * DAY
      && 1 <= day <= 14 && (day == completed + 1 || (day == 14 && completed >= 14))
  {
    var days := (now - start) / DAY;
    assert days * DAY <= now - start < (days + 1) * DAY;
  }

  /** An observation, also a known one, brings the day up to date. */
  lemma ObservationShowsDay(w: World, snap: Snapshot, now: Instant)
    ensures
      var g := Step(w, Observe(snap, now)).row.gate;
      && g.windowStart == Some(w.row.gate.windowStart.GetOr(now))
      && (g.day, g.completedDays) == DayProgress(w.row.gate.windowStart.GetOr(now), now)
      && (snap.key !in w.records ==> g.lastEvaluation == Some(now))
      && (snap.key in w.records ==> g.lastEvaluation == w.row.gate.lastEvaluation)
  {
  }

  /** The observation that opens the window starts it without errors or failures. */
  lemma OpeningForgives(w: World, snap: Snapshot, now: Instant)
    requires w.row.gate.windowStart == None
    ensures
      var g := Step(w, Observe(snap, now)).row.gate;
      g.windowStart == Some(now) && g.runtimeErrors == 0 && g.unresolved == 0
  {
  }

  /** Without a complete window an evaluation answers by the first of these that applies. */
  lemma EvaluationCases(g: Gate, c: Cycles, now: Instant)
    ensures GateStatus(g, c, now) == NotStarted <==> g.windowStart == None
    ensures g.windowStart.Some? && (g.unresolved > 0 || c.missing > 0) ==> GateStatus(g, c, now) == Interrupted
    ensures GateStatus(g, c, now) == Observing <==>
      && g.windowStart.Some? && g.unresolved == 0 && c.missing == 0
      && now < g.windowStart.value + 14 * DAY
  {
  }

  /** A close after the start and up to `now`, in the closure. */
  ghost predicate ClosureInScope(start: Instant, now: Instant, close: Instant) {
    start < close <= now && CLOSES <= WeekPhase(close) < REOPENS
  }

  /** Such a close in the open market that is overdue and was not observed. */
  ghost predicate OverdueInScope(records: Records, start: Instant, now: Instant, grace: int, close: Instant) {
    && start < close <= now && !(CLOSES <= WeekPhase(close) < REOPENS)
    && close + grace * MINUTE <= now && forall key :: key in records ==> key.decisionAt != close
  }

  lemma OverdueMeans(records: Records, start: Instant, now: Instant, grace: int, close: Instant)
    ensures InScope(start, now, close) && WeekendClosed(close) <==> ClosureInScope(start, now, close)
    ensures InScope(start, now, close) && IsMissing(records, now, grace, close)
      <==> OverdueInScope(records, start, now, grace, close)
  {
    ClosedByPhase(close);
  }

  ghost function ClosuresAt(start: Instant, now: Instant, closes: seq<Instant>): set<int> {
    set k | 0 <= k < |closes| && ClosureInScope(start, now, closes[k])
  }

  ghost function MissingAt(
    records: Records, start: Instant, now: Instant, grace: int, closes: seq<Instant>
  ): set<int> {
    set k | 0 <= k < |closes| && OverdueInScope(records, start, now, grace, closes[k])
  }

  /** The audit's count of closures is the number of closes stored in one. */
  lemma {:induction false} ClosureCountMeans(start: Instant, now: Instant, closes: seq<Instant>)
    ensures ClosureCount(start, now, closes) == |ClosuresAt(start, now, closes)|
  {
    if closes != [] {
      var n := |closes| - 1;
      ClosureCountMeans(start, now, closes[..n]);
      OverdueMeans(map[], start, now, 0, closes[n]);
      assert ClosuresAt(start, now, closes)
        == ClosuresAt(start, now, closes[..n]) + if ClosureInScope(start, now, closes[n]) then {n} else {};
    }
  }

  lemma MissingNext(records: Records, start: Instant, now: Instant, grace: int, closes: seq<Instant>)
    requires closes != []
    ensures
      var n := |closes| - 1;
      MissingAt(records, start, now, grace, closes)
        == MissingAt(records, start, now, grace, closes[..n])
           + if OverdueInScope(records, start, now, grace, closes[n]) then {n} else {}
  {
  }

  /** Its count of missing cycles is the number of overdue closes not observed. */
  lemma {:induction false} MissingCountMeans(
    records: Records, start: Instant, now: Instant, grace: int, closes: seq<Instant>)
    ensures MissingCount(records, start, now, grace, closes) == |MissingAt(records, start, now, grace, closes)|
  {
    if closes != [] {
      var n := |closes| - 1;
      MissingCountMeans(records, start, now, grace, closes[..n]);
      OverdueMeans(records, start, now, grace, closes[n]);
      MissingNext(records, start, now, grace, closes);
    }
  }

  // ---------------------------------------------------------------------------
  // The service
  // ---------------------------------------------------------------------------

  datatype Report = Duplicate | Recorded(side: Side) | ClosedMarket | Missed

  class Phase8PaperService {
    var row: Row
    var records: Records
    var interruptions: seq<Interruption>

    constructor ()
      ensures row == FRESH && records == map[] && interruptions == []
    {
      row, records, interruptions := FRESH, map[], [];
    }

    ghost function Committed(): World
      reads this
    {
      World(row, records)
    }

    method RecordInterruption(category: Category, at: Instant)
      modifies this
      ensures Committed() == Step(old(Committed()), Interrupt(category, at))
      ensures interruptions == old(interruptions) + [Interruption(category, at, CountsAsFailure(category, at))]
    {
      ClosedByPhase(at);
      var isFailure := IsFailure(category, at);
      interruptions := interruptions + [Interruption(category, at, isFailure)];
      var gate := row.gate;
      if isFailure {
        gate := gate.(runtimeErrors := gate.runtimeErrors + 1);
        gate := gate.(unresolved := gate.unresolved + 1);
        gate := gate.(status := Interrupted);
        row := row.(gate := gate);
      }
    }

    method ProcessObservation(snap: Snapshot, now: Instant) returns (report: Report)
      modifies this
      ensures Committed() == Step(old(Committed()), Observe(snap, now))
      ensures report == if snap.key in old(records) then Duplicate else Recorded(snap.key.side)
      ensures interruptions == old(interruptions)
    {
      var created := snap.key !in records;
      if created {
        records := records[snap.key := snap];
      }
      var gate, cycles, tally := row.gate, row.cycles, row.tally;
      if gate.windowStart == None {
        gate := gate.(windowStart := Some(now), status := Observing, day := 1, completedDays := 0,
                      unresolved := 0, runtimeErrors := 0);
      }
      var (day, completed) := DayProgress(gate.windowStart.value, now);
      gate := gate.(day := day, completedDays := completed);
      if !created {
        cycles := cycles.(duplicates := cycles.duplicates + 1);
        row := Row(gate, cycles, tally);
        return Duplicate;
      }
      tally := tally.(total := tally.total + 1);
      cycles := cycles.(observed := cycles.observed + 1);
      cycles := cycles.(expected := Larger(cycles.expected, cycles.observed));
      gate := gate.(lastEvaluation := Some(now));
      if snap.key.side == Buy {
        tally := tally.(buy := tally.buy + 1);
      } else if snap.key.side == Sell {
        tally := tally.(sell := tally.sell + 1);
      }
      if IsNoTrade(snap) {
        tally := tally.(noTrade := tally.noTrade + 1);
      }
      if snap.entry.Some? {
        tally := tally.(positionsOpened := tally.positionsOpened + 1);
      }
      if snap.exit.Some? {
        tally := tally.(positionsClosed := tally.positionsClosed + 1);
        tally := tally.(resolved := tally.resolved + 1);
      } else if snap.entry.Some? {
        tally := tally.(pending := tally.pending + 1);
      }
      assert tally == Counted(row.tally, snap) && cycles == CycleObserved(row.cycles);
      gate := gate.(status := GateStatus(gate, cycles, now));
      row := Row(gate, cycles, tally);
      return Recorded(snap.key.side);
    }

    /** One cycle on the latest signal, if there is one. */
    method StepCycle(latest: Option<Snapshot>, now: Instant) returns (processed: nat, report: Report)
      modifies this
      ensures latest.Some? ==> Committed() == Step(old(Committed()), Observe(latest.value, now))
      ensures latest == None && WeekendClosed(now) ==>
        Committed() == Step(old(Committed()), OpenInClosure(now)) && report == ClosedMarket
      ensures latest == None && !WeekendClosed(now) ==>
        Committed() == Step(old(Committed()), Interrupt(MissedEligibleInterval, now)) && report == Missed
      ensures latest.Some? ==> interruptions == old(interruptions)
      ensures latest == None && WeekendClosed(now) ==>
        interruptions == old(interruptions) + [Interruption(ExpectedMarketClosure, now, false)]
      ensures latest == None && !WeekendClosed(now) ==>
        interruptions == old(interruptions) + [Interruption(MissedEligibleInterval, now, true)]
      ensures processed == if report.Recorded? then 1 else 0
      ensures report.Recorded? <==> latest.Some? && latest.value.key !in old(records)
    {
      if latest == None {
        ClosedByPhase(now);
        if WeekendClosed(now) {
          RecordInterruption(ExpectedMarketClosure, now);
          if row.gate.windowStart == None {
            row := row.(gate := row.gate.(windowStart := Some(now), status := Observing, day := 1));
          }
          return 0, ClosedMarket;
        }
        RecordInterruption(MissedEligibleInterval, now);
        return 0, Missed;
      }
      report := ProcessObservation(latest.value, now);
      processed := if report == Duplicate then 0 else 1;
    }

    method CountCloses(start: Instant, now: Instant, grace: int, closes: seq<Instant>)
      returns (missing: nat, closures: nat)
      ensures missing == MissingCount(records, start, now, grace, closes)
      ensures closures == ClosureCount(start, now, closes)
    {
      missing, closures := 0, 0;
      var observed := ObservedCloses(records);
      for k := 0 to |closes|
        invariant missing == MissingCount(records, start, now, grace, closes[..k])
        invariant closures == ClosureCount(start, now, closes[..k])
      {
        assert closes[..k + 1][..k] == closes[..k];
        var close := closes[k];
        if !InScope(start, now, close) {
          continue;
        }
        if WeekendClosed(close) {
          closures := closures + 1;
          continue;
        }
        if close !in observed && now >= close + grace * MINUTE {
          missing := missing + 1;
        }
      }
      assert closes[..|closes|] == closes;
    }

    /** The watchdog, over the closed candles stored. */
    method AuditContinuity(now: Instant, grace: int, closes: seq<Instant>) returns (audited: bool)
      modifies this
      ensures Committed() == Step(old(Committed()), Audit(now, grace, closes))
      ensures audited <==> old(row.gate.status) != NotStarted && old(row.gate.windowStart).Some?
    {
      var gate, cycles := row.gate, row.cycles;
      if gate.status == NotStarted || gate.windowStart == None {
        return false;
      }
      if |records| > cycles.observed {
        cycles := cycles.(observed := |records|);
      }
      var missing, closures := CountCloses(gate.windowStart.value, now, grace, closes);
      if closures > cycles.closures {
        cycles := cycles.(closures := closures);
      }
      if missing > cycles.missing {
        cycles := cycles.(missing := missing);
        RecordInterruption(MissedEligibleInterval, now);
        gate, cycles := row.gate, row.cycles;
        cycles := cycles.(missing := missing);
      }
      gate := gate.(status := GateStatus(gate, cycles, now));
      row := Row(gate, cycles, row.tally);
      return true;
    }
  }

  // ---------------------------------------------------------------------------
  // What one audit loses
  // ---------------------------------------------------------------------------

  predicate Started(g: Gate) {
    g.status != NotStarted && g.windowStart.Some?
  }

  /** An audit brings the closure counter up to its count, unless it also finds cycles newly missing. */
  lemma AuditKeepsClosuresIff(w: World, now: Instant, grace: int, closes: seq<Instant>)
    requires Started(w.row.gate)
    ensures
      var start := w.row.gate.windowStart.value;
      var counted := ClosureCount(start, now, closes);
      Step(w, Audit(now, grace, closes)).row.cycles.closures == Larger(w.row.cycles.closures, counted) <==>
      !(MissingCount(w.records, start, now, grace, closes) > w.row.cycles.missing && counted > w.row.cycles.closures)
  {
  }

  /** It brings the observed cycles up to the records kept, unless it also finds cycles newly missing. */
  lemma AuditKeepsObservedIff(w: World, now: Instant, grace: int, closes: seq<Instant>)
    requires Started(w.row.gate)
    ensures
      var start := w.row.gate.windowStart.value;
      var observed := Step(w, Audit(now, grace, closes)).row.cycles.observed;
      observed >= |w.records| <==>
      w.row.cycles.observed >= |w.records|
      || MissingCount(w.records, start, now, grace, closes) <= w.row.cycles.missing
  {
  }

  lemma AuditEffect(w: World, now: Instant, grace: int, closes: seq<Instant>)
    requires Started(w.row.gate)
    ensures
      var after := Step(w, Audit(now, grace, closes));
      var start := w.row.gate.windowStart.value;
      var missing, counted := MissingCount(w.records, start, now, grace, closes), ClosureCount(start, now, closes);
      var c, c' := w.row.cycles, after.row.cycles;
      && after.records == w.records && after.row.tally == w.row.tally
      && after.row.gate.windowStart == w.row.gate.windowStart && Started(after.row.gate)
      && c'.missing == Larger(c.missing, missing) && c'.observed >= c.observed
      && c'.closures == (if missing > c.missing then c.closures else Larger(c.closures, counted))
      && after.row.gate.status == GateStatus(after.row.gate, c', now)
  {
  }

  lemma AuditSettled(w: World, now: Instant, grace: int, closes: seq<Instant>)
    requires Started(w.row.gate) && w.row.cycles.observed >= |w.records|
    requires w.row.gate.status == GateStatus(w.row.gate, w.row.cycles, now)
    requires w.row.cycles.missing >= MissingCount(w.records, w.row.gate.windowStart.value, now, grace, closes)
    requires w.row.cycles.closures >= ClosureCount(w.row.gate.windowStart.value, now, closes)
    ensures Step(w, Audit(now, grace, closes)) == w
  {
    var g, c := w.row.gate, w.row.cycles;
    assert g.(status := GateStatus(g, c, now)) == g;
    assert Row(g, c, w.row.tally) == w.row;
  }

  /** Repeating the audit makes up for what the first one lost; a third changes nothing. */
  lemma SecondAuditRecovers(w: World, now: Instant, grace: int, closes: seq<Instant>)
    requires Started(w.row.gate) && w.row.cycles.observed >= |w.records|
    ensures
      var audit := Audit(now, grace, closes);
      var twice := Step(Step(w, audit), audit);
      var start := w.row.gate.windowStart.value;
      && twice.row.cycles.closures == Larger(w.row.cycles.closures, ClosureCount(start, now, closes))
      && twice.row.cycles.missing == Larger(w.row.cycles.missing, MissingCount(w.records, start, now, grace, closes))
      && Step(twice, audit) == twice
  {
    var once := Step(w, Audit(now, grace, closes));
    AuditEffect(w, now, grace, closes);
    AuditEffect(once, now, grace, closes);
    AuditSettled(Step(once, Audit(now, grace, closes)), now, grace, closes);
  }
}
