/** What the paper ledger keeps over all runs of observations, interruptions, audits and idle cycles. */
module PaperRuns {
  import opened Wrappers
  import opened UtcTime
  import opened MarketHours
  import opened PaperLedger

  // ---------------------------------------------------------------------------
  // Counting records
  // ---------------------------------------------------------------------------

  ghost function Count(m: Records, p: Snapshot -> bool): nat {
    |set k | k in m && p(m[k])|
  }

  const BOUGHT := (s: Snapshot) => s.key.side == Buy
  const SOLD := (s: Snapshot) => s.key.side == Sell
  const IDLE := (s: Snapshot) => s.decision == Waits || s.decision == NoTrade || s.key.side == Wait
  const ENTERED := (s: Snapshot) => s.entry.Some?
  const EXITED := (s: Snapshot) => s.exit.Some?
  const OPEN := (s: Snapshot) => s.entry.Some? && s.exit == None
  const EXITED_UNENTERED := (s: Snapshot) => s.entry == None && s.exit.Some?

  /** What the counters should say about the records kept. */
  ghost function TallyOf(m: Records): Tally {
    Tally(|m|, Count(m, BOUGHT), Count(m, SOLD), Count(m, IDLE),
          Count(m, ENTERED), Count(m, EXITED), Count(m, EXITED), Count(m, OPEN))
  }

  lemma CountAdded(m: Records, s: Snapshot, p: Snapshot -> bool)
    requires s.key !in m
    ensures Count(m[s.key := s], p) == Count(m, p) + if p(s) then 1 else 0
  {
    var m' := m[s.key := s];
    var now, was := set k | k in m' && p(m'[k]), set k | k in m && p(m[k]);
    assert now == was + if p(s) then {s.key} else {};
  }

  lemma TallyAdded(m: Records, s: Snapshot)
    requires s.key !in m
    ensures TallyOf(m[s.key := s]) == Counted(TallyOf(m), s)
  {
    CountAdded(m, s, BOUGHT);
    CountAdded(m, s, SOLD);
    CountAdded(m, s, IDLE);
    CountAdded(m, s, ENTERED);
    CountAdded(m, s, EXITED);
    CountAdded(m, s, OPEN);
    assert |m[s.key := s]| == |m| + 1;
  }

  const TOUCHED := (s: Snapshot) => s.entry.Some? || s.exit.Some?

  lemma CountSplit(m: Records, whole: Snapshot -> bool, p: Snapshot -> bool, q: Snapshot -> bool)
    requires forall s :: whole(s) <==> p(s) || q(s)
    requires forall s :: !(p(s) && q(s))
    ensures Count(m, whole) == Count(m, p) + Count(m, q)
  {
    var ps, qs := set k | k in m && p(m[k]), set k | k in m && q(m[k]);
    assert (set k | k in m && whole(m[k])) == ps + qs;
    assert ps !! qs;
  }

  /** Positions opened, apart from records closed without an entry, are those closed or still pending. */
  lemma PositionsBalance(m: Records)
    ensures Count(m, ENTERED) + Count(m, EXITED_UNENTERED) == Count(m, EXITED) + Count(m, OPEN)
  {
    CountSplit(m, TOUCHED, ENTERED, EXITED_UNENTERED);
    CountSplit(m, TOUCHED, EXITED, OPEN);
  }

  // ---------------------------------------------------------------------------
  // Runs
  // ---------------------------------------------------------------------------

  const START := World(FRESH, map[])

  ghost predicate IsRun(run: seq<World>, ops: seq<Op>) {
    && |run| == |ops| + 1 && run[0] == START
    && forall k :: 0 <= k < |ops| ==> run[k + 1] == Step(run[k], ops[k])
  }

  /** Calls of the observation operation among the first `k` operations. */
  ghost function Calls(ops: seq<Op>, k: nat): nat
    requires k <= |ops|
  {
    if k == 0 then 0 else Calls(ops, k - 1) + if ops[k - 1].Observe? then 1 else 0
  }

  /** A started window with a recorded failure or a missing cycle. */
  predicate Blocked(w: World) {
    w.row.gate.windowStart.Some? && (w.row.gate.unresolved > 0 || w.row.cycles.missing > 0)
  }

  ghost predicate Consistent(w: World, calls: nat) {
    && (forall key :: key in w.records ==> w.records[key].key == key)
    && w.row.tally == TallyOf(w.records)
    && w.row.cycles.observed == w.row.cycles.expected == |w.records|
    && calls == w.row.tally.total + w.row.cycles.duplicates
    && (w.row.gate.lastEvaluation == None ==> w.row.cycles.expected == 0)
    && (w.row.gate.status == Complete ==> w.row.gate.windowStart.Some? && !Blocked(w))
  }

  lemma ObserveKeepsConsistent(w: World, snap: Snapshot, now: Instant, calls: nat)
    requires Consistent(w, calls)
    ensures Consistent(Observed(w, snap, now), calls + 1)
  {
    if snap.key !in w.records {
      TallyAdded(w.records, snap);
      assert |w.records[snap.key := snap]| == |w.records| + 1;
    }
  }

  lemma AuditKeepsConsistent(w: World, now: Instant, grace: int, closes: seq<Instant>, calls: nat)
    requires Consistent(w, calls)
    ensures Consistent(Audited(w, now, grace, closes), calls)
  {
  }

  lemma StepKeepsConsistent(w: World, op: Op, calls: nat)
    requires Consistent(w, calls)
    ensures Consistent(Step(w, op), calls + if op.Observe? then 1 else 0)
  {
    match op
    case Observe(snap, now) => ObserveKeepsConsistent(w, snap, now, calls);
    case Audit(now, grace, closes) => AuditKeepsConsistent(w, now, grace, closes, calls);
    case _ =>
  }

  lemma {:induction false} RunIsConsistent(run: seq<World>, ops: seq<Op>, k: nat)
    requires IsRun(run, ops) && k <= |ops|
    ensures Consistent(run[k], Calls(ops, k))
  {
    if k > 0 {
      RunIsConsistent(run, ops, k - 1);
      assert run[k - 1 + 1] == Step(run[k - 1], ops[k - 1]);
      StepKeepsConsistent(run[k - 1], ops[k - 1], Calls(ops, k - 1));
    } else {
      EmptyTally();
    }
  }

  lemma EmptyTally()
    ensures TallyOf(map[]) == FRESH.tally
  {
    CountAtMost(map[], BOUGHT);
    CountAtMost(map[], SOLD);
    CountAtMost(map[], IDLE);
    CountAtMost(map[], ENTERED);
    CountAtMost(map[], EXITED);
    CountAtMost(map[], OPEN);
  }

  lemma CountAtMost(m: Records, p: Snapshot -> bool)
    ensures Count(m, p) <= |m|
  {
    SubsetSize((set k | k in m && p(m[k])), m.Keys);
  }

  /** The conservation laws between the counters, after every run. */
  lemma CountersBalance(run: seq<World>, ops: seq<Op>, k: nat)
    requires IsRun(run, ops) && k <= |ops|
    ensures
      var t, c, m := run[k].row.tally, run[k].row.cycles, run[k].records;
      && Calls(ops, k) == t.total + c.duplicates
      && t.total == |m| && t.resolved == t.positionsClosed
      && t.positionsOpened + Count(m, EXITED_UNENTERED) == t.positionsClosed + t.pending
      && t.buy + t.sell <= t.total
  {
    RunIsConsistent(run, ops, k);
    PositionsBalance(run[k].records);
    var m := run[k].records;
    var buys, sells := set key | key in m && BOUGHT(m[key]), set key | key in m && SOLD(m[key]);
    assert buys !! sells && buys + sells <= m.Keys;
    assert |buys + sells| == |buys| + |sells|;
    SubsetSize(buys + sells, m.Keys);
  }

  lemma SubsetSize(a: set<Key>, b: set<Key>)
    requires a <= b
    ensures |a| <= |b|
  {
    assert b == a + (b - a);
    assert |a + (b - a)| == |a| + |b - a|;
  }

  /** Fingerprints observed by the first `k` operations. */
  ghost function Fingerprints(ops: seq<Op>, k: nat): (keys: set<Key>)
    requires k <= |ops|
    ensures forall key :: key in keys <==> exists j :: 0 <= j < k && ops[j].Observe? && ops[j].snap.key == key
  {
    if k == 0 then {}
    else Fingerprints(ops, k - 1) + if ops[k - 1].Observe? then {ops[k - 1].snap.key} else {}
  }

  lemma StepFingerprints(w: World, op: Op)
    ensures Step(w, op).records.Keys == w.records.Keys + if op.Observe? then {op.snap.key} else {}
  {
  }

  /** The distinct fingerprints observed so far are the records, whatever came in between. */
  lemma {:induction false} RecordsAreFingerprints(run: seq<World>, ops: seq<Op>, k: nat)
    requires IsRun(run, ops) && k <= |ops|
    ensures run[k].records.Keys == Fingerprints(ops, k)
  {
    if k > 0 {
      RecordsAreFingerprints(run, ops, k - 1);
      assert run[k - 1 + 1] == Step(run[k - 1], ops[k - 1]);
      StepFingerprints(run[k - 1], ops[k - 1]);
    }
  }

  /** The first observation of a fingerprint stays: in particular a position recorded as pending stays pending. */
  lemma {:induction false} FirstObservationStays(run: seq<World>, ops: seq<Op>, j: nat, k: nat, key: Key)
    requires IsRun(run, ops) && j <= k <= |ops| && key in run[j].records
    ensures key in run[k].records && run[k].records[key] == run[j].records[key]
  {
    if j < k {
      FirstObservationStays(run, ops, j, k - 1, key);
      assert run[k - 1 + 1] == Step(run[k - 1], ops[k - 1]);
    }
  }

  // ---------------------------------------------------------------------------
  // The gate
  // ---------------------------------------------------------------------------

  /**
   In every reachable state, an evaluation completes exactly under these conditions: the
   comparison of observed with expected cycles never decides, the two always being equal.
   */
  lemma EvaluationCompletesIff(run: seq<World>, ops: seq<Op>, k: nat, now: Instant)
    requires IsRun(run, ops) && k <= |ops|
    ensures
      var g := run[k].row.gate;
      GateStatus(g, run[k].row.cycles, now) == Complete <==>
      && g.windowStart.Some? && now - g.windowStart.value >= 14 * DAY && !Blocked(run[k])
      && (WeekendClosed(now) || g.lastEvaluation == None || now - g.lastEvaluation.value <= 60 * MINUTE)
  {
    RunIsConsistent(run, ops, k);
  }

  const SATURDAY := 2 * DAY

  /**
   So a window opened in a closed market completes without a single observation, if no candle was
   stored meanwhile.
   */
  lemma CompletesWithoutObservation(later: Instant)
    requires later >= SATURDAY + WINDOW_DAYS * DAY
    ensures exists run: seq<World>, ops: seq<Op> ::
      && IsRun(run, ops) && Calls(ops, |ops|) == 0
      && run[|ops|].row.gate.status == Complete
  {
    var ops := [OpenInClosure(SATURDAY), Audit(later, 30, [])];
    var w1 := Step(START, ops[0]);
    var w2 := Step(w1, ops[1]);
    assert IsRun([START, w1, w2], ops);
    assert Calls(ops, 0) == Calls(ops, 1) == Calls(ops, 2) == 0;
    assert [START, w1, w2][|ops|].row.gate.status == Complete;
  }

  const ONE_OPEN_ONE_CLOSED := [SATURDAY + HOUR, 4 * DAY + 12 * HOUR]

  lemma OneOfEach()
    ensures ClosureCount(SATURDAY, 5 * DAY, ONE_OPEN_ONE_CLOSED) == 1
    ensures MissingCount(map[], SATURDAY, 5 * DAY, 30, ONE_OPEN_ONE_CLOSED) == 1
  {
    var first := [SATURDAY + HOUR];
    assert ONE_OPEN_ONE_CLOSED[..1] == first && first[..0] == [];
    assert ObservedCloses(map[]) == {};
    assert ClosureCount(SATURDAY, 5 * DAY, first) == 1 && MissingCount(map[], SATURDAY, 5 * DAY, 30, first) == 0;
  }

  /** A run in which an audit counts one closure and one missing cycle and keeps the latter only. */
  lemma AuditLosesAClosure()
    ensures
      var ops := [OpenInClosure(SATURDAY), Audit(5 * DAY, 30, ONE_OPEN_ONE_CLOSED)];
      exists run: seq<World> :: IsRun(run, ops) && run[2].row.cycles.missing == 1 && run[2].row.cycles.closures == 0
        && ClosureCount(SATURDAY, 5 * DAY, ONE_OPEN_ONE_CLOSED) == 1
  {
    OneOfEach();
    var ops := [OpenInClosure(SATURDAY), Audit(5 * DAY, 30, ONE_OPEN_ONE_CLOSED)];
    var w1 := Step(START, ops[0]);
    var w2 := Step(w1, ops[1]);
    var run := [START, w1, w2];
    assert IsRun(run, ops);
    assert run[2].row.cycles.missing == 1 && run[2].row.cycles.closures == 0;
  }

  lemma BlockedStep(w: World, op: Op)
    requires Blocked(w)
    ensures Blocked(Step(w, op)) && Step(w, op).row.gate.windowStart == w.row.gate.windowStart
  {
  }

  lemma {:induction false} BlockedForever(run: seq<World>, ops: seq<Op>, j: nat, k: nat)
    requires IsRun(run, ops) && j <= k <= |ops| && Blocked(run[j])
    ensures Blocked(run[k]) && run[k].row.gate.status != Complete
    ensures run[k].row.gate.windowStart == run[j].row.gate.windowStart
  {
    if j < k {
      BlockedForever(run, ops, j, k - 1);
      assert run[k - 1 + 1] == Step(run[k - 1], ops[k - 1]);
      BlockedStep(run[k - 1], ops[k - 1]);
    }
    RunIsConsistent(run, ops, k);
  }

  /** One failure recorded after the window has started rules completion out for good. */
  lemma FailureForbidsComplete(run: seq<World>, ops: seq<Op>, j: nat, k: nat)
    requires IsRun(run, ops) && j < k <= |ops| && run[j].row.gate.windowStart.Some?
    requires ops[j].Interrupt? && CountsAsFailure(ops[j].category, ops[j].at)
    ensures run[k].row.gate.status != Complete
  {
    assert run[j + 1] == Step(run[j], ops[j]);
    InterruptionEffect(run[j], ops[j].category, ops[j].at);
    BlockedForever(run, ops, j + 1, k);
  }

  /** In particular one idle cycle in the open market does: what it commits is a missed interval. */
  lemma IdleCycleForbidsComplete(run: seq<World>, ops: seq<Op>, j: nat, k: nat, now: Instant)
    requires IsRun(run, ops) && j < k <= |ops| && run[j].row.gate.windowStart.Some?
    requires ops[j] == Interrupt(MissedEligibleInterval, now) && !WeekendClosed(now)
    ensures run[k].row.gate.status != Complete
  {
    ClosedByPhase(now);
    FailureForbidsComplete(run, ops, j, k);
  }

  /**
   Failures from before the window are forgiven by the observation that opens it, and
   by nothing else: a cycle in a closed market opens the window with them.
   */
  lemma EarlyFailuresForgivenIff(w: World, op: Op)
    requires w.row.gate.windowStart == None && Step(w, op).row.gate.windowStart.Some? && w.row.cycles.missing == 0
    ensures Blocked(Step(w, op)) <==> w.row.gate.unresolved > 0 && op.OpenInClosure?
  {
  }

  /** The moment at which an operation evaluates the gate, if it does. */
  function EvaluatedAt(w: World, op: Op): Option<Instant> {
    match op
    case Observe(snap, now) => if snap.key in w.records then None else Some(now)
    case Audit(now, _, _) => if Started(w.row.gate) then Some(now) else None
    case _ => None
  }

  /** Some operation so far judged the present window to be at least fourteen days old. */
  ghost predicate Matured(run: seq<World>, ops: seq<Op>, k: nat)
    requires IsRun(run, ops) && k <= |ops| && run[k].row.gate.windowStart.Some?
  {
    exists j :: 0 <= j < k && EvaluatedAt(run[j], ops[j]).Some?
      && EvaluatedAt(run[j], ops[j]).value - run[k].row.gate.windowStart.value >= WINDOW_DAYS * DAY
  }

  lemma CompleteStep(w: World, op: Op)
    requires Step(w, op).row.gate.status == Complete
    requires w.row.gate.status == Complete ==> w.row.gate.windowStart.Some?
    ensures Step(w, op).row.gate.windowStart.Some?
    ensures EvaluatedAt(w, op) == None ==>
      w.row.gate.status == Complete && Step(w, op).row.gate.windowStart == w.row.gate.windowStart
    ensures EvaluatedAt(w, op).Some? ==>
      EvaluatedAt(w, op).value - Step(w, op).row.gate.windowStart.value >= WINDOW_DAYS * DAY
  {
  }

  /** Completion needs an evaluation fourteen days into the window, no failure and no missing cycle. */
  lemma {:induction false} CompleteIsEarned(run: seq<World>, ops: seq<Op>, k: nat)
    requires IsRun(run, ops) && k <= |ops| && run[k].row.gate.status == Complete
    ensures run[k].row.gate.windowStart.Some? && !Blocked(run[k]) && Matured(run, ops, k)
  {
    RunIsConsistent(run, ops, k);
    if k > 0 {
      var w, op := run[k - 1], ops[k - 1];
      assert run[k - 1 + 1] == Step(w, op);
      RunIsConsistent(run, ops, k - 1);
      CompleteStep(w, op);
      if EvaluatedAt(w, op) == None {
        CompleteIsEarned(run, ops, k - 1);
      }
    }
  }
}
