/**
 Runs of the live row: every interleaving of quotes, candle tasks and restarts.  A task
 passes the guard, saves its signal, saves its plan and commits the row in separate steps; a
 restart reads the newest signal, reads its plan and then writes the row in separate steps.
 A task or restart that dies takes no further step.
 */
module LiveRuns {
  import opened Wrappers
  import opened UtcTime
  import opened LiveState

  datatype Stage = Evaluating | SignalSaved | PlanSaved | RowCommitted

  /** A task that passed the guard, with what it will have evaluated. */
  datatype Task = Task(timestamp: Instant, decision: Decision, stage: Stage)

  /** A restart with what it has read so far. */
  datatype Restart =
    | SignalRead(signal: Option<Signal>)
    | PlanRead(signal: Option<Signal>, plan: Option<Plan>)
    | Written

  datatype World = World(store: Store, tasks: seq<Task>, restarts: seq<Restart>)

  const EMPTY_WORLD := World(EMPTY_STORE, [], [])

  datatype Event =
    | QuoteArrives(quote: Quote, stale: bool)
    | CandleArrives(timestamp: Instant, decision: Decision)
    | SaveSignal(task: nat)
    | SavePlan(task: nat)
    | CommitCandle(task: nat)
    | RestartReadsSignal
    | RestartReadsPlan(restart: nat)
    | RestartWrites(restart: nat)

  /** The task an event belongs to is at the stage the event needs. */
  predicate Ready(w: World, task: nat, stage: Stage) {
    task < |w.tasks| && w.tasks[task].stage == stage
  }

  function Advance(w: World, store: Store, task: nat, stage: Stage): World
    requires task < |w.tasks|
  {
    w.(store := store, tasks := w.tasks[task := w.tasks[task].(stage := stage)])
  }

  predicate Reading(w: World, r: nat) {
    r < |w.restarts| && w.restarts[r].SignalRead?
  }

  predicate Writing(w: World, r: nat) {
    r < |w.restarts| && w.restarts[r].PlanRead?
  }

  /** An event that does not apply changes nothing. */
  function Step(w: World, e: Event): World {
    match e
    case QuoteArrives(q, stale) => w.(store := QuoteStep(w.store, q, stale))
    case CandleArrives(timestamp, d) =>
      if HasSignal(w.store.signals, timestamp) then w else w.(tasks := w.tasks + [Task(timestamp, d, Evaluating)])
    case SaveSignal(i) =>
      if Ready(w, i, Evaluating)
      then Advance(w, SaveSignalStep(w.store, w.tasks[i].timestamp, w.tasks[i].decision), i, SignalSaved) else w
    case SavePlan(i) =>
      if Ready(w, i, SignalSaved) then Advance(w, SavePlanStep(w.store, w.tasks[i].decision), i, PlanSaved) else w
    case CommitCandle(i) =>
      if Ready(w, i, PlanSaved)
      then Advance(w, CommitStep(w.store, w.tasks[i].timestamp, w.tasks[i].decision), i, RowCommitted) else w
    case RestartReadsSignal => w.(restarts := w.restarts + [SignalRead(Newest(w.store.signals))])
    case RestartReadsPlan(r) =>
      if Reading(w, r)
      then w.(restarts := w.restarts[r := PlanRead(w.restarts[r].signal, ReadPlan(w.store, w.restarts[r].signal))])
      else w
    case RestartWrites(r) =>
      if Writing(w, r)
      then w.(store := RestoreStep(w.store, w.restarts[r].signal, w.restarts[r].plan),
              restarts := w.restarts[r := Written])
      else w
  }

  function StateAt(run: seq<Event>, k: nat): World
    requires k <= |run|
  {
    if k == 0 then EMPTY_WORLD else Step(StateAt(run, k - 1), run[k - 1])
  }

  // ---------------------------------------------------------------------------
  // One zone function
  // ---------------------------------------------------------------------------

  /** Positive entry prices, as a planner produces them; absent ones are allowed. */
  ghost predicate PositiveGeometry(plan: Option<Plan>) {
    plan.Some? ==>
      && (plan.value.entryMin.Some? ==> plan.value.entryMin.value > 0.0)
      && (plan.value.entryMax.Some? ==> plan.value.entryMax.value > 0.0)
  }

  /** A plan the quote path would act on by its action and the candle path would not, for want of a side. */
  ghost predicate SideOnlyInAction(plan: Option<Plan>) {
    plan.Some? && HasGeometry(RiskOf(plan)) && plan.value.side == None && plan.value.action in {Buy, Sell}
  }

  /** With a quote present both paths compute the same zone and distance exactly when the plan carries its side. */
  lemma PathsAgreeIff(plan: Option<Plan>, bid: real, ask: real)
    requires PositiveGeometry(plan)
    ensures CandleZone(plan, Some(bid), Some(ask)) == QuoteZone(RiskOf(plan), bid, ask) <==> !SideOnlyInAction(plan)
  {
  }

  ghost predicate SoundPlans(run: seq<Event>) {
    forall i :: 0 <= i < |run| && run[i].CandleArrives? ==>
      PositiveGeometry(run[i].decision.plan) && !SideOnlyInAction(run[i].decision.plan)
  }

  ghost predicate SoundTasks(w: World) {
    forall i :: 0 <= i < |w.tasks| ==>
      PositiveGeometry(w.tasks[i].decision.plan) && !SideOnlyInAction(w.tasks[i].decision.plan)
  }

  /** Both sides of the book are known, or neither is. */
  ghost predicate QuotePaired(row: Row) {
    row.quote.bid.Some? <==> row.quote.ask.Some?
  }

  /** The zone and distance the row should show: those of its own risk fields and its own last quote. */
  ghost predicate ZoneConsistent(row: Row) {
    && QuotePaired(row)
    && (row.zone, row.distance)
       == if row.quote.bid.Some? then QuoteZone(row.decision.risk, row.quote.bid.value, row.quote.ask.value)
          else (NoActiveZone, None)
  }

  /** Field ownership: a quote changes no decision field and no durable record, the other events no quote field. */
  lemma OwnedFields(w: World, e: Event)
    ensures
      var s, s' := w.store, Step(w, e).store;
      if e.QuoteArrives? then s'.row.decision == s.row.decision && s'.signals == s.signals && s'.plans == s.plans
      else s'.row.quote == s.row.quote
  {
  }

  // ---------------------------------------------------------------------------
  // What repairs the zone and what a restart does to it
  // ---------------------------------------------------------------------------

  /** A row commit makes the zone right whatever it was before. */
  lemma CommitRepairsZone(s: Store, timestamp: Instant, d: Decision)
    requires PositiveGeometry(d.plan) && !SideOnlyInAction(d.plan) && QuotePaired(s.row)
    ensures ZoneConsistent(CommitStep(s, timestamp, d).row)
  {
    if s.row.quote.bid.Some? {
      PathsAgreeIff(d.plan, s.row.quote.bid.value, s.row.quote.ask.value);
    }
  }

  /** So does an accepted quote. */
  lemma QuoteRepairsZone(s: Store, q: Quote, stale: bool)
    requires QuoteFault(q) == None && Accepts(s.row.quote, q)
    ensures ZoneConsistent(QuoteStep(s, q, stale).row)
  {
  }

  ghost predicate Active(risk: RiskFields) {
    HasGeometry(risk) && CandidateSide(risk).Some?
  }

  /** The part of a plan the zone depends on. */
  ghost predicate SameZoneTerms(a: RiskFields, b: RiskFields) {
    && (Active(a) <==> Active(b))
    && (Active(a) ==> CandidateSide(a) == CandidateSide(b) && a.entryMin == b.entryMin && a.entryMax == b.entryMax)
  }

  ghost predicate OrderedGeometry(risk: RiskFields) {
    Active(risk) ==> 0.0 < risk.entryMin.value <= risk.entryMax.value
  }

  /** The row as some valid last quote would have left it. */
  ghost function WithQuote(s: Store, q: Quote): Store {
    var (zone, distance) := QuoteZone(s.row.decision.risk, q.bid, q.ask);
    s.(row := s.row.(quote := FieldsOf(q, false), zone := zone, distance := distance))
  }

  /** Two plans no valid quote tells apart have the same zone terms. */
  lemma ZoneTermsVisible(a: RiskFields, b: RiskFields) returns (bid: real, ask: real)
    requires OrderedGeometry(a) && OrderedGeometry(b) && !SameZoneTerms(a, b)
    ensures 0.0 < bid <= ask && QuoteZone(a, bid, ask) != QuoteZone(b, bid, ask)
  {
    if !(Active(a) && Active(b)) {
      bid, ask := 1.0, 1.0;
    } else if a.entryMax != b.entryMax {
      bid := if a.entryMax.value > b.entryMax.value then a.entryMax.value else b.entryMax.value;
      ask := bid;
    } else if a.entryMin != b.entryMin {
      bid := if a.entryMin.value < b.entryMin.value then a.entryMin.value else b.entryMin.value;
      ask := bid;
    } else {
      bid, ask := a.entryMin.value / 2.0, a.entryMin.value;
    }
  }

  /**
   A restart keeps the zone right whatever the last quote was, exactly when the plan it read
   and the row's agree on activity, side and entry range.
   */
  lemma RestartKeepsZoneIff(s: Store, signal: Option<Signal>, plan: Option<Plan>)
    requires OrderedGeometry(s.row.decision.risk) && OrderedGeometry(RiskOf(plan))
    ensures (forall q: Quote :: QuoteFault(q) == None ==>
      ZoneConsistent(RestoreStep(WithQuote(s, q), signal, plan).row))
      <==> SameZoneTerms(s.row.decision.risk, RiskOf(plan))
  {
    var shown, read := s.row.decision.risk, RiskOf(plan);
    if !SameZoneTerms(shown, read) {
      var bid, ask := ZoneTermsVisible(shown, read);
      var q := Quote(bid, ask, 0, 0, None);
      assert QuoteFault(q) == None && !ZoneConsistent(RestoreStep(WithQuote(s, q), signal, plan).row);
    } else {
      forall q: Quote | QuoteFault(q) == None ensures ZoneConsistent(RestoreStep(WithQuote(s, q), signal, plan).row) {
        assert QuoteZone(shown, q.bid, q.ask) == QuoteZone(read, q.bid, q.ask);
      }
    }
  }

  // ---------------------------------------------------------------------------
  // Every interleaving
  // ---------------------------------------------------------------------------

  /** An accepted quote or a row commit: the events that compute the zone. */
  ghost predicate Refreshes(w: World, e: Event) {
    match e
    case QuoteArrives(q, _) => QuoteFault(q) == None && Accepts(w.store.row.quote, q)
    case CommitCandle(i) => Ready(w, i, PlanSaved)
    case _ => false
  }

  /** The write of a restart that changes the zone terms of the row. */
  ghost predicate Disturbs(w: World, e: Event) {
    e.RestartWrites? && Writing(w, e.restart)
      && !SameZoneTerms(w.store.row.decision.risk, RiskOf(w.restarts[e.restart].plan))
  }

  /** Since the last disturbing write, if any, the zone has been computed anew. */
  ghost predicate Settled(run: seq<Event>, k: nat)
    requires k <= |run|
  {
    if k == 0 then true
    else
      var w, e := StateAt(run, k - 1), run[k - 1];
      Refreshes(w, e) || (!Disturbs(w, e) && Settled(run, k - 1))
  }

  lemma StepSound(w: World, e: Event)
    requires SoundTasks(w) && QuotePaired(w.store.row)
    requires e.CandleArrives? ==> PositiveGeometry(e.decision.plan) && !SideOnlyInAction(e.decision.plan)
    ensures SoundTasks(Step(w, e)) && QuotePaired(Step(w, e).store.row)
  {
  }

  lemma StepZone(w: World, e: Event)
    requires SoundTasks(w) && QuotePaired(w.store.row)
    requires Refreshes(w, e) || (!Disturbs(w, e) && ZoneConsistent(w.store.row))
    ensures ZoneConsistent(Step(w, e).store.row)
  {
    if e.CommitCandle? && Ready(w, e.task, PlanSaved) {
      CommitRepairsZone(w.store, w.tasks[e.task].timestamp, w.tasks[e.task].decision);
    } else if e.RestartWrites? && Writing(w, e.restart) && w.store.row.quote.bid.Some? {
      var bid, ask := w.store.row.quote.bid.value, w.store.row.quote.ask.value;
      assert QuoteZone(w.store.row.decision.risk, bid, ask) == QuoteZone(RiskOf(w.restarts[e.restart].plan), bid, ask);
    }
  }

  lemma {:induction false} RunSound(run: seq<Event>, k: nat)
    requires k <= |run| && SoundPlans(run)
    ensures SoundTasks(StateAt(run, k)) && QuotePaired(StateAt(run, k).store.row)
  {
    if k > 0 {
      RunSound(run, k - 1);
      StepSound(StateAt(run, k - 1), run[k - 1]);
    }
  }

  /**
   In every interleaving of quotes, restarts and the steps of any number of candle tasks,
   dead ones included, the stored zone is the zone of the stored plan and quote, except from
   the write of a restart that changes the plan's terms to the next accepted quote or row commit.
   */
  lemma {:induction false} ZoneConsistentWhenSettled(run: seq<Event>, k: nat)
    requires k <= |run| && SoundPlans(run) && Settled(run, k)
    ensures ZoneConsistent(StateAt(run, k).store.row)
  {
    if k > 0 {
      RunSound(run, k - 1);
      var w, e := StateAt(run, k - 1), run[k - 1];
      if !Refreshes(w, e) {
        ZoneConsistentWhenSettled(run, k - 1);
      }
      StepZone(w, e);
    }
  }

  // ---------------------------------------------------------------------------
  // When a restart disturbs
  // ---------------------------------------------------------------------------

  /** A fingerprint stands for one evaluated candle. */
  ghost predicate Fingerprinted(run: seq<Event>) {
    forall i, j :: 0 <= i < |run| && 0 <= j < |run| && run[i].CandleArrives? && run[j].CandleArrives? ==>
      (run[i].decision.fingerprint == run[j].decision.fingerprint ==>
         run[i].timestamp == run[j].timestamp && run[i].decision == run[j].decision)
  }

  /** Every task came with an event of the run so far. */
  ghost predicate TasksArrived(w: World, run: seq<Event>, k: nat) {
    k <= |run| && forall i :: 0 <= i < |w.tasks| ==> Arrived(run, k, w.tasks[i].timestamp, w.tasks[i].decision)
  }

  ghost predicate Arrived(run: seq<Event>, k: nat, timestamp: Instant, d: Decision)
    requires k <= |run|
  {
    exists j :: 0 <= j < k && run[j].CandleArrives? && run[j].timestamp == timestamp && run[j].decision == d
  }

  /** What a task past a stage has made durable. */
  ghost predicate Durable(w: World, i: nat)
    requires i < |w.tasks|
  {
    var t := w.tasks[i];
    && (t.stage != Evaluating ==> HasFingerprint(w.store.signals, t.decision.fingerprint))
    && (t.stage in {PlanSaved, RowCommitted} ==> PlanOf(w.store, t.decision.fingerprint) == t.decision.plan)
  }

  ghost predicate PlanAgrees(w: World, d: Decision) {
    d.fingerprint in w.store.plans ==> d.plan == Some(w.store.plans[d.fingerprint])
  }

  /** Plans saved are those of the decisions that arrived, and saved signals and plans stay. */
  ghost predicate TasksInv(w: World, run: seq<Event>) {
    && (forall j :: 0 <= j < |run| && run[j].CandleArrives? ==> PlanAgrees(w, run[j].decision))
    && (forall i: nat :: i < |w.tasks| ==> Durable(w, i))
  }

  /** The fingerprint of the newest durable signal. */
  ghost predicate IsNewest(w: World, fingerprint: string) {
    Newest(w.store.signals).Some? && Newest(w.store.signals).value.fingerprint == fingerprint
  }

  /** The task whose row commit is the latest so far. */
  ghost function LastCommit(run: seq<Event>, k: nat): Option<nat>
    requires k <= |run|
  {
    if k == 0 then None
    else if run[k - 1].CommitCandle? && Ready(StateAt(run, k - 1), run[k - 1].task, PlanSaved)
    then Some(run[k - 1].task)
    else LastCommit(run, k - 1)
  }

  lemma StepArrived(run: seq<Event>, k: nat)
    requires k < |run| && TasksArrived(StateAt(run, k), run, k)
    ensures TasksArrived(StateAt(run, k + 1), run, k + 1)
  {
    var w, w' := StateAt(run, k), StateAt(run, k + 1);
    forall i | 0 <= i < |w'.tasks| ensures Arrived(run, k + 1, w'.tasks[i].timestamp, w'.tasks[i].decision) {
      if i < |w.tasks| {
        assert Arrived(run, k, w.tasks[i].timestamp, w.tasks[i].decision);
      } else {
        assert run[k].CandleArrives? && run[k].timestamp == w'.tasks[i].timestamp
          && run[k].decision == w'.tasks[i].decision;
      }
    }
  }

  lemma SavePlanAgrees(w: World, run: seq<Event>, i: nat)
    requires Fingerprinted(run) && TasksInv(w, run) && TasksArrived(w, run, |run|) && Ready(w, i, SignalSaved)
    ensures forall j :: 0 <= j < |run| && run[j].CandleArrives? ==> PlanAgrees(Step(w, SavePlan(i)), run[j].decision)
  {
    var d := w.tasks[i].decision;
    assert Arrived(run, |run|, w.tasks[i].timestamp, d);
  }

  lemma StepTasksInv(w: World, run: seq<Event>, e: Event)
    requires Fingerprinted(run) && TasksInv(w, run) && TasksArrived(w, run, |run|)
    ensures TasksInv(Step(w, e), run)
  {
    var w' := Step(w, e);
    if e.SavePlan? && Ready(w, e.task, SignalSaved) {
      SavePlanAgrees(w, run, e.task);
    }
    forall i: nat | i < |w'.tasks| ensures Durable(w', i) {
      if i < |w.tasks| {
        assert Durable(w, i);
        StepDurable(w, run, e, i);
      }
    }
  }

  lemma SignalKept(s: Store, timestamp: Instant, d: Decision, fingerprint: string)
    ensures HasFingerprint(SaveSignalStep(s, timestamp, d).signals, fingerprint)
      <==> HasFingerprint(s.signals, fingerprint) || fingerprint == d.fingerprint
  {
    var s' := SaveSignalStep(s, timestamp, d);
    if s' != s {
      assert s'.signals[|s.signals|].fingerprint == d.fingerprint;
      assert forall i :: 0 <= i < |s.signals| ==> s'.signals[i] == s.signals[i];
    }
  }

  lemma StepDurable(w: World, run: seq<Event>, e: Event, i: nat)
    requires Fingerprinted(run) && TasksInv(w, run) && TasksArrived(w, run, |run|) && i < |w.tasks|
    ensures i < |Step(w, e).tasks| && Durable(Step(w, e), i)
  {
    assert Durable(w, i) && Arrived(run, |run|, w.tasks[i].timestamp, w.tasks[i].decision);
    match e
    case SaveSignal(j) =>
      if Ready(w, j, Evaluating) {
        SignalKept(w.store, w.tasks[j].timestamp, w.tasks[j].decision, w.tasks[i].decision.fingerprint);
      }
    case SavePlan(j) =>
      if Ready(w, j, SignalSaved) {
        assert Arrived(run, |run|, w.tasks[j].timestamp, w.tasks[j].decision);
        assert PlanAgrees(w, w.tasks[i].decision);
      }
    case _ =>
  }

  lemma {:induction false} RunTasksInv(run: seq<Event>, k: nat)
    requires k <= |run| && Fingerprinted(run)
    ensures TasksInv(StateAt(run, k), run) && TasksArrived(StateAt(run, k), run, k)
  {
    if k > 0 {
      RunTasksInv(run, k - 1);
      var w := StateAt(run, k - 1);
      StepArrived(run, k - 1);
      ArrivedByEnd(w, run, k - 1);
      StepTasksInv(w, run, run[k - 1]);
    }
  }

  lemma ArrivedByEnd(w: World, run: seq<Event>, k: nat)
    requires TasksArrived(w, run, k)
    ensures TasksArrived(w, run, |run|)
  {
    forall i | 0 <= i < |w.tasks| ensures Arrived(run, |run|, w.tasks[i].timestamp, w.tasks[i].decision) {
      assert Arrived(run, k, w.tasks[i].timestamp, w.tasks[i].decision);
    }
  }

  // ---------------------------------------------------------------------------
  // What a restart has read
  // ---------------------------------------------------------------------------

  /** The risk fields the row last took, from a row commit or from a restart's write. */
  ghost function TakenRisk(run: seq<Event>, k: nat): RiskFields
    requires k <= |run|
  {
    if k == 0 then NO_RISK
    else
      var w, e := StateAt(run, k - 1), run[k - 1];
      if e.CommitCandle? && Ready(w, e.task, PlanSaved) then RiskOf(w.tasks[e.task].decision.plan)
      else if e.RestartWrites? && Writing(w, e.restart) then RiskOf(w.restarts[e.restart].plan)
      else TakenRisk(run, k - 1)
  }

  lemma {:induction false} RowTakes(run: seq<Event>, k: nat)
    requires k <= |run|
    ensures StateAt(run, k).store.row.decision.risk == TakenRisk(run, k)
  {
    if k > 0 {
      RowTakes(run, k - 1);
    }
  }

  /** When restart `r` read the newest signal. */
  ghost function SignalReadAt(run: seq<Event>, k: nat, r: nat): (t: Option<nat>)
    requires k <= |run|
    ensures t.Some? ==> t.value < k && run[t.value].RestartReadsSignal?
  {
    if k == 0 then None
    else if run[k - 1].RestartReadsSignal? && |StateAt(run, k - 1).restarts| == r then Some(k - 1)
    else SignalReadAt(run, k - 1, r)
  }

  /** When it read the plan. */
  ghost function PlanReadAt(run: seq<Event>, k: nat, r: nat): (t: Option<nat>)
    requires k <= |run|
    ensures t.Some? ==> t.value < k && run[t.value] == RestartReadsPlan(r)
  {
    if k == 0 then None
    else if run[k - 1] == RestartReadsPlan(r) && Reading(StateAt(run, k - 1), r) then Some(k - 1)
    else PlanReadAt(run, k - 1, r)
  }

  lemma {:induction false} RestartBegan(run: seq<Event>, k: nat, r: nat)
    requires k <= |run|
    ensures r < |StateAt(run, k).restarts| <==> SignalReadAt(run, k, r).Some?
  {
    if k > 0 {
      RestartBegan(run, k - 1, r);
    }
  }

  lemma RestartStepKeeps(w: World, e: Event, r: nat)
    requires r < |w.restarts|
    ensures r < |Step(w, e).restarts|
    ensures !Step(w, e).restarts[r].Written? ==>
      !w.restarts[r].Written? && Step(w, e).restarts[r].signal == w.restarts[r].signal
  {
  }

  lemma RestartBegins(w: World, e: Event, r: nat)
    requires |w.restarts| <= r < |Step(w, e).restarts|
    ensures e.RestartReadsSignal? && r == |w.restarts| && Step(w, e).restarts[r] == SignalRead(Newest(w.store.signals))
  {
  }

  /** A restart that has not written holds the signal that was newest when it began. */
  lemma {:induction false} RestartHoldsSignal(run: seq<Event>, k: nat, r: nat)
    requires k <= |run| && r < |StateAt(run, k).restarts| && !StateAt(run, k).restarts[r].Written?
    ensures SignalReadAt(run, k, r).Some?
    ensures StateAt(run, k).restarts[r].signal == Newest(StateAt(run, SignalReadAt(run, k, r).value).store.signals)
  {
    RestartBegan(run, k, r);
    var w, e := StateAt(run, k - 1), run[k - 1];
    if r < |w.restarts| {
      RestartStepKeeps(w, e, r);
      RestartHoldsSignal(run, k - 1, r);
    } else {
      RestartBegins(w, e, r);
    }
  }

  /** Once it has looked, it holds the plan that was stored for that signal then. */
  lemma {:induction false} RestartHoldsPlan(run: seq<Event>, k: nat, r: nat)
    requires k <= |run| && Writing(StateAt(run, k), r)
    ensures PlanReadAt(run, k, r).Some?
    ensures
      var w := StateAt(run, k);
      w.restarts[r].plan == ReadPlan(StateAt(run, PlanReadAt(run, k, r).value).store, w.restarts[r].signal)
  {
    if !(run[k - 1] == RestartReadsPlan(r) && Reading(StateAt(run, k - 1), r)) {
      RestartHoldsPlan(run, k - 1, r);
    }
  }

  /**
   The write of a restart disturbs the row exactly when the plan the row last took differs in
   its zone terms from the plan that was stored, when the restart looked for it, for the
   signal that was newest when the restart began.
   */
  lemma RestartDisturbsIff(run: seq<Event>, k: nat, r: nat)
    requires k < |run| && run[k] == RestartWrites(r) && Writing(StateAt(run, k), r)
    ensures SignalReadAt(run, k, r).Some? && PlanReadAt(run, k, r).Some?
    ensures
      var began, looked := StateAt(run, SignalReadAt(run, k, r).value).store,
        StateAt(run, PlanReadAt(run, k, r).value).store;
      Disturbs(StateAt(run, k), run[k]) <==>
      !SameZoneTerms(TakenRisk(run, k), RiskOf(ReadPlan(looked, Newest(began.signals))))
  {
    RowTakes(run, k);
    RestartHoldsSignal(run, k, r);
    RestartHoldsPlan(run, k, r);
  }

  // ---------------------------------------------------------------------------
  // Restarts that disturb nothing
  // ---------------------------------------------------------------------------

  /** The newest durable signal is not the one whose row commit is the latest: it is pending, lost or overtaken. */
  ghost predicate NewestUncommitted(run: seq<Event>, k: nat)
    requires k <= |run|
  {
    var w, last := StateAt(run, k), LastCommit(run, k);
    && w.store.signals != []
    && (last.Some? && last.value < |w.tasks| ==> !IsNewest(w, w.tasks[last.value].decision.fingerprint))
  }

  lemma {:induction false} LastCommitted(run: seq<Event>, k: nat)
    requires k <= |run|
    ensures
      var w, last := StateAt(run, k), LastCommit(run, k);
      last.Some? ==> last.value < |w.tasks| && w.tasks[last.value].stage == RowCommitted
  {
    if k > 0 {
      LastCommitted(run, k - 1);
    }
  }

  lemma {:induction false} DecisionsStay(run: seq<Event>, j: nat, k: nat, i: nat)
    requires j <= k <= |run| && i < |StateAt(run, j).tasks|
    ensures i < |StateAt(run, k).tasks| && StateAt(run, k).tasks[i].decision == StateAt(run, j).tasks[i].decision
    ensures StateAt(run, j).tasks[i].stage == RowCommitted ==> StateAt(run, k).tasks[i].stage == RowCommitted
    decreases k
  {
    if j < k {
      DecisionsStay(run, j, k - 1, i);
    }
  }

  /** The plan of the task last committed, if any was. */
  ghost function CommittedPlan(run: seq<Event>, k: nat): Option<Plan>
    requires k <= |run|
  {
    var w, last := StateAt(run, k), LastCommit(run, k);
    if last.Some? && last.value < |w.tasks| then w.tasks[last.value].decision.plan else None
  }

  /** Once its row is committed, a task's plan is found for its fingerprint at every later time. */
  lemma CommittedPlanIsFound(run: seq<Event>, t: nat, j: nat)
    requires t <= j <= |run| && Fingerprinted(run) && !NewestUncommitted(run, t)
    ensures ReadPlan(StateAt(run, j).store, Newest(StateAt(run, t).store.signals)) == CommittedPlan(run, t)
  {
    var w, last := StateAt(run, t), LastCommit(run, t);
    RunTasksInv(run, t);
    RunTasksInv(run, j);
    LastCommitted(run, t);
    if last.Some? {
      assert Durable(w, last.value);
      DecisionsStay(run, t, j, last.value);
      assert Durable(StateAt(run, j), last.value);
    }
  }

  /**
   A restart that, when it began, found the newest signal committed last, and whose write
   finds the same row commit the latest: no commit fell in between.
   */
  ghost predicate FreshWrite(run: seq<Event>, k: nat)
    requires k < |run| && run[k].RestartWrites?
  {
    var t := SignalReadAt(run, k, run[k].restart);
    t.Some? && !NewestUncommitted(run, t.value) && LastCommit(run, t.value) == LastCommit(run, k)
  }

  lemma PlanReadAfterSignal(run: seq<Event>, k: nat, r: nat)
    requires k <= |run| && PlanReadAt(run, k, r).Some? && SignalReadAt(run, k, r).Some?
    ensures SignalReadAt(run, k, r).value <= PlanReadAt(run, k, r).value
  {
    ReadingAtPlanRead(run, k, r);
    RestartBegan(run, PlanReadAt(run, k, r).value, r);
    SignalReadOnce(run, PlanReadAt(run, k, r).value, k, r);
  }

  lemma {:induction false} ReadingAtPlanRead(run: seq<Event>, k: nat, r: nat)
    requires k <= |run| && PlanReadAt(run, k, r).Some?
    ensures Reading(StateAt(run, PlanReadAt(run, k, r).value), r)
  {
    if !(run[k - 1] == RestartReadsPlan(r) && Reading(StateAt(run, k - 1), r)) {
      ReadingAtPlanRead(run, k - 1, r);
    }
  }

  lemma {:induction false} SignalReadOnce(run: seq<Event>, j: nat, k: nat, r: nat)
    requires j <= k <= |run| && SignalReadAt(run, j, r).Some?
    ensures SignalReadAt(run, k, r) == SignalReadAt(run, j, r)
    decreases k
  {
    if j < k {
      SignalReadOnce(run, j, k - 1, r);
      RestartBegan(run, k - 1, r);
    }
  }

  /** A fresh write puts back the plan last committed. */
  lemma FreshWriteRestores(run: seq<Event>, k: nat)
    requires k < |run| && Fingerprinted(run) && run[k].RestartWrites? && Writing(StateAt(run, k), run[k].restart)
    requires FreshWrite(run, k)
    ensures RiskOf(StateAt(run, k).restarts[run[k].restart].plan) == RiskOf(CommittedPlan(run, k))
  {
    var r := run[k].restart;
    RestartHoldsSignal(run, k, r);
    RestartHoldsPlan(run, k, r);
    var t, j := SignalReadAt(run, k, r).value, PlanReadAt(run, k, r).value;
    PlanReadAfterSignal(run, k, r);
    CommittedPlanIsFound(run, t, j);
    LastCommitted(run, t);
    if LastCommit(run, t).Some? {
      DecisionsStay(run, t, k, LastCommit(run, t).value);
    }
  }

  ghost predicate AllWritesFresh(run: seq<Event>, k: nat)
    requires k <= |run|
  {
    forall i :: 0 <= i < k && run[i].RestartWrites? && Writing(StateAt(run, i), run[i].restart) ==> FreshWrite(run, i)
  }

  ghost predicate ShowsCommitted(run: seq<Event>, k: nat)
    requires k <= |run|
  {
    SameZoneTerms(StateAt(run, k).store.row.decision.risk, RiskOf(CommittedPlan(run, k)))
  }

  /** No row commit: the plan last committed stays the same. */
  lemma CommittedPlanStays(run: seq<Event>, k: nat)
    requires k < |run| && LastCommit(run, k + 1) == LastCommit(run, k)
    ensures CommittedPlan(run, k + 1) == CommittedPlan(run, k)
  {
    LastCommitted(run, k);
    if LastCommit(run, k).Some? {
      DecisionsStay(run, k, k + 1, LastCommit(run, k).value);
    }
  }

  lemma CommitShows(run: seq<Event>, k: nat)
    requires k < |run| && run[k].CommitCandle? && Ready(StateAt(run, k), run[k].task, PlanSaved)
    ensures ShowsCommitted(run, k + 1)
  {
    assert LastCommit(run, k + 1) == Some(run[k].task);
  }

  lemma WriteShows(run: seq<Event>, k: nat)
    requires k < |run| && Fingerprinted(run) && ShowsCommitted(run, k)
    requires run[k].RestartWrites? && Writing(StateAt(run, k), run[k].restart) && FreshWrite(run, k)
    ensures ShowsCommitted(run, k + 1) && !Disturbs(StateAt(run, k), run[k])
  {
    FreshWriteRestores(run, k);
    CommittedPlanStays(run, k);
  }

  lemma OtherShows(run: seq<Event>, k: nat)
    requires k < |run| && ShowsCommitted(run, k)
    requires !(run[k].CommitCandle? && Ready(StateAt(run, k), run[k].task, PlanSaved))
    requires !(run[k].RestartWrites? && Writing(StateAt(run, k), run[k].restart))
    ensures ShowsCommitted(run, k + 1)
  {
    CommittedPlanStays(run, k);
    assert StateAt(run, k + 1).store.row.decision == StateAt(run, k).store.row.decision;
  }

  lemma StepShowsCommitted(run: seq<Event>, k: nat)
    requires k < |run| && Fingerprinted(run) && ShowsCommitted(run, k)
    requires run[k].RestartWrites? && Writing(StateAt(run, k), run[k].restart) ==> FreshWrite(run, k)
    ensures ShowsCommitted(run, k + 1) && !Disturbs(StateAt(run, k), run[k])
  {
    var w, e := StateAt(run, k), run[k];
    if e.CommitCandle? && Ready(w, e.task, PlanSaved) {
      CommitShows(run, k);
    } else if e.RestartWrites? && Writing(w, e.restart) {
      WriteShows(run, k);
    } else {
      OtherShows(run, k);
    }
  }

  /**
   Restarts are free while each begins with the newest signal committed last and no row
   commit falls between its first read and its write: then the zone is right in every state
   and the row shows the plan last committed.
   */
  lemma RestartsFree(run: seq<Event>, k: nat)
    requires k <= |run| && Fingerprinted(run) && SoundPlans(run) && AllWritesFresh(run, k)
    ensures Settled(run, k) && ShowsCommitted(run, k) && ZoneConsistent(StateAt(run, k).store.row)
  {
    FreshWritesSettle(run, k);
    ZoneConsistentWhenSettled(run, k);
  }

  lemma {:induction false} FreshWritesSettle(run: seq<Event>, k: nat)
    requires k <= |run| && Fingerprinted(run) && AllWritesFresh(run, k)
    ensures Settled(run, k) && ShowsCommitted(run, k)
  {
    if k > 0 {
      FreshWritesSettle(run, k - 1);
      StepShowsCommitted(run, k - 1);
    }
  }

  // ---------------------------------------------------------------------------
  // A restart between signal and row commit
  // ---------------------------------------------------------------------------

  /** One candle whose row commit is still pending when the row is rebuilt, with nothing out of order. */
  ghost function PendingCommitRun(q: Quote, d: Decision): seq<Event> {
    [QuoteArrives(q, false), CandleArrives(0, d), SaveSignal(0), SavePlan(0),
     RestartReadsSignal, RestartReadsPlan(0), RestartWrites(0), CommitCandle(0)]
  }

  lemma FirstQuote(q: Quote)
    requires QuoteFault(q) == None
    ensures
      var s := QuoteStep(EMPTY_STORE, q, false);
      && s.row.quote == FieldsOf(q, false) && (s.row.zone, s.row.distance) == (NoActiveZone, None)
      && s.row.decision.risk == NO_RISK && s.signals == [] && s.plans == map[]
  {
  }

  /** The store once quote, signal and plan are in. */
  ghost function PendingStore(q: Quote, d: Decision): Store {
    SavePlanStep(SaveSignalStep(QuoteStep(EMPTY_STORE, q, false), 0, d), d)
  }

  lemma PendingStoreHolds(q: Quote, d: Decision)
    requires QuoteFault(q) == None
    ensures
      var s := PendingStore(q, d);
      && s.row.quote == FieldsOf(q, false) && (s.row.zone, s.row.distance) == (NoActiveZone, None)
      && s.row.decision.risk == NO_RISK && s.signals == [SignalOf(0, d)] && PlanOf(s, d.fingerprint) == d.plan
  {
    FirstQuote(q);
  }

  /** The events of the first three steps of a task, one after the other. */
  ghost predicate TaskSaves(run: seq<Event>, k: nat, timestamp: Instant, d: Decision, i: nat) {
    k + 3 <= |run| && run[k] == CandleArrives(timestamp, d) && run[k + 1] == SaveSignal(i) && run[k + 2] == SavePlan(i)
  }

  lemma TaskArrives(run: seq<Event>, k: nat, w: World, timestamp: Instant, d: Decision)
    requires k < |run| && StateAt(run, k) == w && run[k] == CandleArrives(timestamp, d)
    requires !HasSignal(w.store.signals, timestamp)
    ensures StateAt(run, k + 1) == w.(tasks := w.tasks + [Task(timestamp, d, Evaluating)])
  {
  }

  lemma TaskSavesSignal(
    run: seq<Event>, k: nat, s: Store, tasks: seq<Task>, restarts: seq<Restart>, timestamp: Instant, d: Decision)
    requires k < |run| && StateAt(run, k) == World(s, tasks + [Task(timestamp, d, Evaluating)], restarts)
    requires run[k] == SaveSignal(|tasks|)
    ensures StateAt(run, k + 1)
      == World(SaveSignalStep(s, timestamp, d), tasks + [Task(timestamp, d, SignalSaved)], restarts)
  {
  }

  lemma TaskSavesPlan(
    run: seq<Event>, k: nat, s: Store, tasks: seq<Task>, restarts: seq<Restart>, timestamp: Instant, d: Decision)
    requires k < |run| && StateAt(run, k) == World(s, tasks + [Task(timestamp, d, SignalSaved)], restarts)
    requires run[k] == SavePlan(|tasks|)
    ensures StateAt(run, k + 1) == World(SavePlanStep(s, d), tasks + [Task(timestamp, d, PlanSaved)], restarts)
  {
  }

  lemma TaskSaved(
    run: seq<Event>, k: nat, s: Store, tasks: seq<Task>, restarts: seq<Restart>, timestamp: Instant, d: Decision)
    requires TaskSaves(run, k, timestamp, d, |tasks|) && StateAt(run, k) == World(s, tasks, restarts)
    requires !HasSignal(s.signals, timestamp)
    ensures StateAt(run, k + 3)
         == World(SavePlanStep(SaveSignalStep(s, timestamp, d), d), tasks + [Task(timestamp, d, PlanSaved)], restarts)
  {
    TaskArrives(run, k, World(s, tasks, restarts), timestamp, d);
    TaskSavesSignal(run, k + 1, s, tasks, restarts, timestamp, d);
    TaskSavesPlan(run, k + 2, SaveSignalStep(s, timestamp, d), tasks, restarts, timestamp, d);
  }

  lemma TaskCommits(
    run: seq<Event>, k: nat, s: Store, tasks: seq<Task>, restarts: seq<Restart>, timestamp: Instant, d: Decision)
    requires k < |run| && StateAt(run, k) == World(s, tasks + [Task(timestamp, d, PlanSaved)], restarts)
    requires run[k] == CommitCandle(|tasks|)
    ensures StateAt(run, k + 1)
      == World(CommitStep(s, timestamp, d), tasks + [Task(timestamp, d, RowCommitted)], restarts)
    ensures LastCommit(run, k + 1) == Some(|tasks|)
  {
  }

  lemma RestartLooks(run: seq<Event>, k: nat, w: World, signal: Option<Signal>)
    requires k < |run| && StateAt(run, k) == w.(restarts := w.restarts + [SignalRead(signal)])
    requires run[k] == RestartReadsPlan(|w.restarts|)
    ensures StateAt(run, k + 1) == w.(restarts := w.restarts + [PlanRead(signal, ReadPlan(w.store, signal))])
  {
  }

  lemma RestartReads(run: seq<Event>, k: nat, w: World)
    requires k + 2 <= |run| && StateAt(run, k) == w
    requires run[k] == RestartReadsSignal && run[k + 1] == RestartReadsPlan(|w.restarts|)
    ensures
      var signal := Newest(w.store.signals);
      StateAt(run, k + 2) == w.(restarts := w.restarts + [PlanRead(signal, ReadPlan(w.store, signal))])
  {
    RestartLooks(run, k + 1, w, Newest(w.store.signals));
  }

  /** The first restart, in a store with one signal. */
  lemma RestartReadsOnly(run: seq<Event>, k: nat, s: Store, tasks: seq<Task>, x: Signal, plan: Option<Plan>)
    requires k + 2 <= |run| && StateAt(run, k) == World(s, tasks, []) && s.signals == [x]
    requires PlanOf(s, x.fingerprint) == plan
    requires run[k] == RestartReadsSignal && run[k + 1] == RestartReadsPlan(0)
    ensures StateAt(run, k + 2) == World(s, tasks, [PlanRead(Some(x), plan)])
  {
    NewestOfOne(x);
    RestartReads(run, k, World(s, tasks, []));
  }

  lemma RestartWritesRow(run: seq<Event>, k: nat, w: World, signal: Option<Signal>, plan: Option<Plan>)
    requires k < |run| && StateAt(run, k) == w && w.restarts == [PlanRead(signal, plan)] && run[k] == RestartWrites(0)
    ensures StateAt(run, k + 1) == World(RestoreStep(w.store, signal, plan), w.tasks, [Written])
  {
  }

  lemma FirstQuoteState(run: seq<Event>, q: Quote)
    requires |run| > 0 && run[0] == QuoteArrives(q, false)
    ensures StateAt(run, 1) == World(QuoteStep(EMPTY_STORE, q, false), [], [])
  {
    assert StateAt(run, 0) == EMPTY_WORLD;
  }

  lemma QuoteThenTask(run: seq<Event>, q: Quote, d: Decision)
    requires QuoteFault(q) == None && |run| >= 4 && run[0] == QuoteArrives(q, false) && TaskSaves(run, 1, 0, d, 0)
    ensures StateAt(run, 4) == World(PendingStore(q, d), [] + [Task(0, d, PlanSaved)], [])
  {
    FirstQuote(q);
    FirstQuoteState(run, q);
    TaskSaved(run, 1, QuoteStep(EMPTY_STORE, q, false), [], [], 0, d);
  }

  lemma NewestOfOne(x: Signal)
    ensures Newest([x]) == Some(x)
  {
    assert [x][..0] == [];
  }

  lemma PendingCommitStates(run: seq<Event>, q: Quote, d: Decision)
    requires QuoteFault(q) == None && run == PendingCommitRun(q, d)
    ensures StateAt(run, 6) == World(PendingStore(q, d), [] + [Task(0, d, PlanSaved)],
      [PlanRead(Some(SignalOf(0, d)), d.plan)])
  {
    QuoteThenTask(run, q, d);
    PendingStoreHolds(q, d);
    RestartReadsOnly(run, 4, PendingStore(q, d), [] + [Task(0, d, PlanSaved)], SignalOf(0, d), d.plan);
  }

  lemma PendingCommitEnd(q: Quote, d: Decision)
    requires QuoteFault(q) == None
    ensures
      var run, restored := PendingCommitRun(q, d), RestoreStep(PendingStore(q, d), Some(SignalOf(0, d)), d.plan);
      StateAt(run, 7).store == restored && StateAt(run, 8).store == CommitStep(restored, 0, d)
  {
    var run, restored := PendingCommitRun(q, d), RestoreStep(PendingStore(q, d), Some(SignalOf(0, d)), d.plan);
    PendingCommitStates(run, q, d);
    RestartWritesRow(run, 6, StateAt(run, 6), Some(SignalOf(0, d)), d.plan);
    TaskCommits(run, 7, restored, [], [Written], 0, d);
  }

  /** The zone is wrong from the restart's write up to the pending row commit, which makes it right. */
  lemma PendingCommitBreaksZone(q: Quote, d: Decision)
    requires QuoteFault(q) == None && QuoteZone(RiskOf(d.plan), q.bid, q.ask).0 != NoActiveZone
    requires PositiveGeometry(d.plan) && !SideOnlyInAction(d.plan)
    ensures
      var run := PendingCommitRun(q, d);
      && SoundPlans(run) && Fingerprinted(run)
      && !ZoneConsistent(StateAt(run, 7).store.row) && ZoneConsistent(StateAt(run, 8).store.row)
  {
    PendingCommitEnd(q, d);
    PendingStoreHolds(q, d);
    CommitRepairsZone(RestoreStep(PendingStore(q, d), Some(SignalOf(0, d)), d.plan), 0, d);
  }

  const EXAMPLE_QUOTE := Quote(10.0, 11.0, 0, 0, None)
  const EXAMPLE_PLAN := Plan(Some(Long), Buy, true, true, Some(10.0), Some(12.0), None, "plan")

  /** Such a quote and plan exist. */
  lemma PendingCommitExample(d: Decision)
    requires d.plan == Some(EXAMPLE_PLAN)
    ensures !ZoneConsistent(StateAt(PendingCommitRun(EXAMPLE_QUOTE, d), 7).store.row)
  {
    PendingCommitBreaksZone(EXAMPLE_QUOTE, d);
  }

  // ---------------------------------------------------------------------------
  // A restart that read before a row commit it then overwrites
  // ---------------------------------------------------------------------------

  /** Candle x is committed; a restart reads; candle y is committed; the restart writes. */
  ghost function OverwritingRun(q: Quote, x: Decision, y: Decision): seq<Event> {
    [QuoteArrives(q, false),
     CandleArrives(0, x), SaveSignal(0), SavePlan(0), CommitCandle(0),
     RestartReadsSignal, RestartReadsPlan(0),
     CandleArrives(1, y), SaveSignal(1), SavePlan(1), CommitCandle(1),
     RestartWrites(0)]
  }

  /** x has no plan, and y has one in whose terms the quote lies. */
  ghost predicate Overwrites(q: Quote, x: Decision, y: Decision) {
    && QuoteFault(q) == None && x.plan == None && x.fingerprint != y.fingerprint
    && PositiveGeometry(y.plan) && !SideOnlyInAction(y.plan)
    && QuoteZone(RiskOf(y.plan), q.bid, q.ask).0 != NoActiveZone
  }

  ghost function AfterX(q: Quote, x: Decision): Store {
    CommitStep(PendingStore(q, x), 0, x)
  }

  ghost function AfterY(q: Quote, x: Decision, y: Decision): Store {
    CommitStep(SavePlanStep(SaveSignalStep(AfterX(q, x), 1, y), y), 1, y)
  }

  lemma AfterXHolds(q: Quote, x: Decision)
    requires QuoteFault(q) == None && x.plan == None
    ensures AfterX(q, x).signals == [SignalOf(0, x)] && AfterX(q, x).plans == map[]
    ensures AfterX(q, x).row.quote == FieldsOf(q, false) && ZoneConsistent(AfterX(q, x).row)
  {
    PendingStoreHolds(q, x);
    FirstQuote(q);
    CommitRepairsZone(PendingStore(q, x), 0, x);
  }

  lemma NewestOfTwo(x: Signal, y: Signal)
    requires x.timestamp < y.timestamp
    ensures Newest([x, y]) == Some(y)
  {
    assert [x, y][..1] == [x];
  }

  lemma AfterYHolds(q: Quote, x: Decision, y: Decision)
    requires Overwrites(q, x, y)
    ensures AfterY(q, x, y).signals == [SignalOf(0, x), SignalOf(1, y)]
    ensures AfterY(q, x, y).row.quote == FieldsOf(q, false) && AfterY(q, x, y).row.zone != NoActiveZone
    ensures ZoneConsistent(AfterY(q, x, y).row)
  {
    AfterXHolds(q, x);
    var saved := SavePlanStep(SaveSignalStep(AfterX(q, x), 1, y), y);
    assert saved.signals == [SignalOf(0, x)] + [SignalOf(1, y)] && saved.row == AfterX(q, x).row;
    CommitRepairsZone(saved, 1, y);
  }

  lemma OverwritingUpToX(run: seq<Event>, q: Quote, x: Decision, y: Decision)
    requires run == OverwritingRun(q, x, y) && QuoteFault(q) == None
    ensures StateAt(run, 5) == World(AfterX(q, x), [] + [Task(0, x, RowCommitted)], []) && LastCommit(run, 5) == Some(0)
  {
    QuoteThenTask(run, q, x);
    TaskCommits(run, 4, PendingStore(q, x), [], [], 0, x);
  }

  lemma OverwritingReads(run: seq<Event>, q: Quote, x: Decision, y: Decision)
    requires run == OverwritingRun(q, x, y) && QuoteFault(q) == None && x.plan == None
    ensures StateAt(run, 7) == World(AfterX(q, x), [Task(0, x, RowCommitted)], [PlanRead(Some(SignalOf(0, x)), None)])
  {
    OverwritingUpToX(run, q, x, y);
    AfterXHolds(q, x);
    RestartReadsOnly(run, 5, AfterX(q, x), [] + [Task(0, x, RowCommitted)], SignalOf(0, x), None);
  }

  lemma OverwritingUpToY(run: seq<Event>, q: Quote, x: Decision, y: Decision)
    requires run == OverwritingRun(q, x, y) && QuoteFault(q) == None && x.plan == None
    ensures
      var tasks := [Task(0, x, RowCommitted)] + [Task(1, y, RowCommitted)];
      StateAt(run, 11) == World(AfterY(q, x, y), tasks, [PlanRead(Some(SignalOf(0, x)), None)])
    ensures LastCommit(run, 11) == Some(1)
  {
    var done, read := [Task(0, x, RowCommitted)], [PlanRead(Some(SignalOf(0, x)), None)];
    OverwritingReads(run, q, x, y);
    AfterXHolds(q, x);
    TaskSaved(run, 7, AfterX(q, x), done, read, 1, y);
    TaskCommits(run, 10, SavePlanStep(SaveSignalStep(AfterX(q, x), 1, y), y), done, read, 1, y);
  }

  /** No commit is pending or out of order when the restart reads, and the zone is right. */
  lemma OverwritingBegins(run: seq<Event>, q: Quote, x: Decision, y: Decision)
    requires run == OverwritingRun(q, x, y) && Overwrites(q, x, y)
    ensures !NewestUncommitted(run, 5) && ZoneConsistent(StateAt(run, 5).store.row)
  {
    OverwritingUpToX(run, q, x, y);
    AfterXHolds(q, x);
    NewestOfOne(SignalOf(0, x));
  }

  /**
   Nor when it writes.  Afterwards the row shows x under the zone of y, which is newest and
   was committed last.
   */
  lemma OverwritingRestart(run: seq<Event>, q: Quote, x: Decision, y: Decision)
    requires run == OverwritingRun(q, x, y) && Overwrites(q, x, y)
    ensures
      var before, after := StateAt(run, 11), StateAt(run, 12);
      && !NewestUncommitted(run, 11) && ZoneConsistent(before.store.row) && !ZoneConsistent(after.store.row)
      && after.store.row.decision.fingerprint == Some(x.fingerprint) && IsNewest(after, y.fingerprint)
  {
    OverwritingUpToY(run, q, x, y);
    AfterYHolds(q, x, y);
    NewestOfTwo(SignalOf(0, x), SignalOf(1, y));
    RestartWritesRow(run, 11, StateAt(run, 11), Some(SignalOf(0, x)), None);
  }

  lemma OverwritingExample(x: Decision, y: Decision)
    requires x.plan == None && y.plan == Some(EXAMPLE_PLAN) && x.fingerprint != y.fingerprint
    ensures Overwrites(EXAMPLE_QUOTE, x, y)
  {
  }

  /** A task that dies after saving its signal is never repeated: its candle no longer passes the guard. */
  lemma {:induction false} SavedCandleStaysGuarded(run: seq<Event>, j: nat, k: nat, timestamp: Instant)
    requires j <= k <= |run| && HasSignal(StateAt(run, j).store.signals, timestamp)
    ensures HasSignal(StateAt(run, k).store.signals, timestamp)
    ensures forall d :: Step(StateAt(run, k), CandleArrives(timestamp, d)) == StateAt(run, k)
    decreases k
  {
    if j < k {
      SavedCandleStaysGuarded(run, j, k - 1, timestamp);
      SignalsGrow(StateAt(run, k - 1), run[k - 1]);
      var before, after := StateAt(run, k - 1).store.signals, StateAt(run, k).store.signals;
      var i :| 0 <= i < |before| && before[i].timestamp == timestamp;
      assert after[i].timestamp == timestamp;
    }
  }

  lemma SignalsGrow(w: World, e: Event)
    ensures w.store.signals <= Step(w, e).store.signals
  {
  }

  // ---------------------------------------------------------------------------
  // At most one evaluation of a candle
  // ---------------------------------------------------------------------------

  ghost predicate OneTaskPerCandle(w: World) {
    forall i, j :: 0 <= i < j < |w.tasks| ==> w.tasks[i].timestamp != w.tasks[j].timestamp
  }

  /** A candle arrives while a task for it is evaluating and none has saved its signal. */
  ghost predicate Races(w: World, e: Event) {
    e.CandleArrives? && !HasSignal(w.store.signals, e.timestamp) && BeingEvaluated(w, e.timestamp)
  }

  ghost predicate BeingEvaluated(w: World, timestamp: Instant) {
    exists j :: 0 <= j < |w.tasks| && w.tasks[j].timestamp == timestamp && w.tasks[j].stage == Evaluating
  }

  /** Each task past its evaluation has its candle's signal stored. */
  ghost predicate SavedHaveSignals(w: World) {
    forall i :: 0 <= i < |w.tasks| && w.tasks[i].stage != Evaluating ==>
      HasSignal(w.store.signals, w.tasks[i].timestamp)
  }

  /** Signals stored are of candles that arrived. */
  ghost predicate SignalsArrived(w: World, run: seq<Event>) {
    forall i :: 0 <= i < |w.store.signals| ==> SignalArrived(w.store.signals[i], run)
  }

  ghost predicate SignalArrived(x: Signal, run: seq<Event>) {
    exists j :: 0 <= j < |run| && run[j].CandleArrives? && run[j].timestamp == x.timestamp
      && run[j].decision.fingerprint == x.fingerprint
  }

  lemma SaveSignalArrived(w: World, run: seq<Event>, j: nat)
    requires Fingerprinted(run) && TasksArrived(w, run, |run|) && SignalsArrived(w, run) && Ready(w, j, Evaluating)
    ensures SignalsArrived(Step(w, SaveSignal(j)), run)
    ensures HasSignal(Step(w, SaveSignal(j)).store.signals, w.tasks[j].timestamp)
  {
    var t := w.tasks[j];
    var before, after := w.store.signals, Step(w, SaveSignal(j)).store.signals;
    assert Arrived(run, |run|, t.timestamp, t.decision);
    if HasFingerprint(before, t.decision.fingerprint) {
      var i :| 0 <= i < |before| && before[i].fingerprint == t.decision.fingerprint;
      assert SignalArrived(before[i], run);
      assert before[i].timestamp == t.timestamp;
    } else {
      assert after[|before|].timestamp == t.timestamp;
      assert SignalArrived(after[|before|], run);
      assert forall i :: 0 <= i < |before| ==> after[i] == before[i];
    }
  }

  lemma SignalStays(w: World, e: Event, timestamp: Instant)
    requires HasSignal(w.store.signals, timestamp)
    ensures HasSignal(Step(w, e).store.signals, timestamp)
  {
    SignalsGrow(w, e);
    var i :| 0 <= i < |w.store.signals| && w.store.signals[i].timestamp == timestamp;
    assert Step(w, e).store.signals[i].timestamp == timestamp;
  }

  lemma StepSavedHaveSignals(w: World, run: seq<Event>, e: Event)
    requires Fingerprinted(run) && TasksArrived(w, run, |run|) && SignalsArrived(w, run) && SavedHaveSignals(w)
    ensures SignalsArrived(Step(w, e), run) && SavedHaveSignals(Step(w, e))
  {
    var w' := Step(w, e);
    var saves := e.SaveSignal? && Ready(w, e.task, Evaluating);
    if saves {
      SaveSignalArrived(w, run, e.task);
    } else {
      assert w'.store.signals == w.store.signals;
    }
    forall i | 0 <= i < |w'.tasks| && w'.tasks[i].stage != Evaluating
      ensures HasSignal(w'.store.signals, w'.tasks[i].timestamp)
    {
      if !(saves && i == e.task) {
        assert w.tasks[i].stage != Evaluating;
        SignalStays(w, e, w.tasks[i].timestamp);
      }
    }
  }

  lemma {:induction false} RunSavedHaveSignals(run: seq<Event>, k: nat)
    requires k <= |run| && Fingerprinted(run)
    ensures SignalsArrived(StateAt(run, k), run) && SavedHaveSignals(StateAt(run, k))
  {
    if k > 0 {
      RunSavedHaveSignals(run, k - 1);
      RunTasksInv(run, k - 1);
      ArrivedByEnd(StateAt(run, k - 1), run, k - 1);
      StepSavedHaveSignals(StateAt(run, k - 1), run, run[k - 1]);
    }
  }

  lemma StepOneTask(w: World, e: Event)
    requires OneTaskPerCandle(w) && SavedHaveSignals(w)
    ensures OneTaskPerCandle(Step(w, e)) <==> !Races(w, e)
  {
    var w' := Step(w, e);
    if Races(w, e) {
      var i :| 0 <= i < |w.tasks| && w.tasks[i].timestamp == e.timestamp && w.tasks[i].stage == Evaluating;
      assert w'.tasks[i].timestamp == w'.tasks[|w.tasks|].timestamp;
    } else {
      forall i, j | 0 <= i < j < |w'.tasks| ensures w'.tasks[i].timestamp != w'.tasks[j].timestamp {
        assert w'.tasks[i].timestamp == w.tasks[i].timestamp;
        assert j >= |w.tasks| ==> w.tasks[i].stage != Evaluating || w.tasks[i].timestamp != e.timestamp;
      }
    }
  }

  lemma SeveralTasksStay(w: World, e: Event)
    requires !OneTaskPerCandle(w)
    ensures !OneTaskPerCandle(Step(w, e))
  {
    var w' := Step(w, e);
    var i, j :| 0 <= i < j < |w.tasks| && w.tasks[i].timestamp == w.tasks[j].timestamp;
    assert w'.tasks[i].timestamp == w.tasks[i].timestamp && w'.tasks[j].timestamp == w.tasks[j].timestamp;
  }

  /** None of the first `k` arrivals races. */
  ghost predicate RaceFree(run: seq<Event>, k: nat)
    requires k <= |run|
  {
    k == 0 || (RaceFree(run, k - 1) && !Races(StateAt(run, k - 1), run[k - 1]))
  }

  lemma AtMostOnceStep(run: seq<Event>, k: nat)
    requires k < |run| && Fingerprinted(run)
    ensures OneTaskPerCandle(StateAt(run, k + 1))
      <==> OneTaskPerCandle(StateAt(run, k)) && !Races(StateAt(run, k), run[k])
  {
    RunSavedHaveSignals(run, k);
    if OneTaskPerCandle(StateAt(run, k)) {
      StepOneTask(StateAt(run, k), run[k]);
    } else {
      SeveralTasksStay(StateAt(run, k), run[k]);
    }
  }

  /**
   A primary candle is evaluated, and committed, at most once exactly when it never arrives
   between another task's guard and the write of the candle's signal.
   */
  lemma {:induction false} AtMostOnceIff(run: seq<Event>, k: nat)
    requires k <= |run| && Fingerprinted(run)
    ensures OneTaskPerCandle(StateAt(run, k)) <==> RaceFree(run, k)
  {
    if k > 0 {
      AtMostOnceIff(run, k - 1);
      AtMostOnceStep(run, k - 1);
    }
  }

  lemma SignalStep(run: seq<Event>, k: nat, w: World, i: nat)
    requires k < |run| && StateAt(run, k) == w && run[k] == SaveSignal(i) && Ready(w, i, Evaluating)
    ensures StateAt(run, k + 1)
      == Advance(w, SaveSignalStep(w.store, w.tasks[i].timestamp, w.tasks[i].decision), i, SignalSaved)
  {
  }

  lemma PlanStep(run: seq<Event>, k: nat, w: World, i: nat)
    requires k < |run| && StateAt(run, k) == w && run[k] == SavePlan(i) && Ready(w, i, SignalSaved)
    ensures StateAt(run, k + 1) == Advance(w, SavePlanStep(w.store, w.tasks[i].decision), i, PlanSaved)
  {
  }

  lemma CommitEvent(run: seq<Event>, k: nat, w: World, i: nat)
    requires k < |run| && StateAt(run, k) == w && run[k] == CommitCandle(i) && Ready(w, i, PlanSaved)
    ensures StateAt(run, k + 1)
      == Advance(w, CommitStep(w.store, w.tasks[i].timestamp, w.tasks[i].decision), i, RowCommitted)
  {
  }

  /** The three steps of a task that passed the guard. */
  lemma TaskFinishes(run: seq<Event>, k: nat, w: World, i: nat)
    requires k + 3 <= |run| && StateAt(run, k) == w && Ready(w, i, Evaluating)
    requires run[k] == SaveSignal(i) && run[k + 1] == SavePlan(i) && run[k + 2] == CommitCandle(i)
    ensures
      var t := w.tasks[i];
      var s1 := SaveSignalStep(w.store, t.timestamp, t.decision);
      var s2 := SavePlanStep(s1, t.decision);
      StateAt(run, k + 3) == World(CommitStep(s2, t.timestamp, t.decision), w.tasks[i := t.(stage := RowCommitted)],
        w.restarts)
  {
    SignalStep(run, k, w, i);
    PlanStep(run, k + 1, StateAt(run, k + 1), i);
    CommitEvent(run, k + 2, StateAt(run, k + 2), i);
  }

  ghost function RaceRun(d: Decision): seq<Event> {
    [CandleArrives(0, d), CandleArrives(0, d), SaveSignal(0), SavePlan(0), CommitCandle(0),
     SaveSignal(1), SavePlan(1), CommitCandle(1)]
  }

  lemma RaceStarts(run: seq<Event>, d: Decision)
    requires run == RaceRun(d)
    ensures StateAt(run, 2) == World(EMPTY_STORE, [Task(0, d, Evaluating), Task(0, d, Evaluating)], [])
  {
    assert StateAt(run, 0) == EMPTY_WORLD;
    TaskArrives(run, 0, EMPTY_WORLD, 0, d);
    TaskArrives(run, 1, StateAt(run, 1), 0, d);
  }

  /** Two deliveries of one candle both pass the guard and both commit the row, under one signal record. */
  lemma RaceCommitsTwice(run: seq<Event>, d: Decision)
    requires run == RaceRun(d)
    ensures StateAt(run, 8).store.row.decisionSequence == 2 && StateAt(run, 8).store.signals == [SignalOf(0, d)]
  {
    RaceStarts(run, d);
    TaskFinishes(run, 2, StateAt(run, 2), 0);
    TaskFinishes(run, 5, StateAt(run, 5), 1);
    SignalKept(EMPTY_STORE, 0, d, d.fingerprint);
  }

  // ---------------------------------------------------------------------------
  // Quote delivery
  // ---------------------------------------------------------------------------

  /** Quotes that pass validation, in delivery order. */
  ghost function Delivered(run: seq<Event>, k: nat): seq<Quote>
    requires k <= |run|
  {
    if k == 0 then []
    else if run[k - 1].QuoteArrives? && QuoteFault(run[k - 1].quote) == None
    then Delivered(run, k - 1) + [run[k - 1].quote]
    else Delivered(run, k - 1)
  }

  /** Every quote has a sequence number and equal numbers mean the same quote, delivered again. */
  ghost predicate DistinctlySequenced(quotes: seq<Quote>) {
    && (forall x :: x in quotes ==> x.sequence.Some?)
    && (forall x, y :: x in quotes && y in quotes && x.sequence == y.sequence ==> x == y)
  }

  ghost predicate IsHighest(q: Quote, quotes: seq<Quote>) {
    q in quotes && q.sequence.Some? && forall x :: x in quotes ==>
      x.sequence.Some? && x.sequence.value <= q.sequence.value
  }

  /** The row's quote fields are those of the highest number, staleness aside. */
  ghost predicate HoldsHighest(last: QuoteFields, quotes: seq<Quote>) {
    if quotes == [] then last == EMPTY_ROW.quote
    else exists q :: IsHighest(q, quotes) && last == FieldsOf(q, last.stale)
  }

  /** One more delivered quote: the row holds the highest number of the longer sequence. */
  lemma QuoteHoldsHighest(s: Store, q: Quote, stale: bool, earlier: seq<Quote>)
    requires QuoteFault(q) == None && DistinctlySequenced(earlier + [q]) && HoldsHighest(s.row.quote, earlier)
    ensures HoldsHighest(QuoteStep(s, q, stale).row.quote, earlier + [q])
  {
    var all, before, after := earlier + [q], s.row.quote, QuoteStep(s, q, stale).row.quote;
    assert all[|earlier|] == q && q in all;
    if earlier == [] || q.sequence.value > before.sequence.value {
      assert after == FieldsOf(q, after.stale) && IsHighest(q, all);
    } else {
      var best :| IsHighest(best, earlier) && before == FieldsOf(best, before.stale);
      assert IsHighest(best, all);
    }
  }

  lemma QuoteFieldsStay(w: World, e: Event)
    requires !(e.QuoteArrives? && QuoteFault(e.quote) == None)
    ensures Step(w, e).store.row.quote == w.store.row.quote
  {
  }

  lemma {:induction false} RunHoldsHighest(run: seq<Event>, k: nat)
    requires k <= |run| && DistinctlySequenced(Delivered(run, k))
    ensures HoldsHighest(StateAt(run, k).store.row.quote, Delivered(run, k))
  {
    if k > 0 {
      var earlier, w, e := Delivered(run, k - 1), StateAt(run, k - 1), run[k - 1];
      assert forall x :: x in earlier ==> x in Delivered(run, k);
      RunHoldsHighest(run, k - 1);
      if e.QuoteArrives? && QuoteFault(e.quote) == None {
        QuoteHoldsHighest(w.store, e.quote, e.stale, earlier);
      } else {
        QuoteFieldsStay(w, e);
      }
    }
  }

  /**
   Order, duplicates and interleaved candles do not matter: two runs that deliver the same
   set of distinctly numbered quotes end with the same bid, ask, times and number.
   */
  lemma DeliveryOrderIrrelevant(run: seq<Event>, run': seq<Event>)
    requires DistinctlySequenced(Delivered(run, |run|)) && DistinctlySequenced(Delivered(run', |run'|))
    requires forall x :: x in Delivered(run, |run|) <==> x in Delivered(run', |run'|)
    ensures
      var last := StateAt(run, |run|).store.row.quote;
      StateAt(run', |run'|).store.row.quote == last.(stale := StateAt(run', |run'|).store.row.quote.stale)
  {
    RunHoldsHighest(run, |run|);
    RunHoldsHighest(run', |run'|);
    SameHighest(StateAt(run, |run|).store.row.quote, StateAt(run', |run'|).store.row.quote,
                Delivered(run, |run|), Delivered(run', |run'|));
  }

  lemma SameHighest(last: QuoteFields, last': QuoteFields, quotes: seq<Quote>, quotes': seq<Quote>)
    requires DistinctlySequenced(quotes) && forall x :: x in quotes <==> x in quotes'
    requires HoldsHighest(last, quotes) && HoldsHighest(last', quotes')
    ensures last' == last.(stale := last'.stale)
  {
    assert quotes != [] ==> quotes[0] in quotes;
    assert quotes' != [] ==> quotes'[0] in quotes';
    if quotes != [] {
      var q :| IsHighest(q, quotes) && last == FieldsOf(q, last.stale);
      var q' :| IsHighest(q', quotes') && last' == FieldsOf(q', last'.stale);
      assert q' in quotes && q in quotes';
    }
  }

  /** Delivering a quote that is not newer than the stored number changes nothing at all. */
  lemma RedeliveryIsNoOp(s: Store, q: Quote, stale: bool)
    requires q.sequence.Some? && s.row.quote.sequence.Some? && q.sequence.value <= s.row.quote.sequence.value
    ensures QuoteStep(s, q, stale) == s
  {
  }

  /** In every distinctly numbered run, delivering any quote again leaves the store as it is. */
  lemma RedeliveredInRun(run: seq<Event>, k: nat, q: Quote, stale: bool)
    requires k <= |run| && DistinctlySequenced(Delivered(run, k)) && q in Delivered(run, k)
    ensures QuoteStep(StateAt(run, k).store, q, stale) == StateAt(run, k).store
  {
    RunHoldsHighest(run, k);
    var best :| IsHighest(best, Delivered(run, k))
      && StateAt(run, k).store.row.quote == FieldsOf(best, StateAt(run, k).store.row.quote.stale);
    RedeliveryIsNoOp(StateAt(run, k).store, q, stale);
  }

  /** Processing a quote moves the stored source time backwards exactly when a higher number carries an older time. */
  lemma SourceTimeDecreasesIff(s: Store, q: Quote, stale: bool)
    requires s.row.quote.source.Some?
    ensures
      var after := QuoteStep(s, q, stale).row.quote;
      && after.source.Some?
      && (after.source.value < s.row.quote.source.value <==>
            && QuoteFault(q) == None && q.sequence.Some? && s.row.quote.sequence.Some?
            && q.sequence.value > s.row.quote.sequence.value && q.source < s.row.quote.source.value)
  {
  }

  /** Two quotes are enough: the second has the higher number and the older time. */
  lemma SourceTimeGoesBack()
    ensures
      var run := [QuoteArrives(Quote(10.0, 11.0, 5, 5, Some(1)), false),
        QuoteArrives(Quote(10.0, 11.0, 3, 6, Some(2)), false)];
      && StateAt(run, 1).store.row.quote.source == Some(5)
      && StateAt(run, 2).store.row.quote.source == Some(3)
  {
    var first, second := Quote(10.0, 11.0, 5, 5, Some(1)), Quote(10.0, 11.0, 3, 6, Some(2));
    var run := [QuoteArrives(first, false), QuoteArrives(second, false)];
    FirstQuote(first);
    assert StateAt(run, 0) == EMPTY_WORLD;
    assert StateAt(run, 1).store == QuoteStep(EMPTY_STORE, first, false);
    assert StateAt(run, 2).store == QuoteStep(StateAt(run, 1).store, second, false);
  }

  /** Without sequence numbers the stored source time never decreases. */
  lemma {:induction false} UnsequencedSourceMonotone(run: seq<Event>, i: nat, k: nat)
    requires i <= k <= |run|
    requires forall j :: 0 <= j < |run| && run[j].QuoteArrives? ==> run[j].quote.sequence == None
    ensures StateAt(run, k).store.row.quote.sequence == None
    ensures StateAt(run, i).store.row.quote.source.Some? ==>
      && StateAt(run, k).store.row.quote.source.Some?
      && StateAt(run, i).store.row.quote.source.value <= StateAt(run, k).store.row.quote.source.value
    decreases k
  {
    if i < k {
      UnsequencedSourceMonotone(run, i, k - 1);
    } else if k > 0 {
      UnsequencedSourceMonotone(run, k - 1, k - 1);
    }
  }
}
