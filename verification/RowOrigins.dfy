/**
 Where the fields of the live row come from: the task or restart that wrote it last, and the
 candle that was evaluated for it.  The alerts of a quote follow from these alone.
 */
module RowOrigins {
  import opened Wrappers
  import opened UtcTime
  import opened LiveState
  import opened LiveRuns
  import opened IncidentRuns

  /** What the last write put: a row commit from its task, a restart from the signal and plan it had read. */
  datatype Origin = Origin(
    close: Option<Instant>, fingerprint: Option<string>, hardGated: bool, plan: Option<Plan>, primary: Option<Health>)

  const NOTHING_WRITTEN := Origin(None, None, false, None, None)

  /** A restart that had found no signal takes the plan away and reports the primary as missing. */
  ghost function AfterEvent(w: World, e: Event, last: Origin): Origin {
    if e.CommitCandle? && Ready(w, e.task, PlanSaved) then
      var t := w.tasks[e.task];
      Origin(Some(t.timestamp), Some(t.decision.fingerprint), t.decision.hardGated, t.decision.plan,
             Some(t.decision.provider))
    else if e.RestartWrites? && Writing(w, e.restart) then
      var read := w.restarts[e.restart];
      match read.signal
      case Some(x) => Origin(Some(x.timestamp), Some(x.fingerprint), x.hardGated, read.plan, Some(x.primary15m))
      case None => last.(plan := read.plan, primary := Some(Missing))
    else last
  }

  ghost function LastWritten(run: seq<Event>, k: nat): Origin
    requires k <= |run|
  {
    if k == 0 then NOTHING_WRITTEN else AfterEvent(StateAt(run, k - 1), run[k - 1], LastWritten(run, k - 1))
  }

  /** The risk fields are those of the plan, or those of none. */
  ghost predicate ShowsPlan(risk: RiskFields, plan: Option<Plan>) {
    match plan
    case Some(p) =>
      && risk.side == p.side && risk.action == Some(p.action) && risk.valid == p.valid && risk.eligible == p.eligible
      && risk.entryMin == p.entryMin && risk.entryMax == p.entryMax && risk.stop == p.stop
      && risk.fingerprint == Some(p.fingerprint)
    case None =>
      && risk.side == None && risk.action in {None, Some(Wait)} && !risk.valid && !risk.eligible
      && risk.entryMin == None && risk.entryMax == None && risk.stop == None && risk.fingerprint == None
  }

  ghost predicate Shows(row: Row, last: Origin) {
    && row.decision.lastClose == last.close && row.decision.fingerprint == last.fingerprint
    && row.decision.hardGated == last.hardGated && ShowsPlan(row.decision.risk, last.plan)
    && row.health.primary == last.primary
  }

  lemma QuoteKeepsShown(s: Store, q: Quote, stale: bool)
    ensures QuoteStep(s, q, stale).row.decision == s.row.decision
    ensures QuoteStep(s, q, stale).row.health.primary == s.row.health.primary
  {
  }

  lemma RiskShowsPlan(plan: Option<Plan>)
    ensures ShowsPlan(RiskOf(plan), plan)
  {
  }

  lemma CommitShows(w: World, i: nat, last: Origin)
    requires Ready(w, i, PlanSaved)
    ensures Shows(Step(w, CommitCandle(i)).store.row, AfterEvent(w, CommitCandle(i), last))
  {
    RiskShowsPlan(w.tasks[i].decision.plan);
  }

  lemma RestartShows(w: World, r: nat, last: Origin)
    requires Writing(w, r) && Shows(w.store.row, last)
    ensures Shows(Step(w, RestartWrites(r)).store.row, AfterEvent(w, RestartWrites(r), last))
  {
    RiskShowsPlan(w.restarts[r].plan);
  }

  lemma OtherShows(w: World, e: Event)
    requires !(e.CommitCandle? && Ready(w, e.task, PlanSaved)) && !(e.RestartWrites? && Writing(w, e.restart))
    ensures Step(w, e).store.row.decision == w.store.row.decision
    ensures Step(w, e).store.row.health.primary == w.store.row.health.primary
  {
    if e.QuoteArrives? {
      QuoteKeepsShown(w.store, e.quote, e.stale);
    }
  }

  lemma EventShows(w: World, e: Event, last: Origin)
    requires Shows(w.store.row, last)
    ensures Shows(Step(w, e).store.row, AfterEvent(w, e, last))
  {
    if e.CommitCandle? && Ready(w, e.task, PlanSaved) {
      CommitShows(w, e.task, last);
    } else if e.RestartWrites? && Writing(w, e.restart) {
      RestartShows(w, e.restart, last);
    } else {
      OtherShows(w, e);
    }
  }

  /** In every run the row shows what was written last: gate, plan, fingerprint, close and primary. */
  lemma {:induction false} RowShowsLastWritten(run: seq<Event>, k: nat)
    requires k <= |run|
    ensures Shows(StateAt(run, k).store.row, LastWritten(run, k))
  {
    if k > 0 {
      RowShowsLastWritten(run, k - 1);
      EventShows(StateAt(run, k - 1), run[k - 1], LastWritten(run, k - 1));
    }
  }

  /** The last quote accepted, with what was found of its staleness. */
  ghost function LastAccepted(run: seq<Event>, k: nat): Option<(Quote, bool)>
    requires k <= |run|
  {
    if k == 0 then None
    else if Accepted(StateAt(run, k - 1), run[k - 1]) then Some((run[k - 1].quote, run[k - 1].stale))
    else LastAccepted(run, k - 1)
  }

  ghost predicate ShowsQuote(fields: QuoteFields, last: Option<(Quote, bool)>) {
    match last
    case None => fields == QuoteFields(None, None, None, None, None, false)
    case Some((q, stale)) =>
      && fields.bid == Some(q.bid) && fields.ask == Some(q.ask) && fields.source == Some(q.source)
      && fields.received == Some(q.received) && fields.sequence == q.sequence && fields.stale == stale
  }

  lemma OtherKeepsQuote(w: World, e: Event)
    requires !Accepted(w, e)
    ensures Step(w, e).store.row.quote == w.store.row.quote
  {
  }

  /** In every run the row shows the last quote accepted: prices, times, number and staleness. */
  lemma {:induction false} RowShowsLastQuote(run: seq<Event>, k: nat)
    requires k <= |run|
    ensures ShowsQuote(StateAt(run, k).store.row.quote, LastAccepted(run, k))
  {
    if k > 0 {
      RowShowsLastQuote(run, k - 1);
      if !Accepted(StateAt(run, k - 1), run[k - 1]) {
        OtherKeepsQuote(StateAt(run, k - 1), run[k - 1]);
      }
    }
  }

  // ---------------------------------------------------------------------------
  // The alerts of a quote
  // ---------------------------------------------------------------------------

  /** The side a plan is watched on: its own, or that of its action. */
  function WatchedSide(p: Plan): Option<Side> {
    if p.side.Some? then p.side
    else match p.action
      case Buy => Some(Long)
      case Sell => Some(Short)
      case Wait => None
  }

  /** A fresh quote in the entry range or at the stop of an executable plan, with no hard gate and a healthy primary. */
  ghost predicate PlanAlertDue(last: Origin, q: Quote, stale: bool, id: AlertId) {
    && !stale && !last.hardGated && last.primary == Some(Healthy) && last.plan.Some? && last.fingerprint.Some?
    && var p, side := last.plan.value, WatchedSide(last.plan.value);
       && p.valid && p.eligible && side.Some?
       && p.entryMin.Some? && p.entryMin.value != 0.0 && p.entryMax.Some? && p.entryMax.value != 0.0
       && match id
          case EntryZoneReached(signal, plan, idSide) =>
            && signal == last.fingerprint.value && plan == p.fingerprint && idSide == side.value
            && p.entryMin.value <= (if idSide == Long then q.ask else q.bid) <= p.entryMax.value
          case InvalidationTouched(signal, plan, idSide) =>
            && signal == last.fingerprint.value && plan == p.fingerprint && idSide == side.value
            && p.stop.Some? && p.stop.value != 0.0
            && (if idSide == Long then q.bid <= p.stop.value else q.ask >= p.stop.value)
          case _ => false
  }

  lemma PlanOnlyWithFingerprint(run: seq<Event>, k: nat)
    requires k <= |run|
    ensures LastWritten(run, k).plan.Some? ==> LastWritten(run, k).fingerprint.Some?
  {
    if k > 0 {
      PlanOnlyWithFingerprint(run, k - 1);
      var w, e := StateAt(run, k - 1), run[k - 1];
      if e.RestartWrites? && Writing(w, e.restart) {
        RestartHoldsPlan(run, k - 1, e.restart);
      }
    }
  }

  lemma ZoneAlertIsPlanAlert(d: DecisionFields, last: Origin, q: Quote, stale: bool, id: AlertId)
    requires d.fingerprint == last.fingerprint && d.hardGated == last.hardGated && ShowsPlan(d.risk, last.plan)
    requires last.plan.Some? ==> last.fingerprint.Some?
    ensures ZoneAlertDue(d, id, q.bid, q.ask, stale, last.primary == Some(Healthy))
      <==> PlanAlertDue(last, q, stale, id)
  {
  }

  /**
   In every run an accepted quote adds a zone or invalidation alert exactly if it is due by the
   gate, plan, fingerprint and primary written last.
   */
  lemma AlertsFollowLastWritten(run: seq<Event>, k: nat, id: AlertId)
    requires k < |run| && Accepted(StateAt(run, k), run[k])
    requires id.EntryZoneReached? || id.InvalidationTouched?
    ensures HasAlert(StateAt(run, k + 1).store.alerts, id)
      <==> HasAlert(StateAt(run, k).store.alerts, id)
           || PlanAlertDue(LastWritten(run, k), run[k].quote, run[k].stale, id)
  {
    RowShowsLastWritten(run, k);
    PlanOnlyWithFingerprint(run, k);
    QuoteEffect(StateAt(run, k), run[k]);
    ZoneAlertIsPlanAlert(StateAt(run, k).store.row.decision, LastWritten(run, k), run[k].quote, run[k].stale, id);
  }

  /** So none is added while the decision written last was hard gated, or its primary not healthy. */
  lemma GateSilences(run: seq<Event>, k: nat, id: AlertId)
    requires k < |run| && (LastWritten(run, k).hardGated || LastWritten(run, k).primary != Some(Healthy))
    requires id.EntryZoneReached? || id.InvalidationTouched?
    ensures HasAlert(StateAt(run, k + 1).store.alerts, id) <==> HasAlert(StateAt(run, k).store.alerts, id)
  {
    if Accepted(StateAt(run, k), run[k]) {
      AlertsFollowLastWritten(run, k, id);
    } else {
      OtherEventsKeepIncidents(StateAt(run, k), run[k]);
    }
  }

  // ---------------------------------------------------------------------------
  // The candle behind a write
  // ---------------------------------------------------------------------------

  /** The `j`-th event delivered the candle a signal was saved for. */
  ghost predicate SignalFrom(e: Event, x: Signal) {
    && e.CandleArrives? && e.timestamp == x.timestamp && e.decision.fingerprint == x.fingerprint
    && e.decision.hardGated == x.hardGated && e.decision.primary15m == x.primary15m
  }

  ghost predicate SignalKnown(run: seq<Event>, k: nat, x: Signal)
    requires k <= |run|
  {
    exists j :: 0 <= j < k && SignalFrom(run[j], x)
  }

  ghost predicate PlanKnown(run: seq<Event>, k: nat, fingerprint: string, p: Plan)
    requires k <= |run|
  {
    exists j :: 0 <= j < k && run[j].CandleArrives? && run[j].decision.fingerprint == fingerprint
      && run[j].decision.plan == Some(p)
  }

  ghost predicate RestartKnown(run: seq<Event>, k: nat, r: Restart)
    requires k <= |run|
  {
    && (!r.Written? && r.signal.Some? ==> SignalKnown(run, k, r.signal.value))
    && (r.PlanRead? && r.plan.Some? ==> r.signal.Some? && PlanKnown(run, k, r.signal.value.fingerprint, r.plan.value))
  }

  /** Signals, plans and what restarts have read all stem from candles delivered. */
  ghost predicate Known(w: World, run: seq<Event>, k: nat) {
    && k <= |run|
    && (forall x :: x in w.store.signals ==> SignalKnown(run, k, x))
    && (forall fingerprint :: fingerprint in w.store.plans ==>
          PlanKnown(run, k, fingerprint, w.store.plans[fingerprint]))
    && (forall r :: 0 <= r < |w.restarts| ==> RestartKnown(run, k, w.restarts[r]))
  }

  lemma KnownLater(w: World, run: seq<Event>, k: nat)
    requires k < |run| && Known(w, run, k)
    ensures Known(w, run, k + 1)
  {
    forall r | 0 <= r < |w.restarts| ensures RestartKnown(run, k + 1, w.restarts[r]) {
      assert RestartKnown(run, k, w.restarts[r]);
    }
  }

  lemma SaveSignalKnown(w: World, run: seq<Event>, k: nat, i: nat)
    requires Known(w, run, k) && TasksArrived(w, run, k) && Ready(w, i, Evaluating)
    ensures Known(Step(w, SaveSignal(i)), run, k)
  {
    var t := w.tasks[i];
    assert Arrived(run, k, t.timestamp, t.decision);
    var j :| 0 <= j < k && run[j].CandleArrives? && run[j].timestamp == t.timestamp && run[j].decision == t.decision;
    assert SignalFrom(run[j], SignalOf(t.timestamp, t.decision));
  }

  lemma SavePlanKnown(w: World, run: seq<Event>, k: nat, i: nat)
    requires Known(w, run, k) && TasksArrived(w, run, k) && Ready(w, i, SignalSaved)
    ensures Known(Step(w, SavePlan(i)), run, k)
  {
    var t := w.tasks[i];
    assert Arrived(run, k, t.timestamp, t.decision);
  }

  lemma RestartStepKnown(w: World, run: seq<Event>, k: nat, e: Event)
    requires Known(w, run, k) && (e.RestartReadsSignal? || e.RestartReadsPlan? || e.RestartWrites?)
    ensures Known(Step(w, e), run, k)
  {
    var w' := Step(w, e);
    assert w'.store.signals == w.store.signals && w'.store.plans == w.store.plans;
    forall r | 0 <= r < |w'.restarts| ensures RestartKnown(run, k, w'.restarts[r]) {
      if r < |w.restarts| {
        assert RestartKnown(run, k, w.restarts[r]);
      }
    }
  }

  lemma StepKnown(w: World, run: seq<Event>, k: nat, e: Event)
    requires Known(w, run, k) && TasksArrived(w, run, k)
    ensures Known(Step(w, e), run, k)
  {
    match e
    case SaveSignal(i) =>
      if Ready(w, i, Evaluating) {
        SaveSignalKnown(w, run, k, i);
      }
    case SavePlan(i) =>
      if Ready(w, i, SignalSaved) {
        SavePlanKnown(w, run, k, i);
      }
    case RestartReadsSignal => RestartStepKnown(w, run, k, e);
    case RestartReadsPlan(_) => RestartStepKnown(w, run, k, e);
    case RestartWrites(_) => RestartStepKnown(w, run, k, e);
    case _ =>
  }

  lemma NextKnown(w: World, w': World, run: seq<Event>, k: nat)
    requires k < |run| && w' == Step(w, run[k]) && Known(w, run, k) && TasksArrived(w, run, k)
    ensures Known(w', run, k + 1)
  {
    StepKnown(w, run, k, run[k]);
    KnownLater(w', run, k);
  }

  lemma {:induction false} RunKnown(run: seq<Event>, k: nat)
    requires k <= |run|
    ensures Known(StateAt(run, k), run, k) && TasksArrived(StateAt(run, k), run, k)
  {
    if k > 0 {
      RunKnown(run, k - 1);
      StepArrived(run, k - 1);
      NextKnown(StateAt(run, k - 1), StateAt(run, k), run, k - 1);
    }
  }

  /** Close, fingerprint and gate written last are those of one candle delivered before. */
  ghost predicate FromCandle(e: Event, last: Origin) {
    && e.CandleArrives? && last.close == Some(e.timestamp) && last.fingerprint == Some(e.decision.fingerprint)
    && last.hardGated == e.decision.hardGated
    && last.primary in {Some(e.decision.provider), Some(e.decision.primary15m), Some(Missing)}
  }

  ghost predicate WrittenKnown(run: seq<Event>, k: nat, last: Origin)
    requires k <= |run|
  {
    && (last.fingerprint.Some? ==> exists j :: 0 <= j < k && FromCandle(run[j], last))
    && (last.plan.Some? ==> last.fingerprint.Some? && PlanKnown(run, k, last.fingerprint.value, last.plan.value))
    && (last.fingerprint == None ==> last.close == None && !last.hardGated && last.primary in {None, Some(Missing)})
  }

  lemma CommitFromCandle(run: seq<Event>, k: nat, i: nat)
    requires k < |run| && run[k] == CommitCandle(i) && Ready(StateAt(run, k), i, PlanSaved)
    ensures WrittenKnown(run, k + 1, LastWritten(run, k + 1))
  {
    RunKnown(run, k);
    var t := StateAt(run, k).tasks[i];
    assert Arrived(run, k, t.timestamp, t.decision);
    var j :| 0 <= j < k && run[j].CandleArrives? && run[j].timestamp == t.timestamp && run[j].decision == t.decision;
    assert FromCandle(run[j], LastWritten(run, k + 1));
  }

  lemma RestartFromCandle(run: seq<Event>, k: nat, r: nat)
    requires k < |run| && run[k] == RestartWrites(r) && Writing(StateAt(run, k), r)
    requires WrittenKnown(run, k, LastWritten(run, k))
    ensures WrittenKnown(run, k + 1, LastWritten(run, k + 1))
  {
    RunKnown(run, k);
    var read := StateAt(run, k).restarts[r];
    assert RestartKnown(run, k, read);
    var before, last := LastWritten(run, k), LastWritten(run, k + 1);
    if read.signal.Some? {
      var j :| 0 <= j < k && SignalFrom(run[j], read.signal.value);
      assert FromCandle(run[j], last);
    } else if before.fingerprint.Some? {
      var j :| 0 <= j < k && FromCandle(run[j], before);
      assert FromCandle(run[j], last);
    }
  }

  lemma WrittenKnownLater(run: seq<Event>, k: nat, last: Origin)
    requires k < |run| && WrittenKnown(run, k, last)
    ensures WrittenKnown(run, k + 1, last)
  {
    if last.fingerprint.Some? {
      var j :| 0 <= j < k && FromCandle(run[j], last);
      assert 0 <= j < k + 1 && FromCandle(run[j], last);
    }
  }

  /**
   In every run the close, fingerprint and hard gate the row shows are those one delivered candle
   was evaluated to, and its plan is one that was evaluated with that fingerprint.
   */
  lemma {:induction false} RowComesFromCandle(run: seq<Event>, k: nat)
    requires k <= |run|
    ensures Shows(StateAt(run, k).store.row, LastWritten(run, k)) && WrittenKnown(run, k, LastWritten(run, k))
  {
    RowShowsLastWritten(run, k);
    if k > 0 {
      RowComesFromCandle(run, k - 1);
      var w, e := StateAt(run, k - 1), run[k - 1];
      if e.CommitCandle? && Ready(w, e.task, PlanSaved) {
        CommitFromCandle(run, k - 1, e.task);
      } else if e.RestartWrites? && Writing(w, e.restart) {
        RestartFromCandle(run, k - 1, e.restart);
      } else {
        WrittenKnownLater(run, k - 1, LastWritten(run, k - 1));
      }
    }
  }
}
