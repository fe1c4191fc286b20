/**
 The live row of one instrument and its two writers: the quote path and the
 closed-candle path, each committing under the row lock, and the restart that rebuilds
 the row from durable records.  Incident and zone alerts are raised by the quote path.
 */
module LiveState {
  import opened Wrappers
  import opened UtcTime
  import opened Decimals

  datatype Side = Long | Short
  datatype Action = Buy | Sell | Wait
  datatype Zone = NoActiveZone | InsideZone | AboveZone | BelowZone
  datatype Health = Healthy | Unhealthy | Stale | Transition | Missing

  datatype Quote = Quote(bid: real, ask: real, source: Instant, received: Instant, sequence: Option<int>)

  /** The outputs of the risk planner the live row uses. */
  datatype Plan = Plan(
    side: Option<Side>, action: Action, valid: bool, eligible: bool,
    entryMin: Option<real>, entryMax: Option<real>, stop: Option<real>, fingerprint: string)

  /** What one evaluated candle commits; `primary15m` is its merged feed health. */
  datatype Decision = Decision(
    plan: Option<Plan>, hardGated: bool, fingerprint: string, provider: Health, primary15m: Health)

  /** A durable signal record.  Its plan, if any, is a record of its own that names the fingerprint. */
  datatype Signal = Signal(timestamp: Instant, fingerprint: string, hardGated: bool, primary15m: Health)

  datatype RiskFields = RiskFields(
    side: Option<Side>, action: Option<Action>, valid: bool, eligible: bool,
    entryMin: Option<real>, entryMax: Option<real>, stop: Option<real>, fingerprint: Option<string>)

  /** Fields only the quote path writes. */
  datatype QuoteFields = QuoteFields(
    bid: Option<real>, ask: Option<real>, source: Option<Instant>, received: Option<Instant>,
    sequence: Option<int>, stale: bool)

  /** Fields only the candle path and the restart write. */
  datatype DecisionFields = DecisionFields(
    lastClose: Option<Instant>, fingerprint: Option<string>, risk: RiskFields, hardGated: bool)

  /** Keys of the feed health record, written by all three. */
  datatype FeedHealth = FeedHealth(
    primary: Option<Health>, staleIncident: Option<bool>, unhealthyIncident: Option<bool>)

  datatype Row = Row(
    quote: QuoteFields, decision: DecisionFields, health: FeedHealth, zone: Zone, distance: Option<real>,
    decisionSequence: nat)

  const NO_RISK := RiskFields(None, None, false, false, None, None, None, None)

  const EMPTY_ROW := Row(QuoteFields(None, None, None, None, None, false),
                         DecisionFields(None, None, NO_RISK, false), FeedHealth(None, None, None),
                         NoActiveZone, None, 0)

  /** Event ids before hashing; the hash is taken to be injective. */
  datatype AlertId =
    | StaleIncident(second: int)
    | UnhealthyIncident(second: int)
    | EntryZoneReached(signal: string, plan: string, side: Side)
    | InvalidationTouched(signal: string, plan: string, side: Side)

  datatype Alert = Alert(id: AlertId, bid: real, ask: real, at: Instant)

  /** What is committed to the database; `plans` maps a signal's fingerprint to the first plan saved for it. */
  datatype Store = Store(row: Row, signals: seq<Signal>, plans: map<string, Plan>, alerts: seq<Alert>)

  const EMPTY_STORE := Store(EMPTY_ROW, [], map[], [])

  // ---------------------------------------------------------------------------
  // Entry zone, computed by both paths
  // ---------------------------------------------------------------------------

  /** Python truth of an optional number: present and not zero. */
  predicate Truthy(x: Option<real>) {
    x.Some? && x.value != 0.0
  }

  function Percent(part: real, whole: real): real
    requires whole != 0.0
  {
    Quantize(part / whole * 100.0, 100.0)
  }

  /** The side of the plan or, without one, of the candidate action. */
  function CandidateSide(risk: RiskFields): Option<Side> {
    if risk.side.Some? then risk.side
    else if risk.action == Some(Buy) then Some(Long)
    else if risk.action == Some(Sell) then Some(Short)
    else None
  }

  predicate HasGeometry(risk: RiskFields) {
    risk.valid && risk.eligible && Truthy(risk.entryMin) && Truthy(risk.entryMax)
  }

  /** Quote path: zone status and distance of a quote from the row's plan. */
  function QuoteZone(risk: RiskFields, bid: real, ask: real): (Zone, Option<real>) {
    var side := CandidateSide(risk);
    if HasGeometry(risk) && side.Some? then
      var price := if side.value == Long then ask else bid;
      var lo, hi := risk.entryMin.value, risk.entryMax.value;
      if lo <= price <= hi then (InsideZone, Some(0.0))
      else if price > hi then (AboveZone, if hi > 0.0 then Some(Percent(price - hi, hi)) else None)
      else (BelowZone, if lo > 0.0 then Some(Percent(lo - price, lo)) else None)
    else (NoActiveZone, None)
  }

  function RiskOf(plan: Option<Plan>): RiskFields {
    match plan
    case None => NO_RISK.(action := Some(Wait))
    case Some(p) =>
      RiskFields(p.side, Some(p.action), p.valid, p.eligible, p.entryMin, p.entryMax, p.stop, Some(p.fingerprint))
  }

  /** Candle path: the same from the new plan and the last quote, by the plan's own side only. */
  function CandleZone(plan: Option<Plan>, bid: Option<real>, ask: Option<real>): (Zone, Option<real>) {
    if plan.Some? && HasGeometry(RiskOf(plan)) && plan.value.side.Some? then
      var price := if plan.value.side.value == Long then ask else bid;
      var lo, hi := plan.value.entryMin.value, plan.value.entryMax.value;
      if price == None then (NoActiveZone, None)
      else if lo <= price.value <= hi then (InsideZone, Some(0.0))
      else if price.value > hi then (AboveZone, Some(Percent(price.value - hi, hi)))
      else (BelowZone, Some(Percent(lo - price.value, lo)))
    else (NoActiveZone, None)
  }

  /** `d` is the percentage that `part` is of `whole`, to the nearest hundredth. */
  ghost predicate IsPercentage(d: Option<real>, part: real, whole: real) {
    d.Some? && whole != 0.0 && Abs(d.value - part / whole * 100.0) <= 0.005
  }

  /**
   A valid and eligible plan with a side is watched at the ask for LONG and at the bid for SHORT:
   inside its range, or outside it at a distance in percent of the bound that is nearer.
   */
  lemma ZoneOfPrice(risk: RiskFields, side: Side, bid: real, ask: real)
    requires risk.valid && risk.eligible && risk.side == Some(side)
    requires risk.entryMin.Some? && risk.entryMax.Some? && 0.0 < risk.entryMin.value <= risk.entryMax.value
    ensures
      var (zone, distance) := QuoteZone(risk, bid, ask);
      var price, lo, hi := if side == Long then ask else bid, risk.entryMin.value, risk.entryMax.value;
      && (zone == InsideZone <==> lo <= price <= hi) && (zone == InsideZone ==> distance == Some(0.0))
      && (zone == AboveZone <==> price > hi) && (zone == AboveZone ==> IsPercentage(distance, price - hi, hi))
      && (zone == BelowZone <==> price < lo) && (zone == BelowZone ==> IsPercentage(distance, lo - price, lo))
  {
    var price, lo, hi := if side == Long then ask else bid, risk.entryMin.value, risk.entryMax.value;
    if price > hi {
      QuantizeClose((price - hi) / hi * 100.0, 100.0);
    } else if price < lo {
      QuantizeClose((lo - price) / lo * 100.0, 100.0);
    }
  }

  /** There is no zone exactly without validity, eligibility, a range, or a side, which may come from the action. */
  lemma NoZoneIff(risk: RiskFields, bid: real, ask: real)
    ensures QuoteZone(risk, bid, ask).0 == NoActiveZone <==>
      || !risk.valid || !risk.eligible
      || risk.entryMin in {None, Some(0.0)} || risk.entryMax in {None, Some(0.0)}
      || (risk.side == None && risk.action !in {Some(Buy), Some(Sell)})
  {
    assert CandidateSide(risk) == None <==> risk.side == None && risk.action !in {Some(Buy), Some(Sell)};
    assert Truthy(risk.entryMin) <==> risk.entryMin !in {None, Some(0.0)};
    assert Truthy(risk.entryMax) <==> risk.entryMax !in {None, Some(0.0)};
  }

  /** Without a side of its own a plan to buy is watched like a LONG one, and a plan to sell like a SHORT one. */
  lemma SideOfAction(risk: RiskFields, bid: real, ask: real)
    requires risk.side == None
    ensures risk.action == Some(Buy) ==>
      QuoteZone(risk, bid, ask) == QuoteZone(risk.(side := Some(Long)), bid, ask)
    ensures risk.action == Some(Sell) ==>
      QuoteZone(risk, bid, ask) == QuoteZone(risk.(side := Some(Short)), bid, ask)
  {
  }

  // ---------------------------------------------------------------------------
  // Alerts of one quote
  // ---------------------------------------------------------------------------

  predicate HasAlert(alerts: seq<Alert>, id: AlertId) {
    exists i :: 0 <= i < |alerts| && alerts[i].id == id
  }

  /** Create or get: an id already present adds nothing. */
  function Raise(alerts: seq<Alert>, alert: Alert): seq<Alert> {
    if HasAlert(alerts, alert.id) then alerts else alerts + [alert]
  }

  function UnixSecond(t: Instant): int {
    t / SECOND
  }

  /** One incident flag: an alert on the rising edge, the flag equal to the condition afterwards. */
  function Incident(alerts: seq<Alert>, flag: Option<bool>, condition: bool, alert: Alert): (seq<Alert>, Option<bool>) {
    var active := flag.GetOr(false);
    if condition && !active then (Raise(alerts, alert), Some(true))
    else if !condition && active then (alerts, Some(false))
    else (alerts, flag)
  }

  predicate Touches(risk: RiskFields, side: Side, bid: real, ask: real) {
    Truthy(risk.stop) && if side == Long then bid <= risk.stop.value else ask >= risk.stop.value
  }

  /** Zone and invalidation alerts, behind the suppression gate. */
  function ZoneAlerts(
    d: DecisionFields, alerts: seq<Alert>, bid: real, ask: real, at: Instant, stale: bool, healthy: bool
  ): seq<Alert> {
    var side := CandidateSide(d.risk);
    if stale || !healthy || d.hardGated || !HasGeometry(d.risk) || side == None then alerts
    else
      var price := if side.value == Long then ask else bid;
      var signal, plan := d.fingerprint.GetOr("P4"), d.risk.fingerprint.GetOr("P5");
      var reached :=
        if d.risk.entryMin.value <= price <= d.risk.entryMax.value
        then Raise(alerts, Alert(EntryZoneReached(signal, plan, side.value), bid, ask, at)) else alerts;
      if Touches(d.risk, side.value, bid, ask)
      then Raise(reached, Alert(InvalidationTouched(signal, plan, side.value), bid, ask, at)) else reached
  }

  function QuoteAlerts(
    d: DecisionFields, health: FeedHealth, alerts: seq<Alert>, bid: real, ask: real, at: Instant, stale: bool,
    healthy: bool
  ): (FeedHealth, seq<Alert>) {
    var (alerts1, staleFlag) :=
      Incident(alerts, health.staleIncident, stale, Alert(StaleIncident(UnixSecond(at)), bid, ask, at));
    var (alerts2, unhealthyFlag) :=
      Incident(alerts1, health.unhealthyIncident, !healthy, Alert(UnhealthyIncident(UnixSecond(at)), bid, ask, at));
    (health.(staleIncident := staleFlag, unhealthyIncident := unhealthyFlag),
     ZoneAlerts(d, alerts2, bid, ask, at, stale, healthy))
  }

  // ---------------------------------------------------------------------------
  // The commits
  // ---------------------------------------------------------------------------

  datatype QuoteError = NonPositiveQuote | InvertedQuote

  function QuoteFault(q: Quote): Option<QuoteError> {
    if q.bid <= 0.0 || q.ask <= 0.0 then Some(NonPositiveQuote)
    else if q.ask < q.bid then Some(InvertedQuote)
    else None
  }

  /** Missing thresholds fail closed; a quote from the future is stale. */
  function QuoteIsStale(q: Quote, now: Instant, staleAfter: Option<int>, maxSkew: Option<int>): bool {
    if staleAfter == None || maxSkew == None then true
    else
      q.source - q.received > maxSkew.value
      || (if now < q.source then 0 else now - q.source) > staleAfter.value
  }

  /**
   A quote is fresh exactly when both thresholds are configured, its source time is at most
   the skew ahead of its receipt, and the present is at most the allowed age behind it.
   */
  lemma FreshIff(q: Quote, now: Instant, staleAfter: Option<int>, maxSkew: Option<int>)
    ensures !QuoteIsStale(q, now, staleAfter, maxSkew) <==>
      && staleAfter.Some? && maxSkew.Some?
      && q.source <= q.received + maxSkew.value
      && 0 <= staleAfter.value && now <= q.source + staleAfter.value
  {
  }

  /**
   Staleness is final: what is stale at one time is stale at every later one, and stricter
   thresholds never freshen it.
   */
  lemma StaleStaysStale(q: Quote, now: Instant, later: Instant, staleAfter: int, stricter: int, maxSkew: Option<int>)
    requires now <= later && stricter <= staleAfter && QuoteIsStale(q, now, Some(staleAfter), maxSkew)
    ensures QuoteIsStale(q, later, Some(stricter), maxSkew)
  {
  }

  /** Ordering check: by sequence when both sides have one, by source time otherwise. */
  predicate Accepts(last: QuoteFields, q: Quote) {
    if q.sequence.Some? && last.sequence.Some? then q.sequence.value > last.sequence.value
    else last.source == None || q.source >= last.source.value
  }

  /** With numbers on both sides the order of numbers decides, and without them that of source times. */
  lemma AcceptsIff(last: QuoteFields, q: Quote)
    ensures q.sequence.Some? && last.sequence.Some? ==> (Accepts(last, q) <==> last.sequence.value < q.sequence.value)
    ensures q.sequence == None || last.sequence == None ==>
      (Accepts(last, q) <==> last.source == None || last.source.value <= q.source)
  {
  }

  /** A quote is refused as faulty exactly if a price is not positive or the spread is negative. */
  lemma FaultIff(q: Quote)
    ensures QuoteFault(q) == Some(NonPositiveQuote) <==> !(0.0 < q.bid && 0.0 < q.ask)
    ensures QuoteFault(q) == Some(InvertedQuote) <==> 0.0 < q.ask < q.bid
  {
  }

  function FieldsOf(q: Quote, stale: bool): QuoteFields {
    QuoteFields(Some(q.bid), Some(q.ask), Some(q.source), Some(q.received), q.sequence, stale)
  }

  function QuoteStep(s: Store, q: Quote, stale: bool): Store {
    if QuoteFault(q).Some? || !Accepts(s.row.quote, q) then s
    else
      var (zone, distance) := QuoteZone(s.row.decision.risk, q.bid, q.ask);
      var healthy := s.row.health.primary == Some(Healthy);
      var (health, alerts) :=
        QuoteAlerts(s.row.decision, s.row.health, s.alerts, q.bid, q.ask, q.source, stale, healthy);
      s.(row := s.row.(quote := FieldsOf(q, stale), zone := zone, distance := distance, health := health),
         alerts := alerts)
  }

  /** The at-most-once guard: the candle has a signal already. */
  predicate HasSignal(signals: seq<Signal>, timestamp: Instant) {
    exists i :: 0 <= i < |signals| && signals[i].timestamp == timestamp
  }

  predicate HasFingerprint(signals: seq<Signal>, fingerprint: string) {
    exists i :: 0 <= i < |signals| && signals[i].fingerprint == fingerprint
  }

  function SignalOf(timestamp: Instant, d: Decision): Signal {
    Signal(timestamp, d.fingerprint, d.hardGated, d.primary15m)
  }

  /** Create or get the signal record, by its fingerprint. */
  function SaveSignalStep(s: Store, timestamp: Instant, d: Decision): Store {
    if HasFingerprint(s.signals, d.fingerprint) then s else s.(signals := s.signals + [SignalOf(timestamp, d)])
  }

  /** Create or get the plan record. */
  function SavePlanStep(s: Store, d: Decision): Store {
    if d.plan == None || d.fingerprint in s.plans then s else s.(plans := s.plans[d.fingerprint := d.plan.value])
  }

  function FieldsOfDecision(timestamp: Instant, d: Decision): DecisionFields {
    DecisionFields(Some(timestamp), Some(d.fingerprint), RiskOf(d.plan), d.hardGated)
  }

  /** The row transaction: decision fields, provider status and zone; the incident flags stay. */
  function CommitRow(row: Row, timestamp: Instant, d: Decision): Row {
    var (zone, distance) := CandleZone(d.plan, row.quote.bid, row.quote.ask);
    row.(decision := FieldsOfDecision(timestamp, d), health := row.health.(primary := Some(d.provider)),
         zone := zone, distance := distance, decisionSequence := row.decisionSequence + 1)
  }

  function CommitStep(s: Store, timestamp: Instant, d: Decision): Store {
    s.(row := CommitRow(s.row, timestamp, d))
  }

  /** A candle processed without interruption. */
  function CandleStep(s: Store, timestamp: Instant, d: Decision): Store {
    if HasSignal(s.signals, timestamp) then s
    else CommitStep(SavePlanStep(SaveSignalStep(s, timestamp, d), d), timestamp, d)
  }

  /** The durable signal of the latest candle; the later record among equals. */
  function Newest(signals: seq<Signal>): (r: Option<Signal>)
    ensures signals == [] <==> r == None
    ensures r.Some? ==> r.value in signals && forall x :: x in signals ==> x.timestamp <= r.value.timestamp
  {
    if signals == [] then None
    else
      var last := signals[|signals| - 1];
      var best := Newest(signals[..|signals| - 1]);
      assert signals == signals[..|signals| - 1] + [last];
      if best.Some? && best.value.timestamp > last.timestamp then best else Some(last)
  }

  /** A record saved later wins among those of one candle, and none of an earlier candle ever does. */
  lemma NewestAfterSave(signals: seq<Signal>, x: Signal)
    ensures
      var before := Newest(signals);
      Newest(signals + [x]) == if before.Some? && before.value.timestamp > x.timestamp then before else Some(x)
  {
    assert (signals + [x])[..|signals|] == signals;
  }

  /** Records are created once: what is stored for a fingerprint stays as it is. */
  lemma RecordsStay(s: Store, timestamp: Instant, d: Decision)
    ensures |s.signals| <= |SaveSignalStep(s, timestamp, d).signals|
    ensures SaveSignalStep(s, timestamp, d).signals[..|s.signals|] == s.signals
    ensures HasFingerprint(SaveSignalStep(s, timestamp, d).signals, d.fingerprint)
    ensures HasFingerprint(s.signals, d.fingerprint) ==> SaveSignalStep(s, timestamp, d) == s
    ensures forall fingerprint :: fingerprint in s.plans ==>
      fingerprint in SavePlanStep(s, d).plans && SavePlanStep(s, d).plans[fingerprint] == s.plans[fingerprint]
    ensures d.plan.Some? ==> d.fingerprint in SavePlanStep(s, d).plans
    ensures d.plan == None ==> SavePlanStep(s, d) == s
    ensures d.plan.Some? && d.fingerprint !in s.plans ==> SavePlanStep(s, d).plans[d.fingerprint] == d.plan.value
  {
    var saved := SaveSignalStep(s, timestamp, d).signals;
    if !HasFingerprint(s.signals, d.fingerprint) {
      assert saved[|s.signals|].fingerprint == d.fingerprint;
    }
  }

  function PlanOf(s: Store, fingerprint: string): Option<Plan> {
    if fingerprint in s.plans then Some(s.plans[fingerprint]) else None
  }

  /** The plan record a restart finds for the signal it read. */
  function ReadPlan(s: Store, signal: Option<Signal>): Option<Plan> {
    if signal.Some? then PlanOf(s, signal.value.fingerprint) else None
  }

  /** The row transaction of a restart: decision fields as read before; the zone is not recomputed. */
  function RestoreStep(s: Store, signal: Option<Signal>, plan: Option<Plan>): Store {
    match signal
    case Some(x) =>
      s.(row := s.row.(decision := DecisionFields(Some(x.timestamp), Some(x.fingerprint), RiskOf(plan), x.hardGated),
                       health := s.row.health.(primary := Some(x.primary15m))))
    case None =>
      s.(row := s.row.(decision := s.row.decision.(risk := RiskOf(plan)),
                       health := s.row.health.(primary := Some(Missing))))
  }

  /** A restart without interruption. */
  function RestartStep(s: Store): Store {
    RestoreStep(s, Newest(s.signals), ReadPlan(s, Newest(s.signals)))
  }

  // ---------------------------------------------------------------------------
  // The stored row and its services
  // ---------------------------------------------------------------------------

  /**
   The row under its lock, with the durable tables beside it.  Columns are grouped by
   owner because each path writes its group in one UPDATE statement.
   */
  class LiveMonitor {
    var quote: QuoteFields
    var decision: DecisionFields
    var health: FeedHealth
    var entryZoneStatus: Zone
    var distanceToZone: Option<real>
    var decisionSequence: nat
    var signals: seq<Signal>
    var plans: map<string, Plan>
    var alerts: seq<Alert>

    ghost function Snapshot(): Store
      reads this
    {
      Store(Row(quote, decision, health, entryZoneStatus, distanceToZone, decisionSequence), signals, plans, alerts)
    }

    constructor ()
      ensures Snapshot() == EMPTY_STORE
    {
      quote, decision, health := EMPTY_ROW.quote, EMPTY_ROW.decision, EMPTY_ROW.health;
      entryZoneStatus, distanceToZone, decisionSequence := NoActiveZone, None, 0;
      signals, plans, alerts := [], map[], [];
    }

    method ProcessQuote(q: Quote, now: Instant, staleAfter: Option<int>, maxSkew: Option<int>)
      returns (r: Result<bool, QuoteError>)
      modifies this
      ensures Snapshot() == QuoteStep(old(Snapshot()), q, QuoteIsStale(q, now, staleAfter, maxSkew))
      ensures r == if QuoteFault(q).Some? then Err(QuoteFault(q).value) else Ok(Accepts(old(quote), q))
    {
      if q.bid <= 0.0 || q.ask <= 0.0 {
        return Err(NonPositiveQuote);
      }
      if q.ask < q.bid {
        return Err(InvertedQuote);
      }
      var stale := Staleness(q, now, staleAfter, maxSkew);
      if q.sequence.Some? && quote.sequence.Some? {
        if q.sequence.value <= quote.sequence.value {
          return Ok(false);
        }
      } else if quote.source.Some? && q.source < quote.source.value {
        return Ok(false);
      }

      var status, distance := ZoneOfQuote(decision.risk, q.bid, q.ask);
      quote := QuoteFields(Some(q.bid), Some(q.ask), Some(q.source), Some(q.received), q.sequence, stale);
      entryZoneStatus, distanceToZone := status, distance;
      EvaluateQuoteAlerts(q.bid, q.ask, q.source, stale, health.primary == Some(Healthy));
      return Ok(true);
    }

    static method Staleness(q: Quote, now: Instant, staleAfter: Option<int>, maxSkew: Option<int>) returns (stale: bool)
      ensures stale <==> QuoteIsStale(q, now, staleAfter, maxSkew)
    {
      var isFutureSkewed := maxSkew == None || q.source - q.received > maxSkew.value;
      var age := if now < q.source then 0 else now - q.source;
      stale := true;
      if staleAfter.Some? && maxSkew.Some? {
        stale := age > staleAfter.value || isFutureSkewed;
      }
    }

    static method ZoneOfQuote(risk: RiskFields, bid: real, ask: real) returns (status: Zone, distance: Option<real>)
      ensures (status, distance) == QuoteZone(risk, bid, ask)
    {
      status, distance := NoActiveZone, None;
      var side := risk.side;
      if side == None && risk.action in {Some(Buy), Some(Sell)} {
        side := if risk.action == Some(Buy) then Some(Long) else Some(Short);
      }
      if risk.valid && risk.eligible && Truthy(risk.entryMin) && Truthy(risk.entryMax) && side.Some? {
        var price := if side == Some(Long) then ask else bid;
        var lo, hi := risk.entryMin.value, risk.entryMax.value;
        if lo <= price <= hi {
          status, distance := InsideZone, Some(0.0);
        } else if price > hi {
          status := AboveZone;
          if hi > 0.0 {
            distance := Some(Percent(price - hi, hi));
          }
        } else {
          status := BelowZone;
          if lo > 0.0 {
            distance := Some(Percent(lo - price, lo));
          }
        }
      }
    }

    method EvaluateQuoteAlerts(bid: real, ask: real, at: Instant, stale: bool, healthy: bool)
      modifies this`alerts, this`health
      ensures (health, alerts) == QuoteAlerts(decision, old(health), old(alerts), bid, ask, at, stale, healthy)
    {
      var staleFlag := TrackIncident(health.staleIncident, stale, Alert(StaleIncident(UnixSecond(at)), bid, ask, at));
      var unhealthyFlag :=
        TrackIncident(health.unhealthyIncident, !healthy, Alert(UnhealthyIncident(UnixSecond(at)), bid, ask, at));
      health := health.(staleIncident := staleFlag, unhealthyIncident := unhealthyFlag);
      if stale || !healthy || decision.hardGated {
        return;
      }
      RaiseZoneAlerts(bid, ask, at);
    }

    method TrackIncident(flag: Option<bool>, condition: bool, alert: Alert) returns (flag': Option<bool>)
      modifies this`alerts
      ensures (alerts, flag') == Incident(old(alerts), flag, condition, alert)
    {
      flag' := flag;
      if condition {
        if !flag.GetOr(false) {
          CreateOrGet(alert);
          flag' := Some(true);
        }
      } else {
        if flag.GetOr(false) {
          flag' := Some(false);
        }
      }
    }

    method RaiseZoneAlerts(bid: real, ask: real, at: Instant)
      requires !decision.hardGated
      modifies this`alerts
      ensures alerts == ZoneAlerts(decision, old(alerts), bid, ask, at, false, true)
    {
      var risk := decision.risk;
      if !risk.valid || !risk.eligible {
        return;
      }
      if !Truthy(risk.entryMin) || !Truthy(risk.entryMax) {
        return;
      }
      var side := risk.side;
      if side == None {
        if risk.action == Some(Buy) {
          side := Some(Long);
        } else if risk.action == Some(Sell) {
          side := Some(Short);
        } else {
          return;
        }
      }
      var signal, plan := decision.fingerprint.GetOr("P4"), risk.fingerprint.GetOr("P5");
      var price := if side == Some(Long) then ask else bid;
      if risk.entryMin.value <= price <= risk.entryMax.value {
        CreateOrGet(Alert(EntryZoneReached(signal, plan, side.value), bid, ask, at));
      }
      if Truthy(risk.stop) {
        var invalidated := false;
        if side == Some(Long) && bid <= risk.stop.value {
          invalidated := true;
        } else if side == Some(Short) && ask >= risk.stop.value {
          invalidated := true;
        }
        if invalidated {
          CreateOrGet(Alert(InvalidationTouched(signal, plan, side.value), bid, ask, at));
        }
      }
    }

    method CreateOrGet(alert: Alert)
      modifies this`alerts
      ensures alerts == Raise(old(alerts), alert)
    {
      if HasAlert(alerts, alert.id) {
        return;
      }
      alerts := alerts + [alert];
    }

    /** One candle from guard to row commit, each of whose three writes is a transaction of its own. */
    method ProcessClosedCandle(timestamp: Instant, d: Decision) returns (processed: bool)
      modifies this
      ensures Snapshot() == CandleStep(old(Snapshot()), timestamp, d)
      ensures processed <==> !HasSignal(old(signals), timestamp)
    {
      if HasSignal(signals, timestamp) {
        return false;
      }
      SaveSignal(timestamp, d);
      SavePlan(d);
      CommitClosedCandle(timestamp, d);
      return true;
    }

    method SaveSignal(timestamp: Instant, d: Decision)
      modifies this`signals
      ensures Snapshot() == SaveSignalStep(old(Snapshot()), timestamp, d)
    {
      if !HasFingerprint(signals, d.fingerprint) {
        signals := signals + [Signal(timestamp, d.fingerprint, d.hardGated, d.primary15m)];
      }
    }

    method SavePlan(d: Decision)
      modifies this`plans
      ensures Snapshot() == SavePlanStep(old(Snapshot()), d)
    {
      if d.plan.Some? && d.fingerprint !in plans {
        plans := plans[d.fingerprint := d.plan.value];
      }
    }

    method CommitClosedCandle(timestamp: Instant, d: Decision)
      modifies this
      ensures Snapshot() == CommitStep(old(Snapshot()), timestamp, d)
      ensures decision.lastClose == Some(timestamp) && decision.fingerprint == Some(d.fingerprint)
      ensures decision.hardGated == d.hardGated && health.primary == Some(d.provider)
    {
      var status, distance := ZoneOfPlan(d.plan, quote.bid, quote.ask);
      decision := DecisionFields(Some(timestamp), Some(d.fingerprint), RiskOf(d.plan), d.hardGated);
      health := health.(primary := Some(d.provider));
      entryZoneStatus, distanceToZone := status, distance;
      decisionSequence := decisionSequence + 1;
    }

    static method ZoneOfPlan(plan: Option<Plan>, bid: Option<real>, ask: Option<real>)
      returns (status: Zone, distance: Option<real>)
      ensures (status, distance) == CandleZone(plan, bid, ask)
    {
      status, distance := NoActiveZone, None;
      if plan.Some? {
        var p := plan.value;
        if p.valid && p.eligible && Truthy(p.entryMin) && Truthy(p.entryMax) && p.side.Some? {
          var price := if p.side == Some(Long) then ask else bid;
          var lo, hi := p.entryMin.value, p.entryMax.value;
          if price.Some? {
            if lo <= price.value <= hi {
              status, distance := InsideZone, Some(0.0);
            } else if price.value > hi {
              status, distance := AboveZone, Some(Percent(price.value - hi, hi));
            } else {
              status, distance := BelowZone, Some(Percent(lo - price.value, lo));
            }
          }
        }
      }
    }

    /** The row rebuilt: signal and plan are read before the row is locked and written. */
    method Reconstruct()
      modifies this
      ensures Snapshot() == RestartStep(old(Snapshot()))
    {
      var signal := Newest(signals);
      var plan := FindPlan(signal);
      Restore(signal, plan);
    }

    method FindPlan(signal: Option<Signal>) returns (plan: Option<Plan>)
      ensures plan == ReadPlan(Snapshot(), signal)
    {
      plan := None;
      if signal.Some? && signal.value.fingerprint in plans {
        plan := Some(plans[signal.value.fingerprint]);
      }
    }

    method Restore(signal: Option<Signal>, plan: Option<Plan>)
      modifies this`decision, this`health
      ensures Snapshot() == RestoreStep(old(Snapshot()), signal, plan)
    {
      if signal.Some? {
        var x := signal.value;
        decision :=
          decision.(lastClose := Some(x.timestamp), fingerprint := Some(x.fingerprint), hardGated := x.hardGated);
        health := health.(primary := Some(x.primary15m));
      } else {
        health := health.(primary := Some(Missing));
      }
      decision := decision.(risk := RiskOf(plan));
    }
  }
}
