/** Alerts over runs of the live row: incidents once per rising edge, zone alerts behind the gate. */
module IncidentRuns {
  import opened Wrappers
  import opened UtcTime
  import opened LiveState
  import opened LiveRuns

  // ---------------------------------------------------------------------------
  // The alert table
  // ---------------------------------------------------------------------------

  ghost predicate DistinctIds(alerts: seq<Alert>) {
    forall i, j :: 0 <= i < j < |alerts| ==> alerts[i].id != alerts[j].id
  }

  lemma RaiseEffect(alerts: seq<Alert>, a: Alert)
    ensures DistinctIds(alerts) ==> DistinctIds(Raise(alerts, a))
    ensures forall id :: HasAlert(Raise(alerts, a), id) <==> HasAlert(alerts, id) || id == a.id
  {
    var raised := Raise(alerts, a);
    forall id ensures HasAlert(raised, id) <==> HasAlert(alerts, id) || id == a.id {
      if HasAlert(alerts, id) {
        var i :| 0 <= i < |alerts| && alerts[i].id == id;
        assert raised[i].id == id;
      }
      if id == a.id && !HasAlert(alerts, id) {
        assert raised[|alerts|].id == id;
      }
    }
  }

  lemma IncidentEffect(alerts: seq<Alert>, flag: Option<bool>, condition: bool, a: Alert)
    ensures
      var (alerts', flag') := Incident(alerts, flag, condition, a);
      && flag'.GetOr(false) == condition
      && (DistinctIds(alerts) ==> DistinctIds(alerts'))
      && forall id :: HasAlert(alerts', id) <==> HasAlert(alerts, id) || (id == a.id && condition && !flag.GetOr(false))
  {
    RaiseEffect(alerts, a);
  }

  /** Zone alerts pass the gate, describe the present plan, and need the price where they say it is. */
  ghost predicate ZoneAlertDue(d: DecisionFields, id: AlertId, bid: real, ask: real, stale: bool, healthy: bool) {
    var side := CandidateSide(d.risk);
    && !stale && healthy && !d.hardGated && HasGeometry(d.risk) && side.Some?
    && match id
       case EntryZoneReached(signal, plan, idSide) =>
         && (signal, plan, Some(idSide)) == (d.fingerprint.GetOr("P4"), d.risk.fingerprint.GetOr("P5"), side)
         && QuoteZone(d.risk, bid, ask).0 == InsideZone
       case InvalidationTouched(signal, plan, idSide) =>
         && (signal, plan, Some(idSide)) == (d.fingerprint.GetOr("P4"), d.risk.fingerprint.GetOr("P5"), side)
         && Truthy(d.risk.stop)
         && if idSide == Long then bid <= d.risk.stop.value else ask >= d.risk.stop.value
       case _ => false
  }

  lemma ZoneAlertsEffect(
    d: DecisionFields, alerts: seq<Alert>, bid: real, ask: real, at: Instant, stale: bool, healthy: bool)
    ensures
      var after := ZoneAlerts(d, alerts, bid, ask, at, stale, healthy);
      && (DistinctIds(alerts) ==> DistinctIds(after))
      && forall id :: HasAlert(after, id) <==> HasAlert(alerts, id) || ZoneAlertDue(d, id, bid, ask, stale, healthy)
  {
    var side := CandidateSide(d.risk);
    if !(stale || !healthy || d.hardGated || !HasGeometry(d.risk) || side == None) {
      var signal, plan := d.fingerprint.GetOr("P4"), d.risk.fingerprint.GetOr("P5");
      var zoneAlert := Alert(EntryZoneReached(signal, plan, side.value), bid, ask, at);
      RaiseEffect(alerts, zoneAlert);
      var price := if side.value == Long then ask else bid;
      var reached :=
        if d.risk.entryMin.value <= price <= d.risk.entryMax.value then Raise(alerts, zoneAlert) else alerts;
      RaiseEffect(reached, Alert(InvalidationTouched(signal, plan, side.value), bid, ask, at));
    }
  }

  ghost predicate Accepted(w: World, e: Event) {
    e.QuoteArrives? && QuoteFault(e.quote) == None && Accepts(w.store.row.quote, e.quote)
  }

  ghost predicate ProviderHealthy(w: World) {
    w.store.row.health.primary == Some(Healthy)
  }

  ghost predicate IncidentDue(w: World, e: Event, id: AlertId)
    requires e.QuoteArrives?
  {
    || (id == StaleIncident(UnixSecond(e.quote.source)) && e.stale && !w.store.row.health.staleIncident.GetOr(false))
    || (id == UnhealthyIncident(UnixSecond(e.quote.source)) && !ProviderHealthy(w)
        && !w.store.row.health.unhealthyIncident.GetOr(false))
  }

  /** Exactly which ids an accepted quote adds, and the incident flags it leaves. */
  lemma QuoteEffect(w: World, e: Event)
    requires Accepted(w, e)
    ensures
      var after := Step(w, e);
      && after.store.row.health.staleIncident.GetOr(false) == e.stale
      && after.store.row.health.unhealthyIncident.GetOr(false) == !ProviderHealthy(w)
      && (DistinctIds(w.store.alerts) ==> DistinctIds(after.store.alerts))
      && forall id :: HasAlert(after.store.alerts, id) <==>
           HasAlert(w.store.alerts, id) || IncidentDue(w, e, id)
           || ZoneAlertDue(w.store.row.decision, id, e.quote.bid, e.quote.ask, e.stale, ProviderHealthy(w))
  {
    var q, health := e.quote, w.store.row.health;
    var staleAlert := Alert(StaleIncident(UnixSecond(q.source)), q.bid, q.ask, q.source);
    var unhealthyAlert := Alert(UnhealthyIncident(UnixSecond(q.source)), q.bid, q.ask, q.source);
    IncidentEffect(w.store.alerts, health.staleIncident, e.stale, staleAlert);
    var alerts1 := Incident(w.store.alerts, health.staleIncident, e.stale, staleAlert).0;
    IncidentEffect(alerts1, health.unhealthyIncident, !ProviderHealthy(w), unhealthyAlert);
    var alerts2 := Incident(alerts1, health.unhealthyIncident, !ProviderHealthy(w), unhealthyAlert).0;
    ZoneAlertsEffect(w.store.row.decision, alerts2, q.bid, q.ask, q.source, e.stale, ProviderHealthy(w));
  }

  /** A quote on which no condition changes leaves the health record as it is. */
  lemma NoEdgeKeepsHealth(w: World, e: Event)
    requires Accepted(w, e) && e.stale == w.store.row.health.staleIncident.GetOr(false)
    requires ProviderHealthy(w) != w.store.row.health.unhealthyIncident.GetOr(false)
    ensures Step(w, e).store.row.health == w.store.row.health
  {
  }

  /** Candle commits and restarts touch neither the alerts nor the incident flags. */
  lemma OtherEventsKeepIncidents(w: World, e: Event)
    requires !Accepted(w, e)
    ensures
      var after := Step(w, e);
      && after.store.alerts == w.store.alerts
      && after.store.row.health.staleIncident == w.store.row.health.staleIncident
      && after.store.row.health.unhealthyIncident == w.store.row.health.unhealthyIncident
  {
  }

  // ---------------------------------------------------------------------------
  // Runs
  // ---------------------------------------------------------------------------

  /** What an accepted quote showed: its second, its staleness and the provider's health at the time. */
  datatype Reading = Reading(second: int, stale: bool, unhealthy: bool)

  ghost function Readings(run: seq<Event>, k: nat): seq<Reading>
    requires k <= |run|
  {
    if k == 0 then []
    else
      var w, e := StateAt(run, k - 1), run[k - 1];
      if Accepted(w, e) then
        Readings(run, k - 1) + [Reading(UnixSecond(e.quote.source), e.stale, !ProviderHealthy(w))]
      else Readings(run, k - 1)
  }

  ghost predicate StaleEdge(rs: seq<Reading>, i: int)
    requires 0 <= i < |rs|
  {
    rs[i].stale && (i == 0 || !rs[i - 1].stale)
  }

  ghost predicate UnhealthyEdge(rs: seq<Reading>, i: int)
    requires 0 <= i < |rs|
  {
    rs[i].unhealthy && (i == 0 || !rs[i - 1].unhealthy)
  }

  ghost predicate StaleEdgeIn(rs: seq<Reading>, second: int) {
    exists i :: 0 <= i < |rs| && StaleEdge(rs, i) && rs[i].second == second
  }

  ghost predicate UnhealthyEdgeIn(rs: seq<Reading>, second: int) {
    exists i :: 0 <= i < |rs| && UnhealthyEdge(rs, i) && rs[i].second == second
  }

  lemma AppendReading(rs: seq<Reading>, r: Reading)
    ensures
      var all := rs + [r];
      && (forall second :: StaleEdgeIn(all, second) <==>
           StaleEdgeIn(rs, second) || (StaleEdge(all, |rs|) && r.second == second))
      && (forall second :: UnhealthyEdgeIn(all, second) <==>
           UnhealthyEdgeIn(rs, second) || (UnhealthyEdge(all, |rs|) && r.second == second))
  {
    var all := rs + [r];
    assert forall i :: 0 <= i < |rs| ==> (StaleEdge(all, i) <==> StaleEdge(rs, i));
    assert forall i :: 0 <= i < |rs| ==> (UnhealthyEdge(all, i) <==> UnhealthyEdge(rs, i));
    assert all[|rs|] == r;
    forall second ensures StaleEdgeIn(all, second) <==>
      StaleEdgeIn(rs, second) || (StaleEdge(all, |rs|) && r.second == second)
    {
      if StaleEdgeIn(rs, second) {
        var i :| 0 <= i < |rs| && StaleEdge(rs, i) && rs[i].second == second;
        assert StaleEdge(all, i) && all[i].second == second;
      }
    }
    forall second ensures UnhealthyEdgeIn(all, second) <==>
      UnhealthyEdgeIn(rs, second) || (UnhealthyEdge(all, |rs|) && r.second == second)
    {
      if UnhealthyEdgeIn(rs, second) {
        var i :| 0 <= i < |rs| && UnhealthyEdge(rs, i) && rs[i].second == second;
        assert UnhealthyEdge(all, i) && all[i].second == second;
      }
    }
  }

  ghost predicate IncidentInv(w: World, rs: seq<Reading>) {
    && w.store.row.health.staleIncident.GetOr(false) == (rs != [] && rs[|rs| - 1].stale)
    && w.store.row.health.unhealthyIncident.GetOr(false) == (rs != [] && rs[|rs| - 1].unhealthy)
    && DistinctIds(w.store.alerts)
    && (forall second :: HasAlert(w.store.alerts, StaleIncident(second)) <==> StaleEdgeIn(rs, second))
    && (forall second :: HasAlert(w.store.alerts, UnhealthyIncident(second)) <==> UnhealthyEdgeIn(rs, second))
  }

  lemma QuoteKeepsIncidentInv(w: World, e: Event, rs: seq<Reading>)
    requires IncidentInv(w, rs) && Accepted(w, e)
    ensures IncidentInv(Step(w, e), rs + [Reading(UnixSecond(e.quote.source), e.stale, !ProviderHealthy(w))])
  {
    var r := Reading(UnixSecond(e.quote.source), e.stale, !ProviderHealthy(w));
    QuoteEffect(w, e);
    AppendReading(rs, r);
  }

  /**
   In every interleaving of quotes, commits and restarts, dead tasks included: no two alerts share an
   id, the incident flags are those of the last accepted quote, and the incident alerts
   are exactly one for each distinct second in which a condition rose.
   */
  lemma {:induction false} OneAlertPerRisingEdge(run: seq<Event>, k: nat)
    requires k <= |run|
    ensures IncidentInv(StateAt(run, k), Readings(run, k))
  {
    if k > 0 {
      OneAlertPerRisingEdge(run, k - 1);
      var w, e := StateAt(run, k - 1), run[k - 1];
      if Accepted(w, e) {
        QuoteKeepsIncidentInv(w, e, Readings(run, k - 1));
      } else {
        OtherEventsKeepIncidents(w, e);
      }
    }
  }

  /** Every zone or invalidation alert in the table was due for an accepted quote that passed the gate. */
  lemma {:induction false} ZoneAlertsWereDue(run: seq<Event>, k: nat, id: AlertId)
    requires k <= |run| && HasAlert(StateAt(run, k).store.alerts, id)
    requires id.EntryZoneReached? || id.InvalidationTouched?
    ensures exists i ::
      && 0 <= i < k && Accepted(StateAt(run, i), run[i])
      && ZoneAlertDue(StateAt(run, i).store.row.decision, id, run[i].quote.bid, run[i].quote.ask, run[i].stale,
                      ProviderHealthy(StateAt(run, i)))
  {
    var w, e := StateAt(run, k - 1), run[k - 1];
    if HasAlert(w.store.alerts, id) {
      ZoneAlertsWereDue(run, k - 1, id);
    } else if Accepted(w, e) {
      QuoteEffect(w, e);
    } else {
      OtherEventsKeepIncidents(w, e);
    }
  }
}
