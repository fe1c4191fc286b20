/** Which closed candles fall into the blackout around a scheduled macro event. */
module MacroBlackout {
  import opened Wrappers
  import opened UtcTime

  const HALF_WINDOW := 30 * MINUTE

  datatype Schedule = Schedule(event: string, scheduledAt: Instant, knownAt: Instant)

  datatype Context = Context(inBlackout: bool, activeEvent: Option<string>, feedHealthy: bool)

  const UNCOVERED := Context(false, None, false)

  /** What the query yields: schedules announced before their release, in order of release. */
  ghost predicate Loaded(ss: seq<Schedule>) {
    && (forall k :: 0 <= k < |ss| ==> ss[k].knownAt < ss[k].scheduledAt)
    && (forall j, k :: 0 <= j < k < |ss| ==> ss[j].scheduledAt <= ss[k].scheduledAt)
  }

  // ---------------------------------------------------------------------------
  // Meaning
  // ---------------------------------------------------------------------------

  /** The event is at most half an hour away and was announced by `t`. */
  predicate Active(s: Schedule, t: Instant) {
    s.scheduledAt - HALF_WINDOW <= t <= s.scheduledAt + HALF_WINDOW && s.knownAt <= t
  }

  ghost predicate IsFirstActive(ss: seq<Schedule>, t: Instant, k: int) {
    0 <= k < |ss| && Active(ss[k], t) && forall j :: 0 <= j < k ==> !Active(ss[j], t)
  }

  /** The first active event of a scan over all schedules. */
  function FirstActive(ss: seq<Schedule>, t: Instant): (name: Option<string>)
    ensures name.None? <==> forall k :: 0 <= k < |ss| ==> !Active(ss[k], t)
    ensures name.Some? ==> exists k :: IsFirstActive(ss, t, k) && ss[k].event == name.value
  {
    if ss == [] then None
    else if Active(ss[0], t) then
      assert IsFirstActive(ss, t, 0);
      Some(ss[0].event)
    else
      var name := FirstActive(ss[1..], t);
      assert name.Some? ==>
        forall k :: IsFirstActive(ss[1..], t, k) && ss[1..][k].event == name.value ==>
          IsFirstActive(ss, t, k + 1) && ss[k + 1].event == name.value;
      assert name.None? ==> forall k :: 0 < k < |ss| ==> ss[k] == ss[1..][k - 1];
      name
  }

  function CoverageStart(ss: seq<Schedule>): (t: Instant)
    requires ss != []
    ensures forall k :: 0 <= k < |ss| ==> t <= ss[k].knownAt
    ensures exists k :: 0 <= k < |ss| && t == ss[k].knownAt
  {
    if |ss| == 1 then ss[0].knownAt
    else
      var rest := CoverageStart(ss[1..]);
      assert forall k :: 0 < k < |ss| ==> ss[k] == ss[1..][k - 1];
      if ss[0].knownAt < rest then ss[0].knownAt else rest
  }

  function LastRelease(ss: seq<Schedule>): (t: Instant)
    requires ss != []
    ensures forall k :: 0 <= k < |ss| ==> ss[k].scheduledAt <= t
    ensures exists k :: 0 <= k < |ss| && t == ss[k].scheduledAt
  {
    if |ss| == 1 then ss[0].scheduledAt
    else
      var rest := LastRelease(ss[1..]);
      assert forall k :: 0 < k < |ss| ==> ss[k] == ss[1..][k - 1];
      if ss[0].scheduledAt > rest then ss[0].scheduledAt else rest
  }

  function CoverageEnd(ss: seq<Schedule>): Instant
    requires ss != []
  {
    LastRelease(ss) + HALF_WINDOW
  }

  /** The context of a candle closing at `t` by a scan over all schedules; none at all without schedules. */
  ghost function Verdict(ss: seq<Schedule>, t: Instant): Option<Context> {
    if ss == [] then None
    else if t < CoverageStart(ss) || t > CoverageEnd(ss) then Some(UNCOVERED)
    else
      var name := FirstActive(ss, t);
      Some(Context(name.Some?, name, true))
  }

  /** At most half an hour lies between a release announced by `t` and `t`. */
  ghost predicate NearRelease(ss: seq<Schedule>, t: Instant, k: int) {
    0 <= k < |ss| && ss[k].knownAt <= t && t - 30 * MINUTE <= ss[k].scheduledAt <= t + 30 * MINUTE
  }

  /**
   A candle is healthy from the first announcement to half an hour after the last release, and
   then in a blackout exactly near an announced release; the first such release names the event.
   */
  lemma VerdictMeans(ss: seq<Schedule>, t: Instant)
    requires ss != []
    ensures Verdict(ss, t).Some?
    ensures
      var c := Verdict(ss, t).value;
      && (c.feedHealthy <==> (exists k :: 0 <= k < |ss| && ss[k].knownAt <= t)
                             && (exists k :: 0 <= k < |ss| && t <= ss[k].scheduledAt + 30 * MINUTE))
      && (c.inBlackout <==> c.feedHealthy && exists k :: NearRelease(ss, t, k))
      && (c.inBlackout <==> c.activeEvent.Some?)
      && (c.inBlackout ==> exists k :: NearRelease(ss, t, k) && c.activeEvent == Some(ss[k].event)
                             && forall j :: 0 <= j < k ==> !NearRelease(ss, t, j))
  {
    assert forall k :: 0 <= k < |ss| ==> (Active(ss[k], t) <==> NearRelease(ss, t, k));
  }

  // ---------------------------------------------------------------------------
  // The indexed lookup
  // ---------------------------------------------------------------------------

  ghost predicate Ascending(a: seq<int>) {
    forall j, k :: 0 <= j < k < |a| ==> a[j] <= a[k]
  }

  function BisectLeft(a: seq<int>, x: int, lo: nat, hi: nat): (r: nat)
    requires lo <= hi <= |a| && Ascending(a)
    requires forall k :: 0 <= k < lo ==> a[k] < x
    requires forall k :: hi <= k < |a| ==> a[k] >= x
    ensures r <= |a|
    ensures forall k :: 0 <= k < |a| ==> (a[k] < x <==> k < r)
    decreases hi - lo
  {
    if lo == hi then lo
    else
      var mid := (lo + hi) / 2;
      if a[mid] < x then BisectLeft(a, x, mid + 1, hi) else BisectLeft(a, x, lo, mid)
  }

  function BisectRight(a: seq<int>, x: int, lo: nat, hi: nat): (r: nat)
    requires lo <= hi <= |a| && Ascending(a)
    requires forall k :: 0 <= k < lo ==> a[k] <= x
    requires forall k :: hi <= k < |a| ==> a[k] > x
    ensures r <= |a|
    ensures forall k :: 0 <= k < |a| ==> (a[k] <= x <==> k < r)
    decreases hi - lo
  {
    if lo == hi then lo
    else
      var mid := (lo + hi) / 2;
      if x < a[mid] then BisectRight(a, x, lo, mid) else BisectRight(a, x, mid + 1, hi)
  }

  lemma FirstActiveIs(ss: seq<Schedule>, t: Instant, k: nat)
    requires IsFirstActive(ss, t, k)
    ensures FirstActive(ss, t) == Some(ss[k].event)
  {
    var name := FirstActive(ss, t);
    assert name.Some?;
    var j :| IsFirstActive(ss, t, j) && ss[j].event == name.value;
    assert j == k;
  }

  /** The scan limited by bisection to a window of starts is the scan over all schedules. */
  method LookUp(ss: seq<Schedule>, starts: seq<Instant>, t: Instant) returns (name: Option<string>)
    requires Loaded(ss) && |starts| == |ss|
    requires forall k :: 0 <= k < |ss| ==> starts[k] == ss[k].scheduledAt - HALF_WINDOW
    ensures name == FirstActive(ss, t)
  {
    assert Ascending(starts);
    var low := BisectLeft(starts, t - 60 * MINUTE, 0, |starts|);
    var high := BisectRight(starts, t, 0, |starts|);
    name := None;
    var k := low;
    while k < high
      invariant low <= k
      invariant forall j :: 0 <= j < k && j < |ss| ==> !Active(ss[j], t)
    {
      if starts[k] <= t <= ss[k].scheduledAt + HALF_WINDOW && ss[k].knownAt <= t {
        FirstActiveIs(ss, t, k);
        name := Some(ss[k].event);
        return;
      }
      k := k + 1;
    }
    assert forall j :: 0 <= j < |ss| ==> !Active(ss[j], t);
  }

  /** One context for every closed candle, in candle order, and none when no schedule was loaded. */
  method MacroEvents(ss: seq<Schedule>, closes: seq<Instant>) returns (events: seq<(Instant, Context)>)
    requires Loaded(ss)
    ensures |events| == if ss == [] then 0 else |closes|
    ensures forall k :: 0 <= k < |events| ==> events[k].0 == closes[k] && Verdict(ss, closes[k]) == Some(events[k].1)
  {
    events := [];
    if ss == [] {
      return;
    }
    var starts := seq(|ss|, k requires 0 <= k < |ss| => ss[k].scheduledAt - HALF_WINDOW);
    var coverageStart, coverageEnd := CoverageStart(ss), CoverageEnd(ss);
    for c := 0 to |closes|
      invariant |events| == c
      invariant forall k :: 0 <= k < c ==> events[k].0 == closes[k] && Verdict(ss, closes[k]) == Some(events[k].1)
    {
      var t := closes[c];
      if t < coverageStart || t > coverageEnd {
        events := events + [(t, UNCOVERED)];
        continue;
      }
      var name := LookUp(ss, starts, t);
      events := events + [(t, Context(name.Some?, name, true))];
    }
  }

  // ---------------------------------------------------------------------------
  // Point in time
  // ---------------------------------------------------------------------------

  /** The schedules that satisfy `keep`, in their order. */
  ghost function Filter(ss: seq<Schedule>, keep: Schedule -> bool): (r: seq<Schedule>)
    ensures forall k :: 0 <= k < |r| ==> r[k] in ss && keep(r[k])
    ensures forall k :: 0 <= k < |ss| && keep(ss[k]) ==> ss[k] in r
    ensures |r| <= |ss| && (|r| == |ss| ==> r == ss)
  {
    if ss == [] then []
    else
      var rest := Filter(ss[1..], keep);
      assert ss == [ss[0]] + ss[1..];
      if keep(ss[0]) then [ss[0]] + rest else rest
  }

  /** What had been announced by `t`. */
  ghost function KnownBy(ss: seq<Schedule>, t: Instant): seq<Schedule> {
    Filter(ss, (s: Schedule) => s.knownAt <= t)
  }

  lemma {:induction false} FirstActiveOfKnown(ss: seq<Schedule>, t: Instant)
    ensures FirstActive(ss, t) == FirstActive(KnownBy(ss, t), t)
  {
    if ss != [] {
      FirstActiveOfKnown(ss[1..], t);
      var rest := KnownBy(ss[1..], t);
      if ss[0].knownAt <= t {
        assert KnownBy(ss, t) == [ss[0]] + rest;
        assert KnownBy(ss, t)[1..] == rest;
      } else {
        assert KnownBy(ss, t) == rest;
      }
    }
  }

  /** Coverage has begun exactly when something had been announced. */
  lemma StartedIffKnown(ss: seq<Schedule>, t: Instant)
    requires ss != []
    ensures CoverageStart(ss) <= t <==> KnownBy(ss, t) != []
  {
    if CoverageStart(ss) <= t {
      var k :| 0 <= k < |ss| && CoverageStart(ss) == ss[k].knownAt;
      assert ss[k] in KnownBy(ss, t);
    }
    if KnownBy(ss, t) != [] {
      var s := KnownBy(ss, t)[0];
      assert s in ss && s.knownAt <= t;
    }
  }

  /**
   Two sets of schedules that agree on what had been announced by `t` agree on `t`, exactly when
   their coverage does.
   */
  lemma SameEvidenceSameVerdictIff(ss: seq<Schedule>, ss': seq<Schedule>, t: Instant)
    requires ss != [] && ss' != [] && KnownBy(ss, t) == KnownBy(ss', t)
    ensures
      Verdict(ss, t) == Verdict(ss', t) <==>
      (KnownBy(ss, t) == [] || (t <= CoverageEnd(ss) <==> t <= CoverageEnd(ss')))
  {
    StartedIffKnown(ss, t);
    StartedIffKnown(ss', t);
    FirstActiveOfKnown(ss, t);
    FirstActiveOfKnown(ss', t);
  }

  lemma {:induction false} FilterKeepsKnown(ss: seq<Schedule>, keep: Schedule -> bool, t: Instant)
    requires forall k :: 0 <= k < |ss| && !keep(ss[k]) ==> ss[k].knownAt > t
    ensures KnownBy(Filter(ss, keep), t) == KnownBy(ss, t)
  {
    if ss != [] {
      FilterKeepsKnown(ss[1..], keep, t);
      var rest := Filter(ss[1..], keep);
      if keep(ss[0]) {
        assert Filter(ss, keep) == [ss[0]] + rest;
        assert Filter(ss, keep)[1..] == rest;
      }
    }
  }

  lemma FilteredEndsNoLater(ss: seq<Schedule>, keep: Schedule -> bool)
    requires Filter(ss, keep) != []
    ensures CoverageEnd(Filter(ss, keep)) <= CoverageEnd(ss)
  {
    var kept := Filter(ss, keep);
    var k :| 0 <= k < |kept| && LastRelease(kept) == kept[k].scheduledAt;
    assert kept[k] in ss;
  }

  lemma {:induction false} LostOne(ss: seq<Schedule>, keep: Schedule -> bool) returns (k: nat)
    requires Filter(ss, keep) != ss
    ensures k < |ss| && !keep(ss[k])
  {
    if !keep(ss[0]) {
      k := 0;
    } else {
      assert ss == [ss[0]] + ss[1..];
      k := LostOne(ss[1..], keep);
      k := k + 1;
    }
  }

  /**
   Schedules announced only after `t` (those not in `keep`) leave the verdict at `t` alone
   exactly when there are none, or the others already cover `t` or do not begin before it.
   Past the end of their coverage a later announcement turns an unhealthy feed healthy.
   */
  lemma LaterAnnouncementsHarmlessIff(all: seq<Schedule>, keep: Schedule -> bool, t: Instant)
    requires Loaded(all) && forall k :: 0 <= k < |all| && !keep(all[k]) ==> all[k].knownAt > t
    ensures
      var ss := Filter(all, keep);
      Verdict(ss, t) == Verdict(all, t) <==>
      (ss == all || (ss != [] && (KnownBy(ss, t) == [] || t <= CoverageEnd(ss))))
  {
    var ss := Filter(all, keep);
    if ss != all {
      var k := LostOne(all, keep);
      assert t < all[k].knownAt < all[k].scheduledAt <= LastRelease(all);
      if ss != [] {
        FilterKeepsKnown(all, keep, t);
        FilteredEndsNoLater(all, keep);
        SameEvidenceSameVerdictIff(ss, all, t);
      }
    }
  }

  const KNOWN_EARLY := Schedule("first", 10 * HOUR, 0)
  const KNOWN_LATE := Schedule("second", 30 * HOUR, 20 * HOUR)

  /**
   Twelve hours in, the first schedule no longer covers; one announced eight hours later makes
   the feed healthy then.
   */
  lemma LaterAnnouncementExample()
    ensures Loaded([KNOWN_EARLY, KNOWN_LATE]) && KNOWN_LATE.knownAt > 12 * HOUR
    ensures Verdict([KNOWN_EARLY], 12 * HOUR) == Some(UNCOVERED)
    ensures Verdict([KNOWN_EARLY, KNOWN_LATE], 12 * HOUR) == Some(Context(false, None, true))
  {
    var both := [KNOWN_EARLY, KNOWN_LATE];
    assert both[1..] == [KNOWN_LATE];
    assert CoverageStart([KNOWN_EARLY]) == 0 && CoverageStart(both) == 0;
    assert LastRelease([KNOWN_EARLY]) == 10 * HOUR && LastRelease(both) == 30 * HOUR;
    assert FirstActive(both, 12 * HOUR) == None;
  }
}
