/**
 Closing times of provider candles: fixed grids for 15m, 1h and 1d, and for 4h either
 a grid anchored at a stored close or an empirical table of alignment regimes.
 */
module CandleClock {
  import opened Wrappers
  import opened UtcTime

  datatype Timeframe = M15 | H1 | H4 | D1 | Unsupported(name: string)

  datatype ClockError = UnsupportedTimeframe(name: string)

  const FOUR_HOURS := 14_400_000_000

  // ---------------------------------------------------------------------------
  // Alignment regimes
  // ---------------------------------------------------------------------------

  /** From `at` on, 4h candles close at hours congruent to `regime` modulo 4. */
  datatype Transition = Transition(at: Instant, regime: int)

  /** Day counts since the epoch; `TableDates` gives their calendar dates. */
  const TRANSITIONS: seq<Transition> := [
    Transition(18540 * DAY, 0),
    Transition(18722 * DAY + HOUR, 1),
    Transition(18904 * DAY, 0),
    Transition(19450 * DAY + HOUR, 1),
    Transition(19632 * DAY, 0),
    Transition(19821 * DAY + HOUR, 1),
    Transition(20003 * DAY, 0),
    Transition(20185 * DAY + HOUR, 1),
    Transition(20367 * DAY, 0),
    Transition(20547 * DAY + 21 * HOUR, 1)
  ]

  /** The regime set by the last of the first `n` transitions at or before `t`. */
  function RegimeAmong(t: Instant, n: nat): int
    requires n <= |TRANSITIONS|
  {
    if n == 0 then 1
    else if TRANSITIONS[n - 1].at <= t then TRANSITIONS[n - 1].regime
    else RegimeAmong(t, n - 1)
  }

  function Regime(t: Instant): int {
    RegimeAmong(t, |TRANSITIONS|)
  }

  lemma TableDates()
    ensures CivilDays(2020, 10, 5) == 18540 && CivilDays(2021, 4, 5) == 18722
    ensures CivilDays(2021, 10, 4) == 18904 && CivilDays(2023, 4, 3) == 19450
    ensures CivilDays(2023, 10, 2) == 19632 && CivilDays(2024, 4, 8) == 19821
    ensures CivilDays(2024, 10, 7) == 20003 && CivilDays(2025, 4, 7) == 20185
    ensures CivilDays(2025, 10, 6) == 20367 && CivilDays(2026, 4, 4) == 20547
  {
  }

  ghost predicate WellShaped(i: nat)
    requires i < |TRANSITIONS|
  {
    var e := TRANSITIONS[i];
    && e.regime == i % 2
    && e.at % HOUR == 0
    && (if i % 2 == 0 then HourOfDay(e.at) == 0 else HourOfDay(e.at) in {1, 21})
  }

  /** What the proofs use of the table: alternating regimes, each starting on one of its own closes. */
  lemma TableShape()
    ensures forall i: nat :: i < |TRANSITIONS| ==> WellShaped(i)
  {
    forall i: nat | i < |TRANSITIONS| ensures WellShaped(i) {
      if i == 0 { assert WellShaped(0); }
      else if i == 1 { assert WellShaped(1); }
      else if i == 2 { assert WellShaped(2); }
      else if i == 3 { assert WellShaped(3); }
      else if i == 4 { assert WellShaped(4); }
      else if i == 5 { assert WellShaped(5); }
      else if i == 6 { assert WellShaped(6); }
      else if i == 7 { assert WellShaped(7); }
      else if i == 8 { assert WellShaped(8); }
      else { assert WellShaped(9); }
    }
  }

  lemma {:induction false} TableSpacing(i: nat, j: nat)
    requires i < j < |TRANSITIONS|
    ensures TRANSITIONS[i].at + 2 * DAY < TRANSITIONS[j].at
    decreases j
  {
    if i < j - 1 {
      TableSpacing(i, j - 1);
    }
  }

  /** The source's forward scan: keep the regime of each transition reached, stop at the first later one. */
  method GetEmpirical4hRegime(t: Instant) returns (regime: int)
    ensures regime == Regime(t)
  {
    regime := 1;
    var i := 0;
    while i < |TRANSITIONS|
      invariant 0 <= i <= |TRANSITIONS|
      invariant regime == RegimeAmong(t, i)
    {
      if t >= TRANSITIONS[i].at {
        regime := TRANSITIONS[i].regime;
      } else {
        NothingLaterReached(t, i, |TRANSITIONS|);
        break;
      }
      i := i + 1;
    }
  }

  lemma {:induction false} NothingLaterReached(t: Instant, i: nat, n: nat)
    requires i < |TRANSITIONS| && t < TRANSITIONS[i].at && i <= n <= |TRANSITIONS|
    ensures RegimeAmong(t, n) == RegimeAmong(t, i)
    decreases n
  {
    if i < n {
      if i < n - 1 {
        TableSpacing(i, n - 1);
      }
      NothingLaterReached(t, i, n - 1);
    }
  }

  /** Index of the last transition at or before `t`, or -1. */
  ghost function Segment(t: Instant, n: nat): (s: int)
    requires n <= |TRANSITIONS|
    ensures -1 <= s < n
    ensures s >= 0 ==> TRANSITIONS[s].at <= t
    ensures RegimeAmong(t, n) == if s < 0 then 1 else TRANSITIONS[s].regime
    ensures forall i :: s < i < n ==> t < TRANSITIONS[i].at
  {
    if n == 0 then -1
    else if TRANSITIONS[n - 1].at <= t then n - 1
    else Segment(t, n - 1)
  }

  /** Between two instants of one regime less than two days apart the regime never changes. */
  lemma RegimeConvex(a: Instant, t: Instant, b: Instant)
    requires a <= t <= b <= a + 2 * DAY && Regime(a) == Regime(b)
    ensures Regime(t) == Regime(a)
  {
    TableShape();
    var i, j := Segment(a, |TRANSITIONS|), Segment(b, |TRANSITIONS|);
    assert i >= 0 ==> WellShaped(i);
    assert j >= 0 ==> WellShaped(j);
    var k := Segment(t, |TRANSITIONS|);
    if i + 1 < j {
      TableSpacing(i + 1, j);
    }
  }

  /** A change of regime within two days happened at a transition in between. */
  lemma RegimeChangePoint(a: Instant, b: Instant) returns (i: nat)
    requires a <= b <= a + 2 * DAY && Regime(a) != Regime(b)
    ensures i < |TRANSITIONS| && a < TRANSITIONS[i].at <= b && TRANSITIONS[i].regime == Regime(b) && WellShaped(i)
    ensures forall t :: TRANSITIONS[i].at <= t <= b ==> Regime(t) == Regime(b)
  {
    TableShape();
    var s := Segment(a, |TRANSITIONS|);
    var j := Segment(b, |TRANSITIONS|);
    i := j;
    forall t | TRANSITIONS[i].at <= t <= b ensures Regime(t) == Regime(b) {
      var k := Segment(t, |TRANSITIONS|);
    }
  }

  // ---------------------------------------------------------------------------
  // The latest closed timestamp
  // ---------------------------------------------------------------------------

  /** The last of `allowed_hours` (regime, regime + 4, ...) not after `hour`; needs one to exist. */
  function BestHour(regime: int, hour: int): int
  {
    regime + (hour - regime) / 4 * 4
  }

  /** Cold start, with no stored candle to anchor on. */
  function ColdStart4h(now: Instant): Instant {
    var regime := Regime(now);
    if regime <= HourOfDay(now) then
      AtHour(now, BestHour(regime, HourOfDay(now)))
    else
      var prevDay := now - DAY;
      AtHour(prevDay, BestHour(Regime(prevDay), 23))
  }

  /** The grid of 4h steps through `anchor`, read at `now`. */
  function Anchored4h(now: Instant, anchor: Instant): Instant {
    if now >= anchor then
      var expected := anchor + (now - anchor) / FOUR_HOURS * FOUR_HOURS;
      if expected <= now then expected else ColdStart4h(now)
    else
      anchor - (anchor - now + FOUR_HOURS - SECOND) / FOUR_HOURS * FOUR_HOURS
  }

  function LatestClosed(tf: Timeframe, now: Instant, anchor: Option<Instant>): Result<Instant, ClockError> {
    match tf
    case M15 => Ok(now - now % (15 * MINUTE))
    case H1 => Ok(now - now % HOUR)
    case H4 => Ok(if anchor.Some? then Anchored4h(now, anchor.value) else ColdStart4h(now))
    case D1 => Ok(DayStart(now))
    case Unsupported(name) => Err(UnsupportedTimeframe(name))
  }

  // ---------------------------------------------------------------------------
  // Fixed grids
  // ---------------------------------------------------------------------------

  /** For 15m, 1h and 1d the result is the greatest multiple of the period at or before `now`. */
  lemma FixedGridClose(tf: Timeframe, now: Instant, anchor: Option<Instant>)
    requires tf in {M15, H1, D1}
    ensures
      var r := LatestClosed(tf, now, anchor);
      var period := if tf == M15 then 15 * MINUTE else if tf == H1 then HOUR else DAY;
      && r.Ok? && r.value <= now
      && (exists k :: r.value == k * period)
      && forall k :: k * period <= now ==> k * period <= r.value
  {
    if tf == M15 {
      assert now - now % (15 * MINUTE) == now / (15 * MINUTE) * (15 * MINUTE);
    } else if tf == H1 {
      assert now - now % HOUR == now / HOUR * HOUR;
    } else {
      assert now - now % DAY == now / DAY * DAY;
    }
  }

  // ---------------------------------------------------------------------------
  // Anchored 4h close
  // ---------------------------------------------------------------------------

  /** `r` is the last point at or before `now` of the 4h grid through `anchor`. */
  ghost predicate IsGridFloor(r: Instant, now: Instant, anchor: Instant) {
    (r - anchor) % FOUR_HOURS == 0 && r <= now < r + FOUR_HOURS
  }

  lemma GridFloorUnique(r: Instant, q: Instant, now: Instant, anchor: Instant)
    requires IsGridFloor(r, now, anchor) && IsGridFloor(q, now, anchor)
    ensures r == q
  {
  }

  /** What every anchor and instant get, even below one second of resolution. */
  lemma AnchoredAlways(now: Instant, anchor: Instant)
    ensures
      var r := Anchored4h(now, anchor);
      (r - anchor) % FOUR_HOURS == 0 && r < now + SECOND && now < r + FOUR_HOURS
  {
  }

  /**
   The promise "closed at or before now" fails exactly for an anchor ahead of `now` by a
   whole number of 4h steps plus less than one second: the backward step count rounds up
   only from one whole second on.
   */
  lemma AnchoredIsFloorIff(now: Instant, anchor: Instant)
    ensures IsGridFloor(Anchored4h(now, anchor), now, anchor)
      <==> !(anchor > now && 0 < (anchor - now) % FOUR_HOURS < SECOND)
  {
  }

  lemma AnchoredCeilingFails()
    ensures Anchored4h(0, 1) == 1
  {
  }

  lemma SameGrid(x: Instant, a: Instant, b: Instant)
    requires (x - a) % FOUR_HOURS == 0 && (a - b) % FOUR_HOURS == 0
    ensures (x - b) % FOUR_HOURS == 0
  {
    var k, m := (x - a) / FOUR_HOURS, (a - b) / FOUR_HOURS;
    assert x - b == (k + m) * FOUR_HOURS;
  }

  /** On whole seconds the close depends on the anchor only through its residue modulo 4h. */
  lemma AnchoredByResidue(now: Instant, a: Instant, b: Instant)
    requires now % SECOND == 0 && a % SECOND == 0 && b % SECOND == 0
    requires (a - b) % FOUR_HOURS == 0
    ensures Anchored4h(now, a) == Anchored4h(now, b)
    ensures IsGridFloor(Anchored4h(now, a), now, b)
  {
    AnchoredOnWholeSeconds(now, a);
    AnchoredOnWholeSeconds(now, b);
    SameGrid(Anchored4h(now, a), a, b);
    GridFloorUnique(Anchored4h(now, a), Anchored4h(now, b), now, b);
  }

  lemma AnchoredOnWholeSeconds(now: Instant, anchor: Instant)
    requires now % SECOND == 0 && anchor % SECOND == 0
    ensures IsGridFloor(Anchored4h(now, anchor), now, anchor)
  {
    var whole := anchor / SECOND - now / SECOND;
    assert anchor - now == whole * SECOND;
    assert (anchor - now) % FOUR_HOURS == whole % 14400 * SECOND;
    AnchoredIsFloorIff(now, anchor);
  }

  /** Anchoring on a close already returned changes nothing, at every resolution. */
  lemma AnchoredFixedPoint(now: Instant, anchor: Instant)
    ensures Anchored4h(now, Anchored4h(now, anchor)) == Anchored4h(now, anchor)
  {
    AnchoredAlways(now, anchor);
  }

  // ---------------------------------------------------------------------------
  // Cold-start 4h close
  // ---------------------------------------------------------------------------

  /** A close of the regime in force at that very instant. */
  ghost predicate NativeClose(t: Instant) {
    t % HOUR == 0 && HourOfDay(t) % 4 == Regime(t)
  }

  ghost predicate IsLatestNative(r: Instant, now: Instant) {
    NativeClose(r) && r <= now && forall t :: r < t <= now ==> !NativeClose(t)
  }

  lemma RegimeRange(t: Instant)
    ensures Regime(t) in {0, 1}
  {
    TableShape();
    var i := Segment(t, |TRANSITIONS|);
    assert i >= 0 ==> WellShaped(i);
  }

  /** Every transition instant is itself a close of the regime it starts. */
  lemma TransitionIsNative(i: nat)
    requires i < |TRANSITIONS|
    ensures NativeClose(TRANSITIONS[i].at)
  {
    TableShape();
    assert WellShaped(i);
    var s := Segment(TRANSITIONS[i].at, |TRANSITIONS|);
    if i < s {
      TableSpacing(i, s);
    }
  }

  lemma ColdStartRecent(now: Instant)
    ensures ColdStart4h(now) <= now < ColdStart4h(now) + 5 * HOUR
  {
    RegimeRange(now);
    RegimeRange(now - DAY);
  }

  /** The hour in which the fallback consults the wrong regime. */
  predicate LooksUpStaleRegime(now: Instant) {
    HourOfDay(now) == 0 && Regime(now) == 1 && Regime(now - DAY) == 0
  }

  /** `r` on a day, with `regime` holding from `r` to `now` and no hour of it in between. */
  lemma LatestNativeOfOneRegime(r: Instant, now: Instant)
    requires NativeClose(r) && r <= now <= r + 2 * DAY && Regime(r) == Regime(now)
    requires forall t :: r < t <= now && t % HOUR == 0 ==> HourOfDay(t) % 4 != Regime(now)
    ensures IsLatestNative(r, now)
  {
    forall t | r < t <= now ensures !NativeClose(t) {
      RegimeConvex(r, t, now);
    }
  }

  /** Whole hours less than four hours after one of residue `regime` have another residue. */
  lemma NoHourOfResidueBetween(r: Instant, now: Instant, regime: int)
    requires r % HOUR == 0 && HourOfDay(r) % 4 == regime && r <= now < r + FOUR_HOURS
    ensures forall t :: r < t <= now && t % HOUR == 0 ==> HourOfDay(t) % 4 != regime
  {
    HourIndex(r);
    forall t | r < t <= now && t % HOUR == 0 ensures HourOfDay(t) % 4 != regime {
      HourIndex(t);
      assert r / HOUR < t / HOUR < r / HOUR + 4;
    }
  }

  /** The same-day branch picks the last hour of its regime on this day. */
  lemma SameDayPick(now: Instant)
    requires Regime(now) <= HourOfDay(now)
    ensures
      var r := ColdStart4h(now);
      r <= now < r + FOUR_HOURS && r % HOUR == 0 && HourOfDay(r) % 4 == Regime(now)
  {
    RegimeRange(now);
    PickOnDay(now, Regime(now));
  }

  lemma PickOnDay(now: Instant, regime: int)
    requires 0 <= regime <= 1 && regime <= HourOfDay(now)
    ensures
      var r := AtHour(now, BestHour(regime, HourOfDay(now)));
      r <= now < r + FOUR_HOURS && r % HOUR == 0 && HourOfDay(r) % 4 == regime
  {
    var best := BestHour(regime, HourOfDay(now));
    assert regime <= best <= HourOfDay(now) && best % 4 == regime;
    AtHourParts(now, best);
    HourBounds(now);
  }

  /** Same-day branch: always the latest native close. */
  lemma SameDayIsLatestNative(now: Instant)
    requires Regime(now) <= HourOfDay(now)
    ensures IsLatestNative(ColdStart4h(now), now)
  {
    SameDayPick(now);
    var r := ColdStart4h(now);
    NoHourOfResidueBetween(r, now, Regime(now));
    if Regime(r) != Regime(now) {
      var i := RegimeChangePoint(r, now);
      TransitionIsNative(i);
      assert false;
    }
    LatestNativeOfOneRegime(r, now);
  }

  lemma LastHourBeforeMidnight(now: Instant)
    requires HourOfDay(now) == 0
    ensures
      var r := AtHour(now - DAY, 21);
      now - DAY <= r <= now < r + FOUR_HOURS && r % HOUR == 0 && HourOfDay(r) == 21
  {
    AtHourParts(now - DAY, 21);
    HourBounds(now);
    DayBefore(now);
  }

  /** Previous-day branch, right regime: still the latest native close. */
  lemma PreviousDayIsLatestNative(now: Instant)
    requires HourOfDay(now) == 0 && Regime(now) == 1 && Regime(now - DAY) == 1
    ensures IsLatestNative(ColdStart4h(now), now)
  {
    var r := AtHour(now - DAY, 21);
    LastHourBeforeMidnight(now);
    assert ColdStart4h(now) == r;
    RegimeConvex(now - DAY, r, now);
    NoHourOfResidueBetween(r, now, 1);
    LatestNativeOfOneRegime(r, now);
  }

  lemma DayBefore(now: Instant)
    ensures DayStart(now - DAY) == DayStart(now) - DAY
  {
    DayParts(now - DAY, DayIndex(now) - 1, now % DAY);
  }

  /** Previous-day branch, stale regime: 20:00 is returned although 21:00 was a close. */
  lemma StaleRegimeMissesAClose(now: Instant)
    requires LooksUpStaleRegime(now)
    ensures ColdStart4h(now) == AtHour(now - DAY, 20) && ColdStart4h(now) + FOUR_HOURS <= now
    ensures NativeClose(AtHour(now - DAY, 21)) && AtHour(now - DAY, 21) <= now
  {
    var missed := AtHour(now - DAY, 21);
    LastHourBeforeMidnight(now);
    var i := RegimeChangePoint(now - DAY, now);
    var at := TRANSITIONS[i].at;
    DayBefore(now);
    HourBounds(now);
    if DayStart(at) == DayStart(now) {
      HourBounds(at);
      assert false;
    }
    assert at < DayStart(now);
    HourBounds(at);
    AtDayBefore(at, now);
  }

  /** A transition hour before midnight of the day before `now` is at most its 21:00. */
  lemma AtDayBefore(at: Instant, now: Instant)
    requires now - DAY < at < DayStart(now) && HourOfDay(at) <= 21 && at % HOUR == 0
    ensures at <= AtHour(now - DAY, 21)
  {
    DayBefore(now);
    var d := DayIndex(now) - 1;
    DayParts(at, d, at - d * DAY);
    HourBounds(at);
    var x := at % DAY;
    assert x == x / HOUR * HOUR + x % HOUR;
    HourParts(at, d * 24 + x / HOUR, x % HOUR);
  }

  /** The cold start returns the latest close of the regime in force exactly outside that hour. */
  lemma ColdStartIsLatestNativeIff(now: Instant)
    ensures IsLatestNative(ColdStart4h(now), now) <==> !LooksUpStaleRegime(now)
  {
    RegimeRange(now);
    RegimeRange(now - DAY);
    if LooksUpStaleRegime(now) {
      StaleRegimeMissesAClose(now);
      var missed := AtHour(now - DAY, 21);
      assert ColdStart4h(now) < missed <= now && NativeClose(missed);
    } else if Regime(now) <= HourOfDay(now) {
      SameDayIsLatestNative(now);
    } else {
      PreviousDayIsLatestNative(now);
    }
  }

  /** The stale hour exists: 2021-04-06T00:00Z, the day after a change to regime 1. */
  lemma StaleRegimeExample()
    ensures LooksUpStaleRegime(18723 * DAY)
  {
    NothingLaterReached(18723 * DAY, 2, |TRANSITIONS|);
    NothingLaterReached(18722 * DAY, 1, |TRANSITIONS|);
  }

  /**
   Storing the close just computed makes the same instant not due, whatever the timeframe
   and whatever was stored before, except after a cold start in the stale hour.
   */
  lemma StoringMakesNotDueIff(tf: Timeframe, now: Instant, anchor: Option<Instant>)
    requires !tf.Unsupported?
    ensures
      var close := LatestClosed(tf, now, anchor).value;
      LatestClosed(tf, now, Some(close)).value <= close
      <==> !(tf == H4 && anchor == None && LooksUpStaleRegime(now))
  {
    if tf == H4 && anchor.Some? {
      AnchoredFixedPoint(now, anchor.value);
    } else if tf == H4 {
      ColdStartAge(now);
      AnchoredOnPast(now, ColdStart4h(now));
    }
  }

  lemma AnchoredOnPast(now: Instant, anchor: Instant)
    requires anchor <= now
    ensures Anchored4h(now, anchor) <= anchor <==> now < anchor + FOUR_HOURS
  {
    AnchoredAlways(now, anchor);
  }

  /** The cold start is four hours old or more exactly in the stale hour. */
  lemma ColdStartAge(now: Instant)
    ensures ColdStart4h(now) <= now
    ensures now < ColdStart4h(now) + FOUR_HOURS <==> !LooksUpStaleRegime(now)
  {
    RegimeRange(now);
    RegimeRange(now - DAY);
    if LooksUpStaleRegime(now) {
      StaleRegimeMissesAClose(now);
    } else if Regime(now) <= HourOfDay(now) {
      SameDayPick(now);
    } else {
      LastHourBeforeMidnight(now);
    }
  }

  // ---------------------------------------------------------------------------
  // Weekend reopen
  // ---------------------------------------------------------------------------

  function NextWeekendReopen(t: Instant): Instant {
    var candidate := AtHour(t, 22) + (6 - Weekday(t)) % 7 * DAY;
    if candidate <= t then candidate + 7 * DAY else candidate
  }

  predicate IsReopen(t: Instant) {
    Weekday(t) == 6 && t % DAY == 22 * HOUR
  }

  const REOPEN_PHASE := 597_600_000_000

  lemma ReopenByPhase(t: Instant)
    ensures IsReopen(t) <==> WeekPhase(t) == REOPEN_PHASE
  {
    WeekParts(t);
    var p := WeekPhase(t);
    assert p == p / DAY * DAY + p % DAY;
  }

  /** The candidate is this week's Sunday 22:00, moved by one week once it is past. */
  lemma NextReopenByWeek(t: Instant)
    ensures
      var sunday := WeekInstant(WeekIndex(t), REOPEN_PHASE);
      NextWeekendReopen(t) == if sunday <= t then sunday + WEEK else sunday
  {
    WeekParts(t);
    var p := WeekPhase(t);
    assert p == p / DAY * DAY + p % DAY;
    assert (6 - Weekday(t)) % 7 == 6 - Weekday(t);
  }

  /** The reopen is the first Sunday 22:00:00 strictly after `t`, at most one week ahead. */
  lemma NextReopenIsFirst(t: Instant)
    ensures
      var r := NextWeekendReopen(t);
      && IsReopen(r) && t < r <= t + 7 * DAY
      && forall u :: t < u < r ==> !IsReopen(u)
  {
    NextReopenByWeek(t);
    WeekParts(t);
    var r := NextWeekendReopen(t);
    var w := if r == WeekInstant(WeekIndex(t), REOPEN_PHASE) then WeekIndex(t) else WeekIndex(t) + 1;
    WeekPartsUnique(r, w, REOPEN_PHASE);
    ReopenByPhase(r);
    forall u | t < u < r ensures !IsReopen(u) {
      ReopenByPhase(u);
      WeekParts(u);
      assert r - u == (w - WeekIndex(u)) * WEEK + REOPEN_PHASE - WeekPhase(u);
    }
  }
}
