/**
 The close the live row shows.  A row commit has no guard of its own, so a task that was
 overtaken by the task of a later candle puts the earlier candle back.
 */
module CloseOrder {
  import opened Wrappers
  import opened UtcTime
  import opened LiveState
  import opened LiveRuns

  /** The close an event writes to the row. */
  function ClosePut(w: World, e: Event): Option<Instant> {
    if e.CommitCandle? && Ready(w, e.task, PlanSaved) then Some(w.tasks[e.task].timestamp)
    else if e.RestartWrites? && Writing(w, e.restart) && w.restarts[e.restart].signal.Some?
    then Some(w.restarts[e.restart].signal.value.timestamp)
    else None
  }

  ghost function Shown(run: seq<Event>, k: nat): Option<Instant>
    requires k <= |run|
  {
    StateAt(run, k).store.row.decision.lastClose
  }

  lemma StepShows(w: World, e: Event)
    ensures Step(w, e).store.row.decision.lastClose
         == if ClosePut(w, e).Some? then ClosePut(w, e) else w.store.row.decision.lastClose
  {
  }

  /** What each event of the run writes. */
  ghost function Puts(run: seq<Event>): (puts: seq<Option<Instant>>)
    ensures |puts| == |run|
  {
    seq(|run|, k requires 0 <= k < |run| => ClosePut(StateAt(run, k), run[k]))
  }

  ghost function Showns(run: seq<Event>): (shown: seq<Option<Instant>>)
    ensures |shown| == |run| + 1
  {
    seq(|run| + 1, k requires 0 <= k <= |run| => Shown(run, k))
  }

  /** `shown` keeps what was written last. */
  ghost predicate Keeps(shown: seq<Option<Instant>>, puts: seq<Option<Instant>>) {
    && |shown| == |puts| + 1 && shown[0] == None
    && forall k :: 0 <= k < |puts| ==> shown[k + 1] == if puts[k].Some? then puts[k] else shown[k]
  }

  lemma RunKeeps(run: seq<Event>)
    ensures Keeps(Showns(run), Puts(run))
  {
    forall k | 0 <= k < |run|
      ensures Showns(run)[k + 1] == if Puts(run)[k].Some? then Puts(run)[k] else Showns(run)[k]
    {
      StepShows(StateAt(run, k), run[k]);
    }
  }

  /** The closes among the first `n` entries. */
  ghost function Closes(puts: seq<Option<Instant>>, n: nat): seq<Instant>
    requires n <= |puts|
  {
    if n == 0 then [] else Closes(puts, n - 1) + if puts[n - 1].Some? then [puts[n - 1].value] else []
  }

  ghost function Last(closes: seq<Instant>): Option<Instant> {
    if closes == [] then None else Some(closes[|closes| - 1])
  }

  lemma {:induction false} KeepsLast(shown: seq<Option<Instant>>, puts: seq<Option<Instant>>, k: nat)
    requires Keeps(shown, puts) && k <= |puts|
    ensures shown[k] == Last(Closes(puts, k))
  {
    if k > 0 {
      KeepsLast(shown, puts, k - 1);
    }
  }

  /** The closes written up to state `n` of a run, in order. */
  ghost function ClosesPut(run: seq<Event>, n: nat): seq<Instant>
    requires n <= |run|
  {
    Closes(Puts(run), n)
  }

  /** The row shows the close written last. */
  lemma ShowsLastPut(run: seq<Event>, n: nat)
    requires n <= |run|
    ensures Shown(run, n) == Last(ClosesPut(run, n))
  {
    RunKeeps(run);
    KeepsLast(Showns(run), Puts(run), n);
  }

  /** A task of an earlier candle than the one shown commits the row. */
  ghost predicate CommitsEarlier(run: seq<Event>, k: nat, shown: Instant)
    requires k < |run|
  {
    var w, e := StateAt(run, k), run[k];
    e.CommitCandle? && Ready(w, e.task, PlanSaved) && w.tasks[e.task].timestamp < shown
  }

  /** A restart that began before any signal of the close shown, or of a later one, was saved writes the row. */
  ghost predicate RestartsEarlier(run: seq<Event>, k: nat, shown: Instant)
    requires k < |run|
  {
    && run[k].RestartWrites? && Writing(StateAt(run, k), run[k].restart)
    && var began := SignalReadAt(run, k, run[k].restart);
       && began.Some?
       && var signals := StateAt(run, began.value).store.signals;
          signals != [] && forall x :: x in signals ==> x.timestamp < shown
  }

  /**
   The close shown goes back exactly when a task of an earlier candle commits the row, or a
   restart writes it that began when all signals there were, at least one, were of earlier candles.
   */
  lemma CloseGoesBackIff(run: seq<Event>, k: nat)
    requires k < |run| && Shown(run, k).Some?
    ensures Shown(run, k + 1).Some?
    ensures Shown(run, k + 1).value < Shown(run, k).value
      <==> CommitsEarlier(run, k, Shown(run, k).value) || RestartsEarlier(run, k, Shown(run, k).value)
  {
    StepShows(StateAt(run, k), run[k]);
    if run[k].RestartWrites? && Writing(StateAt(run, k), run[k].restart) {
      RestartHoldsSignal(run, k, run[k].restart);
    }
  }

  ghost predicate Ascending(closes: seq<Instant>) {
    forall i, j :: 0 <= i < j < |closes| ==> closes[i] <= closes[j]
  }

  ghost predicate NotBack(before: Option<Instant>, after: Option<Instant>) {
    before.Some? ==> after.Some? && before.value <= after.value
  }

  lemma AscendingExtended(closes: seq<Instant>, close: Instant)
    ensures Ascending(closes + [close]) <==> Ascending(closes) && NotBack(Last(closes), Some(close))
  {
    var longer := closes + [close];
    if Ascending(longer) && closes != [] {
      assert longer[|closes| - 1] <= longer[|closes|];
      forall i, j | 0 <= i < j < |closes| ensures closes[i] <= closes[j] {
        assert longer[i] <= longer[j];
      }
    }
  }

  lemma {:induction false} KeepsAscending(shown: seq<Option<Instant>>, puts: seq<Option<Instant>>, n: nat)
    requires Keeps(shown, puts) && n <= |puts|
    ensures (forall k :: 0 <= k < n ==> NotBack(shown[k], shown[k + 1])) <==> Ascending(Closes(puts, n))
  {
    if n > 0 {
      KeepsAscending(shown, puts, n - 1);
      KeepsLast(shown, puts, n - 1);
      if puts[n - 1].Some? {
        AscendingExtended(Closes(puts, n - 1), puts[n - 1].value);
      } else {
        assert Closes(puts, n) == Closes(puts, n - 1);
      }
      assert NotBack(shown[n - 1], shown[n - 1 + 1])
        <==> puts[n - 1] == None || NotBack(Last(Closes(puts, n - 1)), puts[n - 1]);
    }
  }

  /** It never goes back exactly when commits and restarts write closes in ascending order. */
  lemma CloseNeverGoesBackIff(run: seq<Event>, n: nat)
    requires n <= |run|
    ensures (forall k :: 0 <= k < n ==> NotBack(Shown(run, k), Shown(run, k + 1))) <==> Ascending(ClosesPut(run, n))
  {
    RunKeeps(run);
    KeepsAscending(Showns(run), Puts(run), n);
    assert forall k :: 0 <= k <= n ==> Showns(run)[k] == Shown(run, k);
  }

  // ---------------------------------------------------------------------------
  // An overtaken task
  // ---------------------------------------------------------------------------

  /** The candle that closes at 0 waits with its row commit until the next one is committed. */
  ghost function OvertakenRun(x: Decision, y: Decision): seq<Event> {
    [CandleArrives(0, x), SaveSignal(0), SavePlan(0),
     CandleArrives(15 * MINUTE, y), SaveSignal(1), SavePlan(1), CommitCandle(1), CommitCandle(0)]
  }

  ghost function FirstSaved(x: Decision): Store {
    SavePlanStep(SaveSignalStep(EMPTY_STORE, 0, x), x)
  }

  ghost function BothSaved(x: Decision, y: Decision): Store {
    SavePlanStep(SaveSignalStep(FirstSaved(x), 15 * MINUTE, y), y)
  }

  lemma OvertakenUpTo(run: seq<Event>, x: Decision, y: Decision)
    requires run == OvertakenRun(x, y)
    ensures
      var tasks := [Task(0, x, PlanSaved), Task(15 * MINUTE, y, RowCommitted)];
      StateAt(run, 7) == World(CommitStep(BothSaved(x, y), 15 * MINUTE, y), tasks, [])
  {
    assert StateAt(run, 0) == EMPTY_WORLD;
    TaskSaved(run, 0, EMPTY_STORE, [], [], 0, x);
    var first := [Task(0, x, PlanSaved)];
    assert [] + first == first;
    TaskSaved(run, 3, FirstSaved(x), first, [], 15 * MINUTE, y);
    TaskCommits(run, 6, BothSaved(x, y), first, [], 15 * MINUTE, y);
    assert first + [Task(15 * MINUTE, y, RowCommitted)] == [Task(0, x, PlanSaved), Task(15 * MINUTE, y, RowCommitted)];
  }

  /** The row shows the later candle and then the earlier one, whose task it had waited for. */
  lemma OvertakenCloseGoesBack(run: seq<Event>, x: Decision, y: Decision)
    requires run == OvertakenRun(x, y)
    ensures Shown(run, 7) == Some(15 * MINUTE) && Shown(run, 8) == Some(0)
    ensures StateAt(run, 8).store.row.decision.fingerprint == Some(x.fingerprint)
  {
    OvertakenUpTo(run, x, y);
    CommitEvent(run, 7, StateAt(run, 7), 0);
  }
}
