/**
 Runs of the dispatcher in N processes sharing one cache.  A task first looks at each
 timeframe and notes the closes it finds due; later, request by request, it runs batches for
 them.  Looks and batches of several processes interleave in any way.

 A look is one at a close that is not stored yet and whose market was open.  What a look at
 any other close does is what a look does whose task then runs no batch.
 */
module DispatchRuns {
  import opened Wrappers
  import opened UtcTime
  import opened CandleClock
  import opened RequestLedger
  import opened Dispatch
  import Scheduler

  /** A close found due, and the time the task looked: what it records is recorded for that time. */
  datatype Due = Due(close: Instant, lookedAt: Instant)

  /** `due[p]` is what the running task of process `p` found due and has not yet given up. */
  datatype Group = Group(ledgers: seq<Ledger>, due: seq<map<Timeframe, Due>>, cache: Cache)

  /**
   A batch for `expected` ends at `ends`: for a gap recovered in several batches the two
   differ.  Its answers are used as far as requests are sent.
   */
  datatype Event =
    | Look(p: nat, expected: Request, at: Instant)
    | Batch(p: nat, expected: Request, ends: Instant, first: Response, second: Response, at: Instant)
    | TaskEnds(p: nat, at: Instant)

  /** Every look is for the close the scheduler expects at its time. */
  ghost predicate LooksInTime(run: seq<Event>) {
    forall i :: 0 <= i < |run| && run[i].Look? ==>
      LatestClosed(run[i].expected.tf, run[i].at - Scheduler.POST_CLOSE_DELAY, None) == Ok(run[i].expected.close)
  }

  /** What an event did; a batch runs for the time its task looked, and not at all if nothing is due. */
  datatype Outcome = Looked(due: bool) | Ran(report: Report, nowUtc: Instant) | Skipped | Ended

  function ReportIn(o: Outcome): Report {
    if o.Ran? then o.report else NOTHING_SENT
  }

  /** The request attempts of a batch are recorded for. */
  function Target(e: Event): Request
    requires e.Batch?
  {
    Request(e.expected.tf, e.ends)
  }

  ghost predicate WellFormed(s: Group, e: Event) {
    e.p < |s.ledgers| == |s.due|
  }

  /** The circuit lets a look through. */
  ghost predicate CircuitPasses(s: Group, e: Event)
    requires WellFormed(s, e) && e.Look?
  {
    !CheckCircuit(s.ledgers[e.p], s.cache, e.expected.tf, e.at, e.at).0
  }

  /** The look finds its close due: circuit closed, credit left and not suppressed. */
  ghost predicate FindsDue(s: Group, e: Event)
    requires WellFormed(s, e) && e.Look?
  {
    var (open, l, cache) := CheckCircuit(s.ledgers[e.p], s.cache, e.expected.tf, e.at, e.at);
    !open && CanConsume(l, cache, e.at, e.at) && !IsSuppressed(l, cache, e.expected, e.at)
  }

  /** The task of the batch has found its close due before. */
  ghost predicate IsDue(s: Group, e: Event)
    requires WellFormed(s, e) && e.Batch?
  {
    && e.expected.tf in s.due[e.p] && s.due[e.p][e.expected.tf].close == e.expected.close
    && s.due[e.p][e.expected.tf].lookedAt <= e.at
  }

  ghost function Did(s: Group, e: Event): Outcome
    requires WellFormed(s, e)
  {
    match e
    case Look(_, _, _) => Looked(FindsDue(s, e))
    case Batch(p, expected, ends, first, second, at) =>
      if IsDue(s, e) then
        var nowUtc := s.due[p][expected.tf].lookedAt;
        Ran(ReportOf(s.ledgers[p], s.cache, Target(e), nowUtc, at, first, second), nowUtc)
      else Skipped
    case TaskEnds(_, _) => Ended
  }

  /** A look notes or forgets its close; a batch that does not succeed ends the work on its timeframe. */
  ghost function DueAfter(s: Group, e: Event): map<Timeframe, Due>
    requires WellFormed(s, e)
  {
    match e
    case Look(p, expected, at) =>
      if FindsDue(s, e) then s.due[p][expected.tf := Due(expected.close, at)] else s.due[p] - {expected.tf}
    case Batch(p, expected, _, _, _, _) =>
      if IsDue(s, e) && !Did(s, e).report.Succeeded() then s.due[p] - {expected.tf} else s.due[p]
    case TaskEnds(_, _) => map[]
  }

  ghost function After(s: Group, e: Event): (s': Group)
    requires WellFormed(s, e)
    ensures |s'.ledgers| == |s'.due| == |s.ledgers|
  {
    var due := s.due[e.p := DueAfter(s, e)];
    match e
    case Look(p, expected, at) =>
      var (open, l, cache) := CheckCircuit(s.ledgers[p], s.cache, expected.tf, at, at);
      Group(s.ledgers[p := l], due, cache)
    case Batch(p, _, _, _, _, at) =>
      if IsDue(s, e) then
        var (l, cache) := Recorded(s.ledgers[p], s.cache, Target(e), Did(s, e).report, Did(s, e).nowUtc, at);
        Group(s.ledgers[p := l], due, cache)
      else s
    case TaskEnds(_, _) => s.(due := due)
  }

  ghost predicate Chronological(run: seq<Event>) {
    forall i, j :: 0 <= i < j < |run| ==> run[i].at <= run[j].at
  }

  ghost predicate IsRun(s: Group, run: seq<Event>) {
    && |s.due| == |s.ledgers| && Chronological(run)
    && forall i :: 0 <= i < |run| ==> run[i].p < |s.ledgers|
  }

  ghost function StateAt(s: Group, run: seq<Event>, k: nat): (s': Group)
    requires IsRun(s, run) && k <= |run|
    ensures |s'.ledgers| == |s'.due| == |s.ledgers|
  {
    if k == 0 then s else After(StateAt(s, run, k - 1), run[k - 1])
  }

  /** What each event of the run did. */
  ghost function Outcomes(s: Group, run: seq<Event>): (did: seq<Outcome>)
    requires IsRun(s, run)
    ensures |did| == |run|
  {
    seq(|run|, k requires 0 <= k < |run| => Did(StateAt(s, run, k), run[k]))
  }

  ghost function States(s: Group, run: seq<Event>): (states: seq<Group>)
    requires IsRun(s, run)
    ensures |states| == |run| + 1
  {
    seq(|run| + 1, k requires 0 <= k <= |run| => StateAt(s, run, k))
  }

  /** The `k`-th event leads from the `k`-th state to the next. */
  lemma RunStep(s: Group, run: seq<Event>, k: nat)
    requires IsRun(s, run) && k < |run|
    ensures WellFormed(States(s, run)[k], run[k])
    ensures States(s, run)[k + 1] == After(States(s, run)[k], run[k])
    ensures Outcomes(s, run)[k] == Did(States(s, run)[k], run[k])
  {
    assert States(s, run)[k] == StateAt(s, run, k) && States(s, run)[k + 1] == StateAt(s, run, k + 1);
  }

  /** `s'` differs from `s` in the cache and in process `p` only. */
  ghost predicate OnlyProcess(s: Group, s': Group, p: nat) {
    && p < |s.ledgers| == |s.due| == |s'.ledgers| == |s'.due|
    && forall q :: 0 <= q < |s.ledgers| && q != p ==> s'.ledgers[q] == s.ledgers[q] && s'.due[q] == s.due[q]
  }

  lemma StepOnlyProcess(s: Group, e: Event)
    requires WellFormed(s, e)
    ensures OnlyProcess(s, After(s, e), e.p)
  {
  }

  /** What becomes of the closes a task found due. */
  ghost predicate DueStep(s: Group, s': Group, e: Event, did: Outcome) {
    && OnlyProcess(s, s', e.p)
    && match e
       case Look(p, expected, at) =>
         && did.Looked?
         && s'.due[p] == if did.due then s.due[p][expected.tf := Due(expected.close, at)] else s.due[p] - {expected.tf}
       case Batch(p, expected, _, _, _, _) =>
         && (if IsDue(s, e) then did.Ran? && did.nowUtc == s.due[p][expected.tf].lookedAt else did.Skipped?)
         && (ReportIn(did).tripped ==> ReportIn(did).Failed()) && ReportIn(did).sent <= 2
         && s'.due[p] == if did.Ran? && !did.report.Succeeded() then s.due[p] - {expected.tf} else s.due[p]
       case TaskEnds(p, _) => did.Ended? && s'.due[p] == map[]
  }

  lemma StepDue(s: Group, e: Event)
    requires WellFormed(s, e)
    ensures DueStep(s, After(s, e), e, Did(s, e))
  {
    StepOnlyProcess(s, e);
    if e.Batch? && IsDue(s, e) {
      BatchRequests(s.ledgers[e.p], s.cache, Target(e), s.due[e.p][e.expected.tf].lookedAt, e.at, e.first, e.second);
    }
  }

  // ---------------------------------------------------------------------------
  // Extending a run
  // ---------------------------------------------------------------------------

  lemma {:induction false} StatesPrefix(s: Group, run: seq<Event>, e: Event, k: nat)
    requires IsRun(s, run) && IsRun(s, run + [e]) && k <= |run|
    ensures StateAt(s, run + [e], k) == StateAt(s, run, k)
  {
    if k > 0 {
      StatesPrefix(s, run, e, k - 1);
    }
  }

  lemma OutcomeKept(s: Group, run: seq<Event>, e: Event, k: nat)
    requires IsRun(s, run) && IsRun(s, run + [e]) && k < |run|
    ensures Outcomes(s, run + [e])[k] == Outcomes(s, run)[k]
  {
    StatesPrefix(s, run, e, k);
  }

  lemma LastOutcome(s: Group, run: seq<Event>, e: Event, w: Group)
    requires IsRun(s, run) && IsRun(s, run + [e]) && StateAt(s, run, |run|) == w && WellFormed(w, e)
    ensures Outcomes(s, run + [e])[|run|] == Did(w, e) && StateAt(s, run + [e], |run| + 1) == After(w, e)
  {
    StatesPrefix(s, run, e, |run|);
  }

  lemma Extends(longer: seq<Outcome>, did: seq<Outcome>, last: Outcome)
    requires |longer| == |did| + 1 && longer[|did|] == last && forall k :: 0 <= k < |did| ==> longer[k] == did[k]
    ensures longer == did + [last]
  {
  }

  lemma OutcomesKept(s: Group, run: seq<Event>, e: Event)
    requires IsRun(s, run) && IsRun(s, run + [e])
    ensures forall k :: 0 <= k < |run| ==> Outcomes(s, run + [e])[k] == Outcomes(s, run)[k]
  {
    forall k | 0 <= k < |run| ensures Outcomes(s, run + [e])[k] == Outcomes(s, run)[k] {
      OutcomeKept(s, run, e, k);
    }
  }

  lemma OutcomesAppend(s: Group, run: seq<Event>, e: Event, w: Group, last: Outcome)
    requires IsRun(s, run) && IsRun(s, run + [e]) && StateAt(s, run, |run|) == w && WellFormed(w, e)
    requires Did(w, e) == last
    ensures Outcomes(s, run + [e]) == Outcomes(s, run) + [last]
  {
    LastOutcome(s, run, e, w);
    OutcomesKept(s, run, e);
    Extends(Outcomes(s, run + [e]), Outcomes(s, run), last);
  }

  // ---------------------------------------------------------------------------
  // Runs from the start of all processes
  // ---------------------------------------------------------------------------

  ghost function Start(n: nat): Group {
    Group(seq(n, _ => EMPTY_LEDGER), seq(n, _ => map[]), map[])
  }

  /** A run from the start to `w` by time `t`, and what its events did. */
  ghost predicate Reaches(n: nat, run: seq<Event>, did: seq<Outcome>, w: Group, t: Instant) {
    && IsRun(Start(n), run) && (forall i :: 0 <= i < |run| ==> run[i].at <= t)
    && StateAt(Start(n), run, |run|) == w && Outcomes(Start(n), run) == did
  }

  lemma ReachesNext(n: nat, run: seq<Event>, did: seq<Outcome>, w: Group, t: Instant, e: Event, w': Group, o: Outcome)
    requires Reaches(n, run, did, w, t) && e.p < n && t <= e.at
    requires WellFormed(w, e) && After(w, e) == w' && Did(w, e) == o
    ensures Reaches(n, run + [e], did + [o], w', e.at)
  {
    AppendIsRun(n, run, t, e);
    StateAppend(Start(n), run, e, w, w');
    OutcomesAppend(Start(n), run, e, w, o);
  }

  lemma StateAppend(s: Group, run: seq<Event>, e: Event, w: Group, w': Group)
    requires IsRun(s, run) && IsRun(s, run + [e]) && StateAt(s, run, |run|) == w
    requires WellFormed(w, e) && After(w, e) == w'
    ensures StateAt(s, run + [e], |run + [e]|) == w'
  {
    LastOutcome(s, run, e, w);
    assert |run + [e]| == |run| + 1;
  }

  lemma AppendIsRun(n: nat, run: seq<Event>, t: Instant, e: Event)
    requires IsRun(Start(n), run) && (forall i :: 0 <= i < |run| ==> run[i].at <= t) && e.p < n && t <= e.at
    ensures IsRun(Start(n), run + [e]) && forall i :: 0 <= i < |run + [e]| ==> (run + [e])[i].at <= e.at
  {
  }

  /** A due batch whose report and records are known. */
  lemma BatchOf(s: Group, e: Event, s': Group, report: Report, nowUtc: Instant)
    requires WellFormed(s, e) && e.Batch? && IsDue(s, e) && s.due[e.p][e.expected.tf].lookedAt == nowUtc
    requires ReportOf(s.ledgers[e.p], s.cache, Target(e), nowUtc, e.at, e.first, e.second) == report
    requires !report.Succeeded()
    requires
      var (l, cache) := Recorded(s.ledgers[e.p], s.cache, Target(e), report, nowUtc, e.at);
      s' == Group(s.ledgers[e.p := l], s.due[e.p := s.due[e.p] - {e.expected.tf}], cache)
    ensures Did(s, e) == Ran(report, nowUtc) && After(s, e) == s'
  {
  }
}
