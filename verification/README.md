# AurumIQ: verified models of its stateful core

AurumIQ watches spot gold (XAU/USD), ingests closed candles under a daily request budget, evaluates them into
informational decisions, follows live quotes, raises alerts and keeps a fourteen-day paper observation. This project
models the parts that keep state or do arithmetic under concurrency and proves what they keep over every run.
`dafny verify dfyconfig.toml` checks all of it.

| module | subject |
|---|---|
| `UtcTime`, `Wrappers`, `Sums`, `Decimals`, `Sorting` | instants in microseconds, optional values, finite sums, decimal rounding, stable sorting |
| `CandleClock`, `MarketHours`, `CandleGap` | closing times of provider candles, the weekend closure, classification of gaps |
| `RequestLedger`, `CreditProtocol` | the request ledger over one shared cache, and its two daily budgets as a protocol of N processes |
| `Dispatch`, `BatchEffects`, `DispatchRuns` | one dispatched batch with its immediate retry, and runs of looks and batches in N processes |
| `CircuitRuns`, `CircuitExamples` | what one trip of the circuit stops, for how long and for whom, and two runs it does not stop |
| `SuppressionRuns`, `SuppressionBounds`, `RetryBounds` | how often a failing request is repeated, failed retries of a day, and runs that reach or escape the bounds |
| `Scheduler` | whether a timeframe is due, and the recovery plan of a gap |
| `LiveState`, `LiveRuns`, `CloseOrder`, `IncidentRuns`, `RowOrigins` | the live row written by quotes and by the steps of candle tasks and restarts, the close it shows, its alerts, and the candle behind its fields |
| `DecisionWindow` | the candles a decision is taken on and the health they are given |
| `UserAdmin`, `AdminProtocol` | the last-administrator invariant, sequentially and as locking transactions |
| `PaperLedger`, `PaperRuns`, `PaperOrder` | the paper observation's counters, gate and order independence |
| `Drawdown`, `MacroBlackout` | the running drawdown loop and the indexed blackout lookup of the calibration |
| `ProviderOutliers`, `RateNormalization` | median quarantine of providers, point-in-time quote rates |

State that the program updates in place is a class whose methods are proved against a function of the old state; the
theorems about runs are about those functions. Pure code is functions and lemmas. A run is a sequence of states or of
events of any length; processes and transactions are any number, interleaved step by step.

## Where the code differs from what it promises

Each of these is kept as the code has it, with the exact condition under which the promise holds.

- The anchored 4h clock promises a close at or before now. For an anchor ahead of now by whole 4h steps plus a
  fraction of a second it answers up to one second ahead (`CandleClock.AnchoredIsFloorIff`).
- The 4h cold start reads the alignment regime 24 hours before now, not at the candidate close. In the hour from
  midnight UTC after a change to regime 1 it misses the 21:00 close (`CandleClock.ColdStartIsLatestNativeIff`), and
  that hour is the only one in which storing the computed close leaves the timeframe due (`CandleClock.StoringMakesNotDueIff`).
- A closure of exactly 48 hours, the whole weekend, is not recognised as wholly closed (`MarketHours.ChecksMeanWhollyClosed`).
- The credit cap of 200 is checked and recorded in two steps, so N processes can spend up to 200 + N - 1
  (`CreditProtocol.CapIsReached`). A task checks with the time it started: checks for a day made once its cache
  entry has expired see their own process's count only, and two processes spend 399 (`CreditProtocol.LateChecksOverrun`);
  without such checks the cap holds (`CreditProtocol.CreditCap`).
- A task looks at circuit and suppression once for each timeframe, before all of its batches; before a batch only the
  credit cap is checked again. So a batch whose task looked before another process's trip still goes out after it, and
  one whose process holds an expired trip of its own goes out because that hides the shared one. These are the only
  batches until the trip ends, up to 49 hours later, at most one for each other process
  (`CircuitRuns.BatchWhileTrippedIff`, `CircuitRuns.BatchesWhileTripped`, `CircuitRuns.BatchesOverWeekend`,
  `CircuitExamples.StaleLook`, `CircuitExamples.MissedTrip`).
- The trip recorded last decides when the shared circuit closes. A task that looked before the closure and trips after
  one that looked in it cuts a trip to Sunday down to an hour (`CircuitRuns.EarlierLookShortensTrip`).
- The cap of 25 automatic retries counts failed ones only. Of these there are at most 25, or 25 + N - 1 with check and
  record apart (`SuppressionRuns.FailedRetryCap`, `CreditProtocol.CreditCap`); retries that succeed are unbounded by it,
  and a day can have 96 of them (`RetryBounds.SuccessfulRetriesUncounted`).
- A row commit has no guard of its own, so a task overtaken by the task of a later candle puts the earlier candle back
  (`CloseOrder.CloseGoesBackIff`, `CloseOrder.OvertakenCloseGoesBack`).
- For the same reason N processes can send 2N failing batches for one close. With every batch directly after its look
  it is N + 1 (`SuppressionRuns.FailuresBetweenSuccesses`, `SuppressionRuns.FailedRequestBound`; both are reached,
  `SuppressionBounds.TwoEachIsReached`, `SuppressionBounds.PromptBoundIsReached`).
- After a first refusal that is no rate limit a batch sends a second request at once and records one attempt for both,
  so bounds on attempts are doubled in requests (`Dispatch.BatchRequests`).
- Suppression is checked for the expected close and recorded for the end of the batch. A recovery batch that ends
  earlier is never suppressed (`SuppressionBounds.UncheckedBatchesRepeat`, `SuppressionBounds.EarlierBatchesArePlanned`).
- A candle task saves its signal, saves its plan and commits the row in three transactions. A restart in between takes
  the new plan and keeps the old entry zone until the next quote or row commit (`LiveRuns.PendingCommitBreaksZone`),
  and a task that dies in between is never repeated (`LiveRuns.SavedCandleStaysGuarded`).
- A restart reads the newest signal and its plan before it locks the row. A candle committed between those reads and
  the write is overwritten: the row shows the older decision under the newer zone, although nothing was pending when
  the restart began or when it wrote (`LiveRuns.RestartDisturbsIff`, `LiveRuns.OverwritingRestart`). No harm is done
  while each restart begins with the newest signal committed last and no row commit falls before its write
  (`LiveRuns.RestartsFree`).
- A candle delivered twice can be evaluated twice, exactly when the second delivery falls between the first one's
  guard and its signal write (`LiveRuns.AtMostOnceIff`, `LiveRuns.RaceCommitsTwice`).
- Higher quote numbers may carry older source times, and then the stored time goes back (`LiveRuns.SourceTimeDecreasesIff`).
- Locking administrators read before the locks protects the last one only if nobody is promoted unseen in between
  (`AdminProtocol.UnseenPromotionsLoseTheLastAdmin`).
- An audit that finds missing cycles reads its row back and loses the closure count it just made (`PaperLedger.AuditKeepsClosuresIff`, `PaperRuns.AuditLosesAClosure`).
- An observation's fingerprint leaves out its entry and exit, so a pending position never resolves and the position
  counters depend on which observation came first (`PaperRuns.FirstObservationStays`, `PaperOrder.OrderIndependentIff`).
- The paper gate compares observed with expected cycles, which are always equal, and can complete without any
  observation (`PaperRuns.EvaluationCompletesIff`, `PaperRuns.CompletesWithoutObservation`).
- The end of blackout coverage is taken over all schedules, also those announced later (`MacroBlackout.LaterAnnouncementsHarmlessIff`,
  `MacroBlackout.LaterAnnouncementExample`).
- A hole in the decision window of more than fourteen days, or one touching a weekend, does not make it unhealthy
  (`DecisionWindow.HoleExcusedIff`, `DecisionWindow.LongHoleExcused`).
- A price is reported beside a failed check when the only usable rate is over a day old (`RateNormalization.PriceDespiteFailureIff`,
  `RateNormalization.PriceDespiteFailureExample`).

## Model

| member | source | states |
|---|---|---|
| CandleClock.TableDates | apps/market_data/scheduler.py:48-59 | the day numbers of the regime table are its calendar dates |
| CandleClock.GetEmpirical4hRegime | apps/market_data/scheduler.py:62-76 | the forward scan with early exit gives the regime of the last transition reached |
| CandleClock.FixedGridClose | apps/market_data/scheduler.py:111-118 | 15m, 1h and 1d closes are the greatest multiple of the period at or before now |
| CandleClock.AnchoredAlways | apps/market_data/scheduler.py:122-137 | for any anchor the result is congruent to it modulo 4h, less than 4h old and less than 1s ahead |
| CandleClock.AnchoredIsFloorIff | apps/market_data/scheduler.py:136-137 | it is the last grid point at or before now unless the anchor is ahead by 4h steps plus a fraction of a second |
| CandleClock.GridFloorUnique | apps/market_data/scheduler.py:122-137 | there is only one such grid point |
| CandleClock.AnchoredCeilingFails | apps/market_data/scheduler.py:136-137 | one microsecond before its anchor the clock answers the anchor |
| CandleClock.AnchoredByResidue | apps/market_data/scheduler.py:122-137 | on whole seconds the close depends on the anchor only through its residue modulo 4h |
| CandleClock.AnchoredFixedPoint | apps/market_data/scheduler.py:510-519 | anchoring on the close just returned returns it again |
| CandleClock.TransitionIsNative | apps/market_data/scheduler.py:48-59 | every transition instant is itself a close of the regime it starts |
| CandleClock.ColdStartRecent | apps/market_data/scheduler.py:139-152 | the cold start is never ahead of now and less than 5h old |
| CandleClock.SameDayIsLatestNative | apps/market_data/scheduler.py:143-146 | the same-day branch returns the latest close of the regimes in force |
| CandleClock.PreviousDayIsLatestNative | apps/market_data/scheduler.py:147-152 | so does the previous-day branch when the regime 24h earlier is the present one |
| CandleClock.StaleRegimeMissesAClose | apps/market_data/scheduler.py:148-152 | otherwise it returns 20:00 although 21:00 was a close |
| CandleClock.ColdStartIsLatestNativeIff | apps/market_data/scheduler.py:139-152 | the cold start is the latest native close exactly outside the hour that reads the stale regime |
| CandleClock.StaleRegimeExample | apps/market_data/scheduler.py:50-50 | that hour exists: midnight of 2021-04-06 |
| CandleClock.StoringMakesNotDueIff | apps/market_data/scheduler.py:510-519 | storing the expected close makes the same instant not due, except after a cold start in that hour |
| CandleClock.NextReopenIsFirst | apps/market_data/scheduler.py:79-91 | the reopen is the first Sunday 22:00 UTC strictly after the instant, at most a week ahead |
| MarketHours.ClosedByPhase | engine/paper/continuity.py:11-40 | the closure is one window of 48 hours in every week |
| MarketHours.IsIntervalClosed | engine/paper/continuity.py:43-85 | the end checks and 15-minute samples decide, and an empty interval is an error |
| MarketHours.ChecksMeanWhollyClosed | engine/paper/continuity.py:43-85 | on whole seconds they recognise exactly the wholly closed intervals other than the full 48 hours |
| MarketHours.FullClosureMissed | engine/paper/continuity.py:65-67 | the full closure is not recognised |
| RequestLedger.CandleRequestLedger.Suppressed | apps/market_data/scheduler.py:196-207 | a request is suppressed by the process's own flag or a live cache entry |
| RequestLedger.CandleRequestLedger.Record | apps/market_data/scheduler.py:209-261 | dictionaries and cache after an attempt: success clears and resets, the second failure suppresses, only failed retries are counted |
| RequestLedger.CandleRequestLedger.IsCircuitOpen | apps/market_data/scheduler.py:267-295 | verdict and state of the three ways to look at the circuit, with the half-open reset |
| RequestLedger.CandleRequestLedger.Trip | apps/market_data/scheduler.py:297-338 | a trip opens the circuit locally and in the cache until its end |
| RequestLedger.CandleRequestLedger.Reset | apps/market_data/scheduler.py:340-347 | a reset clears both |
| RequestLedger.CandleRequestLedger.CanConsumeAutomaticCredit | apps/market_data/scheduler.py:353-369 | fewer than 200 credits counted, by the cache if it has an entry |
| RequestLedger.CandleRequestLedger.RecordAutomaticCreditConsumed | apps/market_data/scheduler.py:371-384 | the local count, and the cache incremented or created with the local count |
| RequestLedger.CandleRequestLedger.CanConsumeRetryCredit | apps/market_data/scheduler.py:401-420 | both budgets have room |
| CircuitRuns.WeekendTripEnd | apps/market_data/scheduler.py:313-320 | a trip in the weekend window ends at Sunday 22:00 UTC, one hour after the window |
| CircuitRuns.TripLength | apps/market_data/scheduler.py:310-331 | every trip lasts between one and 49 hours |
| CircuitRuns.OwnTripHolds | apps/market_data/scheduler.py:274-281 | the tripping process sees its circuit open exactly until the end |
| CircuitRuns.TripIsLocalToTimeframe | apps/market_data/scheduler.py:324-331 | a trip changes no other timeframe's verdict |
| CircuitRuns.SuccessCloses | apps/market_data/scheduler.py:221-228 | a success closes the circuit for the process and in the cache |
| CircuitRuns.LookAnswers | apps/market_data/scheduler.py:267-295 | a process with a trip of its own goes by that alone, any other by the cache where both entries must answer, and a look past the end clears the trip it went by |
| CircuitRuns.SharedTripSeenIff | apps/market_data/scheduler.py:274-331 | another process sees the trip until its shared end exactly when it holds no expired trip of its own |
| CircuitRuns.SharedEndBounds | apps/market_data/scheduler.py:313-331 | that end is less than a second before the trip's, the timeout being whole seconds, and the same when recorded a second after the look |
| CircuitRuns.SharedTripEnd | apps/market_data/scheduler.py:274-331 | a process with no trip of its own sees the trip up to exactly that end |
| CircuitRuns.EarlierLookShortensTrip | apps/market_data/scheduler.py:297-338 | a trip by a task that looked ten seconds before the closure ends an earlier one to Sunday for the others within the hour |
| CircuitRuns.TripsIffNoData | apps/market_data/tasks.py:788-799 | the trips of a run are exactly the due batches that found no data by their answers |
| CircuitRuns.NoDataOpensCircuit | apps/market_data/scheduler.py:297-338 | such a batch leaves the circuit open for its process to the end of the trip and in the cache to its shared end |
| CircuitRuns.LookWhileTrippedIff | apps/market_data/scheduler.py:267-347 | in every run of N processes sharing the cache, from a batch that found no data until its shared trip ends, up to 49 hours later, and before a success, the circuit lets a look at the timeframe through exactly if its process still holds an expired trip of its own |
| CircuitRuns.BatchWhileTrippedIff | apps/market_data/tasks.py:688-799 | in that time a batch of the timeframe sends a request exactly if credit is left and its task looked for its close either before the no-data batch and found it due, or since and while holding an expired trip of its own with the close wanted, nothing having ended that work in between |
| CircuitRuns.AtMostOncePerProcess | apps/market_data/tasks.py:688-799 | in that time the process that tripped sends no other batch of the timeframe and each other process at most one |
| CircuitRuns.BatchesWhileTripped | apps/market_data/tasks.py:688-799 | so N processes send at most N - 1 |
| CircuitRuns.BatchesAfterNoData | apps/market_data/tasks.py:688-799 | the same from a due batch that found no data, if no later trip is by a task that looked earlier |
| CircuitRuns.BatchesOverWeekend | apps/market_data/scheduler.py:313-331 | in particular from a trip in the weekend closure up to a second before the reopen on Sunday 22:00 UTC, if no later trip is by a task that looked earlier |
| CircuitRuns.BatchesWithinHour | apps/market_data/scheduler.py:313-331 | and after any trip in the hour from its task's look |
| CircuitRuns.OwnBatchesAnHourApart | apps/market_data/tasks.py:688-799 | after a no-data batch its process sends no batch of the timeframe before the trip ends, an hour or more after its task looked, whatever others do, successes included, and however many batches a task has |
| CircuitExamples.StaleLook | apps/market_data/tasks.py:688-733 | a run in which a batch goes out a minute after another process's no-data batch, the circuit being open to its process, as its task had looked before |
| CircuitExamples.MissedTrip | apps/market_data/scheduler.py:274-281 | a run in which a batch goes out a minute after another process's no-data batch, as its look met an expired trip of its own process |
| Dispatch.Dispatcher.RunBatch | apps/market_data/tasks.py:725-799 | requests sent, attempt recorded, credits charged and circuit tripped by one batch, in the order of the loop; it trips exactly if the provider has no data by its answers |
| Dispatch.BatchOutcome | apps/market_data/tasks.py:725-799 | from the answers and the budgets before: nothing goes out exactly without credit, two requests after a refusal that is no rate limit with a retry allowed, success with a delivery, and a trip when a first refusal that is no rate limit says no data and no retry is allowed, or the retry is refused too and one of the two says so |
| Dispatch.BatchRequests | apps/market_data/tasks.py:725-799 | at most two requests and one recorded attempt; the second only after a refusal that is no rate limit, within the retry budget, for a close not suppressed |
| Dispatch.BatchCharges | apps/market_data/tasks.py:732-774 | one credit for each request, the retry included |
| CreditProtocol.CreditCap | apps/market_data/scheduler.py:353-420 | for either budget, with check and record as separate steps of N processes, and checks made for a time taken earlier, a UTC day for which no check is made once its cache entry has expired never costs more than 200 + N - 1 credits nor counts more than 25 + N - 1 retries |
| CreditProtocol.CreditsReadExactly | apps/market_data/scheduler.py:386-435 | while a day lasts every process reads exactly the total of all, of credits as of counted retries, and that is within the cap |
| CreditProtocol.AloneCap | apps/market_data/scheduler.py:353-420 | a single process never spends more than 200 of a day nor counts more than 25 retries, however late its checks |
| CreditProtocol.LateChecksOverrun | apps/market_data/scheduler.py:359-369 | late checks break the cap: a run of two or more processes spends 399 credits of one day |
| CreditProtocol.CapIsReached | apps/market_data/scheduler.py:353-384 | some run of N processes spends 200 + N - 1 |
| CreditProtocol.ChargeCountsOne | apps/market_data/scheduler.py:371-384 | charging a credit is a record step of the credit budget and leaves the retry budget alone |
| CreditProtocol.FailedRetryCountsOne | apps/market_data/scheduler.py:230-245 | a failed retry is a record step of the retry budget |
| CreditProtocol.AttemptKeepsCounters | apps/market_data/scheduler.py:209-261 | any other attempt, a retry that succeeded included, changes no counter |
| CreditProtocol.CircuitKeepsCounters | apps/market_data/scheduler.py:267-338 | nor does tripping or looking at a circuit |
| CreditProtocol.OtherOperationsAreSteps | apps/market_data/scheduler.py:196-347 | so every other ledger operation is a step of the protocol |
| SuppressionRuns.FailuresBetweenOwnSuccesses | apps/market_data/scheduler.py:196-261 | between its own successes, with no limit in time, a process sends at most 2 failing batches for a close it checks, those recorded before included, whatever the others do, successes included |
| SuppressionRuns.FailuresBetweenSuccesses | apps/market_data/scheduler.py:196-261 | so N processes send at most 2N failing batches between successes, which are at most 4N requests |
| SuppressionRuns.FailedRequestBound | apps/market_data/scheduler.py:196-261 | from any state, N processes each of whose failing batches directly follows its look send at most N + 1 of them, so 2(N + 1) failing requests, in 24 hours without a success |
| SuppressionRuns.SuccessForgives | apps/market_data/scheduler.py:221-255 | after a success nobody without a flag of his own is suppressed, and again the second failure suppresses and not the first |
| SuppressionRuns.RetryCounterExact | apps/market_data/scheduler.py:234-244 | while a UTC day lasts every process reads the number of failed batches of its tasks recorded as retries |
| SuppressionRuns.FailedRetryCap | apps/market_data/scheduler.py:230-245 | with a batch as one step at most 25 batches of the tasks of a UTC day fail a retry, if none does once the day's cache entry has expired |
| RetryBounds.SuccessfulRetriesUncounted | apps/market_data/scheduler.py:221-229 | a process can retry up to 96 closes of one day with success, none of them counted |
| SuppressionBounds.TwoEachIsReached | apps/market_data/tasks.py:688-799 | some run of N processes sends 2N failing batches for a close each of them checked |
| SuppressionBounds.PromptBoundIsReached | apps/market_data/scheduler.py:196-261 | some run of batches directly after their looks sends N + 1, with one request each or with two |
| SuppressionBounds.UncheckedBatchesRepeat | apps/market_data/tasks.py:725-799 | one process that looks every minute for the daily close sends batches that end at another close until the day's credits are spent |
| SuppressionBounds.EarlierBatchesArePlanned | apps/market_data/scheduler.py:637-650 | such batches are planned: the first for 52 missing days ends 32 days before the expected close |
| Scheduler.ClosedCandleScheduler.EvaluateTimeframe | apps/market_data/scheduler.py:480-542 | the verdict, its reason, and the ledger afterwards |
| Scheduler.DueMeans | apps/market_data/scheduler.py:480-542 | a due close is newer than the stored one, at least 20s in the past, not suppressed, with the circuit closed and credit left |
| Scheduler.VerdictIff | apps/market_data/scheduler.py:480-541 | on whole seconds the verdict is due exactly with the circuit closed, credit left, a new close, a bar not wholly in the closure for XAU/USD and no suppression, and otherwise names the first of these that fails |
| Scheduler.ClosedBarIsNotDue | apps/market_data/scheduler.py:522-536 | a close whose bar lies wholly in the closure is never due for XAU/USD |
| Scheduler.BarIsClockStep | apps/market_data/scheduler.py:26-31 | from a close on, the clock stays for one bar and moves on by one bar, on every grid |
| Scheduler.StoredIsNotDue | apps/market_data/scheduler.py:510-519 | once stored, the same instant is not due, whatever ledger and cache hold, outside the stale hour |
| Scheduler.ClosedCandleScheduler.PlanRecoveryBatches | apps/market_data/scheduler.py:589-650 | no batch, one of the two bars that end at the expected close, or bounded batches tiling the gap and adding up to the missing bars |
| Scheduler.NeedsBatchesIff | apps/market_data/scheduler.py:622-636 | batches are planned exactly for gaps of three bars or more that span neither a weekend nor the daily break |
| CandleGap.GapClasses | apps/dashboard/api.py:126-168 | exactly which gaps count as a market closure, as missing data, and as a shift of the 4h grid |
| Scheduler.RecoveryPlanExact | apps/market_data/scheduler.py:637-650 | such batches start at the stored close, end within a bar of the expected close, are chronological, and are the ceiling quotient in number |
| LiveState.LiveMonitor.ProcessQuote | apps/live_monitor/services.py:101-249 | the whole row and alert table after a quote, its errors, and whether it was accepted |
| LiveState.FreshIff | apps/live_monitor/services.py:123-143 | a quote is fresh exactly with both thresholds configured, its source time at most the skew ahead of receipt, and the present at most the allowed age behind it |
| LiveState.StaleStaysStale | apps/live_monitor/services.py:136-143 | a stale quote is stale at every later time and under every stricter threshold |
| LiveState.LiveMonitor.ZoneOfQuote | apps/live_monitor/services.py:181-215 | zone and distance by ask for LONG and bid for SHORT |
| LiveState.ZoneOfPrice | apps/live_monitor/services.py:181-215 | inside, above or below by ask for LONG and bid for SHORT, the distance in percent of the nearer bound to the hundredth |
| LiveState.NoZoneIff | apps/live_monitor/services.py:181-190 | there is no zone exactly without validity, eligibility, a range, or a side of the plan or its action |
| LiveState.LiveMonitor.EvaluateQuoteAlerts | apps/alerts/services.py:206-334 | incident flags and alerts of one quote |
| LiveState.LiveMonitor.TrackIncident | apps/alerts/services.py:212-260 | an alert on the rising edge only, the flag equal to the condition |
| LiveState.LiveMonitor.RaiseZoneAlerts | apps/alerts/services.py:278-334 | zone and invalidation alerts of a quote that passed the gate |
| LiveState.LiveMonitor.CreateOrGet | apps/alerts/services.py:409-423 | an id already present adds nothing |
| LiveState.LiveMonitor.CommitClosedCandle | apps/live_monitor/services.py:970-1089 | the row after the row transaction of a candle: its close, fingerprint, hard gate and provider health among its fields |
| LiveState.LiveMonitor.SaveSignal | apps/live_monitor/services.py:834-839 | the signal record is created once for a fingerprint |
| LiveState.LiveMonitor.SavePlan | apps/live_monitor/services.py:869-913 | the plan record of a signal is created once, if there is a plan |
| LiveState.RecordsStay | apps/live_monitor/services.py:834-913 | signals and plans are created once: what is stored for a fingerprint stays as it is |
| LiveState.LiveMonitor.ProcessClosedCandle | apps/live_monitor/services.py:440-1089 | an uninterrupted candle: guard, signal, plan and row |
| LiveState.LiveMonitor.ZoneOfPlan | apps/live_monitor/services.py:1001-1028 | zone and distance of the new plan at the last quote |
| LiveState.LiveMonitor.Reconstruct | apps/live_monitor/services.py:1921-2062 | the row rebuilt from the newest durable signal and its plan, when nothing comes in between |
| LiveState.NewestAfterSave | apps/live_monitor/services.py:1927-1931 | the newest signal is that of the latest candle, and of one candle the record saved last |
| LiveState.LiveMonitor.FindPlan | apps/live_monitor/services.py:1934-1937 | the plan a restart reads for the signal it has read, before it locks the row |
| LiveState.LiveMonitor.Restore | apps/live_monitor/services.py:1966-2061 | the decision fields a restart then writes, with the old zone kept |
| LiveRuns.PathsAgreeIff | apps/live_monitor/services.py:1001-1028 | both paths compute one zone function exactly when an active plan carries its side |
| LiveRuns.ZoneConsistentWhenSettled | apps/live_monitor/services.py:217-231 | in every interleaving of quotes and of the steps of candle tasks and restarts, dead ones included, the stored zone is that of the stored plan and quote, except from the write of a restart that changes the plan's terms to the next accepted quote or row commit |
| LiveRuns.CommitRepairsZone | apps/live_monitor/services.py:1001-1087 | a row commit makes the zone right whatever it was, a pending one after a restart included |
| LiveRuns.QuoteRepairsZone | apps/live_monitor/services.py:181-231 | so does an accepted quote |
| LiveRuns.RestartDisturbsIff | apps/live_monitor/services.py:1927-2061 | the write of a restart changes the zone terms of the row exactly when the plan the row last took, from a commit or another restart, differs in them from the plan that was stored, when the restart looked for it, for the signal newest when it began |
| LiveRuns.OverwritingBegins | apps/live_monitor/services.py:1927-1966 | the failing run: nothing is pending and the zone is right when the restart reads |
| LiveRuns.OverwritingRestart | apps/live_monitor/services.py:1966-2061 | nor when it writes, and afterwards the row shows the older candle under the zone of the newer one |
| LiveRuns.OverwritingExample | apps/live_monitor/services.py:1927-2061 | a quote and two candles for which that happens |
| LiveRuns.RestartsFree | apps/live_monitor/services.py:1921-2062 | while each restart begins with the newest signal committed last and no row commit falls between its first read and its write, the zone is right in every state |
| LiveRuns.RestartKeepsZoneIff | apps/live_monitor/services.py:2002-2061 | a restart keeps the zone right for every last quote exactly when the plan it read and the row's agree on activity, side and range |
| LiveRuns.PendingCommitBreaksZone | apps/live_monitor/services.py:834-1089 | one candle whose row commit is pending during a restart: the zone is wrong after the restart and right after the commit |
| LiveRuns.PendingCommitExample | apps/live_monitor/services.py:834-1089 | a quote and a plan for which that happens |
| LiveRuns.SavedCandleStaysGuarded | apps/live_monitor/services.py:440-462 | once a candle's signal is saved no later delivery of the candle passes the guard, so a lost row commit is never made up for |
| LiveRuns.AtMostOnceIff | apps/live_monitor/services.py:438-839 | a candle is evaluated at most once exactly when it never passes the guard while another task for it is between guard and signal write |
| LiveRuns.RaceCommitsTwice | apps/live_monitor/services.py:440-1089 | two deliveries of one candle that both pass the guard both commit the row |
| LiveRuns.OwnedFields | apps/live_monitor/services.py:217-231 | a quote writes no decision field or durable record, every other event no quote field |
| LiveRuns.RunHoldsHighest | apps/live_monitor/services.py:160-169 | with distinct numbers the row holds the quote of the highest number delivered |
| LiveRuns.DeliveryOrderIrrelevant | apps/live_monitor/services.py:160-231 | runs delivering the same set of numbered quotes end with the same bid, ask, times and number |
| LiveRuns.RedeliveredInRun | apps/live_monitor/services.py:161-169 | in every distinctly numbered run, delivering any earlier quote again leaves the whole store as it is |
| LiveRuns.SourceTimeDecreasesIff | apps/live_monitor/services.py:160-179 | the stored source time goes back exactly when a higher number carries an older time |
| LiveRuns.SourceTimeGoesBack | apps/live_monitor/services.py:160-179 | two quotes after which it has gone back |
| LiveRuns.UnsequencedSourceMonotone | apps/live_monitor/services.py:171-179 | without numbers it never goes back |
| CloseOrder.ShowsLastPut | apps/live_monitor/services.py:971-1087 | in every run the row shows the close that a row commit or a restart wrote last |
| CloseOrder.CloseGoesBackIff | apps/live_monitor/services.py:971-1087 | the close shown goes back exactly when a task of an earlier candle commits the row, or a restart writes it that began with signals of earlier candles only |
| CloseOrder.CloseNeverGoesBackIff | apps/live_monitor/services.py:971-2061 | it never goes back exactly when the closes written ascend |
| CloseOrder.OvertakenCloseGoesBack | apps/live_monitor/services.py:834-1087 | a run in which the task of the later candle commits first |
| IncidentRuns.QuoteEffect | apps/alerts/services.py:190-334 | exactly which alert ids an accepted quote adds, and the flags it leaves |
| IncidentRuns.OtherEventsKeepIncidents | apps/live_monitor/services.py:988-991 | commits, restarts and refused quotes keep alerts and incident flags |
| IncidentRuns.OneAlertPerRisingEdge | apps/alerts/services.py:206-265 | in every run alert ids are distinct, the flags are those of the last accepted quote, and incident alerts are one per second with a rising edge |
| IncidentRuns.ZoneAlertsWereDue | apps/alerts/services.py:267-334 | every zone or invalidation alert was due for a fresh, healthy, ungated quote |
| RowOrigins.RowShowsLastWritten | apps/live_monitor/services.py:1029-1089 | in every run the row shows the close, fingerprint, hard gate, plan and primary health that its last commit or restart carried |
| RowOrigins.RowShowsLastQuote | apps/live_monitor/services.py:160-249 | in every run the row shows the last quote accepted: prices, both times, number and staleness |
| RowOrigins.RowComesFromCandle | apps/live_monitor/services.py:834-1089 | close, fingerprint and hard gate are those one delivered candle was evaluated to, and the plan is one evaluated with that fingerprint |
| RowOrigins.AlertsFollowLastWritten | apps/alerts/services.py:267-334 | in every run an accepted quote adds a zone or invalidation alert exactly if it is fresh, the primary written last is healthy, the decision written last is not hard gated, and the quote is in the range or at the stop of its valid and eligible plan |
| RowOrigins.GateSilences | apps/alerts/services.py:268-276 | none is added while the decision written last was hard gated or its primary not healthy |
| DecisionWindow.GetEngineCandles | apps/live_monitor/services.py:308-368 | one candle per eligible close, of highest id, in strictly ascending order, each from a closed row of a listed source up to the decision, and none of those closes missing; nothing without a primary listing |
| DecisionWindow.WindowShowsTable | apps/live_monitor/services.py:335-349 | on the table's own fields: every candle is that of the highest id among closed rows of listed sources with its close, and every such close up to the decision is there |
| DecisionWindow.WindowOfSet | apps/live_monitor/services.py:336-354 | the window depends only on the set of rows |
| DecisionWindow.WindowEndsByDecision | apps/live_monitor/services.py:336-345 | no candle of it closes after the decision |
| DecisionWindow.DecisionCandles | apps/live_monitor/services.py:466-517 | the incoming candle is appended exactly when the primary sent it and none is stored for its close, keeping order and bound; everything else is a closed row of a listed source |
| DecisionWindow.FindHole | apps/live_monitor/services.py:519-531 | the loop finds an intrasession gap of over 22.5 minutes exactly when there is one |
| DecisionWindow.GatherEvidence | apps/live_monitor/services.py:519-786 | the 15m feed is HEALTHY exactly with candles, no hole, no staleness, and a primary recorded healthy that the caller does not contradict |
| DecisionWindow.MergeIsWorse | apps/live_monitor/services.py:758-786 | of market and provider health the worse one is reported |
| DecisionWindow.CallerOnlyWorsens | apps/live_monitor/services.py:588-612 | a caller can make a healthy primary worse and change nothing else |
| DecisionWindow.HoleExcusedIff | apps/dashboard/api.py:126-168 | exactly which gaps over 22.5 minutes healthy evidence may contain |
| DecisionWindow.LongHoleExcused | apps/dashboard/api.py:140-141 | a window with one day missing has a hole and one with fifteen days missing has none |
| UserAdmin.UserStore.DisableUserSafely | apps/accounts/services.py:57-109 | users, audit log and answer of the enable/disable operation; disabling one's own active account is refused and changes nothing |
| UserAdmin.UserStore.UpdateUserRoleSafely | apps/accounts/services.py:112-176 | users, audit log and answer of the role change |
| UserAdmin.RefusedIffLastAdmin | apps/accounts/services.py:35-54 | a change is refused exactly when it would take away the last effective administrator |
| UserAdmin.OwnAccountRefusedIff | apps/accounts/services.py:76-77 | exactly a toggle of one's own active account is refused as such, and leaves users and log alone |
| UserAdmin.OnlyTargetChanges | apps/accounts/services.py:79-109 | no user appears, vanishes or changes but the target, and that only as asked |
| UserAdmin.NobodyDisablesHimself | apps/accounts/services.py:76-77 | in every serial run an account active at first and disabled at the end was toggled by somebody else |
| UserAdmin.ApplyKeepsAdmin | apps/accounts/services.py:35-54 | an operation leaves an administrator where there was one |
| UserAdmin.SerialRunKeepsAdmin | apps/accounts/services.py:57-176 | so does any sequence of operations run one at a time |
| UserAdmin.AuditReplaysToPresent | apps/accounts/services.py:98-106 | replaying the audit log on the first table gives the present one |
| UserAdmin.AuditTells | apps/accounts/services.py:98-106 | there is an entry exactly for a change, and it names actor, target and the values before and after |
| AdminProtocol.NoCircularWait | apps/accounts/services.py:67-70 | locking in ascending id rules out waiting cycles of every length |
| AdminProtocol.SomeoneCanAct | apps/accounts/services.py:67-70 | every unfinished transaction can act or waits for one that can |
| AdminProtocol.LocksAlwaysHold | apps/accounts/services.py:67-70 | in every run no row has two holders and held ids are below awaited ones |
| AdminProtocol.NoDeadlock | apps/accounts/services.py:66-70 | no reachable state is a deadlock |
| AdminProtocol.AdminAlwaysRemains | apps/accounts/services.py:42-54 | some administrator remains in every reachable state while any two transactions in flight lock a common row |
| AdminProtocol.AdminRemainsWithoutUnseenPromotion | apps/accounts/services.py:66-109 | it is enough that nobody is promoted between another transaction's first read and its end without being on its lock list |
| AdminProtocol.CommitCarriesOut | apps/accounts/services.py:66-109 | in every interleaving a commit changes the target's row only, to what the request asks of the row as it then is |
| AdminProtocol.DisabledBySomebodyElse | apps/accounts/services.py:76-77 | in every interleaving an account is disabled only by the commit of a toggle somebody else asked for |
| AdminProtocol.AloneIsSequential | apps/accounts/services.py:57-176 | a transaction left alone has the effect of the sequential operation |
| AdminProtocol.UnseenPromotionsLoseTheLastAdmin | apps/accounts/services.py:68-70 | without that condition a run loses the last administrator |
| PaperLedger.Phase8PaperService.RecordInterruption | apps/live_monitor/paper_service.py:129-161 | row and interruption log; a failure counts twice and interrupts |
| PaperLedger.InterruptionEffect | apps/live_monitor/paper_service.py:142-159 | a missed interval or operational fault outside the weekly closure counts one error and one failure and interrupts, any other interruption changes nothing |
| PaperLedger.IdleCycleOpensIff | apps/live_monitor/paper_service.py:369-384 | an idle cycle opens a window exactly in the closure and if none is open |
| PaperLedger.Phase8PaperService.ProcessObservation | apps/live_monitor/paper_service.py:164-322 | row and records after an observation, a known fingerprint counting as duplicate only |
| PaperLedger.DayProgressMeans | apps/live_monitor/paper_service.py:265-276 | whole days elapsed and the running day, which stops at the fourteenth |
| PaperLedger.ObservationShowsDay | apps/live_monitor/paper_service.py:257-276 | an observation, also a known one, brings the day up to date |
| PaperLedger.EvaluationCases | engine/paper/continuity.py:191-215 | not started exactly without a window, observing exactly in a started one of under fourteen days with no failure or missing cycle, interrupted by these |
| PaperLedger.Phase8PaperService.StepCycle | apps/live_monitor/paper_service.py:325-408 | which operation a cycle amounts to and what it logs, with and without a signal, in open and closed markets |
| PaperLedger.Phase8PaperService.CountCloses | apps/live_monitor/paper_service.py:438-466 | the loop counts closures, and open closes past grace without observation, since the window start |
| PaperLedger.ClosureCountMeans | apps/live_monitor/paper_service.py:438-466 | its closures are the closes since the start that lie in a weekly closure |
| PaperLedger.MissingCountMeans | apps/live_monitor/paper_service.py:438-466 | its missing cycles are the closes in open markets past grace that no record was observed at |
| PaperLedger.Phase8PaperService.AuditContinuity | apps/live_monitor/paper_service.py:411-505 | the row after an audit |
| PaperLedger.AuditKeepsClosuresIff | apps/live_monitor/paper_service.py:468-481 | the closure counter is brought up to the count exactly when the audit does not also report missing cycles |
| PaperLedger.AuditKeepsObservedIff | apps/live_monitor/paper_service.py:429-494 | the observed cycles are brought up to the records kept exactly when the audit does not also report missing cycles |
| PaperLedger.SecondAuditRecovers | apps/live_monitor/paper_service.py:468-494 | a second audit makes up for the loss and a third changes nothing |
| PaperRuns.RunIsConsistent | apps/live_monitor/paper_service.py:255-320 | in every run each counter is the number of kept records of its kind |
| PaperRuns.CountersBalance | apps/live_monitor/paper_service.py:278-309 | calls = evaluated + duplicates, closed = resolved, opened plus exits without entry = closed + pending |
| PaperRuns.RecordsAreFingerprints | apps/live_monitor/paper_service.py:211-212 | the records are the distinct fingerprints observed |
| PaperRuns.FirstObservationStays | apps/live_monitor/paper_service.py:278-287 | the first observation of a fingerprint is never changed |
| PaperRuns.AuditLosesAClosure | apps/live_monitor/paper_service.py:468-481 | a run whose audit counts a closure and a missing cycle and keeps only the latter |
| PaperRuns.EvaluationCompletesIff | engine/paper/continuity.py:176-230 | in reachable states the gate completes exactly at fourteen days without failure or missing cycle, if fresh or closed |
| PaperRuns.CompletesWithoutObservation | engine/paper/continuity.py:218-230 | it can complete without any observation |
| PaperRuns.BlockedForever | apps/live_monitor/paper_service.py:155-159 | a failure or missing cycle in a started window blocks completion for good |
| PaperRuns.FailureForbidsComplete | apps/live_monitor/paper_service.py:145-159 | so does one failure recorded after the start |
| PaperRuns.IdleCycleForbidsComplete | apps/live_monitor/paper_service.py:386-391 | so does one idle cycle in an open market after the start |
| PaperRuns.EarlyFailuresForgivenIff | apps/live_monitor/paper_service.py:257-263 | failures before the start are forgiven by an observation that opens the window and not by an idle cycle |
| PaperLedger.OpeningForgives | apps/live_monitor/paper_service.py:257-263 | the observation that opens the window starts it without errors or failures |
| PaperRuns.CompleteIsEarned | engine/paper/continuity.py:206-230 | COMPLETE was given by an evaluation at least fourteen days into the window |
| PaperOrder.RunTally | apps/live_monitor/paper_service.py:278-309 | counters of a run are those of its observations, whatever came in between |
| PaperOrder.FingerprintsDecideSides | apps/live_monitor/paper_service.py:289-300 | evaluated, buy and sell counts depend on the set of fingerprints alone |
| PaperOrder.OrderIndependentIff | engine/paper/fingerprint.py:36-49 | all counters ignore order and repetition exactly when no fingerprint was observed with two outcomes |
| Drawdown.RunningDrawdown | scripts/run_xauusd_calibration.py:328-340 | the loop returns the largest fall from an earlier to a later point of the curve, starting at zero |
| Drawdown.MaxDrawdownUnique | scripts/run_xauusd_calibration.py:328-340 | there is one such value |
| Drawdown.MeasureDrawdowns | scripts/run_xauusd_calibration.py:285-414 | the three drawdowns of filled, buy and sell trades, the first at most the sum of the others |
| Drawdown.FilledKeeps | scripts/run_xauusd_calibration.py:284-293 | the trades measured are those with a fill that came to an outcome, each as often as it was there |
| Drawdown.CombinedAtMostSides | scripts/run_xauusd_calibration.py:294-295 | with neutral trades, at most the sum of the three parts |
| Drawdown.SideBoundIsReached | scripts/run_xauusd_calibration.py:294-295 | for all buys and sells some interleaving falls by exactly the sum |
| MacroBlackout.BisectLeft | scripts/run_xauusd_calibration.py:901-901 | the index separates smaller starts from the others |
| MacroBlackout.BisectRight | scripts/run_xauusd_calibration.py:902-902 | the index separates starts up to the value from larger ones |
| MacroBlackout.FirstActive | scripts/run_xauusd_calibration.py:903-910 | an event is named exactly when one is active, and it is the first in schedule order |
| MacroBlackout.LookUp | scripts/run_xauusd_calibration.py:901-910 | the scan limited by bisection is the scan over all schedules |
| MacroBlackout.MacroEvents | scripts/run_xauusd_calibration.py:875-918 | one verdict per candle, unhealthy outside coverage, none without schedules |
| MacroBlackout.VerdictMeans | scripts/run_xauusd_calibration.py:889-918 | healthy from the first announcement to half an hour after the last release, and then in a blackout exactly within half an hour of an announced release, named by the first such |
| MacroBlackout.SameEvidenceSameVerdictIff | scripts/run_xauusd_calibration.py:889-899 | schedules that agree on what was known agree on a verdict exactly when their coverage does |
| MacroBlackout.LaterAnnouncementsHarmlessIff | scripts/run_xauusd_calibration.py:889-899 | later announcements leave a verdict alone exactly when there are none or the others cover the candle or do not begin before it |
| MacroBlackout.LaterAnnouncementExample | scripts/run_xauusd_calibration.py:889-899 | two schedules of which the later announced one turns an earlier verdict healthy |
| ProviderOutliers.EvaluateProviderOutliers | apps/market_data/integrity.py:192-277 | every field of the evaluation for none, two, or other numbers of sources |
| ProviderOutliers.MedianOfAnyOrder | apps/market_data/integrity.py:245-245 | the median does not depend on the order of providers |
| ProviderOutliers.MajorityHoldsMedian | apps/market_data/integrity.py:245-245 | a strict majority inside a range holds the median inside it |
| ProviderOutliers.MajorityPrevails | apps/market_data/integrity.py:245-277 | for every limit, while a strict majority agrees within it all of it stays valid and every price clearly outside is quarantined |
| ProviderOutliers.HalfIsNotEnough | apps/market_data/integrity.py:245-277 | exactly half of the sources agreeing can all be quarantined |
| ProviderOutliers.PartitionsProviders | apps/market_data/integrity.py:249-266 | each provider is in exactly one of the two lists, by its own recorded deviation |
| ProviderOutliers.ForceWaitIff | apps/market_data/integrity.py:268-277 | all must wait exactly when the two middle prices differ by more than the limit of their sum |
| ProviderOutliers.OddNeverWaits | apps/market_data/integrity.py:268-277 | an odd number of sources never waits |
| ProviderOutliers.PairWaitsIff | apps/market_data/integrity.py:213-241 | two sources wait exactly when both are positive and differ by more than the limit of the smaller |
| ProviderOutliers.PairEvaluation | apps/market_data/integrity.py:213-241 | of two sources none is quarantined, each deviates by half their divergence relative to the lower price, and both are valid or both wait |
| ProviderOutliers.NothingToCompare | apps/market_data/integrity.py:206-266 | nothing is reported without sources, and without a positive median nothing is quarantined |
| Sorting.SortIsStable | apps/market_data/normalization.py:107-107 | the sort keeps elements of one key in their order |
| RateNormalization.FoundIsLatest | apps/market_data/normalization.py:80-121 | a rate is found exactly when one is usable, and it is positive, not in the future and the latest |
| RateNormalization.NoLookahead | apps/market_data/normalization.py:166-212 | entries after the candle never change the check |
| RateNormalization.ChoiceIgnoresOrderIff | apps/market_data/normalization.py:107-108 | the choice ignores order and repetition exactly when rates of the latest instant agree |
| RateNormalization.PitPassesIff | apps/market_data/normalization.py:166-212 | the check passes exactly with a usable rate of the last 24 hours whose latest keeps the peg |
| RateNormalization.StaleAndWarningIff | apps/market_data/normalization.py:91-121 | a check is stale exactly without a usable rate as recent as the caller or the configuration asks and of the last 24 hours, and warns exactly if stale or off the peg by either limit |
| RateNormalization.PassingPrice | apps/market_data/normalization.py:123-164 | a passing price is the rounded product with a positive rate at most 24 hours old within the critical deviation |
| RateNormalization.PassingPriceIsClose | apps/market_data/normalization.py:149-149 | it is within the critical deviation of the raw price plus half a unit of the eighth decimal |
| Decimals.RoundsHalfEven | apps/market_data/normalization.py:149-149 | rounding takes the nearest multiple, and of two the even one |
| RateNormalization.PriceDespiteFailureIff | apps/market_data/normalization.py:199-212 | a price is reported beside a failure exactly when the latest rate keeps the peg but is too old |
| RateNormalization.PriceDespiteFailureExample | apps/market_data/normalization.py:199-212 | one rate for which that happens |

## Left out

- Scheduler.ClosedCandleScheduler.PlanRecoveryBatches: asks for a batch size of at least 1 where batches are planned; with a smaller one the loop of the original never ends there.
- DecisionWindow.GetEngineCandles: takes the stored rows in the order of the query, by close and id; the database does that ordering. The timeframe and instrument filters of the query are applied before.
- MacroBlackout.MacroEvents: takes the schedules in the order and under the filters of the query, of which the ones the proof needs are stated.
- ProviderOutliers.EvaluateProviderOutliers: messages are left out; what is proved of waiting assumes a deviation limit that is not negative.
- IncidentRuns.OneAlertPerRisingEdge: ids stand for their inputs, the hash being taken as injective; seconds are of times after 1970.
- CreditProtocol.CreditCap: each record follows its own passed check and charges the day of that check, as the dispatcher does for first requests and retries; that the bound is reached is shown for credits. Creating a missing counter, where the increment fails and the entry is then set, is one step: two processes that both find it missing, of which the later overwrites the earlier's count, are left out.
- CircuitRuns.BatchWhileTrippedIff: a look at one timeframe is one instant, the time its batches are recorded for; a batch with its immediate retry is one step. The same holds of SuppressionRuns. CreditProtocol takes check and record apart.
- SuppressionRuns.FailedRequestBound: the N + 1 is for batches directly after their look; the bound for the dispatcher as it is is FailuresBetweenSuccesses.
- LiveRuns.AtMostOnceIff: a fingerprint stands for one candle and one decision, as the hash is taken over them; creating a record is one step of its own transaction.
- Ingestion dispatch (apps/market_data/tasks.py): provider calls are arbitrary answers, classified by what their reason mentions; the choice of timeframes and the continuity report after the batches are left out.
- Cache: it is present, evicts nothing before the timeout, increments atomically and holds integers; losing it would reset the shared counters.
- Naive datetimes, time zones other than UTC and the spelling of timeframe and source names.
- Lookback bars and the list of due timeframes: single expressions over what is proved.
- Administrators: departments and names, missing profiles, the profile row locked beside the user row, and other code that edits users; users are never deleted.
- Live row: spread, quote age, scores, reasons and version fields are copies; the alerts of the candle path, Redis, broadcasting and transport follow the commit and write nothing back.
- Signal, risk, feature and paper-observer engines: their results are arbitrary inputs.
- Historical XAUT pipeline and recovery: duplicates of the active path.
- Paper service: the persisted observation's copied fields, friction resolution and the fetching of future candles; calls are serial, as the row is not locked.
- Paper fingerprint: fields constant or derived for one service are merged; the hash is taken as injective.
- Floating point and decimal context: values are real numbers, rounding is modelled where a result is quantized; stored precision is assumed to hold what is stored.
- Champion selection, structural reachability, fold statistics and Effective-N: a sort, sums and library statistics without a property beyond their bodies.
- Provider transition verification and the XAUT/XAU and pair basis checks: branch-and-return comparisons.
- Views, consumers, templates, permissions and the append-only model overrides.
