# Verified model of the capacity-measurement engine, the sensor codec and the JSON extractor

The repository is an IoT platform. This project models the parts of it whose logic is hard, and proves what they are
for:

* **Boundary search with crash-resume** (`Plan`, `Search`, `Searcher`, `Replay`, `Boundary`, `Convergence`,
  `Refinement`, `Summary`, `Conduct`). `Search.Drive` is the search as a machine over an arbitrary `World` (stop
  requests, affordability, outcomes); `Searcher` holds the program's own loops, proved to do exactly what the machine
  does. Rates are exact reals.
* **Agent leases and generations** (`Lease`): atomic events of any number of controllers, watchdogs and phases over a
  monotone clock, and the worker object proved to take exactly those steps.
* **Open-loop accounting** (`Counts`, `Accounting`, `Recording`) and the **mergeable histogram** (`Histogram`).
* **Reconciliation** (`Reconciliation`, `Passes`, `Recheck`, `Integrity`), **judging** (`Judge`, `Judgement`),
  **reset-tolerant counters** (`Counter`).
* **MQTT receipts** (`Receipts`), **run/cleanup exclusion** (`Exclusion`) and the **load split** (`Split`).
* **The Modbus RTU codec** of the hydraulic sensor (`Crc`, `CrcStrength`, `CrcPairs`, `CrcGenerator`, `Codec`,
  `Session`, `Reports`, `Pairing`): the checksum of section 6.2.2 of "MODBUS over Serial Line Specification and
  Implementation Guide V1.02", write acknowledgements of sections 6.6 and 6.12 of "MODBUS Application Protocol
  Specification V1.1b3".
* **JSON extraction from model answers** (`Json`, `Extract`, `Repair`): sections 2 to 7 of RFC 8259 as concrete syntax
  trees. The library's validity check is a parameter that must agree with that grammar (nesting at most 10000).

Where the program changes state step by step the model is a class or a method with loops, tied by its contract to a
specification function; the results are lemmas about those functions over every input, run or interleaving.

## What the proofs found

* The ramp can stall below its ceiling: `roundRate` swallows a growth of less than half a grid step, and the search
  then names the budget as its reason although the budget was not reached. `Convergence.RampStalls` gives the exact
  condition for a rate and `Convergence.CappedReachesExactlyWhen` for a plan: a capped ramp reached its ceiling exactly
  when it gains half a grid step at its first rate and, if it comes past 10 from below, grows by 5 percent or more.
  `Convergence.CreepingRampStalls` is a valid plan that stops at 10 messages per second with a budget of 500.
* Without an IMEI in front, a write acknowledgement from a unit 48 to 57 is never accepted, because its unit byte is
  read as the first digit of an IMEI; with one it always is (`Pairing.CorrectResponseAccepted`, both directions). A
  command to such a unit is reachable by a single report (`Pairing.CommandGoesToReportedUnit`).
* Generations are ordered only while the lease is valid: once it has run out every older generation of the run can take
  the agent back, and in no other way does a generation fall (`Lease.GenerationFallsExactlyWhen`, with
  `Lease.ExpiredLeaseLetsGenerationsFall` as the shortest run). An expired lease is revived exactly by the end of its
  own preparation (`Lease.RevivedByPreparationOnly`), and a run that is prepared again may start the name of an earlier
  phase again (`Lease.PreparingAgainForgetsPhases`).
* A receipt key stands for its ID and hash exactly when the ID holds no NUL (`Receipts.KeysDetermineExactlyWhen`). A
  waiting publish can still be confirmed exactly when its receipt has arrived or the wait under its key is its own
  (`Receipts.CanBeConfirmedExactlyWhen`). So of two overlapping publishes of the same bytes the first loses a receipt
  that has not arrived when the second registers (`Receipts.DisplacedIsNeverConfirmed`), and the second one that has
  not arrived when the first returns, because the deferred removal goes by key (`Receipts.RemovalCostsTheOthers`).
* A counter's increase over any history is exact exactly when every restart between two readings wiped out no growth
  and left the counter below the earlier one, or that one was zero (`Counter.ExactExactlyWhen`); otherwise it
  understates, never overstates.
* Without HTTP load the devices beyond the MQTT connections serve nobody (`Split.EveryDeviceServesOnce`). Chunks of one
  size leave the last serving agent with the rest and later agents with nothing (`Split.EveryAgentServesExactlyWhen`,
  `Split.EvenExactlyWhen`), while the serving agents share the rate equally. The allowance per device, which the search
  checks for all devices of a stream together, therefore holds inside every agent exactly when the chunk size divides
  the number of devices (`Split.AllowanceHoldsExactlyWhen`; five devices over four agents are
  `Split.ChunksMayBeUneven`); `Split.WithinExactlyWhen` is the rate up to which it does hold. A lost agent's share is
  offered by nobody (`Split.SharesAddUp`).
* A verdict is final even if the stores later say otherwise. The last pass agrees with a check from scratch exactly
  when such a check would still settle every settled message as before (`Recheck.RecheckAgreesExactlyWhen`).
* `withoutTrailingCommas` looks at brackets, not at entries: it also turns `[,]` into `[]`.

## Model

| member | source | states |
|---|---|---|
| Searcher.Controller.ReplayStep | internal/capacity/controller.go:1026-1046 | a recorded step is handed out iff the search asks for its rate and kind; the first difference drops the rest and lifts the phase number above all of them |
| Searcher.Controller.RunStep | internal/capacity/controller.go:1115-1122 | a step is replayed or executed under the next phase number |
| Searcher.Searcher.Step | internal/capacity/search.go:83-115 | one step of the search in place is one step of the machine |
| Searcher.Searcher.RecordOutcome | internal/capacity/search.go:98-114 | passes, failures, healthy seconds, failure mode and stop reason after an outcome |
| Searcher.Searcher.RunFixed | internal/capacity/search.go:117-130 | the list of fixed rates is run until one does not settle |
| Searcher.Searcher.RunCapacity | internal/capacity/search.go:132-157 | the ramp, then refinement and confirmation, end in the state the machine ends in |
| Searcher.Searcher.Refine | internal/capacity/search.go:158-173 | the refinement loop follows the machine for every sequence of outcomes |
| Searcher.Searcher.Confirm | internal/capacity/search.go:172-185 | the confirmation loop follows the machine, whatever the number of repeats |
| Searcher.Searcher.Finish | internal/capacity/search.go:187-259 | the conclusion drawn in place is the specified one for every tally |
| Searcher.Searcher.Run | internal/capacity/search.go:64-80 | the whole search ends in the machine's state, with its error and its result |
| Search.MaxOf | internal/capacity/search.go:269-275 | the highest element; nothing, for minus infinity, of an empty list |
| Search.MinOf | internal/capacity/search.go:277-283 | the lowest element; nothing, for plus infinity, of an empty list |
| Replay.LoadReplayRestores | internal/capacity/controller.go:1010-1017 | records read in any directory order, cancelled ones dropped, come back in the order they were made |
| Replay.ResumeEqualsUninterrupted | internal/capacity/controller.go:1010-1046 | a resumed search executes none of the recorded steps, asks and concludes exactly as an uninterrupted search with the same outcomes, and ends with the same result |
| Replay.ExecutedAboveRecorded | internal/capacity/controller.go:1031-1040 | every step executed after a resume gets an index above all recorded ones, also when the search diverges |
| Boundary.CapacityBracket | internal/capacity/search.go:132-259 | however a capacity search went: no pass above a failure; bounds exist iff something passed or failed; both were tested and no tested rate lies between |
| Boundary.RecommendationIsConfirmed | internal/capacity/search.go:245-258 | a recommendation exists iff the lower bound passed exactly repeats + 1 times with a failing rate above it and no failure at or below it; it is then the highest whole rate of at most seven tenths of the lower bound, so below every rate that failed; a lower-only result has none |
| Boundary.ClassSaysWhatIsKnown | internal/capacity/search.go:212-244 | each class of a capacity result iff what passed and failed says so; bounded iff the bounds are within the target width; the reported width is the gap in terms of the lower bound |
| Boundary.SearchStands | internal/capacity/search.go:132-185 | what holds of passes and failures wherever the search stopped |
| Convergence.RefineHalvesGap | internal/capacity/search.go:159-171 | each refine step leaves at most half the gap plus half a grid step |
| Convergence.RefineRunHalvesGap | internal/capacity/search.go:159-171 | over any k refine steps of a run, what the gap exceeds 1 by is halved k times |
| Convergence.RefineStepsMeetTarget | internal/capacity/search.go:159-171 | with a target wider than 1: another refine step after k of them means 2^k (target - 1) < gap - 1 for the first gap and target |
| Refinement.RefineStepsAreFew | internal/capacity/search.go:159-171 | for every target width: another refine step after k >= 7 of them means 2^(k - 7) <= gap - 1 for the first gap |
| Convergence.SettledMeansClose | internal/capacity/search.go:160-167 | refinement ends by itself only within the target width or one grid step |
| Convergence.ConfirmedSearchConverges | internal/capacity/search.go:158-241 | a search recommends iff it ran to the end of confirmation; its bounds are then within the target width or one grid step |
| Convergence.ThresholdIsBracketed | internal/capacity/search.go:132-259 | against any sharp limit the bounds enclose the limit, resumed or not |
| Convergence.RampStalls | internal/capacity/search.go:144-152 | the ramp makes no headway below its ceiling iff the growth is less than half a grid step |
| Convergence.EveryRateIsOnTheGrid | internal/capacity/search.go:132-185 | every rate a capacity search tries lies on the grid or is the ceiling |
| Convergence.CappedRamp | internal/capacity/search.go:144-152 | a ramp that ended at a ceiling reached it, or stalled on the grid below it because the growth was less than half a grid step |
| Convergence.CappedReachesExactlyWhen | internal/capacity/search.go:132-152 | a condition on the plan alone that holds iff a capped ramp reached its ceiling, whatever the platform did |
| Convergence.CreepingRampStalls | internal/capacity/search.go:144-152 | a valid plan whose ramp stops at 10 with the budget at 500, naming the budget |
| Convergence.EveryOfferIsAllowed | internal/capacity/search.go:64-66 | under a valid plan of any preset no executed step is above the budget or any device's allowance |
| Summary.ResultSummarisesRecords | internal/capacity/search.go:98-114 | passes, failures, healthy seconds and failure mode can be recomputed from the phase records |
| Conduct.EverySearchFollowsItsRecords | internal/capacity/search.go:83-185 | for every preset and run, resumed or not: each step has the rate and kind that the records before it call for, the search ends by itself when they call for nothing, executed steps are held as long as their kind says, and the stop reason is why it stopped |
| Conduct.FixedPresetsReport | internal/capacity/search.go:187-211 | the presets with fixed rates report the highest pass and the lowest failure under their own class and never recommend; non-monotonic iff some pass lies above a failure |
| Plan.PerDeviceViolation | internal/capacity/plan.go:634-646 | true iff some stream with a share puts more on each of its devices than allowed |
| Plan.MaxRateForDevices | internal/capacity/plan.go:649-657 | the least limit over the streams with a share, if there is one |
| Plan.LimitIsExact | internal/capacity/plan.go:634-657 | a rate violates an allowance iff it is above the device limit |
| Plan.WithinMaxRate | internal/capacity/search.go:66 | the search's ceiling is exactly budget and allowances together |
| Plan.RoundRateIsNear | internal/capacity/search.go:262-267 | a rounded rate is at least 0.1, and from 0.1 up it moved by at most half a grid step |
| Lease.OnePhaseAtATime | internal/capacity/agent.go:337-363 | in every reachable state at most one phase is neither done nor cancelled, it is the held run's current one, and phases of one preparation have different IDs and follow each other |
| Lease.ValidLeaseIsRespected | internal/capacity/agent.go:211-228 | a valid lease changes hands only to the same run in no lower generation, or by release |
| Lease.HeartbeatsKeepTheAgent | internal/capacity/agent.go:314-335 | a controller that keeps up its heartbeats keeps its agent through any interleaving of foreign calls, watchdog ticks and endings |
| Lease.OlderGenerationsAreFencedOff | internal/capacity/agent.go:314-320 | while the lease is covered the generation only rises, and calls of other runs or older generations change nothing |
| Lease.ResumeTakesOver | internal/capacity/agent.go:215-228 | preparing with a later generation takes the agent at once, stops what ran and shuts the older generation out |
| Lease.PreparationTakesExactlyWhen | internal/capacity/agent.go:211-228 | a preparation takes the agent iff nobody holds it, the lease has run out or the claim is the held run's in no lower generation; it then has a lease of the claimed length (20 s if none) and no phases, and what ran before is aborted; else nothing changes |
| Lease.HeartbeatRenewsExactlyWhen | internal/capacity/agent.go:314-335 | a heartbeat renews iff the caller speaks for the held run before its lease has run out; nothing else changes |
| Lease.StartMakesItLive | internal/capacity/agent.go:337-363 | a started phase is the held run's current one and live; a refused one changes nothing and gets the first reason that applies |
| Lease.PreparationEnds | internal/capacity/agent.go:276-281 | the lease of a run still held counts from the end of its preparation |
| Lease.GenerationFallsExactlyWhen | internal/capacity/agent.go:211-228 | of all events exactly the preparation of a lower generation of the held run at or after the end of its lease takes the agent back to one |
| Lease.ExpiredStaysExpired | internal/capacity/agent.go:322-348 | an expired lease is never renewed and starts nothing, however the run goes on, unless still being prepared |
| Lease.RevivedByPreparationOnly | internal/capacity/agent.go:276-282 | an expired lease is extended iff its own preparation ends while the run is held |
| Lease.WatchdogStopsSending | internal/capacity/agent.go:286-312 | after the watchdog found the lease expired no phase is live until somebody prepares |
| Lease.StopStopsThePhase | internal/capacity/agent.go:417-431 | a stop is accepted iff the caller speaks for the held run; no phase is live after it, its current phase is cancelled, aborted if hard, and nothing else changes |
| Lease.ReleaseLetsGo | internal/capacity/agent.go:433-454 | a release by who speaks for the held run frees the agent and aborts its phase; any other changes nothing |
| Lease.CleanLetsGoExactlyWhen | internal/capacity/cleanup.go:727-748 | a cleanup frees the agent iff the held run has its name, an expired lease and only finished phases; else it is refused and changes nothing |
| Lease.LiveEndsExactlyWhen | internal/capacity/agent.go:211-454 | of all events exactly its own end, a rightful stop or release, a preparation that takes the agent and the watchdog after the lease make a live phase stop being live |
| Lease.PhasesOnlyEnd | internal/capacity/agent.go:286-363 | done and cancelled phases stay so |
| Lease.NeverHeldAgain | internal/capacity/agent.go:443-454 | a prepared run that lost the agent never gets it back and starts no further phase |
| Lease.StartsExactlyWhen | internal/capacity/agent.go:337-363 | a phase starts iff the lease is valid, the caller speaks for the held run, nothing of it runs and the name is new to it |
| Lease.PreparingAgainForgetsPhases | internal/capacity/agent.go:225-226 | a run prepared again may start any phase name |
| Lease.Worker.PrepareBegin | internal/capacity/agent.go:211-227 | the first critical section of a preparation |
| Lease.Worker.PrepareEnd | internal/capacity/agent.go:276-281 | the last one: the lease counts from the end |
| Lease.Worker.WatchLease | internal/capacity/agent.go:286-312 | one tick: an expired run's current phase is marked and cancelled |
| Lease.Worker.Heartbeat | internal/capacity/agent.go:322-335 | renews only a valid lease of the run spoken for |
| Lease.Worker.StartPhase | internal/capacity/agent.go:337-363 | refusals in order, or a new current phase |
| Lease.Worker.Stop | internal/capacity/agent.go:417-431 | cancels the current phase, aborts it when hard |
| Lease.Worker.Release | internal/capacity/agent.go:433-454 | lets the held run go and stops its phase |
| Lease.Worker.Cleanup | internal/capacity/cleanup.go:727-748 | lets only an expired, idle run of the given name go |
| Histogram.HistogramCounts | internal/capacity/histogram.go:35-49 | each bucket counts the observations that fall into it |
| Histogram.HistogramTotals | internal/capacity/histogram.go:35-49 | number, sum and maximum are those of the clamped observations |
| Histogram.CountsAddUp | internal/capacity/histogram.go:35-66 | the counts sum to N |
| Histogram.MergeIsConcatenation | internal/capacity/histogram.go:51-66 | merging two histograms gives the histogram of all observations |
| Histogram.OrderDoesNotMatter | internal/capacity/histogram.go:35-49 | the same observations in any order give the same histogram |
| Histogram.RankExists | internal/capacity/histogram.go:68-92 | every rank has its observation |
| Histogram.QuantileBounds | internal/capacity/histogram.go:68-92 | with nearest-rank value v: the quantile is the end of v's bucket capped by the maximum, at most max(1.1 v, 0.1), and at least v iff v fits the last bucket |
| Histogram.QuantileCoversItsShare | internal/capacity/histogram.go:68-92 | at least the asked share of the observations is at most the answer iff that share fits the last bucket, and the answer is at most 10% above (or 0.1) an observation with less than the share below it |
| Histogram.Histogram.Observe | internal/capacity/histogram.go:35-49 | adds one observation |
| Histogram.Histogram.Merge | internal/capacity/histogram.go:51-66 | joins the counts, totals and maxima |
| Histogram.Histogram.Quantile | internal/capacity/histogram.go:68-92 | the loop over the sorted keys finds the first bucket that reaches the rank |
| Accounting.FinishedPhaseBalances | internal/capacity/agent.go:515-600 | in every interleaving: in-flight never exceeds its limit; at the end Scheduled = Sent + NotSent, Sent = OK + Fail, codes sum to Scheduled, and every message-stream slot has exactly one ledger entry |
| Accounting.NothingGetsStuck | internal/capacity/agent.go:515-600 | in every reachable state a stream's loop has exactly one way on and every request can go on to its end |
| Accounting.MergeKeepsAccounts | internal/capacity/histogram.go:147-168 | merging agents preserves those equations |
| Accounting.StreamKeeps | internal/capacity/agent.go:527-570 | each event of a slot keeps its stream accounted for |
| Accounting.LedgerKeeps | internal/capacity/agent.go:651-663 | each event keeps the ledger at one entry for each finished slot |
| Accounting.FlightsKeep | internal/capacity/agent.go:545-565 | the semaphore counts exactly the requests under way |
| Accounting.MergingIntoNothingCopies | internal/capacity/histogram.go:223-229 | a snapshot is a copy |
| Accounting.StreamRecorder.Done | internal/capacity/histogram.go:195-214 | what a finished request adds, measured or not |
| Accounting.StreamRecorder.Skip | internal/capacity/histogram.go:185-193 | what a slot without a place adds |
| Accounting.StreamRecorder.Merge | internal/capacity/histogram.go:147-168 | adds another agent's numbers |
| Recording.RecordsTellTheEvents | internal/capacity/histogram.go:176-221 | in every interleaving a stream's record is told by the events of its measured slots: OK and Fail are the successful and the failed responses, each latency histogram that of its own, lateness that of all, codes, tries and bytes as they came; other slots only raise the warm-up count |
| Recording.MergedRecordsTellBoth | internal/capacity/histogram.go:147-168 | the merged record of two agents tells the responses of both |
| Counts.TotalPlus | internal/capacity/histogram.go:162-164 | the codes of two agents together count as many as apart |
| Counts.AddCounts | internal/capacity/histogram.go:58-60 | adding key by key in any order gives the sum |
| Reconciliation.TrackingCountsEveryID | internal/capacity/verifier.go:106-129 | every ledger entry with an ID is one message of its phase or one duplicate; tracked messages stay as they were |
| Reconciliation.TrackingKeepsTheEntries | internal/capacity/verifier.go:106-129 | every message a ledger adds holds what the first entry with its ID says, every entry with an ID is tracked, acknowledged TCP entries are counted |
| Reconciliation.AbsenceMeansAnswer | internal/capacity/verifier.go:225-235 | what was never stored is missing if confirmed at the ingress, rejected iff its code is 400 to 499, else unknown |
| Reconciliation.TimesOnlyRise | internal/capacity/verifier.go:213-219 | a completion time is the latest any check saw of the message stored as sent |
| Passes.BatchesMakeOnePass | internal/capacity/verifier.go:150-158 | batch size and order of the IDs do not matter |
| Recheck.PassIsItsBatches | internal/capacity/verifier.go:143-158 | a pass, complete or broken off at a failed query, is its batches one after the other: what it listed as open stays open until its own batch |
| Recheck.SettledIsFinal | internal/capacity/verifier.go:106-159 | over any run of ledgers and passes, failing or not, on any stores: no message is lost or changed but in its verdict, and confirmed, conflict and parse failed are final |
| Recheck.LastPassIsFullRecheck | internal/capacity/verifier.go:106-223 | after such a run on stores that keep what settled a message, a last pass that reaches the stores leaves every message with the verdict and copies of a check from scratch, and with its completion time if no processing time of an open message fell |
| Recheck.RecheckAgreesExactlyWhen | internal/capacity/verifier.go:133-223 | on arbitrary stores the last pass agrees with a check from scratch iff that check would settle every settled message as before |
| Passes.SettledState | internal/capacity/verifier.go:237-264 | the two scans decide processed and telemetry as specified |
| Passes.Examine | internal/capacity/verifier.go:201-221 | the restricted answers of a batch lead to the verdict on the whole stores |
| Passes.AnswersSuffice | internal/capacity/verifier.go:181-194 | the telemetry a batch asks for is all that matters |
| Integrity.Verifier.Track | internal/capacity/verifier.go:106-129 | the entries before the first unreadable line are entered in order; the call succeeds iff there is none |
| Integrity.Verifier.PassBatch | internal/capacity/verifier.go:161-223 | a batch gives each of its messages its verdict and leaves the others |
| Integrity.Verifier.Pass | internal/capacity/verifier.go:133-159 | the clock, then everything open, batch by batch, until a query fails |
| Integrity.Verifier.PhaseIntegrity | internal/capacity/verifier.go:294-345 | every counter is the number of the phase's messages of that kind, the latency histogram that of its measured completed messages, each once, valid iff the clock was read and there is one |
| Integrity.LatencyIsDetermined | internal/capacity/verifier.go:298-318 | the order the messages are visited in does not matter to the latency histogram |
| Integrity.LatencyIgnoresClocks | internal/capacity/verifier.go:291-318 | the business latency is the controller's time from sending to completion, whatever the offsets of the agent's and the database's clocks |
| Integrity.EachLatencyOnce | internal/capacity/verifier.go:291-318 | the latency histogram has one observation for each measured message of the phase completed at a known time |
| Integrity.RowsAreFirstOrExtra | internal/capacity/verifier.go:305-307 | the stored rows of a phase are the first of each stored message and the duplicate rows |
| Integrity.MassBalance | internal/capacity/verifier.go:294-345 | sent = done + missing + unknown + pending + rejected, and how missing and archived are made up |
| Judge.PassedExactlyWhenBacked | internal/capacity/judge.go:146-336 | an ordinary step passes iff every objective is backed by its evidence |
| Judgement.FailuresAreBreaches | internal/capacity/judge.go:146-373 | a check fails for data loss, service limit or policy limit iff the evidence breaches an objective for it, in ordinary and resilience steps |
| Judgement.VerdictFollowsEvidence | internal/capacity/judge.go:146-373 | verdict and reason from the evidence alone: loss before service before policy, any of them before the first gap in the order of the objectives, else passed |
| Judgement.NotesAreEarned | internal/capacity/judge.go:263-310 | a report says protocol answers only iff nothing else was sent, and no alarm lost iff alarms were checked under an injected failure and all agreed |
| Judge.ResilienceFailsOnSubstance | internal/capacity/judge.go:152-165 | under an injected failure the ordinary objectives never fail a step |
| Judge.ResiliencePassesExactlyWhenSurvived | internal/capacity/judge.go:152-373 | a resilience step passes iff nothing was lost, faults were injected and undone, recovery was in time and business operations held |
| Judge.PassBoundsTrueLatency | internal/capacity/judge.go:375-394 | a met P95 objective puts 95 of 100 observations at or below its limit, a met P99 from 100 observations on 99 of 100, to within 0.05 for limits below 100 and 0.5 above, as far as the buckets reach |
| Judge.FailureMeansSlowness | internal/capacity/judge.go:375-394 | a missed one means an observation about as high as the limit with less than 95 (or 99) of 100 below it |
| Judge.RoundedIsNear | internal/capacity/histogram.go:107-114 | a reported percentile is the nearest whole number from 100 on and the nearest tenth below |
| Judge.FailuresAreRanked | internal/capacity/judge.go:311-319 | every failed check has a reason of the precedence list |
| Judge.Conclude | internal/capacity/judge.go:311-332 | the first reason in the order that a check failed for, else the first gap, else idle, else passed |
| Judge.JudgeFaults | internal/capacity/judge.go:338-373 | fault and recovery checks |
| Judge.Judge | internal/capacity/judge.go:146-336 | all checks in order and the verdict on them |
| Counter.CounterIncrease | internal/capacity/collector.go:197-238 | valid iff every scraped instance was read twice; then the sum of their increases |
| Counter.IncreaseNeverOverstates | internal/capacity/collector.go:195-238 | the increase is the true growth between first and last reading less what restarts hid |
| Counter.ExactExactlyWhen | internal/capacity/collector.go:195-238 | for every history, exact iff every reading after the first came without a restart since the one before, or after restarts that hid nothing |
| Counter.ExactWithoutRestart | internal/capacity/collector.go:195-238 | exact when no restart falls between two readings |
| Counter.ExactAfterRestartExactlyWhen | internal/capacity/collector.go:217-221 | when a reading after a restart is exact |
| Counter.TotalNeverOverstates | internal/capacity/collector.go:230-238 | the total of all instances is at most their true growth, and equal iff each instance's is exact |
| Counter.WindowsAdd | internal/capacity/collector.go:197-238 | windows that share a fully read round add up |
| Receipts.ReceiptsMatch | internal/capacity/mqtt_receipts.go:24-101 | in every interleaving a confirmation comes from an archived receipt for the key after the wait began, no receipt confirms two, a delivery never blocks and no wait is left |
| Receipts.KeysDetermineExactlyWhen | internal/capacity/mqtt_receipts.go:36-37 | a key determines ID and hash iff the ID holds no NUL |
| Receipts.LonePublishGetsItsReceipt | internal/capacity/mqtt_receipts.go:35-42 | a publish whose key nobody else uses gets the first archived receipt for it |
| Receipts.DisplacedIsNeverConfirmed | internal/capacity/mqtt_receipts.go:69-73 | a publish whose wait was taken over or removed by another is never confirmed |
| Receipts.CanBeConfirmedExactlyWhen | internal/capacity/mqtt_receipts.go:24-101 | a publish can still be confirmed iff it is, or it waits and its receipt has arrived or the wait under its key is its own |
| Receipts.RemovalCostsTheOthers | internal/capacity/mqtt_receipts.go:69-73 | when a publish returns, every other waiting one of its key whose receipt has not arrived can no longer be confirmed |
| Receipts.RemovalIsOnce | internal/capacity/mqtt_receipts.go:73 | a returned publish is removed once, with exactly the wait under its key |
| Receipts.Attempts | internal/capacity/mqtt_receipts.go:74-100 | the first attempt that does not time out decides result, code and count |
| Receipts.MQTTReceipts.Receive | internal/capacity/mqtt_receipts.go:24-42 | removes the wait and fills its channel, or ignores the receipt |
| Receipts.MQTTReceipts.Register | internal/capacity/mqtt_receipts.go:69-72 | the wait is registered under its key |
| Receipts.MQTTReceipts.Unregister | internal/capacity/mqtt_receipts.go:73 | the deferred removal |
| Exclusion.OneAtATime | internal/capacity/serve.go:239-307 | at most one run or cleanup in flight, and a start is refused iff one is |
| Exclusion.OnlyOrphansAreInterrupted | internal/capacity/cleanup.go:430-459 | a saved job goes from running to interrupted exactly when no live worker owns it |
| Exclusion.WorkingCleanupsStayRunning | internal/capacity/cleanup.go:461-526 | the saved job of a cleanup at work says so |
| Exclusion.EndedCleanupsAreFinal | internal/capacity/cleanup.go:461-526 | a cleanup at work can come to its end; the service is free, its saved job final, or still running if the last save failed |
| Exclusion.NextQueryFindsIt | internal/capacity/cleanup.go:430-459 | such a job is called interrupted by the next status query, any other stays |
| Exclusion.Service.Start | internal/capacity/serve.go:244-250 | a run begins only when nothing is active |
| Exclusion.Service.OnStart | internal/capacity/serve.go:272-277 | the active run gets its ID |
| Exclusion.Service.Finish | internal/capacity/serve.go:299-306 | the end of a run clears the field |
| Exclusion.Service.BeginCleanup | internal/capacity/cleanup.go:461-473 | a cleanup begins only when nothing is active |
| Exclusion.Service.EndCleanup | internal/capacity/cleanup.go:492-494 | the end of a cleanup clears the fields |
| Exclusion.Service.DecideStatus | internal/capacity/cleanup.go:449-459 | the decision of the status query under the job lock, and the job or failed save it reports |
| Split.ChunksCoverTheList | internal/capacity/controller.go:835-842 | the chunks of 0 to n - 1 concatenate to the list |
| Split.EveryDeviceServesOnce | internal/capacity/controller.go:743-756 | the MQTT and HTTP chunks of all agents together are the fixture devices, each once, iff HTTP carries load or MQTT connects every device; else the first connections |
| Split.PlannedDevicesServe | internal/capacity/plan.go:659-672 | the devices the limits count on for a stream are as many as the controller hands out for it |
| Split.EveryAgentServesExactlyWhen | internal/capacity/controller.go:835-842 | every agent gets a device iff n - 1 full chunks do not exhaust the list |
| Split.EvenExactlyWhen | internal/capacity/controller.go:835-842 | the chunks with devices are equal iff the chunk size divides the list |
| Split.WithinExactlyWhen | internal/capacity/controller.go:1144-1161 | no device of any agent is sent more than allowed iff the rate is at most serving agents times devices of the last chunk times the allowance |
| Split.AllowanceHoldsExactlyWhen | internal/capacity/plan.go:634-646 | every rate that the check over all devices admits is within the allowance of each device of each agent iff the chunk size divides the number of devices |
| Split.ConnectionsAddUp | internal/capacity/controller.go:757-759 | the TCP split sums to the plan and differs by at most one |
| Split.AgentsWith | internal/capacity/controller.go:1390-1398 | how many agents serve a stream |
| Split.SharesAddUp | internal/capacity/controller.go:1144-1161 | the shares of a served stream sum to its rate; with agents lost to the active fraction of it |
| Crc.Rtu | dev/fb-hydraulic/protocol.go:37-50 | appends the checksum of the data, low byte first |
| Crc.CheckCrc | dev/fb-hydraulic/protocol.go:52-58 | recomputes the checksum and compares |
| Crc.RegisterIsSerial | dev/fb-hydraulic/protocol.go:37-50 | the byte loop is the bitwise shift register over the transmitted bits |
| CrcStrength.ValidIffRegisterClears | dev/fb-hydraulic/protocol.go:52-58 | a frame of at least 4 bytes is valid iff the register over all of it ends at 0 |
| CrcStrength.SentFramesAreValid | dev/fb-hydraulic/protocol.go:37-58 | whatever rtu builds is accepted |
| CrcStrength.AcceptedIffFlipsClear | dev/fb-hydraulic/protocol.go:37-58 | a corruption is accepted iff its flipped bits alone clear the register |
| CrcStrength.OddFlipsAreRejected | dev/fb-hydraulic/protocol.go:37-58 | an odd number of flipped bits is rejected at any length |
| CrcStrength.BurstsAreRejected | dev/fb-hydraulic/protocol.go:37-58 | flips within 16 consecutive transmitted bits are rejected at any length |
| CrcPairs.PairsAcceptedExactlyAPeriodApart | dev/fb-hydraulic/protocol.go:37-58 | two flips are accepted iff they are a multiple of 32767 bits apart, so never in a frame of at most 4095 bytes |
| CrcGenerator.ShortestUnnoticedBurst | dev/fb-hydraulic/protocol.go:37-58 | flips within 17 bits, the first flipped, are accepted iff they are the coefficients of x^16 + x^15 + x^2 + 1 |
| CrcGenerator.ValidIffInvertedStartClears | dev/fb-hydraulic/protocol.go:37-58 | a frame is valid iff its bits, the first 16 inverted, clear a register that starts at 0 |
| Codec.AnswerIsStable | dev/fb-hydraulic/protocol.go:60-111 | any answer but need-more is unchanged by appended bytes |
| Codec.AnswersAtOnce | dev/fb-hydraulic/protocol.go:60-111 | a frame is taken with its last byte and rejected with the bytes that show why |
| Codec.FrameShape | dev/fb-hydraulic/protocol.go:60-111 | what a taken frame looks like, how long it is and whose it is |
| Session.Receive | internal/protocolruntime/listeners.go:447-499 | the receiving loop drains the buffer to the specified connection |
| Session.BufferLimitNeverBinds | internal/protocolruntime/listeners.go:463-467 | after every drained chunk fewer than 274 bytes are left, so the buffer limit never cuts a read short |
| Session.SegmentationIndependence | internal/protocolruntime/listeners.go:447-499 | every split of a byte stream gives the same frames, device, state and rest |
| Reports.ReportIsTaken | dev/fb-hydraulic/protocol.go:60-111 | a report is taken whole iff its body is even and at most 250 bytes, else refused for the right reason |
| Reports.SampleReportAccepted | dev/fb-hydraulic/protocol.go:31-35 | the sample device's report is accepted with its IMEI and unit |
| Reports.StreamRoundTrip | dev/fb-hydraulic/protocol.go:31-140 | draining any split of concatenated reports returns exactly their registers and bodies in order |
| Pairing.EncodeDescribes | dev/fb-hydraulic/protocol.go:220-269 | an encoded command is a write command and the pending state describes it |
| Pairing.CommandCarriesLimits | dev/fb-hydraulic/protocol.go:242-269 | the collection time and both signed limits of the command are recoverable from its bytes |
| Pairing.CommandCarriesValue | dev/fb-hydraulic/protocol.go:256-269 | unit, register of the command and value (negative ones as two's complement) are recoverable from the bytes of a single write |
| Pairing.MultipleFieldsOf | dev/fb-hydraulic/protocol.go:248-254 | a multiple write goes to the reported unit, function 16, register 6 |
| Pairing.SentExactlyWhen | dev/fb-hydraulic/protocol.go:220-269 | a command is sent iff a unit has reported, its kind is known and its parameters are complete; else the first that is missing is the error |
| Pairing.CorrelationReads | dev/fb-hydraulic/protocol.go:113-140 | an acknowledgement's identifier reads back as its function and register |
| Pairing.NoUnitElse | dev/fb-hydraulic/protocol.go:221-229 | a missing, foreign or out-of-range unit in the state counts as none; a missing or foreign number reads 0, a fraction is cut off towards 0 |
| Pairing.NumbersAreRead | dev/fb-hydraulic/protocol.go:189-218 | a parameter reads the same as number, whole float or printed text, iff in its range; fractions, other values and missing ones are refused |
| Pairing.StoredNumbersRead | dev/fb-hydraulic/protocol.go:142-151 | unit and pending numbers read the same when the stored state returns them as floats |
| Pairing.AcknowledgementMatchesCommand | dev/fb-hydraulic/protocol.go:113-140 | over any run an accepted acknowledgement repeats function, register and value of the latest open command and carries its correlation |
| Pairing.NoAcknowledgementWithoutCommand | dev/fb-hydraulic/protocol.go:113-140 | without an open command no acknowledgement is accepted, so a repeated one is refused |
| Pairing.RunPairs | dev/fb-hydraulic/protocol.go:113-269 | pending state and open command agree over any run, reports in between included |
| Pairing.CorrectResponseAccepted | dev/fb-hydraulic/protocol.go:60-140 | the prescribed response is accepted and consumed iff an IMEI stands in front, or the device is known and the unit is not 48 to 57 |
| Pairing.CommandGoesToReportedUnit | dev/fb-hydraulic/protocol.go:113-269 | a prefixed report and a command make a command to that unit wait, digit units included |
| Extract.MatchingBrace | internal/aioutput/aioutput.go:77-101 | the first index where the scanner closes, or -1 |
| Extract.ObjectCloses | internal/aioutput/aioutput.go:77-101 | on the text of any object the scanner closes exactly at its last brace |
| Extract.ScannerFindsObjects | internal/aioutput/aioutput.go:77-101 | the same for an object anywhere in a text |
| Extract.FirstJSONObject | internal/aioutput/aioutput.go:33-45 | the earliest substring that is a JSON object, or none |
| Repair.WithoutTrailingCommas | internal/aioutput/aioutput.go:49-73 | the loop computes the specified text |
| Repair.JsonIsTidy | internal/aioutput/aioutput.go:47-73 | every JSON text is unchanged |
| Repair.TidyMakesJson | internal/aioutput/aioutput.go:47-73 | a text with a comma too many before any set of closers becomes the JSON text without them, strings untouched |
| Repair.ExtractJSON | internal/aioutput/aioutput.go:23-31 | the first object, else the first of the repaired text, else the text |
| Repair.ExtractionIsDetermined | internal/aioutput/aioutput.go:16-31 | that leaves one answer |
| Repair.ExtractsTheObject | internal/aioutput/aioutput.go:16-31 | after a text without an opening brace every printing of every object is returned as it stands |
| Repair.RepairsTrailingCommas | internal/aioutput/aioutput.go:16-31 | if no object is found, one with commas too many comes out without them |

## Left out

- Floating point: rates, latencies and bucket bounds are exact reals; NaN, infinities and rounding error are not modelled.
- Replay.ResumeEqualsUninterrupted: affordability after the resume is part of the world, so the wall-time budget a resumed run has left is assumed to allow what it allowed before; faults left unrecovered by a cancelled step are not replayed by the program and not modelled.
- Search.Drive: what one load step does inside (offering, draining, waiting) is the outcome of the world; the tie to judging is only that a record has a verdict.
- Lease.Worker: prepared runs and phases are named by index instead of by reference; connections, fault recovery and ledgers they own are left out, and a critical section takes its clock readings as parameters.
- Accounting.FinishedPhaseBalances: the schedule's clock arithmetic (how many slots a phase offers) and the realtime subscriber's recorder are left out.
- Integrity.Verifier.PhaseIntegrity: redacted samples, notes and the separate alarm check.
- Judge.Judge: check texts, agent names and counts in messages are left out; a check is known by its subject, status and reason.
- Counter.CounterIncrease: the companion for counters that appear only after their first increment is left out.
- Receipts.Attempts: parsing the published body for its ID, and a publish without one, which never registers a wait.
- Exclusion.Service: warnings, counts, progress and per-run errors of a job, and which run is being cleaned; a failed save is an input.
- Session.Receive: read deadlines of the listener, frames dropped under backpressure, and looking up the device that a frame names.
- Codec: the decoding of report bodies into properties, and the sibling protocols with the same framing.
- Extract.FirstJSONObject: the library's validity check is a parameter that agrees with the grammar; texts are sequences of bytes written as characters.
- Split.WithinExactlyWhen: what a device sends is an average; agents take their devices in turn, so momentary rates and MQTT connections that failed are not modelled.
- HTTP handlers, remote agents, sockets, SQL and ClickHouse stores, files, YAML plans, reports and the front end.
