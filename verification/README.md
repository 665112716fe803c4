# Verified model of the RCA pipeline's services

The service takes telemetry bundles over HTTP, analyses each in a background job and reports the result
to a gateway called Spring. This project models the parts where correctness is not visible from one
function and proves what they promise. `dafny verify dfyconfig.toml` checks all of it.
No lemma uses automatic induction: every inductive step is written out.

**Job lifecycle.** `JobProtocol` is a step system: ingest handlers, N workers, the startup and periodic
reaper, the delivery reconciler, the cleaner and process crashes act on shared rows, signal files, an
in-memory queue, a clock and what Spring stores. One event is what one actor does between two awaits.
Everything an actor does not decide (answers, artefacts, query orders, failed deletes, abandoned jobs,
lost responses) is an event parameter, so a run is a sequence of events. `ProtocolInvariant`,
`ProtocolSteps`, `ProtocolActors` and `ProtocolRecovery` prove one invariant by rely/guarantee;
`ProtocolTheorems` and `ProtocolBounds` state what every run keeps, `ProtocolBoot` and `ProtocolTiming`
what startup recovery and the reaper's threshold keep on their own. `ProtocolWitness` builds the runs on which
promises break, `ProtocolExactly` says exactly when each promise holds, and `ProtocolStranding` who has a
PENDING job between restarts. `JobRows`, `BundleFiles`,
`JobQueue`, `DeliveryReconciler` and `IngestApi` hold the same services as objects and loops;
`SpringAnswers` says by status code what they and the steps make of an answer, `RowHistory` when rows leave and
reports are resent; `ProcessRefinement` and `RoundRefinement` show that each service is a run of the step system.

**Signal selection.** `SignalSelector` has the three bucketers, the group order and `select_signals`;
`RoundRobin` the fair picker. `SelectorTheorems` (buckets partition the batch, group order),
`SelectionTheorems` (the selection as a whole), `SelectionPriority` (what a cap favours),
`ModalityTheorems` (the promises for logs, metrics and traces) and `GroupTies` (ties between groups) hold the results.
`AnomalyCriterion` restates the three-sigma test on the sums of a baseline, for selector and compressor alike.

**Digests.** `LogCompression`, `MetricCompression` with `MetricTheorems`, and `TraceCompression` model the
compressors as grouped data; `MetricAgreement` proves that compressor and selector judge metric points alike.

**Time text.** `Calendar` is the proleptic Gregorian calendar of years 1 to 9999, `SpringTime` the
canonical UTC text sent to Spring; `PayloadOrder` composes it with the selection.

`Sorting` (stable sort), `PyDict` (insertion-ordered dictionaries of lists), `Sums`, `Strings`, `Signals`
and `Wrappers` are shared vocabulary.

## Assumptions

- Every status change (read, check, commit) is one step; file names and job numbers are never reused;
  trigger times differ between jobs, so Spring is keyed by job; one process runs at a time.
- Spring's key is unique: it stores a report only where it holds none. That a report is stored once is this
  assumption; what is proved is that DONE means it was stored, by one POST, with the row's result.
- The two timing bounds are parameters: `overhead` is the longest time a job is RUNNING outside its two
  attempts; `ingestGap` and `sweepGap` bound file-to-commit and keep-query-to-sweep.
- The template miner, the parsers of raw lines and `datetime.fromisoformat` are given functions. The time
  parser must return valid readings and read canonical texts as UTC (`SpringTime.Honest`).
- Floating point is idealised as real numbers; a comparison with a standard deviation is a comparison of squares.

## Where the code falls short of what it says

Each of these has a lemma with a concrete input or run and the exact condition under which the promise holds.

- **Workers start before startup recovery** (app/main.py:44-48), and `_process` never checks that the row is
  still PENDING, so recovery can reclaim a job a worker has just started. `Orderly` says that workers wait for
  recovery and that two attempts plus overhead fit the reaper's threshold. With at least one worker, each of the
  following holds in all runs if and only if the deployment is orderly, which the shipped start order is not:
  a job has one holder (`OwnershipExactly`); rows and Spring agree (`ReportsExactly`); DONE means reported
  exactly once (`ReportedOnceExactly`); finished rows stay finished (`FinalityExactly`); the work on a job is
  bounded (`WorkBoundExactly`). The runs: `TwoHolders`, `Contradicts`, `DoneAndFailed`, `Overwrites` after `Delivered`.
- **Recovery is complete** if and only if workers wait for it (`RecoveryExactly`, `RunsDuringRecovery`), and **the
  periodic reaper spares live workers** if and only if the threshold is long enough (`SparingExactly`, `LongRun`).
- **Files of unfinished jobs can be lost** (`FileSafetyExactly`). All runs keep them if and only if the deployment
  is orderly, no error reaches the ingest handler once its row is persisted, and the orphan age covers the
  ingest gap plus the sweep gap. As shipped the first two fail: `StartupRaceLosesFile`, and a refresh that fails
  after the commit rolls back and discards the file of a job that exists (`RefreshFailureLosesFile`,
  app/api/ingest.py:55-59). The timing conditions are inequalities between settings (`LongRunLosesFile`,
  `LateCommitLosesFile`); the shipped ones leave 300 s of overhead and 24 h between file and sweep
  (`DefaultSettings`).
- **A PENDING job can be left with nobody until the next restart** (`OneHolderExactly`, `CancelledRequestStrands`).
  Only startup recovery looks at PENDING rows. From its first list on, a PENDING job has exactly one holder if and
  only if none of four things let go of it since the last restart: its request was cancelled after the commit, its
  request saw an error although the row was persisted, its worker left before marking it RUNNING, or the reaper
  stopped before queueing it. In an orderly deployment a dropped job stays so until a restart (`StrandedExactly`);
  in any deployment nothing else strands one (`StrandedWasDropped`).
- **Traces: operations with errors do not come first** (`ErrorGroupsFirstExactly`, `ErrorSpanDropped`). The
  bucketer replaces the error grade by a rank that starts at 0 in every bucket, so only size and leading
  index decide; with cap 1, two clean spans of one operation displace the only error span of another.
- **Groups: ties are not broken by the smallest index** as the comment in app/services/signal_selector.py:115 says, but by the
  index of the best item. The two orders agree on a batch if and only if they compare every two groups of equal
  best grade and size alike (`TieBreakerExactly`); on a four-line batch they differ, and with cap 1 so does
  the line sent (`CrossedOrders`, `TieBreakerMatters`).
- **Metrics: a series named `("", "(미파싱)")` is overwritten** when the batch also has unparsable items
  (`MetricPartition`, `NameClashHappens`); the items of that series are lost.
- **Selections are in time order only over the cap** (`ChronologicalExactly`, `UnsortedPasses`): up to the cap
  the input passes unsorted.
- **Naive and aware times**: `_chron` treats a naive time as UTC, but metric grading and the log and metric
  digests compare times directly and raise exactly on a mixed pair (`SelectSignals`, `CompressLogs`,
  `SameZoneFailure`; inputs: `NaiveSampleFails`, `NaiveLineFails`).
- **Restoring a split bundle** is the identity exactly when none of the three arrays is absent, null or otherwise
  false without being an array (`SplitRoundTrip`, `NullComesBackEmpty`).

## Model

Results come first; the last twelve rows are the operations they are about, stated for completeness.

| member | source | states |
|---|---|---|
| ProtocolTheorems.ReachableInv | app/services/job_queue.py:110-277 | in every reachable state of an orderly deployment, across any crashes and restarts, every actor's expectations about rows, files and Spring hold |
| ProtocolTheorems.SingleOwner | app/services/stuck_job_reaper.py:110-172 | a job is with at most one of ingest, queue slot, worker and reaper list; queued jobs are PENDING; a job under analysis is RUNNING |
| ProtocolExactly.OwnershipExactly | app/main.py:43-53 | every run keeps one holder per job if and only if workers wait for recovery and 2T + overhead <= stuck threshold |
| ProtocolStranding.OneHolderExactly | app/services/stuck_job_reaper.py:110-125 | from recovery's first list on a PENDING job has exactly one holder if and only if no event dropped it since the last restart |
| ProtocolStranding.StrandedExactly | app/services/stuck_job_reaper.py:93-125 | with order, a PENDING job has no holder exactly when it was dropped and the process has not restarted since |
| ProtocolStranding.StrandedWasDropped | app/services/job_queue.py:110-118 | in every run of every deployment a PENDING job without a holder was dropped by one of four kinds of event since the last restart |
| ProtocolStranding.CancelledRequestStrands | app/api/ingest.py:50-81 | whatever the settings, a request cancelled between commit and queue leaves its job PENDING with nobody |
| ProtocolBoot.RecoveryIsComplete | app/services/stuck_job_reaper.py:93-108 | with a gated start alone: when startup recovery ends no row is RUNNING and the queue holds each PENDING job exactly once |
| ProtocolExactly.RecoveryExactly | app/services/stuck_job_reaper.py:93-108 | recovery is complete in every run if and only if workers wait for it |
| ProtocolTiming.ReaperSparesLiveWorkers | app/services/stuck_job_reaper.py:89-91 | with a long enough threshold alone: the periodic reaper never selects a job whose worker is still inside the analysis |
| ProtocolExactly.SparingExactly | app/services/stuck_job_reaper.py:89-91 | the reaper spares live workers in every run if and only if 2T + overhead <= stuck threshold |
| ProtocolTheorems.FilesSurvive | app/services/bundle_store.py:133-170 | every unfinished job can read its signals; the missing-file branch is unreachable |
| ProtocolExactly.FileSafetyExactly | app/services/job_cleanup.py:97-112 | no run loses a needed file if and only if workers wait for recovery, no error follows an ingest commit, 2T + overhead <= stuck threshold, and ingest gap + sweep gap <= orphan age |
| ProtocolWitness.StartupRaceLosesFile | app/main.py:43-53 | with workers running during recovery some run loses a needed file |
| ProtocolWitness.RefreshFailureLosesFile | app/api/ingest.py:50-68 | if refresh can fail after a commit some run loses a needed file |
| ProtocolWitness.LongRunLosesFile | app/services/job_queue.py:120-146 | if two attempts plus overhead outlast the reaper's threshold some run loses a needed file |
| ProtocolWitness.LateCommitLosesFile | app/services/bundle_store.py:148-170 | if ingest gap plus sweep gap exceeds the orphan age some run loses a needed file |
| ProtocolBounds.ReportsMatchRows | app/services/job_queue.py:185-277 | DELIVERING has a stored result; DONE with a result means Spring holds exactly it with its arrays; PENDING and RUNNING mean Spring holds nothing |
| ProtocolExactly.ReportsExactly | app/services/job_queue.py:185-277 | rows and Spring agree in every run if and only if the deployment is orderly |
| ProtocolBounds.DoneMeansReportedOnce | app/services/delivery_reconciler.py:74-93 | along any run a DONE job with a result was stored by exactly one POST |
| ProtocolExactly.ReportedOnceExactly | app/services/delivery_reconciler.py:74-93 | DONE means exactly one stored report in every run if and only if the deployment is orderly |
| ProtocolBounds.FinalIsFinal | app/services/delivery_reconciler.py:109-136 | DONE and FAILED rows never change again until purged, and a purged number never returns |
| RowHistory.ChangesAreDated | app/services/stuck_job_reaper.py:136-163 | in every deployment an event that creates or changes a row dates it, so retention, grace and threshold count from the last change |
| RowHistory.LeavesExactly | app/services/job_cleanup.py:51-61 | an event removes a row if and only if it is a purge and the row is DONE or FAILED and past the retention |
| RowHistory.RowsAreRetained | app/services/job_cleanup.py:51-61 | over any run of any deployment a row that is gone was DONE or FAILED and older than the retention when a purge met it |
| RowHistory.ResendsWait | app/services/delivery_reconciler.py:60-72 | in an orderly deployment a report is sent again only when its row has been DELIVERING for longer than the grace, unless the row has ended meanwhile |
| ProtocolExactly.FinalityExactly | app/services/stuck_job_reaper.py:136-163 | finished rows stay finished in every run if and only if the deployment is orderly |
| ProtocolBounds.WorkIsBounded | app/services/stuck_job_reaper.py:142-163 | over any run with any crashes at most 2·max+3 status changes, max+1 entries into RUNNING, requeues <= max |
| ProtocolExactly.WorkBoundExactly | app/services/stuck_job_reaper.py:142-163 | the bound on status changes and requeues holds in every run if and only if the deployment is orderly |
| ProtocolWitness.Clashes | app/services/job_queue.py:148-183 | every disorderly deployment has a run in which the reaper's claim and a worker's finished analysis are of the same RUNNING job |
| ProtocolWitness.TwoHolders | app/services/stuck_job_reaper.py:127-134 | then the job has two holders |
| ProtocolWitness.Delivered | app/services/job_queue.py:220-250 | from there the worker delivers and makes the row DONE while the claim stands |
| ProtocolWitness.Overwrites | app/services/stuck_job_reaper.py:136-163 | and the commit of recovery rewrites the DONE row to FAILED |
| ProtocolWitness.Contradicts | app/services/job_queue.py:185-195 | or recovery reports a failure first and the worker then commits a result Spring will never hold |
| ProtocolWitness.DoneAndFailed | app/services/job_queue.py:190-195 | or a job without artefact ends DONE after Spring was told that it failed |
| ProtocolWitness.RunsDuringRecovery | app/main.py:43-48 | recovery ends with a RUNNING row when workers run beside it |
| ProtocolBounds.JoinMeansIdle | app/services/job_queue.py:72-118 | unfinished counts queued plus held ids, so join waits for exactly an empty queue and idle workers |
| ProtocolBounds.StopInterruptsNobody | app/services/job_queue.py:91-106 | from the moment join may return, as long as nothing is enqueued, no worker holds anything that a cancellation would interrupt |
| ProtocolBounds.DeliveringHasResult | app/services/delivery_reconciler.py:75-77 | a DELIVERING row has a stored result in every run of every deployment, so the skip branch of redelivery is unreachable |
| ProtocolBounds.DuplicateFinalises | app/services/spring_client.py:211-232 | a DELIVERING job whose report Spring already holds can be finalised as DONE by a 409 |
| ProtocolRecovery.EventKeeps | app/services/stuck_job_reaper.py:127-172 | every event of every actor keeps the invariant and stays within its bound on the world |
| ProtocolRecovery.RecoverRowsAt | app/services/stuck_job_reaper.py:142-163 | recovery rewrites exactly the claimed rows, each by its own requeue allowance |
| ProtocolRecovery.SplitClaims | app/services/stuck_job_reaper.py:142-163 | the requeue list and the failure list split the claims by allowance |
| JobRows.JobTable.RecoverRunning | app/services/stuck_job_reaper.py:136-163 | the loop over rows computes the recovered rows and both lists |
| BundleFiles.BundleStore.Sweep | app/services/bundle_store.py:148-170 | the loop over the listing removes exactly the unused files older than the cutoff that can be removed, and counts them |
| JobQueue.Process | app/services/job_queue.py:148-250 | rows and files after one uninterrupted job, for every analysis outcome and answer |
| SpringAnswers.ProcessedByCode | app/services/job_queue.py:220-250 | a job with a result: 2xx and 409 end it DONE, other 4xx FAILED, both releasing its file; any other code and no answer leave it DELIVERING with result and file, and no other row is touched |
| SpringAnswers.ProcessedWithout | app/services/job_queue.py:148-204 | a job whose file is missing or whose two attempts fail ends FAILED, one whose analysis gives nothing DONE, with its file released, whatever Spring would answer |
| SpringAnswers.RedeliveredByCode | app/services/delivery_reconciler.py:74-93 | the same for one overdue job of a redelivery round, which counts it exactly for 2xx and 409 |
| SpringAnswers.PostedByCode | app/services/spring_client.py:211-248 | the same of the steps of a worker: its POST and what follows it, by status code |
| SpringAnswers.ResentByCode | app/services/delivery_reconciler.py:78-93 | the same of the steps of a resend and of what follows it |
| DeliveryReconciler.DeliveredCountsDone | app/services/delivery_reconciler.py:73-93 | the returned number is the number of rows moved to DONE |
| DeliveryReconciler.RedeliveryIsLocal | app/services/delivery_reconciler.py:73-93 | a round changes only DELIVERING rows, to a final status, and keeps the file of every row it leaves |
| BundleFiles.SplitRoundTrip | app/services/bundle_store.py:82-118 | restoring a split bundle gives it back exactly when logs, metrics and traces each hold an array or something true; the others become empty, and every other key stays in the row |
| BundleFiles.FileWins | app/services/bundle_store.py:107-118 | a restored key comes from the file if the file has it, else from the row; without a file the row is the bundle |
| BundleFiles.NullComesBackEmpty | app/services/bundle_store.py:87-89 | a bundle whose logs are null comes back with an empty array |
| ProcessRefinement.ProcessIsARun | app/services/job_queue.py:148-218 | the step system can replay the sequential job: same rows, same files, worker idle |
| RoundRefinement.IngestIsARun | app/api/ingest.py:50-83 | the step system can replay one ingest request, for every way it ends: same rows, files and queue |
| RoundRefinement.SweepIsARun | app/services/bundle_store.py:148-170 | the step system can replay a sweep file by file: the same files are gone |
| RoundRefinement.RecoveryIsARun | app/services/stuck_job_reaper.py:127-172 | the step system can replay a recovery, whatever Spring answers and whichever deletes fail: the rows and lists of the loop, the first list queued in order, files and notices of the second as they turned out |
| RoundRefinement.RedeliveryIsARun | app/services/delivery_reconciler.py:60-94 | the step system can replay a redelivery round, whatever Spring answers: same rows, same files |
| RoundRobin.Pick | app/services/signal_selector.py:90-108 | the loop yields the first min(limit, total) items of the enumeration by depth, then group |
| RoundRobin.OrderIsTheEnumeration | app/services/signal_selector.py:90-108 | that enumeration is the only increasing list of all places |
| RoundRobin.SharesAreFair | app/services/signal_selector.py:90-108 | while a group has items left nobody is more than one ahead of it and no later group is ahead |
| RoundRobin.SharesAreOptimal | app/services/signal_selector.py:90-108 | any other feasible allocation giving a group more takes from one that has at most one more |
| RoundRobin.EveryBestIsPicked | app/services/signal_selector.py:90-108 | with no more nonempty groups than the limit every group's best item is picked |
| SelectorTheorems.LogPartition | app/services/signal_selector.py:129-139 | the log buckets hold every index exactly once and none is empty |
| SelectorTheorems.MetricPartition | app/services/signal_selector.py:161-176 | the metric buckets hold every index exactly once if and only if no series clashes with the reserved name |
| SelectorTheorems.NameClashHappens | app/services/signal_selector.py:173-175 | such a batch exists |
| SelectorTheorems.TracePartition | app/services/signal_selector.py:179-195 | the trace buckets hold every index exactly once |
| SelectorTheorems.GroupsConserve | app/services/signal_selector.py:111-123 | the ordered groups hold the same indices as the buckets |
| SelectorTheorems.GroupIsSorted | app/services/signal_selector.py:119-121 | inside a group by grade then index, the first being the best |
| SelectorTheorems.GroupOrderIsCanonical | app/services/signal_selector.py:111-123 | with disjoint buckets the group order does not depend on the dictionary's order |
| SelectorTheorems.PriorGroupsFirst | app/services/signal_selector.py:111-123 | a group whose best grade is smaller stands before every group whose best grade is larger |
| SelectorTheorems.BestMeansPrior | app/services/signal_selector.py:115-121 | a group's leading key is 0 exactly when it holds a top-grade item |
| GroupTies.TieBreakerExactly | app/services/signal_selector.py:111-123 | for every batch the documented order of groups (smallest index) equals the order of the code exactly when both compare every two groups of equal best grade and size alike |
| GroupTies.CrossedOrders | app/services/signal_selector.py:115-121 | a batch of two patterns on which the two orders differ |
| GroupTies.TieBreakerMatters | app/services/signal_selector.py:115-121 | on that batch with cap 1 the documented order would send another line |
| SelectionTheorems.SelectSignals | app/services/signal_selector.py:208-239 | the selection as specified; fails exactly when a metric batch over the cap mixes zones |
| SelectionTheorems.KeptIsASubset | app/services/signal_selector.py:217-239 | min(cap, n) different input indices |
| SelectionTheorems.TruncatedMeansOverCap | app/services/signal_selector.py:82-84 | truncated exactly when a nonempty batch is over the cap |
| SelectionTheorems.ChronologicalExactly | app/services/signal_selector.py:213-239 | no later time before an earlier one, unknown times at the start of the calendar, ties in input order: exactly when over the cap or already in order |
| SelectionTheorems.UnsortedPasses | app/services/signal_selector.py:213-220 | two items in the wrong order stay in the wrong order up to the cap |
| SelectionTheorems.KeptGrows | app/services/signal_selector.py:217-239 | raising the cap never drops an item |
| SelectionPriority.BestFirst | app/services/signal_selector.py:111-123 | inside a bucket a better entry is kept whenever a worse one is |
| SelectionPriority.EveryPatternKept | app/services/signal_selector.py:226-235 | with no more groups than the cap every group keeps its best item |
| SelectionPriority.PriorPatternsKept | app/services/signal_selector.py:111-123 | while the cap covers the groups with a top-grade item each of them keeps one |
| ModalityTheorems.SevereLinesFirst | app/services/signal_selector.py:129-139 | in one log pattern a FATAL, CRITICAL or ERROR line is never dropped for any other, nor a WARN or WARNING line for one of the rest, nor an earlier line for a later one as grave |
| ModalityTheorems.ErrorPatternsKept | app/services/signal_selector.py:129-139 | while the cap covers the number of patterns with a FATAL, CRITICAL or ERROR line each of them keeps such a line |
| AnomalyCriterion.StraysByTotals | app/services/signal_selector.py:161-172 | with n values of sum S and square sum Q, v strays if and only if (nv - S)^2 > 9(nQ - S^2), or nQ = S^2 and nv differs from S |
| ModalityTheorems.GradedByCriterion | app/services/signal_selector.py:142-172 | a point is graded prior exactly when it is not before the trigger and strays from the leading values of its series before it |
| ModalityTheorems.AnomaliesFirst | app/services/signal_selector.py:161-172 | in one series a point that strays from the baseline, on plain sums, is never dropped for one that does not |
| ModalityTheorems.AnomalousSeriesKept | app/services/signal_selector.py:142-176 | while the cap covers the number of series with a straying point each of them keeps a straying point |
| ModalityTheorems.WorstSpansFirst | app/services/signal_selector.py:179-195 | in one operation an error span is never dropped for a clean one, nor a slower for a faster, a missing duration being 0, nor an earlier for a later equal one |
| ModalityTheorems.ErrorGroupsFirstExactly | app/services/signal_selector.py:190-195 | failing operations come first exactly when each has more spans than every clean one, or as many and the smaller leading index |
| ModalityTheorems.ErrorSpanDropped | app/services/signal_selector.py:190-195 | a batch and a cap for which a clean span is sent and the only error span is not |
| LogCompression.CompressLogs | app/services/bundle_compression.py:204-265 | the groups of `PatternIsExact` in the order of `DigestByCounters`; fails exactly when a line and the trigger are one naive, one aware |
| LogCompression.NaiveLineFails | app/services/bundle_compression.py:218-221 | one naive line under an aware trigger makes the log digest fail |
| LogCompression.PatternIsExact | app/services/bundle_compression.py:227-241 | each group counts exactly the lines of its service, level and cluster, split at the trigger, with its first and last line and the first line's template |
| LogCompression.VolumesAreTallies | app/services/bundle_compression.py:214-241 | for any set of keys, group counts and base counts add up to the lines that have them |
| LogCompression.CountsSumToLines | app/services/bundle_compression.py:261-274 | the digest's counts add up to the number of lines |
| LogCompression.ServiceErrorCounts | app/services/bundle_compression.py:286-297 | each service's number of error lines, and only services that have one |
| LogCompression.ErrorTotalsAgree | app/services/bundle_compression.py:265-297 | a service's error groups add up to its reported error count |
| LogCompression.DigestOrder | app/services/bundle_compression.py:245-265 | every group once, ties in order of first appearance |
| LogCompression.DigestByCounters | app/services/bundle_compression.py:245-265 | of two lines the earlier one has the larger quotient of incident lines by base lines, normal occurrences and one, cross-multiplied; if equal, or without a trigger, the graver level by name, then the larger count, then the earlier first line |
| LogCompression.DigestIsDetermined | app/services/bundle_compression.py:252-265 | that order leaves only one list |
| MetricCompression.CompressMetrics | app/services/bundle_compression.py:359-418 | the rows of `SeriesAreExact` and `SplitIsExact` in the order of `TableOrder`, and the unparsed items |
| MetricTheorems.SameZoneFailure | app/services/bundle_compression.py:383-385 | table and grading fail on the same batches: those where a parsed item and the trigger are one naive, one aware |
| MetricTheorems.NaiveSampleFails | app/services/signal_selector.py:146-157 | one naive sample under an aware trigger makes grading and table fail, although the time key orders it |
| MetricTheorems.SeriesHoldAllPairs | app/services/bundle_compression.py:364-374 | the series hold every pair of every item exactly once |
| MetricTheorems.SeriesAreExact | app/services/bundle_compression.py:364-374 | a series holds exactly the pairs of its service and label |
| MetricTheorems.SeriesAreDistinct | app/services/bundle_compression.py:364-374 | different series have different names, and every pair has a series |
| MetricTheorems.SeriesHasRow | app/services/bundle_compression.py:383-413 | every series has its line in the table, with `?` for a missing service, and there are as many lines as series |
| MetricTheorems.RowHasSeries | app/services/bundle_compression.py:383-413 | every line of the table stands for a series |
| MetricTheorems.SplitIsExact | app/services/bundle_compression.py:384-385 | a series splits exactly into baseline and incident samples |
| MetricTheorems.OnsetIsFirst | app/services/bundle_compression.py:392-401 | the onset is the first sample in input order that is not before the trigger and strays from the baseline on plain sums, and exists exactly when there is one |
| MetricTheorems.PeakIsGreatest | app/services/bundle_compression.py:402-407 | the peak is the first deviant with the greatest (nv - S)^2, and the score, squared, is that over nQ - S^2, or over n^2 when the baseline is constant |
| MetricTheorems.ScoreTellsDeviants | app/services/bundle_compression.py:390-407 | the score is positive exactly for series with a straying sample |
| MetricTheorems.AnomalousSeriesFirst | app/services/bundle_compression.py:411-413 | series with a straying sample are listed before every series without |
| MetricTheorems.TableOrder | app/services/bundle_compression.py:411-413 | by score descending, then displayed service and label in alphabetical order |
| MetricTheorems.TableConserves | app/services/bundle_compression.py:383-409 | baseline and incident counts of the table add up to the number of pairs |
| MetricTheorems.UnparsedPassOnce | app/services/bundle_compression.py:415-417 | items without a pair pass once each, in input order |
| MetricAgreement.SelectorAgrees | app/services/signal_selector.py:158-172 | where items only lead with a series, the selector's prior items are exactly the compressor's deviants |
| TraceCompression.CompressTraces | app/services/bundle_compression.py:467-498 | the table of `OperationIsExact` and `LatencyOfLine` in the order of `WorstOperationsFirst`, and the timelines of `MinuteIsExact` |
| TraceCompression.TraceTotals | app/services/bundle_compression.py:473-493 | calls add up to the spans, errors to the error spans |
| TraceCompression.OperationIsExact | app/services/bundle_compression.py:473-479 | each line counts exactly the spans, errors and timed spans of its operation |
| TraceCompression.DurationsAreExact | app/services/bundle_compression.py:473-479 | each line holds exactly its spans' durations in input order |
| TraceCompression.TimelineMatchesCalls | app/services/bundle_compression.py:480-498 | for every displayed service the minutes add up to its calls |
| TraceCompression.MinuteIsExact | app/services/bundle_compression.py:480-498 | each minute of a drawn timeline counts exactly its spans, a missing service shown as `?` |
| TraceCompression.TimelinesInOrder | app/services/bundle_compression.py:495-498 | the timelines ascend strictly by displayed service |
| TraceCompression.MinutesInOrder | app/services/bundle_compression.py:495-498 | inside a timeline the minutes ascend strictly |
| TraceCompression.WorstOperationsFirst | app/services/bundle_compression.py:485-487 | by errors then calls, both descending |
| TraceCompression.LatencyOrder | app/services/bundle_compression.py:488-490 | p50 <= p95 <= max, each one of the durations, max above all |
| TraceCompression.LatencyOfLine | app/services/bundle_compression.py:457-490 | a line's p50, p95 and max stand in the sorted durations of exactly its operation's spans at the ranks nearest to 1/2 and 19/20 of n - 1, the even one of two, and at the end; no figures without a timed span |
| TraceCompression.PercentileRank | app/services/bundle_compression.py:457-459 | the percentile is the element whose rank is nearest to its share, the even one of two |
| TraceCompression.MedianSplits | app/services/bundle_compression.py:457-459 | at least half of the durations lie on either side of p50 |
| Calendar.FieldsOfInstant | app/services/spring_client.py:57-61 | every valid reading is the reading of its instant |
| Calendar.InstantOfFields | app/services/spring_client.py:57-61 | every instant in range is the instant of its reading |
| Calendar.DayInClosedForm | app/services/spring_client.py:57-61 | the day number is 365y + y/4 - y/100 + y/400 + (153m + 2)/5 + d - 307, years and months counted from March |
| SpringTime.ParseOfPrint | app/services/spring_client.py:60-62 | printing an instant and parsing the text gives its reading back |
| SpringTime.KeepsInstant | app/services/spring_client.py:39-62 | the text sent reads as UTC; its fields are behind those of an aware reading by exactly the offset, and are those of a naive one |
| SpringTime.SeoulMorning | app/services/spring_client.py:57-62 | 2024-05-01 09:00 at +09:00 is sent as 2024-05-01T00:00:00Z |
| SpringTime.Idempotent | app/services/spring_client.py:39-62 | converting a converted text changes nothing |
| SpringTime.SameTextSameInstant | app/services/spring_client.py:39-62 | two times are sent as equal text exactly when fields minus offset give the same instant |
| SpringTime.FailsExactly | app/services/spring_client.py:57-60 | unparsable text, or an aware reading whose fields minus offset leave the 3652059 days of years 1 to 9999 |
| SpringTime.ChronKept | app/services/signal_selector.py:59-73 | conversion does not move a time in the selector's order |
| SpringTime.ConvertedKeepsOrder | app/services/spring_client.py:115-143 | an array in the selector's order stays in it after normalisation, both ways |
| SpringTime.ConvertedCompare | app/services/spring_client.py:57-62 | two texts can be compared as they arrive exactly when both carry an offset or neither does; converted ones always can |
| SpringTime.Payload.NormalizeTimestamps | app/services/spring_client.py:115-143 | all time fields converted, or an exception at the first one that is not convertible, with the fields before it converted and the others untouched |
| SpringTime.PartlyTwice | app/services/spring_client.py:115-143 | normalising a second time raises at the same place and changes nothing, whether or not the first time raised |
| PayloadOrder.KeptInRange | app/services/signal_selector.py:222-239 | for every batch, name clash or not, only input items are selected |
| PayloadOrder.SentInOrderExactly | app/services/spring_client.py:201-202 | the times of the selected items as they reach Spring are nondecreasing exactly when the batch was over the cap or arrived in order |
| JobRows.JobTable.Mark | app/services/job_queue.py:252-277 | only a DELIVERING row moves, and the answer says whether this call moved it |
| JobRows.JobTable.Purge | app/services/job_cleanup.py:51-61 | every unfinished row and every row updated at or after the cutoff stays, unchanged; all others go and are counted |
| BundleFiles.BundleStore.Write | app/services/bundle_store.py:68-79 | a fresh name, nothing else touched |
| BundleFiles.BundleStore.Discard | app/services/bundle_store.py:124-145 | removes at most that file; repeating it is harmless |
| JobQueue.RunRca | app/services/job_queue.py:120-146 | at most two attempts; the first that returns decides, two failures fail |
| JobQueue.Deliver | app/services/job_queue.py:220-250 | 2xx, 409 and 4xx finalise the row and release the file, 2xx and 409 as DONE and the other 4xx as FAILED; any other answer changes nothing |
| DeliveryReconciler.RedeliverOnce | app/services/delivery_reconciler.py:73-93 | rows, files and count after a round, each item as `RedeliveredByCode` says |
| IngestApi.IngestBundle | app/api/ingest.py:50-83 | file, row and queue after success, commit failure and refresh failure, whether or not the discard succeeds |
| SignalSelector.LogBuckets | app/services/signal_selector.py:129-139 | log lines grouped by cluster, graded by level; by name in `SevereLinesFirst` |
| SignalSelector.MetricBuckets | app/services/signal_selector.py:142-176 | series graded against their own baseline, on plain sums in `GradedByCriterion`, unparsable items aside; fails exactly on a mixed zone |
| SignalSelector.TraceBuckets | app/services/signal_selector.py:179-195 | spans grouped by operation and ranked |
| SignalSelector.OrderGroups | app/services/signal_selector.py:111-123 | groups sorted inside and between by the specified keys |

## Left out

- Rows from before the split to files (`signals_path` NULL) appear in `SplitRoundTrip` only, not in the step system.
- Temporary files of the atomic write, other users of the storage directory, several processes on one database.
- A signal file that is present but damaged takes the same branch as a missing one (app/services/bundle_store.py:103-104);
  writes are atomic and no modelled actor damages a file, so the step system has the missing file only.
- `updated_at` in the database has whole seconds; the model's clock has one unit for everything.
- Two jobs with the same trigger time: Spring would treat the second as a duplicate of the first.
- A bundle that fails validation when restored raises out of `_process`; it is covered as an abandoned job, not by its cause.
- Progress: nothing says that a job finishes, only what holds whenever it does.
- ProtocolBounds.JoinMeansIdle: `stop` is not an event of the step system; this is the state join waits for.
- ProtocolBounds.StopInterruptsNobody: stated while nothing is enqueued; a job enqueued between join and the cancellation could be interrupted.
- JobQueue.Process: one job without other actors in between and with every commit succeeding; the step system has the interleavings, and a failed commit there is an abandoned job.
- DeliveryReconciler.RedeliverOnce: one round without other actors in between; the step system has the interleavings.
- TraceCompression.PercentileRank: ranks are computed over reals, so a float product that rounds across a half is not captured.
- TraceCompression.LatencyOfLine: the same.
- MetricAgreement.SelectorAgrees: the selector grades an item by its first pair only, so a series some item carries in a later place is excluded.
- ProtocolBounds.FinalIsFinal: the worker's commits of a result or of DONE succeed or never happen. That one is persisted while the
  worker sees an exception, whose handler then commits FAILED (app/services/job_queue.py:185-204), is not an event; such a row would
  go from DONE or DELIVERING to FAILED. The same goes for ProtocolBounds.ReportsMatchRows and the theorems of `ProtocolExactly`.
- `_apply_selection`, `_annotate_sources` and payload assembly, text rendering of the digests, highlight sections and exemplars.
- Analysis agents, prompts, HTTP, authentication, logging, settings loading, migrations, raw-line normalisation, schema errors.
- Template mining, regular expressions, JSON and general ISO-8601 parsing: given functions.
