# Print and scan framework: verified models

A Dafny model of the concurrent parts of the OpenHarmony print and scan framework, with proofs.
`dafny verify dfyconfig.toml` checks everything. Nothing here is compiled or run.

The centre is the CUPS job pipeline of `PrintCupsClient`: a mutex-protected queue, one in-flight slot drained by
detached sender threads, a monitored list polled by an on-demand monitor thread, and cancel and interrupt requests
from any thread. Around it stand the state machine of one monitored job, the packed fault codes it reports and the
two other files that unpack them, the edge-triggered notifier, the scanner option table, the listener registry, the
operation queue and the PPD walk.

## Layout

| file | content |
|---|---|
| `JobPipeline.dfy` | the pipeline as a transition system: one action per critical section and per atomic flag access, program points for the unlocked windows, an explicit heap so that a dangling access or a second delete shows |
| `JobInvariant.dfy`, `JobPreservation.dfy` | invariant of what `jobMutex` guards, kept by every action |
| `WatchInvariant.dfy` | invariant of what `jobMonitorMutex_` guards, kept by every action |
| `PipelineInvariant.dfy`, `PipelineTheorems.dfy` | the whole invariant; ownership, order, wake-up and report results for every reachable state |
| `ProgressTheorem.dfy` | a work measure: no job is left behind |
| `LoopTheorem.dfy` | the monitor loop comes to every listed job within a bounded number of its steps |
| `RequestClaims.dfy` | from where a job can still reach the monitored list, and that from everywhere else it never does |
| `RequestScope.dfy` | a request touches the job it names and no other |
| `CancelTheorem.dfy` | exactly when a cancel request is lost, with a reachable state for each of the two ways |
| `InterruptTheorem.dfy` | the same for an interrupt request, with its two reachable losses, and what is still reported about a job marked by one, however late the mark |
| `PrintCupsClient.dfy` | the critical sections as methods of a class, each proved to act as the pipeline's transition function |
| `JobMonitor.dfy`, `JobMonitorTheorems.dfy` | throttling, reason and message parsing, job-state handling, reports |
| `ConversionTimer.dfy` | the conversion timer over any run of evaluations |
| `JobReports.dfy` | what the service is told over any run of evaluations, from flag readings and answers to numbers |
| `JobMonitorParam.dfy` | the same in place: a class whose loops and field updates are proved against those functions |
| `Substate.dfy` | base-100 packing with overflow dropping, and both decoders |
| `FailureNotifier.dfy` | the notifier over any run of reports and clears |
| `ScanOptions.dfy`, `Decimal.dfy`, `ScanContext.dfy` | quantum arithmetic, number strings, the dense option table |
| `PublishedText.dfy` | reading the published texts back, and choosing from them |
| `EventListenerMgr.dfy`, `MapSums.dfy` | the nested listener registry and its counter |
| `OperationQueue.dfy`, `PpdInfo.dfy` | the bounded queue; one PPD name per run of attributes |
| `Options.dfy`, `Strings.dfy`, `PrintConstants.dfy` | shared types, `strstr`, string order, job codes |

Job and monitor objects are identified by handles into maps, which stand for the heap; a handle is never reused.
What the outside world answers (CUPS, IPP, the scan service, clocks) is an argument: `Poll`, `Answer`, `Clock`, or the
booleans of an action.

Behaviours of the code that the proofs bring out, each with its exact condition and an input that shows it:

- A cancel is lost if the sender sits between its check of `isCanceled` and its push to the monitored list when the
  second critical section runs (`CancelTakesEffectIff`, `WindowIsReachable`).
- A cancel is also lost if it comes between the building of the job and its push to the queue, and the job has not
  reached the monitored list by the second section (`CancelTakesEffectIff`, `EarlyCancelIsLost`). Nothing in
  `PrintCupsClient` excludes this; the print service that calls it keeps adding and cancelling apart by a mutex of
  its own, which is not part of this model.
- An interrupt is lost in the same two ways (`InterruptTakesEffectIff`, `InterruptLostToWindow`,
  `EarlyInterruptIsLost`).
- A job can be reported twice more although its interrupt mark is already set: once by the evaluation that was past
  reading the mark, and once for the mark (`MarkIsReported`, `TwoMoreReports`).
- A stopped job's COMPLETED report can lack the "cancelled" code (`StoppedQuerySaysCancelledIff`,
  `StoppedReportCanLackCancelled`).
- `job_state_reasons` can be stale although a response was handed on (`ReasonsAreFreshIff`, `ReasonsCanBeStale`).
- "Slow conversion" is timed from the first conversion or upload since the last word that resets the timer, across
  evaluations and unrelated messages (`SlowConversionIsTimedFromFirst`, `SlowOnArrival`).
- A value inside a published scanner range can leave the device's range (`StaysInRangeIff`, `OutOfRangeExample`).
- One notice of death leaves other callbacks holding the dead listener; as many notices as there are such callbacks
  are needed (`DeadListenerGoneIff`, `DeadListenerGoneAfter`, `DeadListenerCanStay`).

The packing keeps an initial segment of the codes for every two-digit value of `PrintJobSubState`
(`SubStatesKeepPrefix`). For two-digit numbers in general it need not: `KeptIsPrefixIff` says exactly when, and
`SlipsPast` gives numbers, three of them no sub-state, for which it does not.

## Model

| member | source | states |
|---|---|---|
| PipelineInvariant.StepKeepsInv | services/print_service/src/print_cups_client.cpp:1137-1215 | every action of every thread keeps ownership, accounting, order, loop, list and report invariants |
| PipelineInvariant.ReachableInv | services/print_service/src/print_cups_client.cpp:1137-1215 | the invariant holds after any interleaving from the initial state |
| PipelineTheorems.OneOwner | services/print_service/src/print_cups_client.cpp:1159-1215 | no access to a deleted job, no double delete, one sender, owning the live current job exactly when there is one |
| PipelineTheorems.FaultsShow | services/print_service/src/print_cups_client.cpp:1159-1215 | in any state at all, sending, freeing, looking at or searching past a deleted job is recorded as a fault |
| PipelineTheorems.CallbackFreesItsOwn | services/print_service/src/print_cups_client.cpp:1204-1213 | deleting whatever is current deletes the job the calling thread has sent |
| PipelineTheorems.QuietMeansDone | services/print_service/src/print_cups_client.cpp:1151-1215 | once no worker is left nothing is queued or current and every job built has been deleted |
| PipelineTheorems.Conservation | services/print_service/src/print_cups_client.cpp:1153-1173 | every added job is in exactly one of started, removed, still queued |
| PipelineTheorems.StartedInAddedOrder | services/print_service/src/print_cups_client.cpp:1168-1173 | jobs become current in the order they were added |
| PipelineTheorems.RemovedNeverStarts | services/print_service/src/print_cups_client.cpp:2687-2696 | a job cancelled or interrupted while queued never becomes current nor monitored, in any future |
| PipelineTheorems.NoLostWakeup | services/print_service/src/print_cups_client.cpp:1940-1948 | isMonitoringRunning_ is true exactly when the one loop is alive, and a monitored job implies a loop |
| PipelineTheorems.LoopNeverStuck | services/print_service/src/print_cups_client.cpp:1979-2014 | the monitor loop always has a next step: pass entries never refer to a missing object |
| LoopTheorem.EvaluationComes | services/print_service/src/print_cups_client.cpp:1979-2014 | in any interleaving, the loop takes a bounded number of steps, whatever the evaluations answer, before it starts to evaluate a given listed job or erases it |
| LoopTheorem.LoopReaches | services/print_service/src/print_cups_client.cpp:1979-2014 | from every state the loop alone gets there within that bound |
| PipelineTheorems.CompletedJobNeverLost | services/print_service/src/print_cups_client.cpp:1994-2002 | the "completed job lost" branch is unreachable, erasure happens at most once |
| PipelineTheorems.OnlyTheLoopErases | services/print_service/src/print_cups_client.cpp:1986-2002 | a listed job leaves the list exactly when the loop that evaluated it erases it, so pushes during a pass survive it |
| PipelineTheorems.PublishedIsNew | services/print_service/src/print_cups_client.cpp:1936-1943 | a job is published as a new monitor object of its own id, service and make, behind the others |
| PipelineTheorems.EvaluationIsRecorded | services/print_service/src/print_cups_client.cpp:2025-2048 | each step of an evaluation adds its reports to the object's log and leaves the object as it says |
| PipelineTheorems.NoReportAfterErasing | services/print_service/src/print_cups_client.cpp:1990-2002 | the monitor loop's reports about a job end with its removal, over any run |
| PipelineTheorems.CompletedIsLast | services/print_service/src/print_cups_client.cpp:2025-2198 | COMPLETED is reported at most once per monitored job and last; an erased job ended on a final report, or silently when aborted after a cancel |
| RequestClaims.NeverPublishedAgain | services/print_service/src/print_cups_client.cpp:1911-1950 | a job claimed by a request and outside the window is never published by any run |
| RequestClaims.FlaggedInTimeIsNeverMonitored | services/print_service/src/print_cups_client.cpp:1919-1921 | a job flagged before its sender's check is never monitored |
| RequestClaims.UnverifiedIsNeverMonitored | services/print_service/src/print_cups_client.cpp:1887-1890 | a job whose verification fails is never monitored, over any run |
| RequestScope.OnlyTheNamedJob | services/print_service/src/print_cups_client.cpp:2674-2767 | while nobody asks for its id, no run removes or flags a job, or an object it is monitored by |
| RequestScope.UnaskedIsUntouched | services/print_service/src/print_cups_client.cpp:2674-2767 | the same for every job from the moment it is built |
| CancelTheorem.FirstSection | services/print_service/src/print_cups_client.cpp:2678-2702 | with distinct ids the first critical section removes the queued job, and leaves every job that had been added with no way to the monitored list but the window |
| CancelTheorem.ReachWindow | services/print_service/src/print_cups_client.cpp:1151-1215 | a job being added, queued or not yet checked, and not flagged, reaches its sender's window in some run |
| CancelTheorem.SecondSectionFlags | services/print_service/src/print_cups_client.cpp:2703-2716 | with distinct ids the second critical section leaves every listed object of the job flagged |
| CancelTheorem.CancelTakesEffectIff | services/print_service/src/print_cups_client.cpp:2674-2718 | whatever happens between the sections, the cancel holds in every future if and only if the job cannot be published any more; for a job that had been added: if and only if the sender is not in its window |
| CancelTheorem.WindowIsReachable | services/print_service/src/print_cups_client.cpp:1919-1942 | a concrete reachable state in which a cancel is lost to the window |
| CancelTheorem.EarlyCancelIsLost | services/print_service/src/print_cups_client.cpp:1140-1155 | a concrete reachable state in which a cancel comes before the push to the queue and is lost |
| CancelTheorem.CancelledNeverRuns | services/print_service/src/print_cups_client.cpp:2139-2157 | over any run, nothing the monitor loop reports about a job flagged as cancelled says that it runs |
| InterruptTheorem.InterruptTakesEffectIff | services/print_service/src/print_cups_client.cpp:2720-2759 | if nothing is listed, the interrupt holds in every future if and only if the job cannot be published any more; if an object is found, it is the job's and the job cannot be published again |
| InterruptTheorem.LateMarkHolds | services/print_service/src/print_cups_client.cpp:2757-2764 | marking the object found, unlocked and however late, makes the interrupt hold in every future, erased or not |
| InterruptTheorem.MarkedIsReportedOnce | services/print_service/src/print_cups_client.cpp:2025-2048 | over any run a job marked while no evaluation of it is past the mark gets at most one more report, interrupted or refused cancel, and stays listed until then |
| InterruptTheorem.MarkIsReported | services/print_service/src/print_cups_client.cpp:1989-2048 | wherever the loop is when a job is marked: over any run at most one more report of the mark's own, after at most one of the evaluation in progress, and none once its evaluation has ended |
| InterruptTheorem.MarkedGetsReported | services/print_service/src/print_cups_client.cpp:1979-2048 | from the mark the loop alone makes that report within a bounded number of steps |
| InterruptTheorem.TwoMoreReports | services/print_service/src/print_cups_client.cpp:2040-2074 | a concrete reachable state and run: the mark comes late, the evaluation in progress reports the printer offline, the next one ends the job |
| InterruptTheorem.InterruptLostToWindow | services/print_service/src/print_cups_client.cpp:1919-1942 | a concrete reachable state in which an interrupt is lost to the window |
| InterruptTheorem.EarlyInterruptIsLost | services/print_service/src/print_cups_client.cpp:1140-1155 | a concrete reachable state in which an interrupt comes before the push to the queue and is lost |
| ProgressTheorem.WorkBoundsSteps | services/print_service/src/print_cups_client.cpp:1151-1215 | without new jobs, workers take at most Work steps in any interleaving with requests and the monitor |
| ProgressTheorem.WorkerCanStep | services/print_service/src/print_cups_client.cpp:1186-1215 | no worker ever waits for another thread |
| ProgressTheorem.NothingLeftBehind | services/print_service/src/print_cups_client.cpp:1151-1215 | from every reachable state the workers can finish within Work steps, leaving nothing queued, current or allocated |
| PrintCupsClient.PrintCupsClient.GetNextJob | services/print_service/src/print_cups_client.cpp:1159-1184 | in place: takes the head into an empty slot, otherwise only looks at the last queued job |
| PrintCupsClient.PrintCupsClient.JobSentCallback | services/print_service/src/print_cups_client.cpp:1204-1213 | in place: deletes the current job and empties the slot |
| PrintCupsClient.PrintCupsClient.FindQueued | services/print_service/src/print_cups_client.cpp:2679-2685 | the search loop returns the first queued job with the id, dereferencing no further |
| PrintCupsClient.PrintCupsClient.RemoveOrFlag | services/print_service/src/print_cups_client.cpp:2678-2702 | in place: deletes and erases a queued job, or flags the current one |
| PrintCupsClient.PrintCupsClient.PublishMonitor | services/print_service/src/print_cups_client.cpp:1940-1948 | in place: push and exchange; a loop is started exactly when none was running |
| PrintCupsClient.PrintCupsClient.FindMonitor | services/print_service/src/print_cups_client.cpp:2704-2713 | the first monitored job with the id, or none |
| PrintCupsClient.PrintCupsClient.CancelMonitored | services/print_service/src/print_cups_client.cpp:2703-2716 | in place: flags that job and nothing else |
| PrintCupsClient.PrintCupsClient.EraseCompleted | services/print_service/src/print_cups_client.cpp:1995-2001 | in place: erases the object, or reports it lost exactly when it is not listed |
| PrintCupsClient.PrintCupsClient.EndPass | services/print_service/src/print_cups_client.cpp:2007-2011 | in place: clears the running flag exactly when the list is empty |
| JobMonitor.StoredIsLastReceived | services/print_service/src/print_cups_client.cpp:2495-2545 | after any responses the stored state, reasons and message are those of the last one |
| JobMonitor.ChangesPassOn | services/print_service/src/print_cups_client.cpp:2524-2544 | every change of that triple is handed on |
| JobMonitor.AtMostFourSuppressed | services/print_service/src/print_cups_client.cpp:2527-2533 | among any five consecutive responses one is handed on |
| JobMonitor.RepeatedPassesIff | services/print_service/src/print_cups_client.cpp:2524-2534 | of the responses that only repeat the stored triple the first, sixth, eleventh and so on are handed on and all others suppressed |
| JobMonitor.NewJobPassesIff | services/print_service/src/print_cups_client.cpp:2505-2534 | which responses of a new job are handed on, by position, for any sequence |
| JobMonitor.ReceivedIs | services/print_service/src/print_cups_client.cpp:2505-2523 | a response without a job state counts as pending, a missing text as empty, a text that fits is kept |
| JobMonitor.StoredReasonsAreOfLastChange | services/print_service/src/print_cups_client.cpp:2535-2544 | job_state_reasons is that of the last response that changed the triple |
| JobMonitor.LastChangeIs | services/print_service/src/print_cups_client.cpp:2524-2535 | the response said to have changed the triple last did change it, and none after it did |
| JobMonitor.ReasonsAreFreshIff | services/print_service/src/print_cups_client.cpp:2524-2544 | the stored job_state_reasons is that of the last response exactly if it changed the triple or equals that of the last one that did |
| JobMonitor.ReasonsCanBeStale | services/print_service/src/print_cups_client.cpp:2524-2532 | a response handed on while job_state_reasons still holds the old value |
| JobMonitorTheorems.PoliciesAreAligned | services/print_service/src/print_cups_client.cpp:1952-1977 | entry i of the policy array is the policy of followed state i, for every make |
| JobMonitorTheorems.BlockedIff | services/print_service/src/print_cups_client.cpp:2338-2358 | blocked exactly when one of five words, or any followed word with "-error", occurs in the reasons |
| JobMonitorTheorems.BlocksByPolicy | services/print_service/src/print_cups_client.cpp:2403-2433 | what each of the four policies makes of a word and of its "-error" form |
| JobMonitorTheorems.MatchedAre | services/print_service/src/print_cups_client.cpp:2345-2349 | the matched codes are those of the entries whose word occurs, each once, in table order |
| JobMonitorTheorems.MoreReasonsNeverUnblock | services/print_service/src/print_cups_client.cpp:2403-2433 | adding text around the reasons never unblocks a job, whatever the policies |
| JobMonitorTheorems.BlockedImpliesSubstate | services/print_service/src/print_cups_client.cpp:2352-2354 | a blocked parse has a non-zero sub-state, so the fallback is dead |
| JobMonitorTheorems.PolledSubstateDecodes | services/print_service/src/print_cups_client.cpp:2338-2401 | the sub-state after both parsers decodes to the first four or five matched codes in table order |
| JobMonitorTheorems.PolledBlockIff | services/print_service/src/print_cups_client.cpp:2360-2401 | after both parsers blocked exactly for a blocking reason, an error reason or a message error |
| ConversionTimer.TimerIsOfFirstConversion | services/print_service/src/print_cups_client.cpp:2366-2399 | after any run of evaluations the timer is the reading of the first conversion or upload since the last resetting word, in table order within a message |
| ConversionTimer.SlowConversionIsTimedFromFirst | services/print_service/src/print_cups_client.cpp:2380-2399 | after any run slow conversion is appended exactly for its own word, or for a conversion or upload found at least five seconds after that reading |
| ConversionTimer.MessageIsTold | services/print_service/src/print_cups_client.cpp:2366-2399 | after any run the message codes are those of the words found, in order, each slow conversion followed by its code |
| ConversionTimer.FoundAre | services/print_service/src/print_cups_client.cpp:2366-2370 | the words found are those the message contains, each once, in table order, with their own clock readings |
| ConversionTimer.SlowOnArrival | services/print_service/src/print_cups_client.cpp:2380-2399 | a concrete run in which a conversion is slow when it is first seen |
| JobMonitorTheorems.TimerOutlivesConversion | services/print_service/src/print_cups_client.cpp:2366-2370 | an unrelated message leaves the job and its timer untouched |
| JobMonitorTheorems.StoppedReportSaysCancelledIff | services/print_service/src/print_cups_client.cpp:2180-2190 | the COMPLETED report of a stopped job carries code 2 exactly when the sub-state is at most 42949672 |
| JobMonitorTheorems.StoppedQuerySaysCancelledIff | services/print_service/src/print_cups_client.cpp:2180-2190 | a poll that finds the job stopped reports code 2 exactly when the poll's own codes are fewer than four, or four with small leading ones |
| JobMonitorTheorems.StoppedReportCanLackCancelled | services/print_service/src/print_cups_client.cpp:2180-2190 | five concrete printer reasons for which the COMPLETED report lacks code 2 |
| JobMonitorTheorems.OneReportPerEvaluation | services/print_service/src/print_cups_client.cpp:2025-2217 | for any values the flags have at each read: at most one report, exactly one final report when the job is dropped, silent only when aborted after a cancel |
| JobMonitorTheorems.StaysMonitoredIff | services/print_service/src/print_cups_client.cpp:2025-2126 | the exact condition under which an evaluated job stays monitored |
| JobReports.RunTells | services/print_service/src/print_cups_client.cpp:2025-2217 | over any run of evaluations of a new job: the exact report and verdict of the next one, from the flags it reads, the answers so far and its own, in IPP and sub-state numbers |
| JobReports.RunIsWhatItHeard | services/print_service/src/print_cups_client.cpp:2078-2086 | after any run the stored answer, its reasons and the counter are what the looked-at responses make them; the first query is skipped and only the first |
| JobMonitorTheorems.SuccessReportedIff | services/print_service/src/print_cups_client.cpp:2096-2198 | COMPLETED with success is reported exactly for a handled IPP completed state |
| JobMonitorTheorems.ProcessingReportDecodes | services/print_service/src/print_cups_client.cpp:2139-2157 | a processing job is reported blocked or running as its response says, with codes that decode to the leading matches |
| JobMonitorParam.JobMonitorParam.BuildMonitorPolicy | services/print_service/src/print_cups_client.cpp:1969-1976 | the loop fills the array entry by entry in step with the table |
| JobMonitorParam.JobMonitorParam.UpdateJobState | services/print_service/src/print_cups_client.cpp:2495-2545 | in place: the throttled update, all fields |
| JobMonitorParam.JobMonitorParam.GetBlockedAndUpdateSubstate | services/print_service/src/print_cups_client.cpp:2403-2433 | in place: the policy decision and the appended code |
| JobMonitorParam.JobMonitorParam.ParseStateReasons | services/print_service/src/print_cups_client.cpp:2338-2358 | the loop leaves exactly the folded matched codes and the disjunction of the policy decisions |
| JobMonitorParam.JobMonitorParam.ParseStateMessage | services/print_service/src/print_cups_client.cpp:2360-2401 | the loop appends the message codes, blocks on errors and drives the conversion timer |
| JobMonitorParam.JobMonitorParam.StatusCallback | services/print_service/src/print_cups_client.cpp:2096-2217 | in place: the reports told to the service and whether to keep monitoring |
| JobMonitorParam.JobMonitorParam.QueryJobStateAndCallback | services/print_service/src/print_cups_client.cpp:2050-2094 | in place: one poll, its state change and its reports |
| JobMonitorParam.JobMonitorParam.IfContinueToHandleJobState | services/print_service/src/print_cups_client.cpp:2025-2048 | in place: a whole undisturbed evaluation |
| Substate.KeepsFourToFive | services/print_service/src/print_cups_client.cpp:2435-2445 | any codes: never beyond 32 bits, the first four always survive, a sixth never |
| Substate.FoldPacksKept | services/print_service/src/print_cups_client.cpp:2435-2445 | appending with drops equals the plain packing of the first four codes and the first later one that fits |
| Substate.KeptIsPrefixIff | services/print_service/src/print_cups_client.cpp:2435-2445 | the survivors are an initial segment exactly under a condition on the first five codes |
| Substate.SubStatesKeepPrefix | utils/include/print_constant.h:187-231 | for all two-digit sub-states the survivors are an initial segment |
| Substate.TableCodesKeepPrefix | services/print_service/src/print_cups_client.cpp:251-281 | for the client's own tables an initial segment of four or five codes survives, decided by the first two |
| Substate.SplitSubState | services/print_service/src/print_failure_ai_notifier.cpp:67-80 | the digit loop returns the set of non-zero base-100 digits |
| Substate.SplitFold | services/print_service/src/print_failure_ai_notifier.cpp:67-80 | decoding a packed sub-state yields exactly the surviving codes |
| Substate.PackInjective | services/print_service/src/print_cups_client.cpp:2438 | different code lists never share a packed value |
| Substate.GenerateErrorCodes | services/print_service/src/print_security_guard_util.cpp:75-102 | sorted, duplicate-free, and naming exactly the digits of the given sub-states; no other list is |
| Substate.ErrorNameIs | services/print_service/src/print_security_guard_util.cpp:78-88 | a code without a name of its own is "unknown", and none is "other_error" |
| Substate.AuditOfPacked | services/print_service/src/print_security_guard_util.cpp:91-101 | the audit of a packed sub-state names exactly the surviving codes |
| FailureNotifier.PrintFailureAiNotifier.HandleJobBlocked | services/print_service/src/print_failure_ai_notifier.cpp:35-65 | in place: acts, in ascending order, on the codes not known from the job's previous report |
| FailureNotifier.PrintFailureAiNotifier.ClearJobState | services/print_service/src/print_failure_ai_notifier.cpp:82-86 | in place: forgets the job, acts on nothing |
| FailureNotifier.ActsOnRisingEdgesOnly | services/print_service/src/print_failure_ai_notifier.cpp:50-64 | two actions on one code of one job are separated by a clear or a report without the code |
| FailureNotifier.MissesNoRisingEdge | services/print_service/src/print_failure_ai_notifier.cpp:39-64 | a reported code is acted on exactly when not already known, in particular after a clear or a report without it |
| FailureNotifier.RepeatTriggersNothing | services/print_service/src/print_failure_ai_notifier.cpp:51-62 | repeating a sub-state triggers nothing, whatever other jobs do in between |
| FailureNotifier.EveryEdgeIsReported | services/print_service/src/print_failure_ai_notifier.cpp:43-49 | every code acted on is reported, once and in ascending order, and shown just before unless it is the authentication code |
| FailureNotifier.PackedReportActsOnKeptCodes | services/print_service/src/print_failure_ai_notifier.cpp:35-65 | a packed report acts on its surviving codes that are not known yet |
| ScanOptions.PublishedValuesStayInHull | frameworks/ohscan/src/scan_context.cpp:186-202 | every value between the published bounds multiplies back into the hull of zero, minimum and maximum |
| ScanOptions.PublishedValuesFit | frameworks/ohscan/src/scan_context.cpp:281-292 | hence the multiplication never overflows int32_t |
| ScanOptions.QuotientFitsIff | frameworks/ohscan/src/scan_context.cpp:192-196 | INT32_MIN / -1 is the only quotient that leaves int32_t |
| ScanOptions.StaysInRangeIff | frameworks/ohscan/src/scan_context.cpp:186-202 | the published range multiplies back into the device's range exactly when it contains zero or the quantum divides the near bound |
| ScanOptions.OutOfRangeExample | frameworks/ohscan/src/scan_context.cpp:197-199 | a published value that sets the device out of range |
| Decimal.ParsesIff | frameworks/ohscan/src/scan_context.cpp:282-286 | exactly the non-empty strings of digits are numbers |
| Decimal.ParsesDecimal | frameworks/ohscan/src/scan_context.cpp:282-286 | and each character is the digit of its decimal place |
| Decimal.ReadsWithinLimits | frameworks/ohscan/src/scan_context.cpp:282-286 | a number is read up to the limits of int32_t and refused beyond |
| Decimal.ParsePrint | frameworks/ohscan/src/scan_context.cpp:282-286 | a printed int32_t parses back to itself |
| ScanContext.AcceptsIff | frameworks/ohscan/src/scan_context.cpp:161-210 | which descriptors are accepted, without building the range string |
| ScanContext.ScanParaTable.SetRangeStr | frameworks/ohscan/src/scan_context.cpp:161-210 | in place: the range string, and a quantum only for an accepted range |
| ScanContext.ScanParaTable.SetParaTable | frameworks/ohscan/src/scan_context.cpp:230-248 | in place: an accepted descriptor is appended to all four lists, a rejected one leaves no trace |
| ScanContext.HoldsStep | frameworks/ohscan/src/scan_context.cpp:140-156 | one more option keeps the table dense, aligned and traceless of rejections |
| ScanContext.GetScannerParameter | frameworks/ohscan/src/scan_context.cpp:132-159 | on success the table holds exactly the accepted options; otherwise the status of the first failure |
| ScanContext.ScanContext.ParaIndexConvert | frameworks/ohscan/src/scan_context.cpp:109-130 | the inner index of an option of the device's table, or none |
| ScanContext.ScanContext.GetOptionValueFromTable | frameworks/ohscan/src/scan_context.cpp:250-294 | status and value by option type, with the quantum applied to numbers |
| ScanContext.IndexConvertsIff | frameworks/ohscan/src/scan_context.cpp:122-128 | index conversion succeeds exactly inside the look-up's bounds and increases strictly into the accepted options |
| ScanContext.OptionValueIs | frameworks/ohscan/src/scan_context.cpp:270-293 | yes is 1, no is 0, a string is itself, a number without a quantum is itself, anything else is refused with 401 |
| PublishedText.PublishedTextReads | frameworks/ohscan/src/scan_context.cpp:161-210 | every text of the table reads back to its descriptor: bounds around the dots, words and strings between the commas, yes and no |
| PublishedText.PublishedRangeRoundTrip | frameworks/ohscan/src/scan_context.cpp:186-202 | a number between the two ends of the published text sets the device to itself times the quantum, within the hull |
| PublishedText.PublishedListRoundTrip | frameworks/ohscan/src/scan_context.cpp:167-185 | a part of a published list sets the device to the word or string it stands for |
| ScanContext.PublishedValueRoundTrip | frameworks/ohscan/src/scan_context.cpp:264-291 | a published value, printed, parsed and multiplied, arrives exactly and inside the hull |
| EventListenerMgr.TotalPut | services/print_service/src/event_listener_mgr.cpp:103-104 | replacing one list of the nested registry changes the total by the difference |
| EventListenerMgr.EventListenerMgr.RegisterPrinterListener | services/print_service/src/event_listener_mgr.cpp:75-111 | in place: replaces or appends one callback; counter equals the listeners held and stays within 1000 |
| EventListenerMgr.EventListenerMgr.RegisterExtensionListener | services/print_service/src/event_listener_mgr.cpp:113-152 | the same for extension callbacks |
| EventListenerMgr.EventListenerMgr.RegisterPrintJobListener | services/print_service/src/event_listener_mgr.cpp:154-198 | one listener per job and process; only a new job counts |
| EventListenerMgr.EventListenerMgr.UnRegisterPrinterListener | services/print_service/src/event_listener_mgr.cpp:200-225 | the callback goes with all its listeners, the counter never underflows |
| EventListenerMgr.EventListenerMgr.UnRegisterPrintJobListener | services/print_service/src/event_listener_mgr.cpp:227-268 | exactly one listener goes: that of the process's own callback if it has one, otherwise, for the service, that of some callback holding the job |
| EventListenerMgr.EventListenerMgr.OnRemoteListenerDied | services/print_service/src/event_listener_mgr.cpp:321-352 | one callback that stores the dead listener is removed and uncounted, which lowers the counter; without one nothing changes |
| EventListenerMgr.EventListenerMgr.ClearAllListeners | services/print_service/src/event_listener_mgr.cpp:354-374 | every list is emptied and the counter is zero |
| EventListenerMgr.DeadListenerGoneIff | services/print_service/src/event_listener_mgr.cpp:345-351 | after a notice of death no callback holds the listener exactly when only one did |
| EventListenerMgr.DeadListenerGoneAfter | services/print_service/src/event_listener_mgr.cpp:321-352 | a listener held by k callbacks is gone after any n notices exactly if n >= k, and then the total has fallen by what those callbacks held |
| EventListenerMgr.NoticeTakesHolder | services/print_service/src/event_listener_mgr.cpp:321-352 | a notice takes out one callback among whose fields is the dead remote, if there is one, and lowers the total |
| EventListenerMgr.NothingStoredAfter | services/print_service/src/event_listener_mgr.cpp:321-352 | after as many notices as there are such callbacks no field of any callback holds the remote |
| EventListenerMgr.JobListenerDies | services/print_service/src/event_listener_mgr.cpp:154-198 | a job listener registered through the manager leaves with its remote |
| EventListenerMgr.ExtensionListenerDies | services/print_service/src/event_listener_mgr.cpp:113-152 | so does an extension listener |
| EventListenerMgr.DeadListenerCanStay | services/print_service/src/event_listener_mgr.cpp:321-352 | one remote registered for two events through the manager: a notice of its death leaves it registered |
| OperationQueue.OperationQueue.Push | services/print_service/src/operation_queue.cpp:59-75 | accepted exactly while running; a full queue evicts its oldest waiting operation |
| OperationQueue.OperationQueue.Pop | services/print_service/src/operation_queue.cpp:77-86 | takes the oldest accepted operation without a fate, and records that it was returned |
| OperationQueue.OperationQueue.Stop | services/print_service/src/operation_queue.cpp:42-57 | discards what waits; the list is empty while not running |
| OperationQueue.ExecutedInPushOrder | services/print_service/src/operation_queue.cpp:31-40 | of any two operations Pop has returned the earlier was pushed earlier |
| OperationQueue.EveryOperationAccountedFor | services/print_service/src/operation_queue.cpp:59-86 | with their multiplicities, the popped, evicted, discarded and waiting operations are exactly the accepted ones |
| PpdInfo.ParsePPDInfo | services/print_service/src/print_cups_client.cpp:829-861 | terminates with one name per run of printer attributes that has a make and a name, the last name, in order |
| PpdInfo.ContributionIs | services/print_service/src/print_cups_client.cpp:843-859 | a run contributes a name exactly if it has a make-and-model and a name, and then that of its last name attribute |
| PpdInfo.RunsAreMaximal | services/print_service/src/print_cups_client.cpp:835-852 | the runs visited are exactly the maximal ones, in order |

## Left out

- JobMonitor.Updated: the repetition counter is unbounded; its int32_t overflow after 2^31 equal responses is not modelled.
- ScanContext.Int32Product: outside 32 bits C++ promises nothing; the model wraps, and no result depends on it.
- ScanContext.GetScannerParameter: the table starts empty, as its only caller makes it; service failures carry their already converted status.
- ScanContext.ScanContext.GetOptionValueFromTable: assumes that a stored table's length field lies within its lists, as in every table GetScannerParameter completes.
- OperationQueue.OperationQueue.Run: the worker thread, its condition variable and a race of Run against a stopping worker are not modelled.
- EventListenerMgr.EventListenerMgr.RegisterPrinterListener: assumes, as the static casts do, that an event type is only used for one kind of callback; callbacks are values replaced in their list, so sharing of callback objects is not captured.
- PrintCupsClient.PrintCupsClient.FindQueued: null entries of the queue are not modelled; none is ever pushed.
- CUPS, IPP and HTTP exchanges, sockets, files, cupsd control and printer discovery: foreign I/O, represented by arguments.
- StartMonitor as one sequential method: its iterations interleave with other threads, so it appears only as actions of the pipeline.
- Reports sent by requests and by GetNextJob after unlocking: they may arrive in any order; only the monitor loop's reports are ordered.
- Destruction of PrintCupsClient: detached threads hold a shared pointer to it.
- Order of the std::map tables: written out as sequences in ascending key order rather than sorted by the model.
- Watermark, keep-alive and authentication branches of StartCupsJob: early returns already covered by a failed verification.
- Json, parcel and native-struct plumbing, encryption, URL decoding and the remaining look-up tables: they would only add easy members.
