# Verified model of the application engine

A Dafny model of the parts of Applyuminati that must not go wrong: the executor
that submits a job application at most once, the protocol that drives a browser on
another machine, the queue that retries failed work, and the codecs, scanners and
scores around them. `dafny verify dfyconfig.toml` checks all of it.

The main results, each over every input or every run:

- An attempt's submit click is issued at most once, with its marker durable first and
  every permission behind it, whatever crashes (`AttemptRuns.AtMostOneClick`,
  `AttemptRuns.EveryClickIsPermitted`); when it can still come
  (`AttemptWitnesses.ClickableIffTaskLeft`).
- A handoff closes into a queued resume exactly when the host gives the browser back
  (`AttemptResults.HandoffClosesIff`), and then its true owner was the agent
  (`EndToEnd.HandoffClosesOnTrueOwnership`).
- Into a form goes exactly what was answered, a user's answer is never lost, and what a run
  saw decides how it ends (`RunnerResults.FillsExactly`, `ResolutionResults.AnswerIsKept`,
  `RunnerResults.RunEnds`).
- Every unanswered caller has one home, on the current connection, and only its own reply
  reaches it (`HostManagerResults.OneHome`, `HostManagerResults.DisplacedForGood`,
  `HostManagerResults.AnswersExactly`); what it is told otherwise is exact too
  (`HostManagerResults.LeavesWith`, `DispatcherResults.RefusedIff`).
- A consequential command runs at most once per key over every stream of frames, and
  repeats hear the first reply (`DispatcherResults.OncePerKey`,
  `DispatcherResults.LaterFramesEcho`, `EndToEnd.SubmitReachesPageOnce`).
- The retry queue is bounded, and which strategies really run
  (`TaskQueue.BudgetBoundsRetries`, `TaskQueue.OnlyTwoStrategiesRun`).
- Any printed JSON object is found in surrounding text
  (`StructuredProperties.ObjectFound`); an application's log rebuilds its state
  (`ApplicationMachine.LogIsTheRecord`); merging loses no source (`Dedup.NoSourceIsLost`).

The modules follow the program's own files.

- `Execution`, `Platform`, `Runner`, `RunnerProperties`, `RunnerResults`,
  `AttemptService`, `ServiceResults`, `AttemptRuns`, `AttemptResults`,
  `ResolutionResults`, `AttemptLog`, `AttemptWitnesses`: the attempt executor. A run is
  a sequence of awaited calls, each of which may answer, fail after taking effect or
  be the process's last. Histories interleave runs with deaths, lapsed leases,
  retries, resolutions and handovers. The main result is `AttemptRuns.AtMostOneClick`.
- `HostProtocol`, `HostManager`, `HostManagerResults`, `Dispatcher`,
  `DispatcherResults`, `HostClient`, `HostedSession`, `EndToEnd`: the Browser Host
  protocol from both ends, over a channel that drops, repeats, delays and reconnects.
- `Recovery`, `TaskQueue`: the recovery policy, the queue and its worker.
- `Text`, `JsonText`, `Structured`, `StructuredProperties`, `Ids`, `Decimal`,
  `Base64`, `Security`, `Downloads`: codecs and scanners.
- `LoginThrottle`, `ApplicationMachine`, `Scoring`, `Dedup`, `Retrieval`, with
  `Lists`, `Powers`, `Wrappers` and `TaskModel` below them: counters, logs and folds.

Where the source updates an object or runs a loop, the model has a class or a method
that does the same and is proved equal to a function; the lemmas are about that
function.

Several properties the documentation promises are false of the code. The code is kept
as it is. A lemma gives inputs that fail, or shows that all do, and where the promise
holds for some inputs a lemma whose name ends in `Iff` says for which:

- The worker records the first registered strategy instead of the one that ran
  (`TaskQueue.WorkerRecordsWhatRanIff`, `TaskQueue.OnlyTwoStrategiesRun`), and a row in
  RETRYING is never claimed again (`TaskQueue.RetryNeverHappens`).
- The host sends every result with sequence number zero, which the server refuses
  (`HostManagerResults.UnnumberedResultsNeverArrive`); a closing socket drops the
  connection that replaced it (`HostManagerResults.CleanupSparesOthersIff`).
- A refusal is recorded under the idempotency key and uses it up
  (`DispatcherResults.RefusedClickIsSpent`); uploads carry no key and are never sent
  (`HostedSession.HostedBrowserSession.UploadFile`); session creation is not deduplicated
  (`HostClient.EveryCreateOpens`); a given-up command may still run for five seconds
  (`DispatcherResults.GivenUpIsRefusedIff`).
- A resume can be absorbed by a row that is about to finish
  (`AttemptResults.ResumeIsClaimable`), a skipped attempt can still be submitted while a row is
  pending or running (`AttemptWitnesses.ClickableIffTaskLeft`), and an application already
  submitted can be started again (`ApplicationMachine.SubmittedMayBeStartedAgain`).
- Enrichment is limited to 0.2 for each mention and so for each dimension if and only if
  none is named twice (`Scoring.LimitHoldsIff`), and it can force SKIP
  (`Scoring.ModelForcesSkipIff`).
- Braces are tried before brackets (`StructuredProperties.ArrayFoundIff`); a shortened
  name may hold two dots in a row (`Downloads.DoubleDotIff`); session and password checks
  may raise (`Security.VerifyRaisesIff`, `Security.CheckRaisesIff`).
- A merge may lose a description (`Dedup.DescriptionLostIff`) or forget a tier
  (`Dedup.HighestTierDecidesIff` for folds, `Dedup.MergeKeepsTierIff` for one merge, with
  the failing reports of `Dedup.HigherTierForgotten`).
- Memory addresses collide when one stem continues the other
  (`Retrieval.AddressesEqualIff`, `Retrieval.OneKindCollidesIff`), and derived identifiers
  when a part holds a separator (`Ids.JoinedEqualIff`).

## Model

| member | source | states |
|---|---|---|
| AttemptRuns.AtMostOneClick | src/applyuminati/applications/runner.py:385-391 | over every history of claims, runs, deaths, lapsed leases, retries, resolutions and handovers, with a crash possible at every await, an attempt's submit click is issued at most once, and only with the marker durable and in the autonomous mode |
| AttemptRuns.EveryClickIsPermitted | src/applyuminati/applications/runner.py:323-391 | each click directly follows the commit of the marked row, in a run that read AGENT ownership, a page outside the handoff conditions, no question that stops, and the autonomous mode |
| AttemptRuns.EveryTouchIsPermitted | src/applyuminati/applications/runner.py:323-370 | over every history a field is filled or a document uploaded only by a run in a filling mode that read AGENT ownership and a page that needs no human |
| RunnerResults.FillsExactly | src/applyuminati/applications/runner.py:153-162 | every question with a field and an answer gets the text of its last usable draft, once and in order, and nothing else is filled; a broken-off fill has done so for the first questions |
| RunnerResults.RunEnds | src/applyuminati/applications/runner.py:309-401 | owner, page, questions, mode, the answer to the click and the page behind it decide every outcome a run reports, and the attempt it leaves |
| RunnerResults.QuestionsTaken | src/applyuminati/applications/runner.py:113-150 | questions are remembered and drafted once each, up to the first that stops the run, and no draft that was there is replaced |
| AttemptRuns.NothingIsUnsaid | src/applyuminati/core/models/execution.py:324-376 | over every history the marker is never cleared or changed, the event log only grows and a closed intervention stays closed |
| AttemptLog.LogAgrees | src/applyuminati/core/models/execution.py:324-376 | a new attempt is pending with nothing on record; over every history each pause, checkpoint and failure has its event and the other way round, a submission is logged once with its marker, and a cancellation or a completed submission is logged |
| AttemptRuns.CompletedIsEvidenced | src/applyuminati/applications/runner.py:275-300 | in every reachable state COMPLETED with the marker set means evidence CONFIRMED or LIKELY |
| AttemptResults.HandoffClosesIff | src/applyuminati/services/attempt_service.py:329-385 | a handoff closes if and only if the browser is given back and the closing commit takes effect, over every host set and every series of replies |
| AttemptResults.HandoffClosesOnlyAfterReclaim | src/applyuminati/services/attempt_service.py:329-385 | a handoff closes into a queued resume only right behind a reclaim request, its acceptance by the host and a reading of AGENT on a connected host; otherwise pause and queue are as before, even after a crash |
| EndToEnd.HandoffClosesOnTrueOwnership | src/applyuminati/services/attempt_service.py:329-385 | a handoff closes into a queued resume only if the host carried the reclaim out and its own record of the owner was then AGENT |
| ResolutionResults.AnswerIsKept | src/applyuminati/services/attempt_service.py:329-334 | from the first commit of its resolution on, the answer of the user stands in every draft of its question; no other draft, no other resolution and no empty answer changes any |
| ResolutionResults.ResolutionIsRecorded | src/applyuminati/services/attempt_service.py:284-348 | a resolution is written into its own pause and no other, and moves the attempt only to the state it stands for |
| AttemptResults.ResumeIsClaimable | src/applyuminati/services/attempt_service.py:387-394 | a queued resume can be claimed by a worker if and only if a pending row exists or none is running: a running row absorbs it |
| AttemptWitnesses.ClickableIffTaskLeft | src/applyuminati/services/attempt_tasks.py:80-131 | with no pause open, some history of the program still clicks if and only if the attempt is unmarked, autonomous and has a pending or running row; a skip is final exactly otherwise |
| AttemptResults.InertForever | src/applyuminati/services/attempt_tasks.py:62-131 | over every history of the program an attempt without an open pause and without a pending or running row is never driven again, rows to be retried or parked notwithstanding |
| AttemptWitnesses.MarkedNeverClicks | src/applyuminati/applications/runner.py:341-344 | once the marker is durable no later history issues a click, so a crash between commit and click means no submit at all |
| HostManagerResults.OneHome | src/applyuminati/browser/host_manager.py:185-212 | over every interleaving an unresolved caller is registered in exactly one place, under its own command, on a connection that is current |
| HostManagerResults.DisplacedForGood | src/applyuminati/browser/host_manager.py:185-212 | a displaced connection is never current again and its map is empty forever |
| HostManagerResults.AnswersExactly | src/applyuminati/browser/host_manager.py:280-305 | a result frame answers a caller if and only if it arrives on its connection, names its command and has a new number |
| HostManagerResults.LeavesWith | src/applyuminati/browser/host_manager.py:394-419 | a failed send raises BACKEND_UNAVAILABLE, a timeout TIMED_OUT, a cancelled wait CANCELLED; the command is forgotten and no other caller is disturbed |
| HostManagerResults.LostConnectionRaises | src/applyuminati/browser/host_manager.py:185-212 | callers on a displaced connection wake with CANCELLED, on a detached one with BACKEND_UNAVAILABLE, after any further run |
| HostManagerResults.OwnReply | src/applyuminati/browser/host_manager.py:292-305 | a caller is only ever handed a result with its own command identifier |
| HostManagerResults.ReplayIsRefused | src/applyuminati/browser/host_manager.py:280-290 | a number accepted once is refused at every later moment, whatever the frame carries |
| HostManagerResults.UnnumberedResultsNeverArrive | src/applyuminati/host/client.py:159-217 | results carry sequence number zero while registration carries at least one, so over every run no caller is ever answered |
| HostManagerResults.CleanupSparesOthersIff | src/applyuminati/api/routers/browser_hosts.py:346-352 | the cleanup of a closing socket leaves other connections alone if and only if that socket is the current one; after a reconnection it drops the new connection |
| DispatcherResults.OncePerKey | src/applyuminati/host/dispatcher.py:90-147 | over every stream of frames a consequential operation runs at most once per key, across sessions and even if other commands carry the key |
| DispatcherResults.ReachesSessionIff | src/applyuminati/host/dispatcher.py:90-253 | a frame reaches the session if and only if it is in time, new if consequential, owned by the agent if it acts, within the capabilities and complete |
| DispatcherResults.ReplyIsTheSessions | src/applyuminati/host/dispatcher.py:116-147 | the reply says the operation was carried out, with the payload of the session, if and only if it did not raise; otherwise INTERNAL |
| DispatcherResults.RefusedIff | src/applyuminati/host/dispatcher.py:149-253 | each error code of a new frame by its own condition |
| DispatcherResults.LaterFramesEcho | src/applyuminati/host/dispatcher.py:97-109 | where a key is used by consequential commands only, every later in-time frame gets the first reply with its own identifier and the deduplicated flag |
| DispatcherResults.UserIsLeftAlone | src/applyuminati/host/dispatcher.py:149-165 | from a takeover until ownership is handed over or a reclaim is asked for, no acting command reaches the session |
| EndToEnd.SubmitReachesPageOnce | src/applyuminati/host/client.py:195-217 | an attempt's submit reaches a page at most once however often its frame arrives |
| TaskQueue.SucceedsIff | src/applyuminati/tasks/worker.py:61-153 | a task succeeds if and only if its handler took the payload and came to its end; every other ending of such a handler costs one attempt and leaves it to be retried, parked or failed |
| TaskQueue.EachStrategyOnce | src/applyuminati/tasks/recovery.py:106-115 | over any series of failures so recorded no strategy is tried twice |
| TaskQueue.BudgetBoundsRetries | src/applyuminati/tasks/queue.py:68-113 | every failure spends budget and RETRYING means some is left: a row leaves RETRYING after at most max(1, max_attempts) failures |
| TaskQueue.WorkerRecordsWhatRanIff | src/applyuminati/tasks/worker.py:84-121 | the worker records the first registered strategy; that is the one that ran if and only if there is none or it is not on record yet |
| TaskQueue.OnlyTwoStrategiesRun | src/applyuminati/tasks/worker.py:84-121 | so over any series of failures only the first two strategies are ever used |
| StructuredProperties.ObjectFound | src/applyuminati/llm/structured.py:34-73 | an object printed in any of the ways of sections 2 and 7 of RFC 8259 is returned exactly, in any surrounding text without a fence and without an earlier brace |
| StructuredProperties.ArrayFoundIff | src/applyuminati/llm/structured.py:47-50 | an array is returned exactly if and only if the whole text holds no balanced pair of braces |
| StructuredProperties.StableSpanIff | src/applyuminati/llm/structured.py:47-73 | extracting again finds the same if and only if an object was found or the span holds no balanced braces |
| ApplicationMachine.LogIsTheRecord | src/applyuminati/applications/machine.py:54-101 | for any transition table and any interleaving of the four writers, replay equals the cached state, events chain and are legal, and submitted_at is the time of the first submitted event |
| LoginThrottle.CountIsStreak | src/applyuminati/api/security.py:249-260 | the count is the number of failures since the client was forgotten, each a penalty after the last |
| LoginThrottle.FailuresTakeTime | src/applyuminati/api/security.py:249-260 | between the first and the n-th failure lie at least 510 + 300 (n - 14) seconds, for every n from 14 on |
| Ids.OrderPreserved | src/applyuminati/core/ids.py:24-29 | numeric less-than if and only if lexicographic less-than |
| Ids.UlidsSortByTime | src/applyuminati/core/ids.py:32-36 | identifiers sort by millisecond, then by their random part, and are equal only if both are |
| Ids.JoinedEqualIff | src/applyuminati/core/ids.py:53 | two lists of parts are joined into one text if and only if cutting every part at its separators leaves the same pieces |
| Security.VerifyIssued | src/applyuminati/core/security.py:178-211 | under any reader that agrees with decimal on ASCII text, an issued token yields exactly its fields before its expiry and EXPIRED from then on, or BAD_SIGNATURE under material that signs differently |
| Security.VerifyRaisesIff | src/applyuminati/core/security.py:205-206 | for every reader of integers, verification raises instead of reporting if and only if a token of four readable parts is not ASCII in one of the first three |
| Security.CheckRaisesIff | src/applyuminati/core/security.py:93-105 | for every reader of integers, a check raises instead of answering if and only if the iteration count of a well-formed hash is one the derivation refuses |
| Downloads.IdempotentIff | src/applyuminati/browser/downloads.py:47-75 | cleaning again changes nothing if and only if there is no double dot and no dot or underscore at the end; always, if nothing was shortened |
| Downloads.ResolvePath | src/applyuminati/browser/downloads.py:96-125 | the path is refused if and only if the directory is outside the root, and is otherwise one new component inside it |
| Dedup.NoSourceIsLost | src/applyuminati/sources/dedup.py:77-83 | folding any list of jobs keeps the first job's records untouched and adds each further key once, with its first record |
| Dedup.HighestTierWins | src/applyuminati/sources/dedup.py:85-113 | if a source never changes its tier, the title is that of the first report of the highest tier |
| Dedup.HighestTierDecidesIff | src/applyuminati/sources/dedup.py:77-95 | a fold decides against every further report by the highest tier ever reported if and only if that tier was kept |
| Scoring.AdjustmentsAreBounded | src/applyuminati/scoring/llm_pass.py:96-149 | for every response scores stay in range, the confidence does not move, and the baseline moves by at most 0.2 k when each dimension is named at most k times |
| Scoring.LimitHoldsIff | src/applyuminati/scoring/llm_pass.py:92-113 | a dimension stays within 0.2 of its score for all deltas if and only if the list names it at most once |
| Scoring.HardBlockerSurvives | src/applyuminati/scoring/llm_pass.py:117-154 | a hard blocker survives every response and forces SKIP at 0.25 or less |
| Scoring.EmptyResponse | src/applyuminati/scoring/llm_pass.py:141-169 | an empty response keeps overall and confidence, and keeps the recommendation if and only if a blocker decides or the default thresholds agree with the caller's; always under the defaults |
| Retrieval.Assemble | src/applyuminati/memory/retrieval.py:50-78 | the bundle is the longest prefix of the ranked records, one for each address, within the budget; kept plus dropped equals available |
| Retrieval.BestOfEachAddress | src/applyuminati/memory/retrieval.py:60-68 | of each address exactly one record is available and none outranks it |
| Retrieval.AddressesEqualIff | src/applyuminati/memory/retrieval.py:64 | two records share an address if and only if one stem of kind and scope continues the other and the keys make up the difference |
| Retrieval.OneKindCollidesIff | src/applyuminati/memory/retrieval.py:64 | within one kind, two scopes can share an address if and only if one starts with the other and a colon |
| Execution.ApplicationAttempt.OpenIntervention | src/applyuminati/core/models/execution.py:351-376 | opening an intervention appends one open item whose handoff flag defaults by reason, and changes nothing else but the log |
| Execution.ApplicationAttempt.MarkSubmissionAttempted | src/applyuminati/applications/runner.py:192-196 | the marker is set once with its time; a second call changes nothing |
| Execution.ApplicationAttempt.Fail | src/applyuminati/applications/runner.py:233-260 | a failure ends the attempt, keeps the detail and the last checkpoint, and does not touch marker or evidence |
| Execution.ApplicationAttempt.Complete | src/applyuminati/applications/runner.py:263-272 | completion stores the evidence and the completion time |
| Platform.Connection.Commit | src/applyuminati/services/attempt_service.py:279-282 | a commit either makes the row and the queue durable together, or changes neither; the process may die on either side of it |
| Runner.VerifySubmission | src/applyuminati/applications/runner.py:210-230 | CONFIRMED if and only if a confirmation is in the page's words or its address; LIKELY if and only if it is not and a weaker phrase is; otherwise UNCERTAIN, and never NOT_ATTEMPTED |
| Runner.HandleSubmissionEvidence | src/applyuminati/applications/runner.py:275-300 | only CONFIRMED or LIKELY evidence completes; UNCERTAIN pauses for a human |
| Runner.HandoffFor | src/applyuminati/applications/runner.py:83-110 | a login wall, a challenge or a bot block opens a handoff and stops the run; other pages change nothing |
| Runner.AskQuestions | src/applyuminati/applications/runner.py:113-150 | questions are answered in order up to the first one that stops the run; that one opens a pause |
| Runner.ApplyReadyAnswers | src/applyuminati/applications/runner.py:153-162 | the loop fills what `RunnerResults.FillsExactly` says, at every crash point |
| Runner.AttachDocuments | src/applyuminati/applications/runner.py:165-189 | the loop uploads what `RunnerResults.UploadsExactly` says, at every crash point |
| Runner.ClickSubmit | src/applyuminati/applications/runner.py:385-401 | the marker is set and committed, only then the click is issued with the attempt's key, only then the page is judged |
| Runner.CompleteForm | src/applyuminati/applications/runner.py:363-401 | fill, upload, and submit only in the mode that allows it and with a submit control on the page |
| Runner.VerifyEarlierSubmit | src/applyuminati/applications/runner.py:341-344 | a run that finds the marker set looks at the page and never clicks |
| Runner.VisitForm | src/applyuminati/applications/runner.py:346-401 | ownership, navigation, handoff and questions come before anything is filled |
| Runner.RunFormApplication | src/applyuminati/applications/runner.py:309-401 | the whole run equals its specification at every crash point |
| RunnerProperties.FillingIsQuiet | src/applyuminati/applications/runner.py:153-162 | filling answers neither clicks nor commits, wherever it stops |
| RunnerProperties.UploadingIsQuiet | src/applyuminati/applications/runner.py:165-189 | uploading neither clicks nor commits, wherever it stops, and keeps the submission fields |
| RunnerProperties.QuestionsKeepSubmission | src/applyuminati/applications/runner.py:113-150 | taking questions never touches marker, mode or evidence; it pauses exactly when some question stops the run |
| RunnerProperties.EvidenceDecides | src/applyuminati/applications/runner.py:275-300 | the workflow state after a submit follows from the certainty of the evidence alone |
| RunnerProperties.MarkThenClick | src/applyuminati/applications/runner.py:385-391 | the click comes directly behind the commit of a row that carries the marker, in a run that has earned it |
| RunnerProperties.SubmitIsSafe | src/applyuminati/applications/runner.py:385-401 | marking, committing, clicking and judging keep the safety invariant at every crash point |
| RunnerProperties.FillAndSubmitIsSafe | src/applyuminati/applications/runner.py:363-401 | so does everything from the first field to the evidence |
| RunnerProperties.OpenFormIsSafe | src/applyuminati/applications/runner.py:346-401 | so does a run on an unmarked attempt |
| RunnerProperties.VerifyIsSafe | src/applyuminati/applications/runner.py:341-344 | so does a run that only verifies |
| RunnerProperties.RunFormIsSafe | src/applyuminati/applications/runner.py:309-401 | one run, cut off anywhere, leaves at most one click over the attempt's life and a marker behind every click |
| RunnerProperties.MarkedRunOnlyVerifies | src/applyuminati/applications/runner.py:341-344 | with the marker set a run reads ownership and the page and does nothing else to the browser |
| RunnerResults.FileInputsAre | src/applyuminati/applications/runner.py:178-179 | the file inputs of a page are all of them, in order |
| RunnerResults.UploadsExactly | src/applyuminati/applications/runner.py:165-189 | each input gets the document once and in order, and the answer of the browser to each is recorded |
| RunnerResults.QuestionsEnd | src/applyuminati/applications/runner.py:132-149 | the run stops if and only if some question stops it, at the first such, with a legal or an ambiguous question as the reason |
| RunnerResults.ObservationsKept | src/applyuminati/applications/runner.py:66-80 | the latest observation is always there, at most forty are, and on the one too many the latest twenty stay |
| RunnerResults.FormPrepared | src/applyuminati/applications/runner.py:363-371 | a run gets past the form only in a mode that may fill, with every answer filled in and the resume sent to every file input |
| RunnerResults.SubmitEnds | src/applyuminati/applications/runner.py:385-401 | a click the browser does not confirm fails the attempt; otherwise the page behind it decides |
| RunnerResults.DecidedEnds | src/applyuminati/applications/runner.py:371-401 | how the end of the form turns out in each mode, with and without a submit control |
| RunnerResults.StateIsReported | src/applyuminati/applications/runner.py:309-401 | the state of the attempt always agrees with the outcome reported |
| AttemptService.Enqueue | src/applyuminati/db/repositories/tasks.py:31-46 | exactly one pending row is appended if no pending or running row exists, and nothing is added beside one; a live row exists afterwards |
| AttemptService.Service.Bind | src/applyuminati/services/attempt_service.py:396-492 | an existing host session is rebound; a new one is created and adopted only if the host answers; other attempts get no session |
| AttemptService.Service.ReclaimBeforeResume | src/applyuminati/services/attempt_service.py:350-385 | true only for an item without handoff, or after an accepted reclaim followed by a reading of AGENT |
| AttemptService.Service.TakeControlBack | src/applyuminati/services/attempt_service.py:375-385 | an accepted reclaim alone is not enough: ownership is read again |
| Platform.Connection.AskForControl | src/applyuminati/services/attempt_service.py:375-377 | the request for control takes effect before its answer arrives; the answer is on record |
| AttemptService.Service.CloseAndQueue | src/applyuminati/services/attempt_service.py:336-348 | the item is closed and the attempt queued in one commit, or both stay as they were |
| AttemptService.Service.ResolveIntervention | src/applyuminati/services/attempt_service.py:284-348 | every resolution, on an open, closed or missing item, including the ones that cancel or keep control |
| AttemptService.Service.SelectOrPause | src/applyuminati/services/attempt_tasks.py:229-304 | an attempt without a host gets a backend once, or a pause that says why not |
| AttemptService.Service.RunApplicationAttempt | src/applyuminati/services/attempt_tasks.py:80-131 | one worker run, from loading the row to saving it |
| AttemptService.Service.ActivateBrowser | src/applyuminati/services/attempt_service.py:494-540 | surfacing the browser asks for a human only on a session that is present on a connected host |
| AttemptRuns.BindIsSafe | src/applyuminati/services/attempt_service.py:396-492 | binding a session keeps the safety invariant at every crash point |
| AttemptRuns.AcquireIsSafe | src/applyuminati/services/attempt_tasks.py:199-304 | so does selecting and acquiring a local browser |
| AttemptRuns.RunTaskIsSafe | src/applyuminati/services/attempt_tasks.py:80-131 | so does a whole worker run |
| AttemptRuns.ReclaimIsSafe | src/applyuminati/services/attempt_service.py:350-385 | so does reclaiming the browser |
| AttemptRuns.ResolveIsSafe | src/applyuminati/services/attempt_service.py:284-348 | so does resolving an intervention |
| AttemptRuns.OpenBrowserIsSafe | src/applyuminati/services/attempt_service.py:494-540 | so does surfacing the browser |
| AttemptRuns.StepIsSafe | src/applyuminati/services/attempt_tasks.py:62-131 | every action on an attempt keeps the safety invariant and takes nothing back from the durable row |
| AttemptRuns.RunIsSafe | src/applyuminati/services/attempt_tasks.py:62-131 | so does every sequence of actions |
| AttemptResults.UnreclaimedHandoffStaysOpen | src/applyuminati/services/attempt_service.py:336-338 | a handoff whose host is absent, refuses the reclaim or reports another owner stays open, with the queue as it was |
| AttemptResults.ReclaimSucceedsIff | src/applyuminati/services/attempt_service.py:350-385 | the browser is back if and only if the host is connected, a missing session is opened and saved, the reclaim is answered yes and ownership is then read as AGENT |
| ResolutionResults.ToldIff | src/applyuminati/services/attempt_service.py:284-348 | what the caller is told, each result by its own condition |
| ResolutionResults.PlainPauseClosesIff | src/applyuminati/services/attempt_service.py:329-348 | a pause without a handoff closes and queues if and only if its commit takes effect |
| ServiceResults.BindingIs | src/applyuminati/services/attempt_service.py:396-492 | a session the host holds is taken as it is; a new one is asked for by name and saved before use; anything else leaves all as it was |
| ServiceResults.AcquiringIs | src/applyuminati/services/attempt_tasks.py:229-304 | a backend is chosen once in a life and then acquired; a refusal waits for a human, with a handoff if one is needed |
| ServiceResults.TaskSaves | src/applyuminati/services/attempt_tasks.py:80-131 | what a run of the task saves: a failure without a job or a driver, a pause without a browser, else exactly what the form flow made of the attempt, in its own mode |
| ServiceResults.HandoverIff | src/applyuminati/services/attempt_service.py:494-540 | a human is sent to the browser, once, if and only if the host is connected and the session attaches |
| AttemptResults.CancelIsFinal | src/applyuminati/services/attempt_service.py:314-328 | skipping or cancelling the only open pause while no row is pending or running means no further click, over every history of the program |
| AttemptWitnesses.ResumeDuringRunIsLost | src/applyuminati/services/attempt_service.py:387-394 | a resume given after a run was saved but before its row was finished is lost: the attempt stays PENDING and nothing will drive it |
| AttemptWitnesses.ResumeIsLost | src/applyuminati/services/attempt_service.py:387-394 | and that is reachable from a new attempt |
| AttemptWitnesses.ClaimedRunClicks | src/applyuminati/services/attempt_tasks.py:80-131 | a run does not look at the workflow state: an unmarked autonomous attempt is submitted whatever the row says |
| AttemptWitnesses.SkippedAttemptStillClicks | src/applyuminati/services/attempt_service.py:314-320 | a skipped attempt whose row is still queued is driven again and clicks |
| AttemptWitnesses.FormWithoutSubmitStrands | src/applyuminati/applications/runner.py:371-374 | a form without a submit control ends a run as RUNNING, with nothing left to drive the attempt |
| HostManager.BrowserHostManager.constructor | src/applyuminati/browser/host_manager.py:172-176 | a new manager has no hosts and no callers |
| HostManager.BrowserHostManager.FailPending | src/applyuminati/browser/host_manager.py:149-154 | every unresolved future on the connection fails, in whatever order, and its map is emptied |
| HostManager.BrowserHostManager.Attach | src/applyuminati/browser/host_manager.py:185-212 | the new connection becomes current and the displaced one's callers fail |
| HostManager.BrowserHostManager.Detach | src/applyuminati/browser/host_manager.py:252-267 | the current connection of the host is dropped and its callers fail |
| HostManager.BrowserHostManager.CheckSequence | src/applyuminati/browser/host_manager.py:280-290 | a number is accepted if and only if it exceeds all accepted ones |
| HostManager.BrowserHostManager.HandleResult | src/applyuminati/browser/host_manager.py:292-305 | the waiting caller gets the result, an unmatched reply is dropped |
| HostManager.BrowserHostManager.Pump | src/applyuminati/api/routers/browser_hosts.py:355-400 | a frame is routed only if its number is new |
| HostManager.BrowserHostManager.BeginDispatch | src/applyuminati/browser/host_manager.py:343-392 | an absent host or a keyless consequential command is refused before anything is registered |
| HostManager.BrowserHostManager.LeaveDispatch | src/applyuminati/browser/host_manager.py:394-419 | every way out of a dispatch forgets the command |
| HostManager.FailPendingInv | src/applyuminati/browser/host_manager.py:149-154 | emptying a connection restores the registry invariant |
| HostManager.AttachInv | src/applyuminati/browser/host_manager.py:185-212 | attaching keeps the registry invariant |
| HostManager.DetachInv | src/applyuminati/browser/host_manager.py:252-267 | detaching keeps the registry invariant |
| HostManager.BeginInv | src/applyuminati/browser/host_manager.py:343-392 | dispatching keeps the registry invariant |
| HostManager.LeaveInv | src/applyuminati/browser/host_manager.py:394-419 | sending failures, timeouts, cancellations and answers keep the registry invariant |
| HostManager.FrameInv | src/applyuminati/browser/host_manager.py:280-305 | every inbound frame keeps the registry invariant |
| HostManager.RunInv | src/applyuminati/browser/host_manager.py:149-419 | every interleaving keeps the registry invariant |
| HostManagerResults.EntriesAreUnanswered | src/applyuminati/browser/host_manager.py:391-419 | every registered entry is an unanswered caller still inside dispatch, or one cancelled while sending |
| HostManagerResults.DetachedForGood | src/applyuminati/browser/host_manager.py:252-267 | likewise for a detached one |
| HostManagerResults.ResolvedOnce | src/applyuminati/browser/host_manager.py:149-154 | a future that is resolved keeps its value over every later interleaving |
| HostManagerResults.AnsweredReturns | src/applyuminati/browser/host_manager.py:405-406 | an answered caller returns that answer |
| HostManagerResults.BeginIs | src/applyuminati/browser/host_manager.py:343-392 | an absent host is refused as such, a keyless consequential command as malformed; any other is numbered, registered and sent on the current connection |
| HostManagerResults.NumberedReplyReturns | src/applyuminati/browser/host_manager.py:343-406 | a reply with a new number reaches its caller over a whole exchange |
| HostManagerResults.LeavesOnlyFrom | src/applyuminati/browser/host_manager.py:394-419 | a dispatch ends only from the phase its ending belongs to |
| HostManagerResults.SendingEnds | src/applyuminati/browser/host_manager.py:394-404 | a completed and a cancelled send |
| HostManagerResults.NumberedOneByOne | src/applyuminati/browser/host_manager.py:145-147 | over every run the counter of a connection is the number of commands sent on it |
| Dispatcher.CommandDispatcher.constructor | src/applyuminati/host/dispatcher.py:79-88 | a new dispatcher has recorded nothing |
| Dispatcher.CommandDispatcher.RefuseIfStale | src/applyuminati/host/dispatcher.py:90-109 | expired, keyless and recorded commands are answered without touching the session |
| Dispatcher.CommandDispatcher.Remember | src/applyuminati/host/dispatcher.py:111-114 | any keyed result is recorded, refusals included |
| Dispatcher.CommandDispatcher.Try | src/applyuminati/host/dispatcher.py:149-253 | the owner gate, the capability gates, the parameters and the call, in that order |
| Dispatcher.CommandDispatcher.Execute | src/applyuminati/host/dispatcher.py:116-147 | one command: stale answer, or attempt and record |
| DispatcherResults.OwnerIsReported | src/applyuminati/host/dispatcher.py:231-232 | the name of the owner, unless the question cannot be answered |
| DispatcherResults.TurnedAwayIff | src/applyuminati/host/dispatcher.py:90-109 | a late frame, a keyless one and a repeat: what each is told, and that nothing changes |
| DispatcherResults.CommandsAre | src/applyuminati/host/dispatcher.py:149-165 | which commands a human at the browser is protected from, and what each command asks for |
| DispatcherResults.SpentKeyNeverActs | src/applyuminati/host/dispatcher.py:111-135 | a recorded key never acts again |
| DispatcherResults.RefusedClickIsSpent | src/applyuminati/host/dispatcher.py:121-130 | a click refused because the user was driving never happens under its key, not even after the browser is handed back |
| DispatcherResults.RecordReplacedIff | src/applyuminati/host/dispatcher.py:111-114 | a record changes if and only if an in-time, keyed, non-consequential command carries its key |
| DispatcherResults.OverwrittenRecordEchoesAnother | src/applyuminati/host/dispatcher.py:111-114 | otherwise a repeated click can be answered with another command's reply |
| DispatcherResults.ActsOnlyAsOwner | src/applyuminati/host/dispatcher.py:149-165 | each acting operation happens while the agent owns its session |
| DispatcherResults.GivenUpIsRefusedIff | src/applyuminati/browser/host_manager.py:380-388 | a command its caller has given up on is refused by the host if and only if five more seconds have passed |
| DispatcherResults.GivenUpMayStillRun | src/applyuminati/browser/host_manager.py:380-388 | inside those seconds it is still carried out |
| HostClient.BrowserHostClient.Handle | src/applyuminati/host/client.py:159-217 | session creation goes to the factory, other commands to the dispatcher of a known session |
| HostClient.EveryCreateOpens | src/applyuminati/host/client.py:164-194 | every creation frame opens another session, repeats and expired ones included |
| HostClient.ServedOncePerKey | src/applyuminati/host/client.py:195-217 | every other consequential command still runs at most once per key |
| HostClient.OnlyOwnSessions | src/applyuminati/host/client.py:195-214 | no frame reaches a session the client does not hold |
| HostClient.UnroutedIs | src/applyuminati/host/client.py:159-214 | what a frame is told that no session handles |
| HostClient.RoutedIs | src/applyuminati/host/client.py:195-217 | a frame for a session the client holds is answered as its dispatcher says |
| HostClient.CloseForgetsEvenUnclosed | src/applyuminati/host/client.py:214-217 | a close frame forgets its session always, and closes it if and only if it is in time and ownership is answered |
| HostedSession.HostedBrowserSession.RequestHumanControl | src/applyuminati/services/hosted_session.py:156-160 | ownership is given away only on success |
| HostedSession.HostedBrowserSession.ReclaimControl | src/applyuminati/services/hosted_session.py:199-206 | ownership is taken only on success |
| HostedSession.HostedBrowserSession.ControlState | src/applyuminati/services/hosted_session.py:162-177 | the reading becomes the session's owner |
| HostedSession.HostedBrowserSession.WaitForControl | src/applyuminati/services/hosted_session.py:179-197 | the poll ends; success means the last reading, and no earlier one, was AGENT; failure means none was and the time is over |
| HostedSession.FailsClosed | src/applyuminati/services/hosted_session.py:162-177 | through the host's own dispatcher the server reads the true owner if it is answered and the user in every other case |
| HostedSession.ActionOkIff | src/applyuminati/services/hosted_session.py:265-282 | an action succeeded if and only if the host carried it out and its reply does not say otherwise |
| HostedSession.SentIs | src/applyuminati/services/hosted_session.py:211-239 | the error a caller is told: the one raised, the one the host named, or INTERNAL |
| HostedSession.PollsAre | src/applyuminati/services/hosted_session.py:179-197 | the number of polls a wait can take |
| HostedSession.HostedBrowserSession.Send | src/applyuminati/services/hosted_session.py:211-232 | a command goes to the session's host under the key it was given, and a refusal leaves the manager as it was |
| HostedSession.HostedBrowserSession.UploadFile | src/applyuminati/services/hosted_session.py:84-85 | an upload passes no key: whatever the state of the manager it fails, changes nothing and nobody waits for it; on a connected host it is refused as malformed |
| HostedSession.HostedBrowserSession.Click | src/applyuminati/services/hosted_session.py:87-98 | a click leaves if and only if its host is connected and a key was given, and then waits under its own identifier on the current connection |
| EndToEnd.SubmitKeysDiffer | src/applyuminati/applications/runner.py:199-201 | attempts never share a submit key |
| Recovery.NextIsFirstUntried | src/applyuminati/tasks/recovery.py:106-115 | the next strategy is the first registered one not tried, and none means all were tried |
| Recovery.RetriesIff | src/applyuminati/tasks/recovery.py:118-273 | exactly when a failed row is retried, over every category and hint |
| Recovery.ParksIff | src/applyuminati/tasks/recovery.py:144-226 | exactly when it is parked for a human; the attempt budget is looked at before an escalation |
| Recovery.BackoffGrows | src/applyuminati/core/models/task.py:133-140 | the backoff doubles from two seconds up to five minutes |
| Recovery.BackoffDoubles | src/applyuminati/core/models/task.py:133-140 | two seconds after the first attempt, then twice as long each time up to five minutes |
| Recovery.InvalidOutputTwice | src/applyuminati/tasks/recovery.py:256-272 | output that does not parse is retried once |
| Recovery.PickIsNext | src/applyuminati/tasks/recovery.py:106-115 | after the first k distinct strategies the next pick is the k-th |
| TaskQueue.TaskRecord.Fail | src/applyuminati/tasks/queue.py:68-113 | a failure is recorded, judged and scheduled |
| TaskQueue.TaskRecord.Complete | src/applyuminati/tasks/queue.py:62-66 | completion sets state, result and time |
| TaskQueue.TaskRecord.Block | src/applyuminati/tasks/queue.py:115-120 | blocking parks the row |
| TaskQueue.TaskRecord.Requeue | src/applyuminati/tasks/queue.py:122-135 | requeueing clears the failure and keeps attempts and strategies |
| TaskQueue.TaskWorker.Execute | src/applyuminati/tasks/worker.py:61-153 | a missing handler or a bad payload fails at once; every other ending goes through the queue; the handler gets the first untried strategy |
| TaskQueue.TimeoutsRetryCrashesPark | src/applyuminati/tasks/worker.py:120-153 | a timeout is retried and an unexpected crash parked while attempts are left; after that both fail |
| TaskQueue.FailureIsOnRecord | src/applyuminati/tasks/queue.py:68-113 | what a failed attempt leaves on the row |
| TaskQueue.ClaimsAre | src/applyuminati/db/repositories/tasks.py:48-153 | a claim takes a row if and only if it is pending and due; a lease is taken back if and only if it ran out, at the cost of an attempt |
| TaskQueue.QueuedTaskSucceeds | src/applyuminati/tasks/worker.py:61-104 | a due task that is claimed and run to its end succeeds, and one whose worker dies can be claimed again once its lease is up |
| TaskQueue.ParkedAndRequeued | src/applyuminati/tasks/queue.py:115-135 | parking and requeueing keep attempts and strategies; only the requeued row can be claimed |
| TaskQueue.RetryWaits | src/applyuminati/tasks/queue.py:108-111 | a retry is scheduled at now plus backoff, or at an explicit retry-after when rate limited and that is later; a zero delay falls back to the backoff |
| TaskQueue.RecordingWhatRanKeepsOrder | src/applyuminati/tasks/queue.py:88-90 | recording what ran keeps the tried strategies a repetition-free prefix of the registered ones |
| TaskQueue.AnnouncedIsPicked | src/applyuminati/tasks/recovery.py:247-253 | the strategy a retry announces is the one the next run picks |
| TaskQueue.ExhaustionNeverEnds | src/applyuminati/tasks/recovery.py:229-245 | and with two or more strategies the exhaustion rule never ends a row |
| TaskQueue.RetryNeverHappens | src/applyuminati/db/repositories/tasks.py:48-89 | only PENDING rows are claimed: a RETRYING row stays as it is over every life without a requeue |
| TaskQueue.RetryingHasBudget | src/applyuminati/db/repositories/tasks.py:120-153 | over every life of claims, runs, lapsed leases and requeues a RETRYING row has attempts left |
| Structured.ScanFrom | src/applyuminati/llm/structured.py:51-72 | the loop finds where the scan specified by Length ends |
| Structured.FirstSpan | src/applyuminati/llm/structured.py:48-72 | the first balanced span of one kind of bracket |
| Structured.ExtractJson | src/applyuminati/llm/structured.py:34-73 | the fence, the two scans in order and the fallback equal the specification |
| StructuredProperties.QuotedIsNeutral | src/applyuminati/llm/structured.py:56-66 | the scan crosses any JSON string without counting what is in it |
| StructuredProperties.ValueIsNeutral | src/applyuminati/llm/structured.py:51-72 | the scan crosses any JSON value and is where it was |
| StructuredProperties.ScanEndsAtClose | src/applyuminati/llm/structured.py:67-72 | the scan of a bracketed value ends at its own closing bracket |
| StructuredProperties.FencedObjectFound | src/applyuminati/llm/structured.py:41-44 | so is one in a fenced block, tagged or not |
| StructuredProperties.NothingFound | src/applyuminati/llm/structured.py:34-73 | a reply without any bracket is returned without the blanks around it |
| StructuredProperties.FenceNeedsTwoMarks | src/applyuminati/llm/structured.py:41-44 | a fenced block needs a mark that opens it and one that closes it |
| StructuredProperties.ListOfObjectsLosesTheList | src/applyuminati/llm/structured.py:47-50 | of a list that starts with an object only that object is returned |
| Ids.EncodeInto | src/applyuminati/core/ids.py:24-29 | the loop fills in the base-32 digits from the right |
| Ids.DecodeEncode | src/applyuminati/core/ids.py:24-29 | decoding gives the value back, reduced to the digits there was room for |
| Ids.EncodeDecode | src/applyuminati/core/ids.py:24-29 | every string over the alphabet is the encoding of its value |
| Ids.IssuedIsUlid | src/applyuminati/core/ids.py:32-55 | every identifier issued or derived is accepted by the pattern |
| Ids.IsUlidIff | src/applyuminati/core/ids.py:39-41 | the pattern accepts exactly the 26-digit encodings, and those with a line feed behind them |
| Ids.StableIdsEqualIff | src/applyuminati/core/ids.py:44-55 | the encoding keeps all 128 bits of the digest, and separator-free parts are joined without loss |
| Ids.SeparatorCollides | src/applyuminati/core/ids.py:53 | such a pair: a separator inside a part |
| Ids.StableIdsCollideIff | src/applyuminati/core/ids.py:44-55 | so two derivations share an identifier if and only if they leave the same pieces, the digest not colliding |
| Base64.DecodeEncode | src/applyuminati/core/security.py:61-67 | unpadded decoding inverts encoding for all byte strings (sections 3.2 and 5 of RFC 4648) |
| Base64.EncodeIsLetters | src/applyuminati/core/security.py:61-62 | stripping the padding leaves the letters, all of them URL-safe |
| Base64.DecodeIs | src/applyuminati/core/security.py:65-67 | any text without pads is refused unless it is ASCII and its pads complete the last group; otherwise its bytes spell the number its digits spell, less the bits that fill no byte |
| Base64.DigitIff | src/applyuminati/core/security.py:65-67 | which characters are read, and as what |
| Base64.ForeignIsRefused | src/applyuminati/core/security.py:65-67 | a character that is not ASCII is refused wherever it stands |
| Decimal.ParsePrint | src/applyuminati/core/security.py:178-205 | an integer printed into a token or a hash is read back as itself |
| Security.SessionRoundTrip | src/applyuminati/core/security.py:178-211 | the same under the same material, for every clock reading |
| Security.SessionIsSigned | src/applyuminati/core/security.py:188-211 | whatever the token, a session is returned only unexpired and with a signature over its own fields |
| Security.RejectedIff | src/applyuminati/core/security.py:188-211 | MALFORMED, BAD_SIGNATURE and EXPIRED, each by its own condition |
| Security.RaisesOnAccentedNonce | src/applyuminati/core/security.py:205-206 | such a token exists |
| Security.RaisesOnForeignDigit | src/applyuminati/core/security.py:199-206 | so does a token whose number is a fullwidth digit, under a reader that takes it |
| Security.PasswordRoundTrip | src/applyuminati/core/security.py:79-105 | a stored hash accepts its own password, and another one if and only if both derive to the same bytes |
| Security.WeakIff | src/applyuminati/core/security.py:79-90 | a password is refused as weak if and only if it has fewer than ten characters |
| Security.AcceptedIff | src/applyuminati/core/security.py:93-105 | a password is accepted if and only if the text is a readable hash and it derives to the digest |
| Security.ConfiguredIff | src/applyuminati/core/security.py:108-131 | what is configured counts as a hash or as a plain password, and an empty one never matches |
| Security.RaisesOnZeroCount | src/applyuminati/core/security.py:93-105 | and a zero count raises in whatever digits it is written |
| LoginThrottle.Throttle.Wait | src/applyuminati/api/security.py:241-247 | the seconds a client is told to wait |
| LoginThrottle.Throttle.RecordFailure | src/applyuminati/api/security.py:249-260 | count, penalty and eviction of the oldest entry |
| LoginThrottle.Throttle.RecordSuccess | src/applyuminati/api/security.py:262-263 | a success forgets the client |
| LoginThrottle.Throttle.LogIn | src/applyuminati/api/security.py:322-340 | a locked-out client is turned away before the password is looked at |
| LoginThrottle.NeverExceedsLimit | src/applyuminati/api/security.py:249-260 | over any logins at most max_tracked clients are tracked |
| LoginThrottle.ForgottenIff | src/applyuminati/api/security.py:257-263 | exactly when a client is forgotten; other entries are never touched |
| LoginThrottle.AdmittedExactlyThen | src/applyuminati/api/security.py:241-247 | the first moment a locked-out client is admitted again |
| LoginThrottle.BoundIsExact | src/applyuminati/api/security.py:249-260 | a client that tries as early as it may meets that bound exactly |
| Downloads.NameIsSafe | src/applyuminati/browser/downloads.py:47-75 | a name is never empty, at most 120 long, over the allowed letters, without separators and without a leading dot |
| Downloads.DirectoriesAreDiscarded | src/applyuminati/browser/downloads.py:55-57 | the last component counts and directories in front of it are dropped, under both separators |
| Downloads.GoodNameIsKept | src/applyuminati/browser/downloads.py:53-75 | a name that needs no cleaning is taken as it is, whatever blanks surround it; nothing becomes the default |
| Downloads.RunBecomesUnderscore | src/applyuminati/browser/downloads.py:59 | allowed characters are kept and every run of others becomes one underscore |
| Downloads.RunBecomesDot | src/applyuminati/browser/downloads.py:60 | every run of dots becomes one dot |
| Downloads.ShorteningKeepsExtension | src/applyuminati/browser/downloads.py:69-75 | a long name is cut in its stem and keeps a short extension |
| Downloads.EmptyPartsAreSkipped | src/applyuminati/browser/downloads.py:58 | separators at the end and single dots do not count |
| Downloads.DriveIsDropped | src/applyuminati/browser/downloads.py:58 | a drive and a root are not part of a name |
| Downloads.ShareIsDropped | src/applyuminati/browser/downloads.py:58 | nor is a network share |
| Downloads.ShareHasNoName | src/applyuminati/browser/downloads.py:58 | a share alone leaves no name |
| Downloads.LongShareIsDropped | src/applyuminati/browser/downloads.py:58 | nor is one behind the long prefix, in either case of its letters |
| Downloads.DoubleDotIff | src/applyuminati/browser/downloads.py:69-75 | a name holds two dots in a row if and only if its stem was cut right behind a dot |
| Downloads.FreeName | src/applyuminati/browser/downloads.py:109-116 | the collision loop ends and finds the least free number |
| Downloads.SuffixedIsSafe | src/applyuminati/browser/downloads.py:113-116 | a numbered name is still one plain component |
| ApplicationMachine.Machine.Transition | src/applyuminati/applications/machine.py:35-88 | an illegal move changes nothing; a legal one appends its event and moves the state, and the first submitted state sets the submission time |
| ApplicationMachine.Machine.ReplayLog | src/applyuminati/applications/machine.py:90-101 | the state rebuilt from the log |
| ApplicationMachine.Machine.AdvanceToApplying | src/applyuminati/services/attempt_service.py:216-253 | the walk to APPLYING, hop by hop |
| ApplicationMachine.Machine.Reconcile | src/applyuminati/services/attempt_tasks.py:148-190 | what an ended attempt does to the application |
| ApplicationMachine.Machine.ApplyScore | src/applyuminati/services/scoring_service.py:170-208 | what a new score does to it |
| ApplicationMachine.SubmittedAtIsFixed | src/applyuminati/applications/machine.py:86-87 | once set, submitted_at never changes |
| ApplicationMachine.StartReachesApplyingIff | src/applyuminati/services/attempt_service.py:216-253 | starting an attempt reaches APPLYING if and only if the application is in one of seven states; it changes nothing in the others |
| ApplicationMachine.StartedAndCompleted | src/applyuminati/services/attempt_tasks.py:142-178 | an application that is started and completed has been submitted, at that time |
| ApplicationMachine.AlreadyApplying | src/applyuminati/services/attempt_service.py:216-253 | an application that is applying stays as it is under any table; which states mean it is with the employer |
| ApplicationMachine.CompletionRecordedIff | src/applyuminati/services/attempt_tasks.py:142-178 | a completed attempt leaves the application SUBMITTED if and only if it was APPLYING, NEEDS_ATTENTION or SUBMITTED |
| ApplicationMachine.FillOnlyCountsAsSubmitted | src/applyuminati/services/attempt_tasks.py:142-178 | a completed attempt that was told never to submit marks the application as submitted |
| ApplicationMachine.CancellationIs | src/applyuminati/services/attempt_tasks.py:142-178 | a cancelled attempt withdraws the application where that is legal, skips it where only that is, and leaves it alone otherwise |
| ApplicationMachine.CancelledWhere | src/applyuminati/services/attempt_tasks.py:142-178 | from which states it is withdrawn, and from which skipped |
| ApplicationMachine.OtherEndingsChangeNothing | src/applyuminati/services/attempt_tasks.py:142-158 | no other ending moves the application |
| ApplicationMachine.SubmittedMayBeStartedAgain | src/applyuminati/services/attempt_service.py:164-214 | an application already submitted does not stand in the way of a new attempt |
| ApplicationMachine.RescoreRegressesIff | src/applyuminati/services/scoring_service.py:170-208 | exactly when a re-score pulls back an application that was submitted |
| ApplicationMachine.SubmittedThenSkipped | src/applyuminati/services/scoring_service.py:170-208 | and that happens |
| Scoring.ApplyAdjustments | src/applyuminati/scoring/llm_pass.py:96-114 | the adjustments, applied one by one to the dimension of their name |
| Scoring.MergeMissing | src/applyuminati/scoring/llm_pass.py:117-138 | new requirements are appended, those already there are not |
| Scoring.NudgedMoves | src/applyuminati/scoring/llm_pass.py:92-113 | one mention moves a dimension by at most 0.2, k mentions by 0.2 k, within the unit range |
| Scoring.NudgedExactly | src/applyuminati/scoring/llm_pass.py:92-113 | an adjustment moves its dimension by exactly the delta asked for, within 0.2 and the unit range, and marks it |
| Scoring.NudgedInOrder | src/applyuminati/scoring/llm_pass.py:96-114 | adjustments apply in order, and a dimension is marked if and only if one names it |
| Scoring.RepeatedAdjustmentsAddUp | src/applyuminati/scoring/llm_pass.py:100-113 | two mentions move a score by 0.4 |
| Scoring.AddsBlockerIff | src/applyuminati/scoring/llm_pass.py:117-138 | exactly which suggestions become blockers |
| Scoring.AdditionsAre | src/applyuminati/scoring/llm_pass.py:117-138 | the additions are the readings of exactly the suggestions that suggest something new, in order |
| Scoring.EnrichedKeeps | src/applyuminati/scoring/llm_pass.py:208-219 | requirements that were there stay in front, and uncertainties are the union of both lists |
| Scoring.ModelForcesSkipIff | src/applyuminati/scoring/llm_pass.py:141-169 | a response forces SKIP if and only if it names a new hard requirement or moves the baseline below the threshold |
| Scoring.EmptyResponseDemotes | src/applyuminati/core/strategy.py:129-141 | under the wide preset an empty response turns APPLY into INVESTIGATE |
| Scoring.UnavailableKeepsScore | src/applyuminati/scoring/llm_pass.py:189-207 | an unavailable model costs one line of uncertainty and nothing else |
| Scoring.BaselineIsAMean | src/applyuminati/scoring/engine.py:31-36 | the weighted baseline lies between any bounds that all scores keep |
| Scoring.JudgedInRange | src/applyuminati/scoring/engine.py:31-95 | overall and confidence are between zero and one, and a blocked score is at most 0.25 and skipped |
| Scoring.RecommendedIff | src/applyuminati/scoring/engine.py:77-95 | APPLY if and only if score and confidence reach their minimum without a hard blocker; SKIP if and only if there is one or the score is below the threshold |
| Scoring.RejudgedIff | src/applyuminati/scoring/llm_pass.py:141-169 | after a response of the model the same with fixed limits |
| Scoring.MeansAre | src/applyuminati/scoring/engine.py:31-46 | baseline and confidence are the weighted means, never above one, and have fixed values without weights |
| Dedup.MergeRecords | src/applyuminati/sources/dedup.py:77-83 | the loop adds the records whose key is new, in order |
| Dedup.Merge | src/applyuminati/sources/dedup.py:75-130 | all fields of a merge, and the one case in which it raises |
| Dedup.RequirementsInOrder | src/applyuminati/sources/dedup.py:100-104 | list fields are the distinct entries in order of first occurrence |
| Dedup.SkillsAreTheUnion | src/applyuminati/sources/dedup.py:105 | skills are the sorted union of all reports |
| Dedup.SkillsIgnoreOrder | src/applyuminati/sources/dedup.py:105 | whatever the order of the reports |
| Dedup.SeenSpan | src/applyuminati/sources/dedup.py:123-124 | first seen is the minimum and last seen the maximum of all reports |
| Dedup.EveryMergeIsOnFile | src/applyuminati/sources/dedup.py:97 | every merged identifier is on file, in order |
| Dedup.BestIs | src/applyuminati/sources/dedup.py:85-86 | the canonical URL is taken from a record that no other exceeds in tier and confidence |
| Dedup.CanonicalUrlLeads | src/applyuminati/sources/dedup.py:85-86 | the canonical URL is that of the first among the most confident records of the most trusted tier on file |
| Dedup.WinnerSpeaks | src/applyuminati/sources/dedup.py:107-118 | title and description are those of the job with the more trusted record, the existing one on a tie |
| Dedup.LatestPayFirstPosting | src/applyuminati/sources/dedup.py:107-125 | the compensation of a fold is the latest reported, its posting time the first |
| Dedup.FoldRaisesIff | src/applyuminati/sources/dedup.py:85-86 | a fold raises if and only if its first merge finds no record |
| Dedup.TierKeptIff | src/applyuminati/sources/dedup.py:77-83 | the added records reach the highest tier of both lists if and only if the first list has it or a record of that tier comes with a new key |
| Dedup.MergeKeepsTierIff | src/applyuminati/sources/dedup.py:77-95 | so a merged job reports at least the tiers of both sides if and only if that holds; the existing side is never lost |
| Dedup.HigherTierForgotten | src/applyuminati/sources/dedup.py:77-95 | where the tier is not kept a lower one wins later, for every such three reports |
| Dedup.DescriptionLostIff | src/applyuminati/sources/dedup.py:118 | exactly when a merge loses a description |
| Retrieval.Gather | src/applyuminati/memory/retrieval.py:51-55 | everything recalled, kind by kind |
| Retrieval.DropRepeats | src/applyuminati/memory/retrieval.py:60-68 | the first record of every address |
| Retrieval.KeepWithin | src/applyuminati/memory/retrieval.py:70-78 | the longest prefix that fits the budget |
| Retrieval.RankedIs | src/applyuminati/memory/retrieval.py:58 | the ranking falls, rearranges what was recalled and is stable |
| Retrieval.ConfidenceThenRecency | src/applyuminati/memory/retrieval.py:58 | confidence falls along the ranking, and among equals the time of the last update does |
| Retrieval.FlatIs | src/applyuminati/memory/retrieval.py:51-55 | all that was recalled is gathered, kind by kind and in order |
| Retrieval.CharsAre | src/applyuminati/memory/retrieval.py:70-78 | the size of a bundle is the sum of the sizes of its contents |
| Retrieval.ScopesCollideIff | src/applyuminati/memory/retrieval.py:64 | for any two kinds and scopes, some keys share an address if and only if one stem continues the other |
| Retrieval.KindsNeverCollide | src/applyuminati/memory/retrieval.py:64 | records of different kinds never share one, as no kind has a colon |
| Retrieval.AddressIsInjective | src/applyuminati/memory/retrieval.py:64 | in particular an address stands for kind, scope and key where neither kind nor scope has a colon |
| Retrieval.ColonsCollide | src/applyuminati/memory/retrieval.py:64 | two scopes that share an address |
| Retrieval.OnlyOneOfBoth | src/applyuminati/memory/retrieval.py:64-67 | and then one of the two lessons is not available |

## Left out

- AttemptRuns.AtMostOneClick: one worker drives an attempt at a time, every service call is one step, and no stale copy of a row is saved over a newer one; two workers on one attempt are not modelled.
- AttemptRuns.AtMostOneClick: it is about one attempt; several attempts for one job may each submit (`ApplicationMachine.SubmittedMayBeStartedAgain`).
- AttemptRuns.StepIsSafe: the step that moves a RETRYING or BLOCKED row back to PENDING is more than the program does; it only widens the safety results. `AttemptResults.InertForever`, `AttemptResults.CancelIsFinal` and `AttemptWitnesses.ClickableIffTaskLeft` speak of histories without it. An operator's requeue has no caller in the program and is not among the steps.
- DispatcherResults.OncePerKey: a host process that restarts forgets its records; only one life of the process is modelled.
- HostManager.RunInv: command identifiers are fresh, and attach and detach are single steps because their lock is not contended.
- HostManagerResults.NumberedOneByOne: counts commands only; the acceptance frame of a new connection, which takes a number of its own, is not modelled.
- EndToEnd.HandoffClosesOnTrueOwnership: the host's record of the owner is the one its dispatcher had when it answered; what a human does after that answer is not ruled out.
- HostedSession.HostedBrowserSession.Send: the manager half of a dispatch; waiting for the reply and turning a refusal into an error belong to `HostManager`.
- HostedSession.HostedBrowserSession.WaitForControl: a sleep lasts at least as long as asked for.
- Runner.AskQuestions: a run pauses again on a question the user has already answered (`src/applyuminati/applications/runner.py:125-149`); only safety is stated there.
- TaskQueue.RetryWaits: the floating-point overflow of the backoff beyond a thousand attempts and the microsecond rounding of delays are not modelled.
- Scoring.AdjustmentsAreBounded: scores are real numbers; rounding and not-a-number are not modelled. The engine lists every dimension once, which the lemma requires.
- Security.VerifyIssued: HMAC, SHA-256 and PBKDF2 are arbitrary functions, and integers are read by any function that agrees with decimal on ASCII text; nothing is said about their strength or about comparison times.
- Decimal.ParsePrint: the reader of ASCII text; what the program's own reader makes of other scripts is a parameter of `Security`. The limit on very long digit strings is not modelled.
- Base64.DecodeIs: the decoder is the lenient one of the Python library, which skips characters outside its alphabets; of texts that hold pads of their own only the round trip is stated.
- Downloads.ResolvePath: resolving symbolic links is outside the model; paths are lists of components and the directory's entries are a set. Windows drives and shares are split as in Python 3.12.
- Text.Lower: only ASCII letters change case.
- Ids.UlidsSortByTime: the clock and the random bytes are parameters; times beyond ten base-32 digits wrap.
- Structured.ExtractJson: the regular expression for the fence is a function, since its engine is a library; it finds the first pair of fences as the expression does.
- Dedup.Merge: fields combined like ones that are modelled (company, department, apply URL, valid-through and the like) are not repeated; URL normalisation is a parameter.
- ApplicationMachine.LogIsTheRecord: each transition reads the clock once, and actor, reason and message of an event are not kept.
- Registration, heartbeats and reconnect delays of the host client, and the parsing of frames: input and output.
- Telling two openings apart (similarity, location compatibility): heuristics over a library whose results are not visible.
- Schema rewriting in `src/applyuminati/llm/structured.py`, the database layer and its mappers, browser plugins, routers, command line, terminal and web interfaces: field copies, foreign calls or plumbing.
- The clock is one reading for each worker run; task-space identifiers, message texts and raw payloads of the executor are not kept.
