# Verified model of the interview platform's protocols

This project models the small protocols and state machines behind the interview platform and proves what they
promise. Each module stands for one component of the repository; `dafny verify dfyconfig.toml` checks them all.

* **WsWriter** - the outbound WebSocket writer. Any number of `send` and `close` calls and one writer goroutine
  share a mutex, a channel of capacity 64, a `closed` flag and a cancellable context; every atomic action is a step
  and a run is any interleaving. The claim of comment D18 (cancel before lock, or teardown deadlocks) is proved in
  both directions: with cancel first every run is bounded and can only end with everything returned; with lock first
  a deadlock is reachable.
* **SessionRegistry**, **SessionProtocol** - the single-active-connection lock, in memory and in Redis, and the
  connections that acquire, renew and release it in discrete time. A request to Redis may be lost before it runs or
  lose its reply.
* **CvPipeline**, **CvWorkers** - one candidate row, its queue tasks and the two workers. A worker's transaction is
  two actions, reading a copy of the row and writing all of it back, because the read takes no lock; every enqueue is
  one. Workers interleave and may die between any two actions. CvWorkers has the two handlers as they are written, run
  one delivery at a time, each step an action of CvPipeline.
* **BulkUpload** - the per-file saga that feeds the pipeline. Objects and queue tasks exist at once; all rows of a
  batch belong to the one transaction of the request, which a refused statement aborts and which commits last.
* **Interview**, **Transcript** - the interview aggregate (topic cursor, multi-turn topics, in-place probe
  insertion, status machine) and the grouping of answers into pairs for the evaluator.
* **Reconnect**, **Bubbles** - the candidate chat client: its nested retry budgets, and the frame-to-bubble reducer.
  The class `ChatSession` has the callbacks as they are written, each tied to an event of the state machine.
* **Proctoring**, **Report** - the integrity score with its rate-limited deduction, and the evaluation roll-up over
  the reals.
* **AfterCommit** - nested transaction bodies as trees, and the trace of begins, commits, rollbacks and hooks that
  running them leaves.
* **TokenLedger**, **LlmClient** - the daily token counter and the provider client with retry, backoff and fallback.
* **Webhook** - delivery attempts, by one worker at a time and by overlapping ones.

Clocks, random ids, the answers of databases, queues and providers, and the moment a process dies are parameters or
scripts, and every theorem quantifies over them.

Where the source does not keep a promise on all inputs, the code is modelled as it is, a failing input is given, and
the limit is proved:

* A candidate can be stranded when the queue hands one task to two workers at once: in `parsing` or in `parsed` by a
  parse task (`CvPipeline.DoubleParseStrands`, `CvPipeline.DoubleParseStrandsParsed`), in `extracting` by an extract
  task (`CvPipeline.DoubleExtractionStrands`). With one worker per task it cannot (`CvPipeline.NoStrandedCandidate`),
  and of the rules a run can be held to none weaker will do (`CvPipeline.LeaseIsTheLimit`). From any state in which no
  two workers share a task, it can be stranded exactly when no task carries it (`CvPipeline.CarriedExactly`).
* Overlapping transactions lose updates: a candidate can end in `pending_review` with no structured data and no token
  (`CvPipeline.LostUpdateEmptiesTheProfile`). The row is always what the writes of its lineage leave
  (`CvPipeline.RowIsItsLineage`), which says exactly when the two columns are filled
  (`CvPipeline.PendingReviewIsComplete`).
* Where no update is lost, two overlapping extractions can still put a confirmed candidate back to `pending_review`
  without a token (`CvPipeline.OverlapLosesTheToken`), exactly when a confirmation came after the last phase 1
  (`CvPipeline.SerialPendingReview`). With deliveries one after the other neither happens
  (`CvPipeline.ExtractionIsCrashIdempotent`).
* The interview lock fails exactly when a connection gets through with the session id of a live one
  (`SessionProtocol.ConnectBreaksExactly`), and a stranger gets in beside a silent connection exactly when its TTL has
  run out (`SessionProtocol.StrangerEntersExactly`).
* An empty telemetry list scores 0, not 100 (`Proctoring.EventsNeverRaiseTheScore`).
* A probe put before an answered question can take over its answer (`Transcript.EarlyProbeTakesTheAnswer`); when it
  leaves the transcript alone is stated exactly (`Transcript.ProbeIsInvisibleExactly`).
* The replay guard also drops a new question whose number or text equals that of the last bubble
  (`Bubbles.NewQuestionIsDropped`).
* A webhook whose third attempt records nothing stays pending for ever, and overlapping workers can post it up to
  seven times (`Webhook.PendingAfterThreeClaims`, `Webhook.AtMostSevenPosts`, `Webhook.SevenPostsHappen`).
* The files of a bulk upload are not independent: one refused row statement fails every later file and takes away the
  rows of the earlier ones, which keep their objects and queued tasks (`BulkUpload.RefusedInsertSplitsTheBatch`). A
  batch is all or nothing exactly when its transaction commits, or no file was accepted, and every failed file was
  undone (`BulkUpload.BatchIsAllOrNothing`).
* Hooks registered in a transaction of the transaction manager, which attaches no registry, run before its commit,
  exactly when there are any (`AfterCommit.EarlyExactly`).

## Model

| member | source | states |
|---|---|---|
| WsWriter.WriterSafety | backend/internal/interview/api/chat_handler.go:67-111 | over every interleaving: no send on a closed channel, no second close, written frames are a prefix of accepted ones, no frame is accepted twice, and after a close without a failed write everything accepted was written |
| WsWriter.LateSendIsDropped | backend/internal/interview/api/chat_handler.go:80-111 | a send called once the context is cancelled never gets its frame on the channel, however the run goes on |
| WsWriter.UncancelledSendIsAccepted | backend/internal/interview/api/chat_handler.go:80-95 | until the context is cancelled no send returns without its frame on the channel |
| WsWriter.SomeoneCanMove | backend/internal/interview/api/chat_handler.go:80-111 | with cancel before lock, some goroutine can move until all sends and closes have returned, even with a sender parked on a full channel holding the mutex and the writer gone |
| WsWriter.StepConsumesWork | backend/internal/interview/api/chat_handler.go:67-111 | every action lowers a natural measure of the work left |
| WsWriter.CloseFinishes | backend/internal/interview/api/chat_handler.go:97-111 | close always finishes: at most 7 steps per send, 6 per close and 3 more, and a run is stuck exactly when everything has returned |
| WsWriter.ParkedReachable | backend/internal/interview/api/chat_handler.go:97-101 | the state of comment D18 (full channel, dead writer, parked sender with the mutex) is reachable |
| WsWriter.LockFirstDeadlocks | backend/internal/interview/api/chat_handler.go:97-101 | locking before cancelling deadlocks in that state with close unreturned |
| SessionRegistry.MemorySessionRegistry.TryAcquire | backend/internal/interview/api/session_registry.go:36-47 | answer and new map: free key, or the same non-empty session |
| SessionRegistry.MemorySessionRegistry.Release | backend/internal/interview/api/session_registry.go:50-59 | deletes for the holder or an empty session id, else nothing |
| SessionRegistry.RedisSessionRegistry.TryAcquire | backend/internal/interview/api/session_registry.go:112-130 | answer, error and new store for every fate of the request, the placeholder for an empty id, and yes without a client |
| SessionRegistry.RedisSessionRegistry.Eval | backend/internal/interview/api/session_registry.go:76-85 | the acquire script: claim a free or lapsed key, renew for the same value, refuse otherwise |
| SessionRegistry.RedisSessionRegistry.Touch | backend/internal/interview/api/session_registry.go:133-143 | renews the TTL exactly when the session still holds the key and the request ran |
| SessionRegistry.RedisSessionRegistry.Release | backend/internal/interview/api/session_registry.go:145-160 | owner-checked delete, unconditional for an empty id |
| SessionRegistry.RedisRefinesMemory | backend/internal/interview/api/session_registry.go:36-65 | without expiry and empty ids, Redis answers every history of calls as the in-memory registry does |
| SessionRegistry.AcquireDiffersExactly | backend/internal/interview/api/session_registry.go:67-85 | with empty ids the two differ on an acquire in exactly the placeholder cases |
| SessionRegistry.ReleaseFreesExactly | backend/internal/interview/api/session_registry.go:50-59 | after a release another session gets the key exactly when the release carried the holder's id or none; other keys keep their holders |
| SessionRegistry.RedisReleaseFreesExactly | backend/internal/interview/api/session_registry.go:145-160 | the same of the Redis lock while its TTL runs |
| SessionRegistry.TouchRenewsExactly | backend/internal/interview/api/session_registry.go:133-143 | a touched lock is there at a later time exactly when its TTL reached so far or the holder touched it and the new one does |
| SessionProtocol.TimedMutualExclusion | backend/internal/interview/api/chat_handler.go:388-397 | when no connection gets through with the session id of a live one and each renews or leaves within the TTL, at most one connection per interview is live and it holds the lock, despite lost requests, lost replies and crashes |
| SessionProtocol.LeakedLocksLapse | backend/internal/interview/api/session_registry.go:76-96 | after any run, whatever leaked, one TTL without renewals later any interview can be acquired by anyone |
| SessionProtocol.ConnectBreaksExactly | backend/internal/interview/api/session_registry.go:76-85 | a connect breaks the exclusion exactly when its yes arrives and a live connection of the interview has its session id |
| SessionProtocol.StrangerEntersExactly | backend/internal/interview/api/session_registry.go:76-85 | a stranger is let in beside a live connection exactly when a TTL has passed since its last renewal |
| SessionProtocol.SharedSessionBreaksTheLock | backend/internal/interview/api/session_registry.go:81-96 | a run in which a shared session id ends with two strangers live on one interview |
| SessionProtocol.LateHeartbeatBreaksTheLock | backend/internal/interview/api/chat_handler.go:474-498 | a run in which a renewal a full TTL late ends with two connections live |
| CvPipeline.CreateApplications | backend/internal/cv/application/extract_worker.go:120-134 | the loop over active jobs adds exactly one application for each job that has none and leaves the others alone |
| CvPipeline.NoStrandedCandidate | backend/internal/cv/application/parse_worker.go:46-173 | under crashes, errors, redelivery, overlapping tasks and overlapping transactions, until the queue gives up: parsing has a live parse task, parsed a live parse or extract task, extracting a live extract task |
| CvPipeline.CarriedExactly | backend/internal/cv/application/extract_worker.go:60-233 | from any state without shared tasks: runs with one worker per task cannot strand the candidate exactly when some task carries it |
| CvPipeline.DoubleParseStrands | backend/internal/cv/application/parse_worker.go:133-151 | a run with one parse task delivered twice that leaves the candidate parsing with an empty queue |
| CvPipeline.DoubleParseStrandsParsed | backend/internal/cv/application/parse_worker.go:108-122 | another, without any lost update, that leaves it parsed with an empty queue |
| CvPipeline.LeaseIsTheLimit | backend/internal/cv/application/parse_worker.go:46-173 | of all combinations of rules on runs, exactly those with one worker per task, or one delivery at a time, keep the candidate from being stranded |
| CvPipeline.DoubleExtractionStrands | backend/internal/cv/application/extract_worker.go:212-233 | a run with one extract task delivered twice that leaves the candidate extracting with an empty queue |
| CvPipeline.RowIsItsLineage | backend/internal/cv/infrastructure/persistence/postgres_candidate_repo.go:48-119 | over every interleaving, the row is what the writes of its lineage leave one after the other; all other writes are lost |
| CvPipeline.SerialRunsKeepEveryWrite | backend/internal/cv/infrastructure/persistence/postgres_candidate_repo.go:108-119 | when no commit overwrites a changed row, the row is what all writes of the run leave, in order |
| CvPipeline.PendingReviewIsComplete | backend/internal/cv/application/extract_worker.go:95-195 | over every interleaving, double deliveries and overlapping transactions included: no notice accepted twice, exactly one application per job seen active, pending review has one accepted sync; structured data are stored exactly when the row's lineage has a phase 1 or a confirmation, a token exactly when the last of these is a phase 1 |
| CvPipeline.SerialPendingReview | backend/internal/cv/application/extract_worker.go:95-195 | without lost updates pending review has structured data, and the token is there exactly when no confirmation followed the last phase 1 |
| CvPipeline.LostUpdateEmptiesTheProfile | backend/internal/cv/application/extract_worker.go:97-111 | a run with one worker per task that ends in pending review, queue empty, with neither structured data nor token |
| CvPipeline.ExtractionIsCrashIdempotent | backend/internal/cv/application/extract_worker.go:70-195 | over crashed and retried deliveries, one at a time: pending review has structured data, a token and, with an address, exactly one accepted review email; after phase 1 first commits nothing calls the LLM |
| CvPipeline.OverlapLosesTheToken | backend/internal/cv/application/extract_worker.go:184-194 | a run of two overlapping extractions around a confirmation, with no lost update, that ends in pending review without a token |
| CvPipeline.RetryReadsAgain | backend/internal/cv/application/cv_service.go:113-120 | with nothing else queued, a retry from failed_ocr has a run that ends parsed, with text and one extract task |
| CvPipeline.RetryExtractsAgain | backend/internal/cv/application/cv_service.go:121-127 | with nothing else queued, a retry from failed_extract or parsed has a run, of one task, to pending review with the stored resume or else the LLM's, the text untouched |
| CvPipeline.OthersAreNotRetried | backend/internal/cv/application/cv_service.go:128-130 | a retry changes nothing exactly in all other statuses |
| CvPipeline.NotifiesExactly | backend/internal/cv/application/extract_worker.go:141-181 | phase 2 has the sync accepted, and the review email exactly when it was before or the row has an address and a token |
| CvPipeline.ConfirmationEndsTheReview | backend/pkg/db/migrations/033_candidate_review_name_email.up.sql:10-31 | after a confirmation the row holds the candidate's own profile and address and no token, cannot be confirmed again, and is left alone by the next extract delivery |
| CvWorkers.Deliveries.HandleParse | backend/internal/cv/application/parse_worker.go:46-130 | for every crash point and outcome: its task leaves the queue exactly on success or skip, at most one extract task joins, success means the extract task is queued and the row parsed with the text read, or as it was when it had its text, skip means failed_ocr, and of the row only status and text change |
| CvWorkers.Deliveries.HandleExtract | backend/internal/cv/application/extract_worker.go:60-195 | for every crash point and outcome: success means the stored or freshly extracted resume, a token, one sync, one email if addressed and one application per listed job; an extracted or pending candidate is left alone; no LLM call once phase 1 has committed; notices are never withdrawn and the other queue tasks stay |
| CvWorkers.Deliveries.Take | backend/internal/cv/application/extract_worker.go:212-233 | the first transaction of either handler: skips or goes on as the copy says, else marks the row, or dies before it does |
| CvWorkers.Deliveries.Transact | backend/internal/cv/application/parse_worker.go:108-121 | a later transaction, undisturbed: its own changes on the row as it was, or nothing when it dies in between |
| CvWorkers.Deliveries.ObtainResume | backend/internal/cv/application/extract_worker.go:75-89 | the stored resume when there is one; else one LLM call and what it answers, whose provider fault ends the delivery |
| CvWorkers.Deliveries.Notify | backend/internal/cv/application/extract_worker.go:141-181 | phase 2 ends with both enqueues done or the delivery dead, accepted notices only grow, and no email joins them without an address and a token |
| CvWorkers.Deliveries.ReExtract | backend/internal/cv/application/cv_service.go:113-130 | retryable exactly in the three statuses; then one parse task joins from failed_ocr, one extract task otherwise |
| BulkUpload.CVService.Ingest | backend/internal/cv/application/cv_service.go:182-214 | outcome and stores of one file for every fate of its requests, in a live or an aborted transaction, with the undo of each failed step |
| BulkUpload.CVService.BulkUpload | backend/internal/cv/application/cv_service.go:170-216 | one outcome per file in order, counters that add up to the batch, and the stores before the commit |
| BulkUpload.CVService.Finish | backend/internal/iam/api/tenant_tx_middleware.go:49-59 | the rows appear together, exactly when the transaction is live, the status below 400 and the commit carried out |
| BulkUpload.CVService.Request | backend/internal/cv/api/cv_handler.go:74-117 | the whole request, and that the outcomes reach the recruiter exactly when the commit is acknowledged |
| BulkUpload.ReasonTellsTheStep | backend/internal/cv/application/cv_service.go:182-214 | each reason is reported exactly when its step was reached and failed |
| BulkUpload.CountersMatchOutcomes | backend/internal/cv/application/cv_service.go:170-216 | the uploaded counter is the number of outcomes without a reason |
| BulkUpload.LiveExactly | backend/internal/cv/infrastructure/persistence/postgres_candidate_repo.go:22-46 | the transaction is live after i files exactly when none of their row statements was refused |
| BulkUpload.FilesMeetInTheTransaction | backend/internal/cv/application/cv_service.go:166-216 | a file of a batch fares as it would alone, in a live transaction up to the first refused row statement and in an aborted one after it |
| BulkUpload.RefusalFailsTheRest | backend/internal/cv/application/cv_service.go:197-202 | the outcome of a file is its own up to the first refusal; after it every file that gets as far as its row fails there |
| BulkUpload.FateOfFile | backend/internal/cv/application/cv_service.go:182-214 | an accepted file has its object and task, and its row exactly when the transaction commits; a failed one has no row, and nothing at all exactly when it was undone |
| BulkUpload.BatchIsAllOrNothing | backend/internal/cv/application/cv_service.go:166-216 | over every batch of new candidates: all or nothing for each file exactly when the transaction commits, unless no file was accepted, and every failed file was undone; nobody else is touched |
| BulkUpload.RefusedInsertSplitsTheBatch | backend/internal/cv/application/cv_service.go:197-202 | three files, the second INSERT refused: the first is reported accepted with object and task but no row, the third fails |
| Interview.Interview.NewInterview | backend/internal/interview/domain/interview.go:121-139 | fails exactly without questions; otherwise pending, unanswered, cursor 0 |
| Interview.Interview.Start | backend/internal/interview/domain/interview.go:143-156 | succeeds exactly from pending or in progress, stamps the start once |
| Interview.Interview.TopicTurnCount | backend/internal/interview/domain/interview.go:159-167 | the number of answers on a topic |
| Interview.Interview.NextQuestion | backend/internal/interview/domain/interview.go:231-240 | the question at the cursor while in progress, else none |
| Interview.NextIsTheFirstUnfinished | backend/internal/interview/domain/interview.go:231-240 | in every reachable state the next question is the first whose topic is not finished, and none exactly outside progress or when all are |
| Interview.Interview.ProcessTopicDialogue | backend/internal/interview/domain/interview.go:180-217 | the new state and outcome of `Dialogue`, whose meaning the four rows after this one state |
| Interview.TurnRecordsTheAnswer | backend/internal/interview/domain/interview.go:191-207 | an accepted turn appends exactly one answer: the given content and time, on the topic of the cursor, an advance unless a reply was asked for, with the turn number that is reported |
| Interview.TurnHandsOutTheNext | backend/internal/interview/domain/interview.go:207-217 | an accepted turn is reported finished exactly when its topic now is, and hands out the first question whose topic is not finished, none exactly when all are |
| Interview.TurnRefusedExactly | backend/internal/interview/domain/interview.go:180-190 | a turn is refused exactly when the interview is not in progress, the answer is blank or all topics are finished, with the error of the first that applies, and changes nothing |
| Interview.BlankExactly | backend/internal/interview/domain/interview.go:184-186 | a blank answer is one of white space only |
| Interview.Interview.InsertProbeAfter | backend/internal/interview/domain/interview.go:246-268 | append, shift and renumber in place give prefix, probe and renumbered suffix |
| Interview.Interview.Renumber | backend/internal/interview/domain/interview.go:264-266 | the loop changes exactly the numbers from its start on |
| Interview.ProbeStands | backend/internal/interview/domain/interview.go:246-268 | a probe is refused exactly outside progress or the list; else it stands at its place with the given text, marked as a probe, and answers, cursor and status stay |
| Interview.Interview.Complete | backend/internal/interview/domain/interview.go:272-283 | succeeds exactly from in progress |
| Interview.Interview.ExpireIfNeeded | backend/internal/interview/domain/interview.go:287-298 | expires exactly an unfinished interview past its deadline, if it has one, or its 30 minutes |
| Interview.Interview.SessionRemaining | backend/internal/interview/domain/interview.go:351-361 | whole seconds left of the cap, never negative |
| Interview.TranscriptShape | backend/internal/interview/domain/interview.go:180-268 | in every reachable state, for any questions: cursor in range, ascending answers, finished topics have 1-3 turns ended by advance or turn 3, the open topic at most 2 replies, later topics none, n questions with p probes at most 3(n+p) answers; questions numbered 1..n stay numbered |
| Interview.TurnKeepsShape | backend/internal/interview/domain/interview.go:180-217 | every turn keeps the shape, and an accepted one lowers the remaining capacity |
| Interview.CursorCountsFinished | backend/internal/interview/domain/interview.go:169-217 | in every reachable state the topics before the cursor are finished and no others |
| Interview.TerminalIsFinal | backend/internal/interview/domain/interview.go:143-298 | completed and expired interviews never change again |
| Interview.StatusMovesExactly | backend/internal/interview/domain/interview.go:143-298 | the events that move the status, and where to |
| Interview.CountdownMatchesExpiry | backend/internal/interview/domain/interview.go:350-361 | the countdown reads the whole seconds that are left, so zero once the cap expired the interview and, before that, exactly in the last second; the full 1800 before the start |
| Transcript.GroupAnswers | backend/internal/interview/domain/transcript.go:21-26 | every number maps to its in-range answers in order |
| Transcript.RenderGroup | backend/internal/interview/domain/transcript.go:44-58 | the loop writes `Lines`, whose meaning the three rows after this one state |
| Transcript.RenderingHoldsEveryTurn | backend/internal/interview/domain/transcript.go:44-58 | for every group there are offsets, in order and apart, at which the contents of all its answers stand in the text, each right after its own turn marker |
| Transcript.MarkerTells | backend/internal/interview/domain/transcript.go:49-57 | a marker shows, in digits that read back, the stored turn or the place when there is none, and the action, reply when there is none |
| Transcript.UnmarkedExactly | backend/internal/interview/domain/transcript.go:34-42 | the one answer of a topic stands without a marker exactly when its turn is at most 1 and its action advance or missing |
| Transcript.PairFor | backend/internal/interview/domain/transcript.go:34-64 | a plain single answer stands as it is, anything else is rendered |
| Transcript.TranscriptPairs | backend/internal/interview/domain/transcript.go:20-67 | the loops produce the pairs of the answered topics |
| Transcript.TranscriptTellsAll | backend/internal/interview/domain/transcript.go:20-67 | every answered question has its one pair, in order, with its number, category and text, whose answer text holds every answer given to it; there are no other pairs |
| Transcript.EveryAnswerIsRead | backend/internal/interview/domain/transcript.go:20-67 | every in-range answer stands, word for word, in the answer text of the pair with its number |
| Transcript.GroupingConservesAnswers | backend/internal/interview/domain/transcript.go:17-33 | every in-range answer lands in exactly one pair in its original order, no pair is empty, numbers strictly increase |
| Transcript.ReachableTranscriptIsComplete | backend/internal/interview/domain/transcript.go:20-33 | in reachable interviews the groups concatenate to the whole answer list |
| Transcript.ProbeIsInvisible | backend/internal/interview/domain/interview.go:242-268 | a probe at or after every answered question leaves the transcript unchanged and the questions numbered |
| Transcript.ProbeIsInvisibleExactly | backend/internal/interview/domain/interview.go:246-268 | for any answers and any position, the transcript is unchanged exactly when no answer has the number the probe adds, the probe reads like the question it displaces if that was answered, and every later answered question reads like the one before it |
| Transcript.EarlyProbeTakesTheAnswer | backend/internal/interview/domain/interview.go:246-268 | the smallest state in which a probe before an answered question changes the transcript |
| Reconnect.QuietStepSpends | frontend/src/lib/useChatSession.ts:129-205 | what each event takes from the reconnect, re-mint and attempt budgets |
| Reconnect.ReconnectTerminates | frontend/src/lib/useChatSession.ts:129-205 | without start, question or evaluation frame: at most 5 reconnects, 6 re-mints, 12 attempts and 59 connection events, and a stuck session is disconnected or unmounted |
| Reconnect.BudgetFromAnywhere | frontend/src/lib/useChatSession.ts:206-223 | the same from any moment of any session, by what is left of the reconnect budget; `EvaluationEndsRetries` has the end of it |
| Reconnect.FrameRefillsTheBudget | frontend/src/lib/useChatSession.ts:206-223 | after any run and a start or question frame, five losses in a row are each answered with another attempt |
| Reconnect.EvaluationEndsRetries | frontend/src/lib/useChatSession.ts:168-170 | after the evaluation, whatever follows, no reconnect is scheduled, nothing minted or attempted and no loss of connection shown |
| Reconnect.UnmountSilencesExactly | frontend/src/lib/useChatSession.ts:340-356 | after an unmount no connection is attempted exactly when no mint was pending |
| Reconnect.EveryConnectionIsWatched | frontend/src/lib/useChatSession.ts:129-205 | a new connection is one more attempt, and if it closes, another attempt, a mint or the notice follows unless the interview was evaluated |
| Reconnect.BoundsAreTight | frontend/src/lib/useChatSession.ts:156-205 | a run that reaches 5, 6 and 12 |
| Bubbles.CompleteQa | frontend/src/lib/useChatSession.ts:293-315 | the backward search completes the most recent candidate question and nothing else, or appends |
| Bubbles.AnswerMeetsItsQuestion | frontend/src/lib/useChatSession.ts:288-315 | whatever came since, short of another question, an answer lands on the last question asked, which keeps its text, and changes no other bubble |
| Bubbles.StrayAnswerIsShown | frontend/src/lib/useChatSession.ts:314 | an answer without any question gets a bubble of its own |
| Bubbles.ResponseShowsTheStream | frontend/src/lib/useChatSession.ts:258-281 | the response bubble is the last and holds the text of its frame or, when that is empty, the tokens streamed since the last response, evaluation or error |
| Bubbles.FailedAskSaysSo | frontend/src/lib/useChatSession.ts:396-410 | a question that could not be sent says so and waits no longer |
| Bubbles.FailureSparesTheRest | frontend/src/lib/useChatSession.ts:402-409 | a failed send changes nothing exactly when the last bubble is not a waiting question |
| Bubbles.SendsAreShown | frontend/src/lib/useChatSession.ts:243-369 | a sent answer is appended word for word, and a question that gets shown is appended as it came |
| Bubbles.UpdateExtends | frontend/src/lib/useChatSession.ts:243-315 | every update keeps places and ids, keeps questions untouched and distinct, and adds at most one bubble |
| Bubbles.QuestionsArePermanent | frontend/src/lib/useChatSession.ts:243-409 | over any run of frames and sends, shown questions are a prefix of those shown later and no (idx, content) appears twice |
| Bubbles.ReplayIsHarmless | frontend/src/lib/useChatSession.ts:243-252 | replaying any question ever shown changes nothing at any later time |
| Bubbles.NewQuestionIsDropped | frontend/src/lib/useChatSession.ts:244-251 | a question never shown is dropped exactly when the last bubble is a question with its number or text |
| Proctoring.TallyEvents | backend/internal/interview/domain/proctoring.go:53-105 | the loop's counters and score as weighted counts over the history |
| Proctoring.RaiseFlags | backend/internal/interview/domain/proctoring.go:107-126 | which flags are raised, in order |
| Proctoring.Calculate | backend/internal/interview/domain/proctoring.go:47-147 | the summary, with score clamp(100 - weighted counts) and its risk tier |
| Proctoring.RiskByDeduction | backend/internal/interview/domain/proctoring.go:128-144 | low exactly up to 15 points off, medium up to 40, high above, no tier exactly without events |
| Proctoring.SummaryCounts | backend/internal/interview/domain/proctoring.go:47-136 | score and counters as what they count; the score is what is left of 100 |
| Proctoring.FlagsExactly | backend/internal/interview/domain/proctoring.go:107-126 | a flag is raised exactly when its count calls for it, with that count |
| Proctoring.AbsenceCounts | backend/internal/interview/domain/proctoring.go:63-76 | a return adds the whole seconds since the last loss of focus and costs 5 exactly above 10, whatever other events came between |
| Proctoring.DeductionGrows | backend/internal/interview/domain/proctoring.go:58-104 | what each event costs in the light of all before it |
| Proctoring.GreedyIsOptimal | backend/internal/interview/domain/proctoring.go:96-103 | on chronological events the charged resizes are pairwise 30 s apart and no larger such set of resizes exists |
| Proctoring.ChargesPerInterval | backend/internal/interview/domain/proctoring.go:96-103 | at most 1 + floor(span / 30 s) resizes are charged |
| Proctoring.EventsNeverRaiseTheScore | backend/internal/interview/domain/proctoring.go:47-51 | another event never raises the score, except that the first one lifts it from 0 |
| Report.SumWeights | backend/internal/evaluation/domain/report.go:72-75 | the sum of the weights, whatever the iteration order |
| Report.ScoreDimensions | backend/internal/evaluation/domain/report.go:84-97 | running score and count of every known category |
| Report.WeighScored | backend/internal/evaluation/domain/report.go:99-106 | weighted total and weight of the scored dimensions, whatever the iteration order |
| Report.FillMissing | backend/internal/evaluation/domain/report.go:117-122 | unscored dimensions get the average, scored ones stay |
| Report.Evaluate | backend/internal/evaluation/domain/report.go:71-126 | the report of `Evaluated`, or the error exactly when the weights miss 1 by more than 1e-9; `ReportedScores` and `ReportAddsUp` state what the report says |
| Report.ReportedScores | backend/internal/evaluation/domain/report.go:84-122 | every category is reported with its weight, a scored one with the mean of its questions, any other within half a hundredth of the overall score reported |
| Report.ReportAddsUp | backend/internal/evaluation/domain/report.go:108-125 | the reported dimensions, clamped and weighted, add up to the unrounded overall within 100 times the weight tolerance, and to the overall reported within half a hundredth more |
| Report.NoScoredWeight | backend/internal/evaluation/domain/report.go:110-115 | without scored weight the overall is 0 |
| Report.RunningMeanIsMean | backend/internal/evaluation/domain/report.go:94-96 | the running update is the arithmetic mean |
| Report.OverallIsBounded | backend/internal/evaluation/domain/report.go:99-115 | the unrounded overall is in 0..100 and within any bounds of the clamped scored means |
| Report.RoundingIsClose | backend/internal/evaluation/domain/report.go:124-125 | rounding moves the overall by at most 0.005 and keeps it in 0..100 |
| Report.NeutralFillIsNeutral | backend/internal/evaluation/domain/report.go:108-122 | the weighted sum with neutral fills is the overall up to 100 times the weight tolerance |
| Report.OrderDoesNotMatter | backend/internal/evaluation/domain/report.go:88-97 | permuting the questions changes no score |
| Report.UnknownCategoriesDoNotMatter | backend/internal/evaluation/domain/report.go:89-93 | questions of unknown categories change no score |
| AfterCommit.Database.AfterCommit | backend/pkg/db/postgres.go:115-129 | inside a transaction the hook is queued, outside it runs at once with the hooks it registers |
| AfterCommit.Database.RunAfterCommit | backend/pkg/db/postgres.go:141-153 | runs what was registered in order and takes it out; only what these hooks register themselves stays behind, and does not run |
| AfterCommit.Database.RunInTx | backend/pkg/db/postgres.go:183-210 | trace, result and hooks of a joined or standalone body, a failed begin included |
| AfterCommit.Database.Middleware | backend/internal/iam/api/tenant_tx_middleware.go:16-68 | trace of a request, and that it commits exactly when every step, the handler and its status allow |
| AfterCommit.BodyTakes | backend/pkg/db/postgres.go:183-193 | the hooks a body leaves are those registered along the path it takes |
| AfterCommit.TakesOnePath | backend/pkg/db/postgres.go:183-193 | and that path is the only one |
| AfterCommit.JoinedBodiesAreSilent | backend/pkg/db/postgres.go:189-193 | a nested RunInTx begins, ends and fires nothing |
| AfterCommit.HooksRunOnceAfterCommit | backend/pkg/db/postgres.go:183-210 | for every tree: each hook registered on the path runs exactly once, in order, after the commit; none without it |
| AfterCommit.RequestHooksRunOnceAfterCommit | backend/internal/iam/api/tenant_tx_middleware.go:43-66 | the same for requests: none after an error, a status of 400 or above or a failed commit |
| AfterCommit.SwallowedHooksStillRun | backend/pkg/db/postgres.go:189-193 | hooks of an inner body whose error was swallowed run with the others |
| AfterCommit.HooksNeverRunInside | backend/pkg/db/postgres.go:194-209 | over any sequence of transactions of RunInTx no hook runs while one is open |
| AfterCommit.Database.RunManaged | backend/internal/iam/infrastructure/persistence/postgres_tx.go:22-31 | has the trace and result of `Managed`, whose meaning the next row states |
| AfterCommit.ManagedCommitsExactly | backend/internal/iam/infrastructure/persistence/postgres_tx.go:22-31 | for every tree: such a transaction commits exactly when it gets going, its body succeeds and the commit does; its trace is nothing, begin and rollback, or begin, the hooks of the path and the commit or rollback |
| AfterCommit.BareHooksRunAtOnce | backend/pkg/db/postgres.go:115-129 | in a transaction without a registry every hook registered on the path runs there and then |
| AfterCommit.EarlyExactly | backend/internal/iam/infrastructure/persistence/postgres_tx.go:22-31 | a hook runs inside such a transaction exactly when it gets going and its body registers one |
| TokenLedger.RedisTokenLedger.CheckAndRecord | backend/internal/llm/token_ledger.go:35-52 | reply and counters for every fate of the script; no cap means no record |
| TokenLedger.CountersTrack | backend/internal/llm/token_ledger.go:23-29 | the 48 h expiry never resets a counter within its day: counters hold exactly what was spent |
| TokenLedger.FirstChargeSetsTheTtl | backend/internal/llm/token_ledger.go:23-29 | a counter expires 48 h after the first charge of its day that was recorded; later ones leave that |
| TokenLedger.CountersLapse | backend/internal/llm/token_ledger.go:23-29 | over any history every counter has a TTL that ends within 48 h of the end of its day |
| TokenLedger.NoCapNoLedger | backend/internal/llm/token_ledger.go:35-38 | without a cap nothing is refused and nothing stored |
| TokenLedger.ReplyIsBySpending | backend/internal/llm/token_ledger.go:35-52 | a charge is refused exactly when the day's spending, it included, exceeds the cap |
| TokenLedger.AdmittedStaysUnderTheCap | backend/internal/llm/token_ledger.go:12-16 | charges that returned nil never sum to more than the cap, per organisation and day |
| TokenLedger.RefusalIsFinalForTheDay | backend/internal/llm/token_ledger.go:47-49 | after one refusal all later charges of the organisation that day are refused |
| LlmClient.Client.Retry | backend/internal/llm/client.go:116-142 | which call ends the loop, with what, and that k calls waited 2^(k-1) - 1 seconds |
| LlmClient.Client.Chat | backend/internal/llm/client.go:100-170 | a refused pre-charge calls nobody; the fallback is asked exactly after a retryable last failure; otherwise the primary's own answer or error is returned; the ledger is trued up |
| LlmClient.Client.ChatStream | backend/internal/llm/client.go:172-254 | the same with a retried fallback, at most 2 maxRetries calls and no true-up |
| LlmClient.FirstFinalAnswerWins | backend/internal/llm/client.go:126-134 | a success or a permanent error reached by the loop is the outcome, never masked by what would follow |
| LlmClient.FailuresAreRetriedToTheEnd | backend/internal/llm/client.go:116-142 | rate limits and upstream failures are retried to the last allowed call when no wait is cut short |
| LlmClient.CancelledExactly | backend/internal/llm/client.go:133-141 | the cancellation is the outcome exactly when a retryable call that was not the last allowed had its wait interrupted |
| LlmClient.WaitsDouble | backend/internal/llm/client.go:133-135 | the total waits of m + n calls are those of m and those of n stretched by m doublings |
| LlmClient.RefusalIsNamed | backend/internal/llm/client.go:106-112 | a refused request is reported as rate limited exactly when the ledger answered |
| LlmClient.ChatChargesWhatItUsed | backend/internal/llm/client.go:156-167 | one undisturbed Chat raises the day's counter by max(500, used) exactly when the estimate sufficed or the true-up reached the store the same day with a live context |
| LlmClient.InterleavedChatChargesWhatItUsed | backend/internal/llm/client.go:156-167 | among any other charges before, between and after its two, the counter holds max(500, used) for it exactly when the true-up was recorded the same day |
| LlmClient.InterleavedChatLeavesItsEstimate | backend/internal/llm/client.go:106-112 | a Chat without true-up leaves 500, among any other charges |
| LlmClient.RefusalStopsTheDay | backend/internal/llm/client.go:106-112 | after a refusal no later request of the organisation that day gets past its pre-charge |
| Webhook.WebhookWorker.Persist | backend/internal/integration/application/webhook_worker.go:218-226 | the conditional update and what the worker learns of it |
| Webhook.WebhookWorker.Deliver | backend/internal/integration/application/webhook_worker.go:133-214 | stored row and queue result for every response and every fate of the update |
| Webhook.WebhookWorker.Handle | backend/internal/integration/application/webhook_worker.go:62-127 | stored row and queue result of a whole handling: missing row, other organisation, removed configuration, refused claim, delivery |
| Webhook.AnswerSettles | backend/internal/integration/application/webhook_worker.go:144-214 | what a recorded outcome leaves: one attempt more, the answer with its text, delivered exactly by 200-299, failed exactly by 400-499 or a third attempt without 2xx, pending otherwise |
| Webhook.ResultTellsTheRow | backend/internal/integration/application/webhook_worker.go:117-214 | with all replies: done exactly when this handling delivered, retried exactly when a claimed delivery is still pending after a request that could be built |
| Webhook.UnacknowledgedIsRetried | backend/internal/integration/application/webhook_worker.go:111-115 | a claim or an outcome that was not acknowledged keeps the task, so done is never said of an undelivered row |
| Webhook.OrphanIsParked | backend/internal/integration/application/webhook_worker.go:98-110 | a delivery without its configuration is dropped and parked as failed, at no attempt, unless delivered or the store was lost |
| Webhook.PendingAfterThreeClaims | backend/internal/integration/application/webhook_worker.go:129-214 | one worker at a time: pending after three or more claims exactly when the first two recorded no final answer and the third recorded nothing |
| Webhook.ThirdClaimSettles | backend/internal/integration/application/webhook_worker.go:129-214 | when every attempt is recorded the third claim settles the delivery at the latest |
| Webhook.StuckForEver | backend/internal/integration/infrastructure/persistence/postgres_webhook_repo.go:155-174 | a pending row with three attempts is never claimed again |
| Webhook.GivingUpOnAPendingDelivery | backend/internal/integration/application/webhook_worker.go:100-141 | the queue drops a still pending delivery in exactly three cases |
| Webhook.DeliveredIsFinal | backend/internal/integration/infrastructure/persistence/postgres_webhook_repo.go:214-226 | under any interleaving of workers a delivered row is never written again |
| Webhook.DeliveredWasAnswered | backend/internal/integration/application/webhook_worker.go:172-182 | a delivered row holds a 2xx answer that some worker got |
| Webhook.HandlingIsARun | backend/internal/integration/application/webhook_worker.go:62-127 | a whole handling is a run of one worker's atomic steps with at most one post |
| Webhook.StepSpendsRoom | backend/internal/integration/infrastructure/persistence/postgres_webhook_repo.go:155-226 | a claim uses up one unit of a potential that no other step raises |
| Webhook.AtMostSevenPosts | backend/internal/integration/infrastructure/persistence/postgres_webhook_repo.go:155-226 | however many workers overlap, a delivery is claimed at most seven times |
| Webhook.SevenPostsHappen | backend/internal/integration/application/webhook_worker.go:144-162 | a run of three workers that claims it seven times, reviving a failed delivery |

## Left out

- WsWriter.LockFirstDeadlocks: is about an order of `close` the source does not use; it is there to prove the warning of comment D18.
- SessionProtocol.TimedMutualExclusion: does not bound how late heartbeats come; the TTL is compared with the renewals a run actually makes.
- SessionRegistry.RedisSessionRegistry.TryAcquire: keeps the key prefix and the interview id as a pair instead of concatenating them, which is the same because the prefix is fixed.
- CvPipeline.NoStrandedCandidate: assumes that a queue task is never delivered to two workers at once, because it fails otherwise (CvPipeline.LeaseIsTheLimit).
- CvPipeline.PendingReviewIsComplete: does not promise structured data or a token outright, because lost updates can remove them (CvPipeline.LostUpdateEmptiesTheProfile).
- CvPipeline.ExtractionIsCrashIdempotent: assumes non-overlapping deliveries for the token, the email and the LLM calls, because it fails otherwise (CvPipeline.OverlapLosesTheToken).
- CvWorkers.Deliveries.Transact: runs deliveries one at a time, so nothing comes between its read and its commit; CvPipeline has the interleavings.
- CvPipeline: stored resumes are opaque numbers, so a stored resume that no longer decodes is not modelled; nor is the deletion of the candidate row in mid-pipeline.
- Interview.Interview.ProcessTopicDialogue: knows the white space of ASCII and Latin-1 only, and drops the pacing telemetry.
- Interview.Interview.ExpireIfNeeded: takes differences of times as exact integers, where Go saturates them after 292 years.
- Interview: idle timeouts, candidate questions, coding sessions and the recording of telemetry are not part of the class; they only append to lists of their own.
- Reconnect.ReconnectTerminates: assumes that the next attempt starts after the close event of the last; the backoff delays themselves are not timed.
- Bubbles: the guards that stop a second send while one is pending are not modelled, so the results also cover sends the page would refuse.
- Proctoring.Calculate: away time on arbitrary event orders has no bound of its own, because a focus_regained does not clear the last focus loss; flags are kept as counts, not texts.
- Report.Evaluate: computes over the reals, so floating-point rounding is not captured, and category names are numbers.
- AfterCommit.Database.RunInTx: hooks may register hooks but do not open transactions; a body that is handed the context of outside its transaction is not modelled.
- LlmClient.Client.Chat: the method runs without other clients between its pre-charge and its true-up; LlmClient.InterleavedChatChargesWhatItUsed covers them over the ledger's histories. The retry hook, tracing and prompt contents are left out, and so is StructuredOutput, whose fallback follows any error.
- TokenLedger.CountersTrack: takes the day from the same clock as the expiry; a client whose clock is off by days is not modelled.
- Webhook.WebhookWorker.Handle: signatures, URL checks and redirects have no effect on the row and are left out; payloads that do not decode are skipped before anything is read.
- BulkUpload.CVService.BulkUpload: every error of a row statement counts as a refusal that aborts the transaction; one that the driver raises before it sends the statement would not. The single-file upload follows the same steps and is left out.
- The enqueue inside an upload request before its commit, the validation of a confirmed profile, role checks.
- The dialogue engine, the interview service, screening, the voice session, the mailer and everything that only renders.
