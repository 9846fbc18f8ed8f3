# ContextLens: a verified model of its core

ContextLens benchmarks retrieval-augmented question answering. This project models the parts of it
whose correctness is hardest to see, and proves what they promise.

**The durable full run** (`RunLifecycle`, `Protocol`, `FullRunSafety`, `Settling`, `Attempt`,
`Recovery`, `Liveness`, `PipelineOutcome`, `Worker`, `QueueView`). A full benchmark run is a
database row that moves through `running`, `retrieval_completed`, `generation_completed` and
`completed`, or to `failed`, and that collects retrieval, generation and evaluation rows on the way.
Queue jobs drive it under a Redis lock, commit each phase on its own, may raise or die anywhere, are
retried, and end in a failure callback; operators requeue runs and clear stale locks.
`Protocol.Step` is one atomic step of that system and `Protocol.Exec` an arbitrary list of enabled
steps, so a lemma about `Reaches` speaks about every interleaving. A phase is two steps, begin (open
a session, read the status) and commit (write rows and status in one transaction); the status a
phase's guards test is the one its session read first, because the session keeps returning the same
object. `Attempt` is one attempt taken alone, as a function of what the three external calls do, and
is proved to be an execution of the protocol; `PipelineOutcome` says how it ends, from those calls
alone. `Worker` holds the mutable objects (run record, lock, queue) whose methods are proved against
those functions, and `QueueView` reads the queue and the lock as the jobs and the lock of the
protocol.

**The text chunker** (`Text`, `Splitter`, `LostStops`, `Tiling`, `OffsetRecovery`, `OffsetSearch`,
`ExactOffsets`, `MergedRuns`, `OffsetOutcomes`, `GreedyPacking`, `FullChunks`, `FixedWindows`,
`Chunker`). Sliding windows with overlap, the recursive separator splitter, and the recovery of
source offsets by searching for each piece.

**Smaller cores.** Cost estimates and their rounding (`Cost`); the CSV export and an independent
reader for section 2 of RFC 4180 with a line feed between records (`Csv`, `DashboardExport`); the
balanced experiment planner (`Candidates`, `Planner`, `ExperimentPlan`, `QueryOverlap`); the lexical
retrieval evaluator (`Tokens`, `RetrievalEvaluator`); the config-comparison query and its strict
mode (`ComparisonQuery`, `ScoreRanking`, `ConfigComparison`, `ComparisonMeaning`). `Basics` and
`Lists` are shared vocabulary.

Results of vector search, answer model and judge are parameters of the steps: nothing is assumed
about them, except in the refinement theorem, which needs them to be functions of their inputs.
Clocks and latencies are parameters too.

## What turned out differently from its description

- The stale-lock test (newest job failed, stopped or canceled, run `running` or `failed`) does not by
  itself show that no live work holds the lock: `FullRunSafety.StaleTestAloneIsUnsafe` is an execution
  in which it holds beside a live worker. A run is requeued while its first job waits, the second job uses
  up its attempts, the first one starts, and the next requeue lets a second worker in.
  `FullRunSafety.StaleClearSafeIff` says exactly when clearing ends mutual exclusion, and
  `FullRunSafety.StaleClearSafeWhenNoneStarted` gives a condition an operator can read from the queue. In
  the protocol the step carries the hypothesis that every other job of the run has ended.
- Retries and the failure callback do not settle every run: a job retried after its worker died can meet its
  own dead lock and finish, and the run stays `running` with no job left (`Settling.OwnDeadLockStrands`).
  `Settling.AttendedRunSettles` says when all jobs' ends do settle the run.
- A requeue plus one fault-free attempt completes every unfinished run with a free lock, except one
  that stands at `retrieval_completed` with no hits; that one fails first and needs a second requeue
  (`Recovery.RequeueRecovers`, `Recovery.SecondRequeueRecovers`, `Recovery.EmptyRetrievalIsReachable`).
- At the space separator the splitter joins words without the space. The offset search then raises exactly
  when such a merged run occurs nowhere in the text (`OffsetOutcomes.MergedWordsCannotBeMapped`,
  `MergedRuns.SearchFailsOnMergedRun`); otherwise it can return wrong offsets without an error
  (`OffsetOutcomes.MergedWordsMappedWrongly`). `OffsetOutcomes.ChunkingOutcome` tells the three outcomes
  apart, and `ExactOffsets.RecursiveExactIff` gives the exact condition for exact offsets.
- At the full-stop separator a part too long for a chunk loses the full stop that follows it
  (`LostStops.LongSentenceLosesStop`); `LostStops.NothingLostIff` counts the loss exactly.
- A candidate's stated reasons add up to its score except when the weights make the difficulty bonus
  negative, which is then counted but not stated (`Candidates.ReasonsExplainScore`,
  `Candidates.HiddenPenalty`).
- The planner's text says a query never appears in both groups; the code tests the candidate's own
  group and forgets the used queries at every bucket. A query can be in both groups of one bucket
  (`Planner.SameQueryInBothGroups`), and in both groups of the plan although every bucket keeps its own
  queries apart (`QueryOverlap.SharedAcrossBuckets`). `QueryOverlap.PlanOverlapIff` says exactly when the
  plan's groups share no query.
- The heuristic bucket is described as every evaluation that is not in the LLM bucket. In SQL a missing
  evaluator type makes both bucket conditions unknown, so such a row, when it did not use the judge, is in
  neither bucket (`ComparisonQuery.LegacyRowIsDropped`, `ComparisonQuery.BucketsCoverIff`).
- In `both` mode the second integrity check can never fail after the first has passed: the counts it
  tests do not depend on the bucket (`ConfigComparison.BucketsCountAlike`).

## Model

| member | source | states |
|---|---|---|
| Protocol.StepKeepsInv | backend/app/services/run_create.py:143-211 | every step of every worker, callback and operator keeps the inductive invariant: status and rows agree, a live worker owns the lock, an open phase still finds its rows, the retry budget is respected |
| Protocol.PhaseCommit | backend/app/services/run_create.py:177-199 | a phase transaction of a live worker leaves a consistent row even if `failed` was written since the phase began |
| Protocol.RowOfOtherSteps | backend/app/services/run_create.py:85-140 | outside the three phase transactions rows never change and the status changes in three ways only |
| Protocol.OtherJobs | backend/app/workers/full_run_worker.py:66-87 | no action touches another job, nor the lock of a live one |
| FullRunSafety.StatusAgreesWithRows | backend/app/services/run_create.py:163-199 | in every reachable state the status says which rows exist, ranks are exactly 1..n, and an evaluation row exists iff the run is completed |
| FullRunSafety.OpenPhaseStaysReady | backend/app/services/run_create.py:178-199 | between begin and commit of a phase the rows it needs stay as it found them, whatever other jobs do |
| FullRunSafety.OnlyReachableGuard | backend/app/services/generation_phase.py:29-48 | duplicate and wrong-status guards never fire; the only reachable one is "no retrieval rows", and it fires iff retrieval found nothing |
| FullRunSafety.RowsWrittenOnce | backend/app/services/evaluation_persistence.py:53-90 | stored retrieval, generation and evaluation rows are never extended or replaced |
| FullRunSafety.CompletedIsAbsorbing | backend/app/services/run_create.py:168-175 | a completed run's row never changes again, over any continuation |
| FullRunSafety.CompletedAccounts | backend/app/services/full_rag_evaluation.py:84-139 | a completed run's total latency is the sum of its three phase latencies; judge calls attempted = skipped + used; used = 1 iff the evaluation row used the judge |
| FullRunSafety.CompletedCost | backend/app/services/full_rag_evaluation.py:152-155 | the cost a completed run stores is within one micro-dollar of the exact bill for every provider call of the judgement that completed it, the judge's retry included; null iff pricing is off or no call reported a count |
| FullRunSafety.CompletedJudgement | backend/app/services/full_rag_evaluation.py:98-195 | in every completed run, the judgement that completed it is what is stored: the judge's scores, label, evaluator type and usage if the judge was used, otherwise the heuristic ones without groundedness; and token totals over every provider call it paid for |
| FullRunSafety.AtMostThreeAttempts | backend/app/queue/full_run.py:40-51 | a job makes at most three attempts |
| FullRunSafety.MutualExclusion | backend/app/workers/full_run_worker.py:66-87 | at most one worker is inside the pipeline of a run, and the stored lock is its own |
| FullRunSafety.LiveLockDeletedOnlyByItsWorker | backend/app/workers/full_run_worker.py:81-87 | in every reachable state only its own `finally` removes a live worker's lock |
| FullRunSafety.LoserIsDone | backend/app/workers/full_run_worker.py:75-80 | a job that did not get the lock leaves it alone, ends, and takes no later step |
| FullRunSafety.StaleTestAloneIsUnsafe | backend/app/workers/full_run_worker.py:40-60 | an execution of create, requeue, three failed attempts of the newer job and a start of the older one in which the stale-lock test holds although the older job is at work, and the requeue that clears the lock lets a second worker in |
| FullRunSafety.StaleClearSafeIff | backend/app/workers/full_run_worker.py:31-60 | in every reachable state: some continuation after deleting the lock has two workers in the pipeline iff a job is live now |
| FullRunSafety.StaleClearSafeWhenNoneStarted | backend/app/workers/full_run_worker.py:20-21 | deleting the lock keeps mutual exclusion when no job of the run is reported as started, in particular when the test holds and every other job has ended |
| Settling.SettledIff | backend/app/services/run_create.py:143-211 | in every execution the run is completed or failed iff its last settling event (judgement, failure mark, written callback, a job's normal return) came after the last other phase commit and requeue |
| Settling.NormalReturnSettles | backend/app/services/run_create.py:163-211 | a job that returns normally from the pipeline leaves the run completed or failed |
| Settling.AttendedRunSettles | backend/app/queue/full_run.py:34-36 | from any reachable state that is settled or has a job to go on: when all jobs have ended, none since then canceled, turned away by the lock or with an unwritten callback, the run is completed or failed |
| Settling.RequeuedRunSettles | backend/app/services/run_requeue.py:213-221 | so it is after any requeue, however the run got there |
| Settling.EndedRunIsSettled | backend/app/queue/full_run.py:34-36 | and for a run that was never requeued |
| Settling.OwnDeadLockStrands | backend/app/workers/full_run_worker.py:71-80 | a job retried after its worker died is turned away by its own dead lock; the run stays running with no job left |
| Settling.CanceledStrands | backend/app/queue/full_run.py:43-51 | so it does when its only job is canceled |
| Settling.UnwrittenCallbackStrands | backend/app/services/run_create.py:119-140 | so it does when the failure callback's write fails, which only logs |
| Attempt.AttemptIsTrace | backend/app/workers/full_run_worker.py:66-87 | one attempt on its own, for any outcome of its three external calls, is an execution of the protocol with the row, lock and job it predicts |
| Attempt.PhaseIsTrace | backend/app/services/run_create.py:177-209 | one phase, including which errors are caught and which leave the pipeline, is an execution of the protocol |
| PipelineOutcome.PipelineEnds | backend/app/services/run_create.py:177-209 | for every consistent unfinished run and every outcome of its calls: an exception leaves the pipeline iff the call it stops at raises an error to be retried, and the run then stands where its last finished phase left it; the run is failed iff that call raises a `ValueError` or retrieval is empty; it is completed iff the judge is reached and returns; every result and latency of a call that returned is stored, nothing else |
| PipelineOutcome.TerminalIsSkipped | backend/app/services/run_create.py:163-175 | a completed or failed run is left alone whatever the calls would do |
| PipelineOutcome.AttemptRaises | backend/app/services/run_create.py:201-209 | the attempt as an execution has the caught error iff the run fails, and the retried error iff an exception leaves the pipeline |
| Recovery.FailureIsUndone | backend/app/services/run_requeue.py:83-108 | marking failed and normalising gives back the row in every reachable unfinished state, except an empty retrieval, which restarts |
| Recovery.RequeueRecovers | backend/app/services/run_requeue.py:162-221 | from every reachable unfinished state with a free lock, requeue plus one fault-free attempt is an execution, and completes the run iff it was not left with an empty retrieval |
| Recovery.SecondRequeueRecovers | backend/app/services/run_requeue.py:213-221 | the empty retrieval needs exactly one requeue more |
| Recovery.EmptyRetrievalIsReachable | backend/app/services/benchmark_run.py:91-108 | the state left by a search without hits and a dead worker, with a free lock, is reachable |
| Recovery.StepKeepsFaithful | backend/app/services/run_create.py:177-199 | with deterministic phase functions every step keeps the stored rows a prefix of those of one uninterrupted attempt |
| Recovery.RetriesDoNotChangeRows | backend/app/services/run_create.py:143-211 | a run that completes after any interruptions, retries, callbacks and requeues stores exactly the rows of one uninterrupted attempt |
| Liveness.JobsTerminate | backend/app/queue/full_run.py:40-51 | in every execution a job takes at most 44 steps over all its retries |
| Liveness.JobRunsToItsEnd | backend/app/workers/full_run_worker.py:66-106 | whatever state it is in, a job can run to its end by its own steps |
| Liveness.CompletionStaysReachable | backend/app/services/run_requeue.py:162-221 | from every reachable state some continuation completes the run |
| RunLifecycle.RankRows | backend/app/services/benchmark_run.py:99-100 | rows carry the ranks 1..n in hit order, with the hits' chunks and scores |
| RunLifecycle.FailThenNormalize | backend/app/services/run_requeue.py:83-108 | the round trip of one row, with the exact exception |
| RunLifecycle.NormalizeConsistent | backend/app/services/run_requeue.py:83-108 | a rebuilt status never disagrees with the rows |
| RunLifecycle.EligibleUnlessCompleted | backend/app/services/run_requeue.py:125-145 | among full runs the only structural refusal is a completed run |
| RunLifecycle.RefusalMeans | backend/app/services/run_requeue.py:64-80 | for any row: the structural refusals and exactly when each is given, the heuristic benchmark included |
| RunLifecycle.CommitJudgeConsistent | backend/app/services/full_rag_evaluation.py:84-195 | the judge transaction writes one evaluation row, consistent latencies and counters, and completes the run |
| RunLifecycle.MergedCountersBalance | backend/app/services/trace_instrumentation.py:15-95 | whatever was recorded before, after merging any of the three builders' counters, judge calls attempted = skipped + used |
| Worker.RunRecord.StoreRetrievalResults | backend/app/services/trace_persistence.py:96-112 | the loop appends exactly the ranked rows |
| Worker.RunRecord.ExecuteRetrieval | backend/app/services/benchmark_run.py:70-109 | rows, latency and status of the retrieval phase, or an unchanged record and the search's exception |
| Worker.RunRecord.ExecuteGeneration | backend/app/services/generation_phase.py:15-79 | every guard is a `ValueError` without a change; the model's own error goes through as it is; otherwise generation row, latency and status |
| Worker.RunRecord.PersistEvaluationAndComplete | backend/app/services/evaluation_persistence.py:19-116 | all guards in order; evaluation row, latencies and `completed` together or nothing |
| Worker.RunRecord.ExecuteJudge | backend/app/services/full_rag_evaluation.py:34-195 | hybrid gate or judge, latency sum, cost and counters, in one step |
| Worker.RunRecord.MarkRunFailed | backend/app/services/run_create.py:85-94 | fails every run except a completed one |
| Worker.RunRecord.NormalizeFailedForResume | backend/app/services/run_requeue.py:83-108 | the status rebuilt from the rows |
| Worker.RunRecord.RunPhases | backend/app/services/run_create.py:177-209 | the three phases in one try block, each only at its own status, with a ValueError failing the run and any other error leaving it: exactly the model PhasesFrom that the protocol executes |
| Worker.RunRecord.RunFullBenchmarkPipeline | backend/app/services/run_create.py:143-211 | the resume logic equals the attempt's pipeline function, and ends as PipelineOutcome.PipelineEnds says: which errors fail the run, which leave it for a retry, and what is stored |
| Worker.FullBenchmarkRunJob | backend/app/workers/full_run_worker.py:66-87 | runs the pipeline iff the lock was free, and leaves the lock as it was |
| QueueView.EnqueueIsStep | backend/app/queue/full_run.py:31-54 | adding that job to the queue is the protocol's enqueue step for its run, and leaves every other run's jobs alone |
| Worker.JobQueue.FindPrimaryJobForRun | backend/app/queue/full_run.py:78-129 | a newest job of the run among those in the queue and the five scanned registries, or none iff there is none |
| QueueView.ClearIsStep | backend/app/workers/full_run_worker.py:40-60 | the newest job the queue reports is one of the protocol's jobs and never a canceled one, the code's test on its status is the protocol's test, and when the other jobs have ended the deletion is the protocol's step |
| QueueView.NoneReportedStarted | backend/app/workers/full_run_worker.py:20-21 | when the queue reports no job of the run as started, none is at work, which makes clearing safe |
| Worker.InferDocumentId | backend/app/services/run_requeue.py:111-122 | the one document all hits belong to, iff there is one |
| Worker.RequeueFullRun | backend/app/services/run_requeue.py:162-221 | refusals in order without side effects on rows and queue; otherwise normalised status, free lock and one new job |
| QueueView.RequeueIsSteps | backend/app/services/run_requeue.py:213-221 | such a requeue, from a free lock, is the protocol's requeue step followed by its enqueue step |
| Cost.RoundHalfEven | backend/app/services/cost_estimation.py:64 | nearest integer, ties to even |
| Cost.EstimateBound | backend/app/services/cost_estimation.py:52-64 | one estimate is within half a micro-dollar of the exact amount, null iff pricing is off or both counts are unknown |
| Cost.UsageBill | backend/app/services/llm_judge_evaluation.py:259-260 | summing tokens over a judge retry does not change the exact bill |
| Cost.BillConcat | backend/app/services/cost_estimation.py:57-63 | the exact bill, rates per million times all tokens, is additive over calls |
| Cost.StoredCostBound | backend/app/services/full_rag_evaluation.py:152-155 | the stored sum of two rounded estimates is within one micro-dollar of the exact bill of all calls, null iff pricing is off or no count is known |
| Text.StripParts | backend/app/services/chunker.py:52-53 | stripping cuts the text into blank, stripped, blank |
| Text.JoinSplit | backend/app/services/chunker.py:111 | joining the parts of a split gives back the text |
| Splitter.PiecesOk | backend/app/services/chunker.py:101-138 | every piece is non-empty, stripped and at most `chunk_size + 1` long, over `chunk_size` only when it ends in a full stop |
| Splitter.PiecesConserve | backend/app/services/chunker.py:101-138 | whitespace aside the pieces are a subsequence of the text, and all of it when no full stop is followed by a space |
| GreedyPacking.RunsAreFewest | backend/app/services/chunker.py:115-127 | taking as many items as fit gives a cut with the fewest runs |
| GreedyPacking.PiecesAreFullRuns | backend/app/services/chunker.py:111-138 | the pieces of a text whose parts at a separator all fit are runs of consecutive parts: none has room for the next part, and no cut into runs that fit has fewer |
| GreedyPacking.BlocksAreFullRuns | backend/app/services/chunker.py:111-138 | the same, for every list of parts, between two parts that are too long; such a part is split on its own |
| GreedyPacking.ItemsAreText | backend/app/services/chunker.py:111-119 | at a visible separator the parts with what they keep of it are the text |
| GreedyPacking.HardSlicesAreFull | backend/app/services/chunker.py:106-109 | without a separator every slice but the last has exactly the chunk size |
| LostStops.NothingLostIff | backend/app/services/chunker.py:118-133 | the number of visible characters lost is exactly the number of full stops after parts too long for a chunk; nothing is lost iff it is zero |
| LostStops.LongSentenceLosesStop | backend/app/services/chunker.py:118-133 | any two-sentence text whose first sentence is one word too long for a chunk loses exactly one character |
| LostStops.FullStopIsLost | backend/app/services/chunker.py:118-133 | a text whose pieces do not keep all its visible characters |
| OffsetRecovery.RecoverableIff | backend/app/services/chunker.py:101-138 | the pieces lie side by side in the text, whitespace aside, iff no full stop is dropped and no two visible words are merged |
| OffsetRecovery.FitIsRecoverable | backend/app/services/chunker.py:101-138 | that holds when every segment left after the first three separators fits |
| OffsetSearch.BuildChunksFromPieces | backend/app/services/chunker.py:141-180 | the search loop, with its restart from the beginning and its error, equals the recursive search |
| OffsetSearch.LeftmostFindsEmbedding | backend/app/services/chunker.py:153-164 | wherever the pieces occur in order, the leftmost search finds each no later |
| OffsetSearch.SearchIsComplete | backend/app/services/chunker.py:148-164 | whenever the pieces occur in order at disjoint positions, the search succeeds without the restart, with ordered disjoint faithful spans starting no later than there |
| ExactOffsets.RecursiveExactIff | backend/app/services/chunker.py:89-180 | recursive chunking returns true offsets (faithful, increasing, disjoint spans, only whitespace outside) iff the text passes the stated test |
| ExactOffsets.FittingSegmentsExact | backend/app/services/chunker.py:89-180 | it always does when every segment left after the first three separators fits in a chunk |
| ExactOffsets.RecursiveChunksOk | backend/app/services/chunker.py:89-138 | the returned chunks keep the size bound, the order of the visible text, and lose exactly the counted full stops |
| MergedRuns.SearchFailsIff | backend/app/services/chunker.py:153-164 | the search raises iff some piece occurs nowhere in the text |
| MergedRuns.PiecesWithin | backend/app/services/chunker.py:101-138 | every piece is a stretch of the text, or a run of words merged at the space separator |
| MergedRuns.SearchFailsOnMergedRun | backend/app/services/chunker.py:118-164 | recursive chunking raises iff some run of merged words occurs nowhere in the text |
| OffsetOutcomes.ChunkingOutcome | backend/app/services/chunker.py:89-180 | error, exact offsets or silently wrong offsets: exactly when each happens, for every text |
| OffsetOutcomes.MergedWordsCannotBeMapped | backend/app/services/chunker.py:118-162 | a text of two words whose merged piece cannot be mapped back |
| OffsetOutcomes.MergedWordsMappedWrongly | backend/app/services/chunker.py:153-164 | a text for which two chunks get the same wrong span and nothing is raised |
| FullChunks.ChunksAreFullRuns | backend/app/services/chunker.py:89-138 | when all parts at the first separator that splits a text fit, the chunks are the fewest full runs of consecutive parts |
| FullChunks.FittingTextIsOneChunk | backend/app/services/chunker.py:101-103 | a text that fits is one chunk, from its start to its end |
| FullChunks.UnseparatedChunksAreFull | backend/app/services/chunker.py:106-109 | a long text without separators is cut into slices of exactly the chunk size and a rest |
| FixedWindows.WindowLoop | backend/app/services/chunker.py:56-86 | the loop with its skip and its early exit equals the recursive description |
| FixedWindows.FixedChunksShape | backend/app/services/chunker.py:61-84 | dense indices, stripped windows of at most `chunk_size`, and exactly the last chunk ends at the text end |
| FixedWindows.FixedChunksCover | backend/app/services/chunker.py:61-84 | every visible character lies in some chunk's span |
| FixedWindows.FixedChunksCount | backend/app/services/chunker.py:58-84 | at most 1 + ceil(max(0, len - size) / (size - overlap)) chunks, with equality iff no window is blank |
| FixedWindows.CeilDivIsCeiling | backend/app/services/chunker.py:58-61 | the quotient in that bound is the ceiling |
| FixedWindows.WindowsRebuildText | backend/app/services/chunker.py:58-63 | the visited windows without their overlaps are the text |
| Chunker.SplitRecursive | backend/app/services/chunker.py:101-138 | the recursive splitter with its loops equals the recursive description |
| Chunker.PackLoop | backend/app/services/chunker.py:111-138 | the merging loop over the parts, likewise |
| Chunker.ChunkText | backend/app/services/chunker.py:23-53 | an all-blank text gives no chunks before the parameters are checked; then the three parameter errors in order; then the chunks of the strategy, or an offset error iff the strategy is recursive and a merged run of words occurs nowhere in the text |
| Csv.RoundTrip | frontend/src/benchmark/exportDownload.ts:10-24 | reading what was written gives exactly the rows of texts, for any characters |
| Csv.DocumentsDiffer | frontend/src/benchmark/exportDownload.ts:10-24 | two tables are written alike iff all their texts agree |
| Csv.WrittenAsIsIff | frontend/src/benchmark/exportDownload.ts:10-20 | a cell is quoted iff it holds a quote, comma or line break, and is then longer by two and the number of its quotes |
| Csv.SectionsRoundTrip | frontend/src/benchmark/exportDownload.ts:167-325 | sections separated by blank lines come back in order, row by row |
| DashboardExport.ByCountSorts | frontend/src/benchmark/exportDownload.ts:234-242 | failure counts are listed once each, most frequent first, ties in their given order |
| DashboardExport.RecentColumns | frontend/src/benchmark/exportDownload.ts:77-99 | the cell under each column's name shows the field of that name, in the recent runs |
| DashboardExport.InsightColumns | frontend/src/benchmark/exportDownload.ts:101-141 | in the config insights |
| DashboardExport.DayColumns | frontend/src/benchmark/exportDownload.ts:143-165 | in the time series |
| DashboardExport.PhaseColumns | frontend/src/benchmark/exportDownload.ts:256-280 | and in the latency distribution, with blanks for a phase without statistics |
| DashboardExport.MetricsListed | frontend/src/benchmark/exportDownload.ts:183-226 | every summary metric is listed with its value, or blank |
| DashboardExport.SectionTitles | frontend/src/benchmark/exportDownload.ts:171-325 | which sections the export has, in which order, for any loaded or missing parts |
| DashboardExport.SectionBodies | frontend/src/benchmark/exportDownload.ts:228-322 | each section's rows: one per failure label, recent run, present day and present insight |
| DashboardExport.DecimalIsRead | frontend/src/benchmark/exportDownload.ts:237-240 | a count is printed in digits that read back as the count |
| DashboardExport.CsvLines.PushSection | frontend/src/benchmark/exportDownload.ts:64-75 | appends title, column names, every row and a blank line, and nothing else |
| DashboardExport.BuildDashboardExportCsv | frontend/src/benchmark/exportDownload.ts:171-325 | the export, from whose text a reader recovers every section of the given summary and analytics |
| Candidates.ComputeDifficulty | backend/app/services/diagnosis_experiment_design.py:217-231 | between 0 and 1, missing scores neutral |
| Candidates.LowerScoresAreHarder | backend/app/services/diagnosis_experiment_design.py:217-231 | nowhere better scores mean no less difficulty, and strictly more iff some score is lower within 0 and 1 |
| Candidates.DifficultyExtremes | backend/app/services/diagnosis_experiment_design.py:223-231 | difficulty 0 iff all four scores are known and full, 1 iff all four are known and nil |
| Candidates.MissingIsNeutral | backend/app/services/diagnosis_experiment_design.py:227-228 | a missing score counts as one half |
| Candidates.HarderScoresMore | backend/app/services/diagnosis_experiment_design.py:182-203 | with the default weights the harder of two runs of one bucket, seen and used as often, scores more, by 20 for the whole range |
| Candidates.RepeatAndSessionCost | backend/app/services/diagnosis_experiment_design.py:189-203 | with the default weights a repetition costs 30 and a recorded session 10 |
| Candidates.ControlIff | backend/app/services/diagnosis_experiment_design.py:127-131 | controls are the runs without a label or labelled as no failure; an unknown label is ambiguous |
| Candidates.BucketLabels | backend/app/services/diagnosis_experiment_design.py:29-40 | which failure labels each bucket holds |
| Candidates.NeutralScore | backend/app/services/diagnosis_experiment_design.py:169-203 | a run of neutral difficulty without history scores 50, a control one -40 |
| Candidates.ScoreCandidates | backend/app/services/diagnosis_experiment_design.py:148-214 | every candidate scored with the number of earlier candidates of the same query, in ranking order |
| Candidates.RankedIsSorted | backend/app/services/diagnosis_experiment_design.py:205-214 | a permutation, by falling score and then falling run id |
| Candidates.RepeatOutweighsDifficulty | backend/app/services/diagnosis_experiment_design.py:148-203 | with the default weights no difficulty outweighs one more repetition of the query |
| Candidates.FailureOutranksControl | backend/app/services/diagnosis_experiment_design.py:174-203 | with the default weights a failed run outranks a control run used as often, by 90 and 20 times the difference in difficulty |
| Candidates.RankedKeepsDistinct | backend/app/services/diagnosis_experiment_design.py:205-214 | no run is lost or invented |
| Candidates.ReasonsExplainScore | backend/app/services/diagnosis_experiment_design.py:173-203 | the stated reasons add up to the score iff the difficulty bonus is not negative |
| Candidates.DefaultReasonsExplain | backend/app/services/diagnosis_experiment_design.py:148-203 | with the default weights they always add up |
| Candidates.HiddenPenalty | backend/app/services/diagnosis_experiment_design.py:182-187 | with a negative difficulty weight a candidate without scores loses ten points that no reason states |
| Planner.AssignBucket | backend/app/services/diagnosis_experiment_design.py:284-338 | the greedy loop with its sets, skip and early exit equals the assignment function |
| Planner.AssignTakesPrefix | backend/app/services/diagnosis_experiment_design.py:290-338 | a bucket gets exactly its first min(available, 2 * target) runs, at most the target in each group |
| Planner.BestAreAssigned | backend/app/services/diagnosis_experiment_design.py:290-338 | nothing left out scores more than anything assigned |
| Planner.RepeatsAreForced | backend/app/services/diagnosis_experiment_design.py:307-336 | a query repeats inside a group only if the other group holds it too or is full |
| Planner.DistinctQueriesAlternate | backend/app/services/diagnosis_experiment_design.py:312-319 | without repeated queries the groups take turns, manual first |
| Planner.NoOverlapIff | backend/app/services/diagnosis_experiment_design.py:290-338 | for one bucket, of any size and any target, the groups share no query iff, among the best 2 * target runs, none repeats before the last place and the run for the last place repeats none at an even position |
| Planner.SameQueryInBothGroups | backend/app/services/diagnosis_experiment_design.py:248-253 | two runs of one query fill both groups |
| ExperimentPlan.BucketPools | backend/app/services/diagnosis_experiment_design.py:257-260 | each bucket's runs in score order |
| ExperimentPlan.BuildExperimentPlan | backend/app/services/diagnosis_experiment_design.py:243-360 | slots, warnings and bucket summary of all buckets |
| ExperimentPlan.BucketIsOptimal | backend/app/services/diagnosis_experiment_design.py:266-346 | each bucket assigns min(available, needed) runs, its best-scoring prefix |
| ExperimentPlan.NoRunTwice | backend/app/services/diagnosis_experiment_design.py:290-346 | over all buckets and both groups no run is used twice |
| ExperimentPlan.ExportConserves | backend/app/services/diagnosis_experiment_design.py:346-447 | exported rows are as many as the assigned counts of the plan's own bucket summary add up to, and no run appears twice |
| ExperimentPlan.RowsDescribePicks | backend/app/services/diagnosis_experiment_design.py:340-447 | the manual picks come first, as manual, then the assisted ones, each row with the bucket, failure, query, difficulty, rationale and session counts of its own candidate |
| ExperimentPlan.PlanToExportRows | backend/app/services/diagnosis_experiment_design.py:430-447 | one row per slot with all nine columns, manual group first |
| ExperimentPlan.NoWarningIffBalanced | backend/app/services/diagnosis_experiment_design.py:278-353 | the default plan has no warning iff both groups have ten runs iff every bucket has enough |
| ExperimentPlan.DefaultPlanCounts | backend/app/services/diagnosis_experiment_design.py:42-48 | the default plan takes up to 8, 6, 4 and 2 runs of the four buckets |
| ExperimentPlan.WarningsMean | backend/app/services/diagnosis_experiment_design.py:278-353 | the warnings are the short buckets with both numbers, and the total when it is below twenty |
| QueryOverlap.ApartAlternates | backend/app/services/diagnosis_experiment_design.py:290-338 | a bucket that keeps its queries apart gives its best runs to the groups in turn, manual first |
| QueryOverlap.PlanOverlapIff | backend/app/services/diagnosis_experiment_design.py:248-253 | for any distinct runs and any targets no query is in both groups of the plan iff every bucket keeps its own queries apart and no query at an even place of one bucket's best runs is at an odd place of another's |
| QueryOverlap.SharedAcrossBuckets | backend/app/services/diagnosis_experiment_design.py:284-288 | three runs whose buckets each keep their queries apart, with one query in both groups of the plan |
| Tokens.RunsAreMaximal | backend/app/services/minimal_retrieval_evaluation.py:20-54 | the scan finds exactly the maximal runs of word characters |
| Tokens.TokensAre | backend/app/services/minimal_retrieval_evaluation.py:52-54 | the tokens are the lowercased maximal runs of length at least two |
| Tokens.TokensIgnoreCase | backend/app/services/minimal_retrieval_evaluation.py:20-54 | a text in capitals has the same tokens |
| Tokens.TokensOfJoin | backend/app/services/minimal_retrieval_evaluation.py:127-131 | the tokens of the joined chunks are the union of the chunks' tokens |
| RetrievalEvaluator.RecallMeans | backend/app/services/minimal_retrieval_evaluation.py:57-65 | recall is undefined iff nothing is wanted, lies in 0..1, is 1 iff all is found and 0 iff nothing is |
| RetrievalEvaluator.MeanMeans | backend/app/services/minimal_retrieval_evaluation.py:124-125 | the mean of one score is that score, and every score weighs the same |
| RetrievalEvaluator.EvaluationMeans | backend/app/services/minimal_retrieval_evaluation.py:124-150 | relevance is the mean score; coverage, completeness and faithfulness are the shares of the query's, expected answer's and given answer's tokens found in the chunks, with the cases in which they are missing |
| RetrievalEvaluator.LabelsMean | backend/app/services/minimal_retrieval_evaluation.py:24-49 | which scores each failure label stands for |
| RetrievalEvaluator.GateMeans | backend/app/services/minimal_retrieval_evaluation.py:168-186 | the judge is skipped iff the best hit, the mean and the share of query tokens reach their limits |
| RetrievalEvaluator.MeanFalls | backend/app/services/minimal_retrieval_evaluation.py:124-125 | more hits in falling score order never raise the mean |
| RetrievalEvaluator.TopKTradeOff | backend/app/services/minimal_retrieval_evaluation.py:124-134 | as top_k grows relevance never rises, and coverage, completeness and lexical faithfulness never fall |
| RetrievalEvaluator.LabelOnlyAdvances | backend/app/services/minimal_retrieval_evaluation.py:30-49 | as top_k grows the failure label moves one way through its stages |
| RetrievalEvaluator.GateIsInterval | backend/app/services/minimal_retrieval_evaluation.py:168-186 | the values of top_k that let the judge be skipped form an interval |
| ComparisonQuery.QueryMainCounts | backend/app/services/config_comparison.py:40-103 | for any number of evaluation rows, traced runs and unique queries are the plain counts over in-scope runs, and every average, percentile and deviation counts each run once |
| ComparisonQuery.JoinIsPerRun | backend/app/services/config_comparison.py:56-101 | after aggregation the left join has exactly one row per run |
| ComparisonQuery.BucketsCoverIff | backend/app/domain/evaluator_bucket.py:12-32 | the bucket filters are disjoint, and agree with their Python mirror iff the judge was used or the type is present |
| ComparisonQuery.LegacyRowIsDropped | backend/app/domain/evaluator_bucket.py:5-19 | a row that neither filter keeps |
| ComparisonMeaning.RunsOfMeans | backend/app/services/config_comparison.py:28-55 | which runs count for a config, in terms of the request and the stored rows |
| ComparisonMeaning.OneRunReportsItself | backend/app/services/config_comparison.py:75-102 | a config with one counted run and one evaluation of it is reported with that run's latencies and that evaluation's scores, each under its own name |
| ComparisonMeaning.FailureCountsMean | backend/app/services/config_comparison.py:105-119 | failure counts are the numbers of evaluations of the counted runs with each name |
| ConfigComparison.BuildMetricsList | backend/app/services/config_comparison.py:357-403 | one entry per requested config, in order, with all its columns and failure counts; zeros and no measures for a config without runs |
| ConfigComparison.QueryQueryCaseSets | backend/app/services/config_comparison.py:303-327 | each config's set is that of its in-scope runs |
| ConfigComparison.EnforceIntegrity | backend/app/services/config_comparison.py:330-354 | passes iff the sets agree (when asked) and every config has enough runs; names the first short one |
| ConfigComparison.BucketsCountAlike | backend/app/services/config_comparison.py:483-493 | both buckets report the same counts |
| ConfigComparison.ConfidenceOfBoth | backend/app/services/config_comparison.py:216-238 | confidence over both buckets is that of either |
| ConfigComparison.ConfidenceMeans | backend/app/services/config_comparison.py:216-238 | low iff some config covers fewer than 8 query cases, high iff all cover 15, reliable iff all cover 10 |
| ConfigComparison.RankNamesExtremes | backend/app/services/config_comparison.py:157-174 | the named best and worst config are traced configs whose shown averages bound every other one's |
| ConfigComparison.ComparePipelineConfigs | backend/app/services/config_comparison.py:406-511 | argument errors in order; otherwise it succeeds iff the stored runs are sound, and reports metrics and score ranking of the buckets asked for, with one confidence; in strict mode its result has one query set, whose size is the sample and every unique count, and max(2, min_traced_runs) runs per config |
| ConfigComparison.StrictIsSound | backend/app/services/config_comparison.py:428-461 | every report over sound runs has the strict guarantees, whichever buckets it holds |
| ScoreRanking.RankMeans | backend/app/services/config_comparison.py:157-174 | a ranking exists iff a traced config has the score; best and worst bound every such config, and ties go to the lower id |
| ScoreRanking.DeltaMeans | backend/app/services/config_comparison.py:177-182 | the percentage leads from the worst score to the best up to the tolerance, is never negative, and is missing iff the scores differ and the worst is not positive |

## Left out

- HTTP routes, schemas, middleware, migrations and the React components around the export.
- OpenAI, Anthropic, embedding, pgvector, PDF and JSON libraries: their results are parameters.
- RQ and Redis beyond set-if-absent, delete, exists, job status and the retry budget; Redis connection errors; the lock's clock. A lock expires only once its holder is no longer live, as the job timeout equals the lock's lifetime.
- Document or chunk deletion while a run is live, and therefore retrieval rows whose chunk has gone.
- Heuristic inline runs in the protocol: they take no lock, and an unfinished one would be taken for a full run.
- The document scope of a requeue made before retrieval committed: it is inferred from the rows and becomes none, so the refinement theorem asks later jobs to keep the scope until rows exist.
- A missing run, query case or pipeline config inside a phase: the rows are never deleted here.
- Evaluation metadata and the judge's parsing of the model's reply; scores and verdict are parameters.
- Worker.JobQueue.FindPrimaryJobForRun: which of several equally new jobs is chosen is left open; a job that has expired or cannot be fetched is one kept elsewhere.
- Protocol.StepKeepsInv: enqueueing is allowed at any time and with any scope, which is more than the create and requeue routes do. The create route's `failed` write after an enqueue error is a step only while the run has no job; the route writes it unconditionally, so an enqueue that is reported as an error but has reached the queue is not covered.
- Settling.AttendedRunSettles: one direction only; whether a particular run whose job ended silently is settled is what Settling.SettledIff decides from its history.
- FullRunSafety.CompletedCost: rounding is that of exact decimals; the 28-digit precision limit of Python's decimals is not modelled, nor the conversion to a float in the instrumentation field.
- Unicode whitespace and case rules beyond those the chunker and tokeniser can meet.
- Chunk metadata other than strategy, size and overlap; unknown strategy names.
- DashboardExport.BuildDashboardExportCsv: printed numbers are given as the text JavaScript prints; malformed payloads (fields of the wrong type) are not modelled.
- The JSON export, file names and the browser download.
- The wording of the planner's rationale (its reasons and amounts are modelled) and its formatted reports; the query fingerprint is an arbitrary function of the query text.
- Candidates.ComputeDifficulty: exact reals instead of floats; likewise all scores and means.
- ComparisonQuery.QueryMainCounts: percentile, deviation and rounding for display are arbitrary functions of the non-null values.
- ComparisonQuery.JoinIsPerRun: run ids are taken to be the primary key they are, so joining an evaluation to its run cannot multiply it.
- Seed scripts, registry maintenance and dashboard formatting.
