/** One full-mode run: its `runs` row, the trace rows that belong to it, and the database
    transactions that change them. Each function is one committed transaction, or the guard
    that makes it raise. */
module RunLifecycle {
  import opened Basics
  import opened Cost

  datatype Status = Pending | Running | RetrievalCompleted | GenerationCompleted | Completed | Failed

  /** A search hit as returned by `search_chunks`. */
  datatype Hit = Hit(chunkId: int, score: real)

  datatype RetrievalRow = RetrievalRow(chunkId: int, rank: nat, score: real)

  datatype GenerationRow = GenerationRow(answer: string, model: string, tokens: Tokens)

  datatype Scores = Scores(
    faithfulness: Option<real>,
    completeness: Option<real>,
    groundedness: Option<real>,
    retrievalRelevance: Option<real>,
    contextCoverage: Option<real>)

  datatype EvaluationRow = EvaluationRow(
    scores: Scores,
    failureType: Option<string>,
    usedLlmJudge: bool,
    evaluatorType: string,
    judgeTokens: Tokens,
    cost: Option<Micros>)

  /** What the judge phase computes before it writes: whether the hybrid gate passes, the
      heuristic evaluation used when it does, and the judge's verdict used otherwise. */
  datatype Judgement = Judgement(
    gatePasses: bool,
    heuristicScores: Scores,
    heuristicFailure: Option<string>,
    judgeScores: Scores,
    judgeFailure: Option<string>,
    firstCall: Tokens,
    retryCall: Option<Tokens>)

  /** Values of `trace_instrumentation_json`. */
  datatype Json = Null | Num(n: int) | Str(s: string) | Amount(micros: Micros)

  /** Rows are kept in insertion order and may in principle repeat: that each phase writes at
      most one batch is something to prove, not something the type gives away. */
  datatype RunRow = RunRow(
    status: Status,
    hybrid: bool,
    retrieval: seq<RetrievalRow>,
    generations: seq<GenerationRow>,
    evaluations: seq<EvaluationRow>,
    retrievalMs: Option<nat>,
    generationMs: Option<nat>,
    evaluationMs: Option<nat>,
    totalMs: Option<nat>,
    instrumentation: map<string, Json>)

  /** The row as the create route commits it. */
  function NewRun(hybrid: bool): RunRow {
    RunRow(Running, hybrid, [], [], [], None, None, None, None, map[])
  }

  /** Precondition failures; each is a `ValueError` in the source. */
  datatype GuardError =
    | WrongStatus(got: Status)
    | DuplicateGeneration
    | NoRetrievalRows
    | NoGenerationRow
    | DuplicateEvaluation
    | NegativeLatency

  // ----- Retrieval ------------------------------------------------------------------------

  /** `rank` is the 1-based position in the hit list. */
  function RankRows(hits: seq<Hit>): (rows: seq<RetrievalRow>)
    ensures RanksExact(rows) && |rows| == |hits|
    ensures forall i :: 0 <= i < |hits| ==> rows[i].chunkId == hits[i].chunkId && rows[i].score == hits[i].score
  {
    seq(|hits|, i requires 0 <= i < |hits| => RetrievalRow(hits[i].chunkId, i + 1, hits[i].score))
  }

  ghost predicate RanksExact(rows: seq<RetrievalRow>) {
    forall i :: 0 <= i < |rows| ==> rows[i].rank == i + 1
  }

  function CommitRetrieval(row: RunRow, hits: seq<Hit>, ms: nat): RunRow {
    row.(retrieval := row.retrieval + RankRows(hits),
         retrievalMs := Some(ms),
         status := RetrievalCompleted)
  }

  // ----- Generation -----------------------------------------------------------------------

  /** `seen` is the status loaded when the phase's session opened; the trace rows are queried later. */
  function CommitGeneration(row: RunRow, seen: Status, gen: GenerationRow, ms: nat): Result<RunRow, GuardError> {
    if seen != RetrievalCompleted then Err(WrongStatus(seen))
    else if row.generations != [] then Err(DuplicateGeneration)
    else if row.retrieval == [] then Err(NoRetrievalRows)
    else Ok(row.(generations := row.generations + [gen],
                 generationMs := Some(ms),
                 status := GenerationCompleted))
  }

  // ----- Evaluation -----------------------------------------------------------------------

  /** `persist_evaluation_and_complete_run`: insert the evaluation row, set the latencies and
      complete the run, in one transaction. */
  function PersistEvaluation(row: RunRow, seen: Status, prerequisite: Status, ev: EvaluationRow,
                             evalMs: int, totalMs: int): Result<RunRow, GuardError>
  {
    if evalMs < 0 || totalMs < 0 then Err(NegativeLatency)
    else if seen != prerequisite then Err(WrongStatus(seen))
    else if row.evaluations != [] then Err(DuplicateEvaluation)
    else if prerequisite == RetrievalCompleted && row.retrieval == [] then Err(NoRetrievalRows)
    else if prerequisite == GenerationCompleted && row.generations == [] then Err(NoGenerationRow)
    else if ev.usedLlmJudge && row.generations == [] then Err(NoGenerationRow)
    else Ok(row.(evaluations := row.evaluations + [ev],
                 evaluationMs := Some(evalMs),
                 totalMs := Some(totalMs),
                 status := Completed))
  }

  /** `merge_run_trace_instrumentation`: shallow merge, later keys win. */
  function MergeInstrumentation(row: RunRow, patch: map<string, Json>): RunRow {
    row.(instrumentation := row.instrumentation + patch)
  }

  function CountOrNull(c: Option<nat>): Json {
    match c case None => Null case Some(n) => Num(n)
  }

  function CostOrNull(c: Option<Micros>): Json {
    match c case None => Null case Some(m) => Amount(m)
  }

  /** The counters of an inline heuristic run, which calls no model. */
  function HeuristicInstrumentation(): map<string, Json> {
    map["evaluator_execution_mode" := Str("heuristic_only"),
        "total_eval_rows" := Num(1),
        "heuristic_eval_rows" := Num(1),
        "llm_eval_rows" := Num(0),
        "llm_generation_calls" := Num(0),
        "llm_judge_calls_attempted" := Num(0),
        "llm_judge_calls_skipped_by_heuristics" := Num(0),
        "llm_judge_calls_used_for_final_judgment" := Num(0),
        "estimated_prompt_tokens" := Null,
        "estimated_completion_tokens" := Null,
        "estimated_cost_usd" := Null]
  }

  function FullLlmInstrumentation(judge: Tokens, gen: Tokens, cost: Option<Micros>): map<string, Json> {
    map["evaluator_execution_mode" := Str("llm_only"),
        "total_eval_rows" := Num(1),
        "heuristic_eval_rows" := Num(0),
        "llm_eval_rows" := Num(1),
        "llm_generation_calls" := Num(1),
        "llm_judge_calls_attempted" := Num(1),
        "llm_judge_calls_skipped_by_heuristics" := Num(0),
        "llm_judge_calls_used_for_final_judgment" := Num(1),
        "estimated_prompt_tokens" := CountOrNull(SumCounts(gen.inp, judge.inp)),
        "estimated_completion_tokens" := CountOrNull(SumCounts(gen.out, judge.out)),
        "estimated_cost_usd" := CostOrNull(cost)]
  }

  function HybridSkippedInstrumentation(gen: Tokens, cost: Option<Micros>): map<string, Json> {
    map["evaluator_execution_mode" := Str("hybrid"),
        "total_eval_rows" := Num(1),
        "heuristic_eval_rows" := Num(1),
        "llm_eval_rows" := Num(0),
        "llm_generation_calls" := Num(1),
        "llm_judge_calls_attempted" := Num(1),
        "llm_judge_calls_skipped_by_heuristics" := Num(1),
        "llm_judge_calls_used_for_final_judgment" := Num(0),
        "estimated_prompt_tokens" := CountOrNull(gen.inp),
        "estimated_completion_tokens" := CountOrNull(gen.out),
        "estimated_cost_usd" := CostOrNull(cost)]
  }

  /** The evaluation row written for a judgement of generation `gen`. */
  function EvaluationFor(hybrid: bool, rates: Rates, gen: GenerationRow, v: Judgement): EvaluationRow {
    if hybrid && v.gatePasses then
      EvaluationRow(v.heuristicScores.(groundedness := None), v.heuristicFailure, false, "heuristic",
                    Tokens(None, None), EstimateUsd(rates, gen.tokens))
    else
      var judge := JudgeUsage(v.firstCall, v.retryCall);
      EvaluationRow(v.judgeScores, v.judgeFailure, true, "llm", judge,
                    JudgePathCost(rates, gen.tokens, judge))
  }

  /** `execute_llm_judge_and_complete_run`: evaluation row, latencies, status and counters in
      one transaction. */
  function CommitJudge(row: RunRow, seen: Status, rates: Rates, v: Judgement, ms: nat): Result<RunRow, GuardError> {
    if seen != GenerationCompleted then Err(WrongStatus(seen))
    else if row.generations == [] then Err(NoGenerationRow)
    else
      var gen := row.generations[0];
      var total := row.retrievalMs.GetOr(0) + row.generationMs.GetOr(0) + ms;
      var ev := EvaluationFor(row.hybrid, rates, gen, v);
      match PersistEvaluation(row, seen, GenerationCompleted, ev, ms, total)
      case Err(e) => Err(e)
      case Ok(done) =>
        Ok(MergeInstrumentation(done,
             if ev.usedLlmJudge then FullLlmInstrumentation(ev.judgeTokens, gen.tokens, ev.cost)
             else HybridSkippedInstrumentation(gen.tokens, ev.cost)))
  }

  // ----- Failure and requeue --------------------------------------------------------------

  /** `_mark_run_failed_safe` and `mark_run_failed_sync`. */
  function MarkFailed(row: RunRow): RunRow {
    if row.status == Completed then row else row.(status := Failed)
  }

  /** `_normalize_failed_run_for_resume`: a resumable status rebuilt from the stored rows. */
  function NormalizeFailed(row: RunRow): RunRow {
    if row.status != Failed then row
    else if row.generations != [] then row.(status := GenerationCompleted)
    else if row.retrieval != [] then row.(status := RetrievalCompleted)
    else row.(status := Running)
  }

  /** `resolved_evaluator_type` of an evaluation row. */
  predicate HeuristicBucket(ev: EvaluationRow) {
    !(ev.usedLlmJudge || ev.evaluatorType == "llm")
  }

  predicate HeuristicOnlyEvaluated(row: RunRow) {
    row.generations == [] && row.evaluations != [] && HeuristicBucket(row.evaluations[0])
  }

  datatype RequeueRefusal = AlreadyCompleted | StatusNotAllowed(got: Status) | HeuristicBenchmark | LockHeld

  /** `evaluate_structural_requeue_eligibility`. */
  function RequeueEligibility(row: RunRow): Option<RequeueRefusal> {
    if row.status == Completed then Some(AlreadyCompleted)
    else if row.status !in {Running, RetrievalCompleted, GenerationCompleted, Failed} then
      Some(StatusNotAllowed(row.status))
    else if HeuristicOnlyEvaluated(row) then Some(HeuristicBenchmark)
    else None
  }

  // ----- What the stored state must look like -----------------------------------------------

  /** Status and trace rows agree. */
  ghost predicate RowsAgree(row: RunRow) {
    && RanksExact(row.retrieval)
    && match row.status
       case Pending => false
       case Running => row.retrieval == [] && row.generations == [] && row.evaluations == []
       case RetrievalCompleted => row.generations == [] && row.evaluations == []
       case GenerationCompleted => row.retrieval != [] && |row.generations| == 1 && row.evaluations == []
       case Completed => row.retrieval != [] && |row.generations| == 1 && |row.evaluations| == 1
       case Failed => row.evaluations == [] && |row.generations| <= 1 && (row.generations != [] ==> row.retrieval != [])
  }

  /** Every phase that left rows also left its measured latency. */
  ghost predicate LatenciesAgree(row: RunRow) {
    && (row.status == RetrievalCompleted || row.retrieval != [] ==> row.retrievalMs.Some?)
    && (row.generations != [] ==> row.generationMs.Some?)
    && (row.status == Completed ==>
          && row.evaluationMs.Some?
          && row.totalMs == Some(row.retrievalMs.GetOr(0) + row.generationMs.GetOr(0) + row.evaluationMs.value))
  }

  /** Judge calls attempted = skipped + used. */
  ghost predicate CountersBalance(c: map<string, Json>, used: nat) {
    && {"llm_judge_calls_attempted", "llm_judge_calls_skipped_by_heuristics",
        "llm_judge_calls_used_for_final_judgment"} <= c.Keys
    && var attempted := c["llm_judge_calls_attempted"];
    && var skipped := c["llm_judge_calls_skipped_by_heuristics"];
    && c["llm_judge_calls_used_for_final_judgment"] == Num(used)
    && attempted.Num? && skipped.Num? && attempted.n == skipped.n + used
  }

  /** The counters of a completed run say whether its evaluation row came from the judge. */
  ghost predicate CountersAgree(row: RunRow)
    requires |row.evaluations| == 1
  {
    CountersBalance(row.instrumentation, if row.evaluations[0].usedLlmJudge then 1 else 0)
  }

  /** Whatever was recorded before, merging counters that balance leaves counters that balance. */
  lemma MergeBalances(base: map<string, Json>, patch: map<string, Json>, used: nat)
    requires CountersBalance(patch, used)
    ensures CountersBalance(base + patch, used)
  {
  }

  /** What the three builders return balances. */
  lemma BuildersBalance(judge: Tokens, gen: Tokens, cost: Option<Micros>)
    ensures CountersBalance(HeuristicInstrumentation(), 0)
    ensures CountersBalance(HybridSkippedInstrumentation(gen, cost), 0)
    ensures CountersBalance(FullLlmInstrumentation(judge, gen, cost), 1)
  {
  }

  lemma MergedCountersBalance(row: RunRow, judge: Tokens, gen: Tokens, cost: Option<Micros>)
    ensures CountersBalance(MergeInstrumentation(row, HeuristicInstrumentation()).instrumentation, 0)
    ensures CountersBalance(MergeInstrumentation(row, HybridSkippedInstrumentation(gen, cost)).instrumentation, 0)
    ensures CountersBalance(MergeInstrumentation(row, FullLlmInstrumentation(judge, gen, cost)).instrumentation, 1)
  {
    BuildersBalance(judge, gen, cost);
    MergeBalances(row.instrumentation, HeuristicInstrumentation(), 0);
    MergeBalances(row.instrumentation, HybridSkippedInstrumentation(gen, cost), 0);
    MergeBalances(row.instrumentation, FullLlmInstrumentation(judge, gen, cost), 1);
  }

  ghost predicate Consistent(row: RunRow) {
    && RowsAgree(row)
    && LatenciesAgree(row)
    && (row.status == Completed ==> CountersAgree(row))
  }

  // ----- Properties of single transactions ----------------------------------------------------

  lemma CommitJudgeConsistent(row: RunRow, seen: Status, rates: Rates, v: Judgement, ms: nat)
    requires row.retrieval != [] && |row.generations| == 1 && row.evaluations == []
    requires RanksExact(row.retrieval) && row.retrievalMs.Some? && row.generationMs.Some?
    requires seen == GenerationCompleted
    ensures var r := CommitJudge(row, seen, rates, v, ms);
            && r.Ok? && r.value.status == Completed && Consistent(r.value)
            && r.value.hybrid == row.hybrid
            && r.value.retrieval == row.retrieval && r.value.generations == row.generations
            && r.value.evaluations == [EvaluationFor(row.hybrid, rates, row.generations[0], v)]
  {
    var gen := row.generations[0];
    var ev := EvaluationFor(row.hybrid, rates, gen, v);
    assert row.evaluations + [ev] == [ev];
    BuildersBalance(ev.judgeTokens, gen.tokens, ev.cost);
    MergeBalances(row.instrumentation,
                  if ev.usedLlmJudge then FullLlmInstrumentation(ev.judgeTokens, gen.tokens, ev.cost)
                  else HybridSkippedInstrumentation(gen.tokens, ev.cost),
                  if ev.usedLlmJudge then 1 else 0);
  }

  /** Failing a run and rebuilding its status loses nothing, except that a retrieval which
      found no hits is forgotten. */
  lemma FailThenNormalize(row: RunRow)
    requires RowsAgree(row) && row.status != Completed && row.status != Failed
    ensures var back := NormalizeFailed(MarkFailed(row));
            && (back == row <==> !(row.status == RetrievalCompleted && row.retrieval == []))
            && (back != row ==> back == row.(status := Running))
  {
  }

  /** Rebuilding a status never yields an inconsistent row. */
  lemma NormalizeConsistent(row: RunRow)
    requires Consistent(row)
    ensures Consistent(NormalizeFailed(row)) && NormalizeFailed(row).status != Failed
  {
  }

  /** The structural refusals of a requeue, for any row: completed; never started; or a heuristic benchmark,
      which has an evaluation outside the LLM bucket and no generation. */
  lemma RefusalMeans(row: RunRow)
    ensures RequeueEligibility(row) == Some(AlreadyCompleted) <==> row.status == Completed
    ensures RequeueEligibility(row) == Some(StatusNotAllowed(Pending)) <==> row.status == Pending
    ensures RequeueEligibility(row) == Some(HeuristicBenchmark) <==>
              && row.status !in {Completed, Pending}
              && row.generations == [] && row.evaluations != []
              && !row.evaluations[0].usedLlmJudge && row.evaluations[0].evaluatorType != "llm"
    ensures RequeueEligibility(row) in {None, Some(AlreadyCompleted), Some(StatusNotAllowed(Pending)),
                                        Some(HeuristicBenchmark)}
  {
  }

  /** In the full pipeline's states the only structural refusal is "already completed". */
  lemma EligibleUnlessCompleted(row: RunRow)
    requires RowsAgree(row)
    ensures RequeueEligibility(row).None? <==> row.status != Completed
  {
  }
}
