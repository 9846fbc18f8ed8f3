/** What an attempt does to an unfinished run, told from what its external calls do: which calls are
    reached, what they leave behind, and which errors fail the run instead of leaving the pipeline. */
module PipelineOutcome {
  import opened Basics
  import opened Cost
  import opened RunLifecycle
  import opened Protocol
  import opened Attempt

  predicate Unfinished(row: RunRow) {
    row.status in {Running, RetrievalCompleted, GenerationCompleted}
  }

  // ----- Which calls are reached -----------------------------------------------------------------------

  predicate SearchCalled(row: RunRow) {
    row.status == Running
  }

  /** The generation phase is entered: retrieval is stored, now or before. */
  predicate GenerationEntered(row: RunRow, o: Outcomes) {
    row.status == RetrievalCompleted || (SearchCalled(row) && o.retrieval.Returns?)
  }

  /** The hits the generation phase finds. */
  predicate HasHits(row: RunRow, o: Outcomes) {
    if SearchCalled(row) then o.retrieval.Returns? && o.retrieval.value != [] else row.retrieval != []
  }

  predicate ModelCalled(row: RunRow, o: Outcomes) {
    GenerationEntered(row, o) && HasHits(row, o)
  }

  predicate JudgeCalled(row: RunRow, o: Outcomes) {
    row.status == GenerationCompleted || (ModelCalled(row, o) && o.generation.Returns?)
  }

  // ----- How the attempt ends ---------------------------------------------------------------------------

  /** A provider error, or any error but `ValueError` and `TypeError`, is left to the queue's retry. */
  predicate LeavesPipeline(row: RunRow, o: Outcomes) {
    || (SearchCalled(row) && o.retrieval.RaisesOther?)
    || (ModelCalled(row, o) && o.generation.RaisesOther?)
    || (JudgeCalled(row, o) && o.judge.RaisesOther?)
  }

  /** A precondition or data error, or an empty retrieval, fails the run without a retry. */
  predicate FailsRun(row: RunRow, o: Outcomes) {
    || (SearchCalled(row) && o.retrieval.RaisesValueError?)
    || (GenerationEntered(row, o) && !HasHits(row, o))
    || (ModelCalled(row, o) && o.generation.RaisesValueError?)
    || (JudgeCalled(row, o) && o.judge.RaisesValueError?)
  }

  predicate CompletesRun(row: RunRow, o: Outcomes) {
    JudgeCalled(row, o) && o.judge.Returns?
  }

  /** The status the last phase that returned left, before the run is failed or completed. */
  function ReachedStatus(row: RunRow, o: Outcomes): Status {
    if JudgeCalled(row, o) then GenerationCompleted
    else if GenerationEntered(row, o) then RetrievalCompleted
    else Running
  }

  /** What the attempt leaves of `row`, and whether an exception leaves it. */
  ghost predicate Ends(row: RunRow, o: Outcomes, after: RunRow, raised: bool) {
    && raised == LeavesPipeline(row, o)
    && after.status == (if FailsRun(row, o) then Failed
                        else if CompletesRun(row, o) then Completed
                        else ReachedStatus(row, o))
    && Stored(row, o, after)
  }

  /** Every call that was reached and returned has stored its result and its latency; nothing else has. */
  ghost predicate Stored(row: RunRow, o: Outcomes, after: RunRow) {
    && after.hybrid == row.hybrid
    && (if SearchCalled(row) && o.retrieval.Returns? then
          after.retrieval == RankRows(o.retrieval.value) && after.retrievalMs == Some(o.retrieval.ms)
        else after.retrieval == row.retrieval && after.retrievalMs == row.retrievalMs)
    && (if ModelCalled(row, o) && o.generation.Returns? then
          after.generations == [o.generation.value] && after.generationMs == Some(o.generation.ms)
        else after.generations == row.generations && after.generationMs == row.generationMs)
    && (if CompletesRun(row, o) then |after.evaluations| == 1 && after.evaluationMs == Some(o.judge.ms)
        else after.evaluations == [] && after.evaluationMs == row.evaluationMs && after.totalMs == row.totalMs
             && after.instrumentation == row.instrumentation)
  }

  // ----- Phase by phase, from the last ------------------------------------------------------------------

  lemma JudgeReturns(row: RunRow, rates: Rates, o: Outcomes)
    requires Consistent(row) && row.status == GenerationCompleted && o.judge.Returns?
    ensures var flow := PhaseFlow(JudgePhase, row, rates, o);
            flow.Proceed? && flow.row.status == Completed && Stored(row, o, flow.row)
  {
    CommitJudgeConsistent(row, row.status, rates, o.judge.value, o.judge.ms);
  }

  lemma JudgeStage(row: RunRow, rates: Rates, o: Outcomes)
    requires Consistent(row) && row.status == GenerationCompleted
    ensures var r := PhasesFrom(JudgePhase, row, rates, o); Ends(row, o, r.0, r.1)
  {
    if o.judge.Returns? {
      JudgeReturns(row, rates, o);
    }
  }

  lemma AfterGeneration(row: RunRow, o: Outcomes, mid: RunRow, after: RunRow, raised: bool)
    requires Consistent(row) && row.status == RetrievalCompleted && row.retrieval != [] && o.generation.Returns?
    requires mid == row.(generations := [o.generation.value], generationMs := Some(o.generation.ms),
                         status := GenerationCompleted)
    requires Ends(mid, o, after, raised)
    ensures Ends(row, o, after, raised)
  {
  }

  lemma GenerationStage(row: RunRow, rates: Rates, o: Outcomes)
    requires Consistent(row) && row.status == RetrievalCompleted
    ensures var r := PhasesFrom(GenerationPhase, row, rates, o); Ends(row, o, r.0, r.1)
  {
    if row.retrieval != [] && o.generation.Returns? {
      assert row.generations + [o.generation.value] == [o.generation.value];
      var mid := PhaseFlow(GenerationPhase, row, rates, o).row;
      JudgeStage(mid, rates, o);
      var r := PhasesFrom(JudgePhase, mid, rates, o);
      AfterGeneration(row, o, mid, r.0, r.1);
    }
  }

  lemma AfterRetrieval(row: RunRow, o: Outcomes, mid: RunRow, after: RunRow, raised: bool)
    requires Consistent(row) && row.status == Running && o.retrieval.Returns?
    requires mid == row.(retrieval := RankRows(o.retrieval.value), retrievalMs := Some(o.retrieval.ms),
                         status := RetrievalCompleted)
    requires Ends(mid, o, after, raised)
    ensures Ends(row, o, after, raised)
  {
  }

  lemma RetrievalStage(row: RunRow, rates: Rates, o: Outcomes)
    requires Consistent(row) && row.status == Running
    ensures var r := PhasesFrom(RetrievalPhase, row, rates, o); Ends(row, o, r.0, r.1)
  {
    if o.retrieval.Returns? {
      assert row.retrieval + RankRows(o.retrieval.value) == RankRows(o.retrieval.value);
      var mid := PhaseFlow(RetrievalPhase, row, rates, o).row;
      GenerationStage(mid, rates, o);
      var r := PhasesFrom(GenerationPhase, mid, rates, o);
      AfterRetrieval(row, o, mid, r.0, r.1);
    }
  }

  /** One attempt on a consistent unfinished run, for every outcome of its calls: an exception leaves the
      pipeline exactly when the call it stops at raises an error that is to be retried, and the run then
      stands where its last finished phase left it; it is failed exactly when that call raises a
      `ValueError` or retrieval is empty; it is completed exactly when the judge is reached and returns. */
  lemma PipelineEnds(row: RunRow, rates: Rates, o: Outcomes)
    requires Consistent(row) && Unfinished(row)
    ensures var r := Pipeline(row, rates, o); Ends(row, o, r.0, r.1)
  {
    match row.status
    case Running => RetrievalStage(row, rates, o);
    case RetrievalCompleted => GenerationStage(row, rates, o);
    case GenerationCompleted =>
      JudgeStage(row, rates, o);
  }

  /** A run that is completed or failed is left alone, whatever the calls would do. */
  lemma TerminalIsSkipped(row: RunRow, rates: Rates, o: Outcomes)
    requires row.status in {Completed, Failed}
    ensures Pipeline(row, rates, o) == (row, false)
  {
  }

  // ----- The attempt as protocol actions ----------------------------------------------------------------

  lemma JudgeActions(j: nat, row: RunRow, rates: Rates, o: Outcomes, valueError: bool)
    requires Consistent(row) && row.status == GenerationCompleted
    ensures Raise(j, valueError) in ActionsFrom(JudgePhase, j, row, rates, o) <==>
            if valueError then FailsRun(row, o) else LeavesPipeline(row, o)
  {
    if o.judge.Returns? {
      JudgeReturns(row, rates, o);
    }
    assert PhaseActions(JudgePhase, j, row, rates, o) + [] == PhaseActions(JudgePhase, j, row, rates, o);
  }

  lemma GenerationActions(j: nat, row: RunRow, rates: Rates, o: Outcomes, valueError: bool)
    requires Consistent(row) && row.status == RetrievalCompleted
    ensures Raise(j, valueError) in ActionsFrom(GenerationPhase, j, row, rates, o) <==>
            if valueError then FailsRun(row, o) else LeavesPipeline(row, o)
  {
    if row.retrieval != [] && o.generation.Returns? {
      assert row.generations + [o.generation.value] == [o.generation.value];
      var mid := PhaseFlow(GenerationPhase, row, rates, o).row;
      JudgeStage(mid, rates, o);
      JudgeActions(j, mid, rates, o, valueError);
    } else {
      assert PhaseActions(GenerationPhase, j, row, rates, o) + [] == PhaseActions(GenerationPhase, j, row, rates, o);
    }
  }

  lemma RetrievalActions(j: nat, row: RunRow, rates: Rates, o: Outcomes, valueError: bool)
    requires Consistent(row) && row.status == Running
    ensures Raise(j, valueError) in ActionsFrom(RetrievalPhase, j, row, rates, o) <==>
            if valueError then FailsRun(row, o) else LeavesPipeline(row, o)
  {
    if o.retrieval.Returns? {
      assert row.retrieval + RankRows(o.retrieval.value) == RankRows(o.retrieval.value);
      var mid := PhaseFlow(RetrievalPhase, row, rates, o).row;
      GenerationActions(j, mid, rates, o, valueError);
    } else {
      assert PhaseActions(RetrievalPhase, j, row, rates, o) + [] == PhaseActions(RetrievalPhase, j, row, rates, o);
    }
  }

  lemma SkippedActions(p: Phase, j: nat, row: RunRow, rates: Rates, o: Outcomes, a: Action)
    requires row.status != ExpectedStatus(p) && !p.JudgePhase? && a != Begin(j)
    ensures a in ActionsFrom(p, j, row, rates, o) <==> a in ActionsFrom(AfterPhase(p).next, j, row, rates, o)
  {
  }

  lemma BodyActions(j: nat, row: RunRow, rates: Rates, o: Outcomes, valueError: bool)
    requires Consistent(row) && Unfinished(row)
    ensures Raise(j, valueError) in Body(j, row, rates, o) <==>
            if valueError then FailsRun(row, o) else LeavesPipeline(row, o)
  {
    var a := Raise(j, valueError);
    match row.status
    case Running => RetrievalActions(j, row, rates, o, valueError);
    case RetrievalCompleted =>
      SkippedActions(RetrievalPhase, j, row, rates, o, a);
      GenerationActions(j, row, rates, o, valueError);
    case GenerationCompleted =>
      SkippedActions(RetrievalPhase, j, row, rates, o, a);
      SkippedActions(GenerationPhase, j, row, rates, o, a);
      JudgeActions(j, row, rates, o, valueError);
  }

  /** The execution that stands for the attempt has the error that is caught exactly when the run fails, and
      the error that is retried exactly when an exception leaves the pipeline. */
  lemma AttemptRaises(j: nat, row: RunRow, rates: Rates, o: Outcomes)
    requires Consistent(row) && Unfinished(row)
    ensures Raise(j, true) in AttemptActions(j, row, rates, o) <==> FailsRun(row, o)
    ensures Raise(j, false) in AttemptActions(j, row, rates, o) <==> LeavesPipeline(row, o)
  {
    BodyActions(j, row, rates, o, true);
    BodyActions(j, row, rates, o, false);
  }
}
