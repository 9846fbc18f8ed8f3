/** What holds in every reachable state of the full-run protocol, over every interleaving. */
module FullRunSafety {
  import opened Basics
  import opened Cost
  import opened RunLifecycle
  import opened Protocol

  lemma ReachableInv(rates: Rates, hybrid: bool, actions: seq<Action>, s: Sys)
    requires Reaches(rates, hybrid, actions, s)
    ensures Inv(s)
  {
    ExecKeepsInv(rates, Init(hybrid), actions);
  }

  // ----- Status and rows ----------------------------------------------------------------------

  /** Status and trace rows agree in every reachable state, and an evaluation row exists exactly
      when the run is completed. */
  lemma StatusAgreesWithRows(rates: Rates, hybrid: bool, actions: seq<Action>, s: Sys)
    requires Reaches(rates, hybrid, actions, s)
    ensures RowsAgree(s.row)
    ensures s.row.evaluations != [] <==> s.row.status == Completed
  {
    ReachableInv(rates, hybrid, actions, s);
  }

  /** A worker caught between opening a phase and committing it still finds the rows that phase
      needs, even when another job's callback has meanwhile written `Failed`. */
  lemma OpenPhaseStaysReady(rates: Rates, hybrid: bool, actions: seq<Action>, s: Sys, j: nat)
    requires Reaches(rates, hybrid, actions, s)
    requires j < |s.jobs| && s.jobs[j].pc.Inside?
    ensures PhaseReady(s.jobs[j].pc.phase, s.row)
  {
    ReachableInv(rates, hybrid, actions, s);
    assert JobOk(s, j);
  }

  /** The duplicate and wrong-status guards never fire. The one guard that can is the missing
      retrieval rows at generation, and it fires exactly when retrieval found no hits. */
  lemma OnlyReachableGuard(rates: Rates, hybrid: bool, actions: seq<Action>, s: Sys, j: nat,
                           gen: GenerationRow, v: Judgement, ms: nat)
    requires Reaches(rates, hybrid, actions, s)
    requires j < |s.jobs| && s.jobs[j].pc.Inside?
    ensures s.jobs[j].pc.phase == GenerationPhase ==>
              var r := CommitGeneration(s.row, s.jobs[j].pc.seen, gen, ms);
              (r.Err? ==> r.error == NoRetrievalRows) && (r.Err? <==> s.row.retrieval == [])
    ensures s.jobs[j].pc.phase == JudgePhase ==> CommitJudge(s.row, s.jobs[j].pc.seen, rates, v, ms).Ok?
  {
    ReachableInv(rates, hybrid, actions, s);
    assert JobOk(s, j);
    if s.jobs[j].pc.phase == JudgePhase {
      CommitJudgeConsistent(s.row, s.jobs[j].pc.seen, rates, v, ms);
    }
  }

  /** Rows of each kind are written at most once: what is stored is never replaced or extended. */
  lemma RowsWrittenOnce(rates: Rates, hybrid: bool, actions: seq<Action>, s: Sys, a: Action)
    requires Reaches(rates, hybrid, actions, s) && Step(rates, s, a).Some?
    ensures var t := Step(rates, s, a).value;
            && (s.row.retrieval != [] ==> t.row.retrieval == s.row.retrieval)
            && (s.row.generations != [] ==> t.row.generations == s.row.generations)
            && (s.row.evaluations != [] ==> t.row.evaluations == s.row.evaluations)
  {
    ReachableInv(rates, hybrid, actions, s);
    StepWritesOnce(rates, s, a);
  }

  lemma StepWritesOnce(rates: Rates, s: Sys, a: Action)
    requires Inv(s) && Step(rates, s, a).Some?
    ensures var t := Step(rates, s, a).value;
            && (s.row.retrieval != [] ==> t.row.retrieval == s.row.retrieval)
            && (s.row.generations != [] ==> t.row.generations == s.row.generations)
            && (s.row.evaluations != [] ==> t.row.evaluations == s.row.evaluations)
  {
    if FinishesPhase(a) {
      CommitWritesOnce(rates, s, a);
    } else {
      RowOfOtherSteps(rates, s, a);
    }
  }

  lemma CommitWritesOnce(rates: Rates, s: Sys, a: Action)
    requires Inv(s) && Step(rates, s, a).Some? && FinishesPhase(a)
    ensures var t := Step(rates, s, a).value;
            && (s.row.retrieval != [] ==> t.row.retrieval == s.row.retrieval)
            && (s.row.generations != [] ==> t.row.generations == s.row.generations)
            && (s.row.evaluations != [] ==> t.row.evaluations == s.row.evaluations)
  {
    PhaseCommit(rates, s, a);
    if a.FinishJudge? {
      CommitJudgeConsistent(s.row, s.jobs[a.j].pc.seen, rates, a.verdict, a.ms);
    }
  }

  /** A completed run never changes again, whatever happens afterwards. */
  lemma {:induction false} CompletedIsAbsorbing(rates: Rates, hybrid: bool, actions: seq<Action>, s: Sys,
                                                more: seq<Action>, t: Sys)
    requires Reaches(rates, hybrid, actions, s) && s.row.status == Completed
    requires Exec(rates, s, more) == Some(t)
    ensures t.row == s.row
  {
    ReachableInv(rates, hybrid, actions, s);
    CompletedStays(rates, s, more);
  }

  lemma {:induction false} CompletedStays(rates: Rates, s: Sys, more: seq<Action>)
    requires Inv(s) && s.row.status == Completed && Exec(rates, s, more).Some?
    ensures Exec(rates, s, more).value.row == s.row
    decreases |more|
  {
    if more != [] {
      var a := more[0];
      if FinishesPhase(a) {
        PhaseCommit(rates, s, a);
      } else {
        RowOfOtherSteps(rates, s, a);
      }
      StepKeepsInv(rates, s, a);
      CompletedStays(rates, Step(rates, s, a).value, more[1..]);
    }
  }

  /** A job takes the lock, or fails to, at most three times. */
  lemma AtMostThreeAttempts(rates: Rates, hybrid: bool, actions: seq<Action>, s: Sys, j: nat)
    requires Reaches(rates, hybrid, actions, s) && j < |s.jobs|
    ensures s.jobs[j].attempts <= 3 && (s.jobs[j].pc == Queued ==> s.jobs[j].attempts <= 2)
  {
    ReachableInv(rates, hybrid, actions, s);
    assert JobOk(s, j);
  }

  // ----- Mutual exclusion -----------------------------------------------------------------------

  /** At most one worker is inside the pipeline, and it is the one whose lock is stored. */
  lemma MutualExclusion(rates: Rates, hybrid: bool, actions: seq<Action>, s: Sys, i: nat, j: nat)
    requires Reaches(rates, hybrid, actions, s)
    requires i < |s.jobs| && j < |s.jobs| && Live(s.jobs[i].pc) && Live(s.jobs[j].pc)
    ensures i == j && s.lock == Some(i)
  {
    ReachableInv(rates, hybrid, actions, s);
    assert JobOk(s, i) && JobOk(s, j);
  }

  /** Only its own `finally` deletes a live worker's lock: no other job's release, no expiry, no
      requeue and no stale-lock clearing does. */
  lemma LiveLockDeletedOnlyByItsWorker(rates: Rates, hybrid: bool, actions: seq<Action>, s: Sys, a: Action, j: nat)
    requires Reaches(rates, hybrid, actions, s) && Step(rates, s, a).Some?
    requires j < |s.jobs| && Live(s.jobs[j].pc)
    ensures Step(rates, s, a).value.lock != s.lock ==> a == Release(j)
  {
    ReachableInv(rates, hybrid, actions, s);
    assert JobOk(s, j);
    if Actor(a) != Some(j) {
      InvOwnsLocks(s);
      OtherJobs(rates, s, a, j);
    } else {
      OwnLockSteps(rates, s, a, j);
    }
  }

  lemma OwnLockSteps(rates: Rates, s: Sys, a: Action, j: nat)
    requires j < |s.jobs| && Live(s.jobs[j].pc) && Actor(a) == Some(j) && Step(rates, s, a).Some?
    ensures Step(rates, s, a).value.lock != s.lock ==> a == Release(j)
  {
  }

  /** A job that did not get the lock is over: no later step touches it or lets it delete the key. */
  lemma {:induction false} LoserIsDone(rates: Rates, s: Sys, j: nat, more: seq<Action>, t: Sys)
    requires j < |s.jobs| && s.jobs[j].pc == Queued && s.lock.Some?
    requires Exec(rates, s, [Acquire(j)] + more) == Some(t)
    ensures Step(rates, s, Acquire(j)).value.lock == s.lock
    ensures j < |t.jobs| && t.jobs[j].pc == Finished && t.jobs[j].attempts == s.jobs[j].attempts + 1
    ensures forall a :: a in more ==> a != Release(j)
  {
    var u := Step(rates, s, Acquire(j)).value;
    assert ([Acquire(j)] + more)[1..] == more;
    FinishedStays(rates, u, j, more);
  }

  lemma FinishedStep(rates: Rates, s: Sys, j: nat, a: Action)
    requires j < |s.jobs| && s.jobs[j].pc == Finished && Step(rates, s, a).Some?
    ensures var t := Step(rates, s, a).value; j < |t.jobs| && t.jobs[j] == s.jobs[j]
    ensures a != Release(j)
  {
  }

  lemma {:induction false} FinishedStays(rates: Rates, s: Sys, j: nat, more: seq<Action>)
    requires j < |s.jobs| && s.jobs[j].pc == Finished && Exec(rates, s, more).Some?
    ensures j < |Exec(rates, s, more).value.jobs| && Exec(rates, s, more).value.jobs[j] == s.jobs[j]
    ensures forall a :: a in more ==> a != Release(j)
    decreases |more|
  {
    if more != [] {
      FinishedStep(rates, s, j, more[0]);
      FinishedStays(rates, Step(rates, s, more[0]).value, j, more[1..]);
      assert more == [more[0]] + more[1..];
    }
  }

  lemma ExecCons(rates: Rates, s: Sys, a: Action, rest: seq<Action>)
    ensures Exec(rates, s, [a] + rest) ==
            match Step(rates, s, a) { case None => None case Some(t) => Exec(rates, t, rest) }
  {
    assert ([a] + rest)[0] == a && ([a] + rest)[1..] == rest;
  }

  /** Two workers are in the pipeline at once, now or after some further steps. */
  ghost predicate LetsTwoIn(rates: Rates, s: Sys) {
    exists more, t, i, j ::
      Exec(rates, s, more) == Some(t) && 0 <= i < j < |t.jobs| && Live(t.jobs[i].pc) && Live(t.jobs[j].pc)
  }

  /** An attempt that fails before it reaches the pipeline, with an error that is retried. */
  function FailedAttempt(j: nat): seq<Action> {
    [Acquire(j), Raise(j, false), Release(j)]
  }

  lemma FailedAttemptIsTrace(rates: Rates, s: Sys, j: nat) returns (t: Sys)
    requires IsAt(s, j, Queued) && s.lock.None?
    ensures Exec(rates, s, FailedAttempt(j)) == Some(t)
    ensures t.row == s.row && t.lock.None? && |t.jobs| == |s.jobs|
    ensures t.jobs[j] == Retried(s.jobs[j].(attempts := s.jobs[j].attempts + 1))
    ensures forall k :: 0 <= k < |s.jobs| && k != j ==> t.jobs[k] == s.jobs[k]
  {
    var s1 := Step(rates, s, Acquire(j)).value;
    var s2 := Step(rates, s1, Raise(j, false)).value;
    t := Step(rates, s2, Release(j)).value;
    Trace3(rates, s, s1, s2, t, Acquire(j), Raise(j, false), Release(j));
  }

  lemma Then(rates: Rates, s: Sys, a: seq<Action>, mid: Sys, b: seq<Action>, t: Sys)
    requires Exec(rates, s, a) == Some(mid) && Exec(rates, mid, b) == Some(t)
    ensures Exec(rates, s, a + b) == Some(t)
  {
    ExecConcat(rates, s, a, b);
  }

  /** A run is created and requeued while its first job waits. */
  lemma RequeuedWhileWaiting(rates: Rates) returns (s: Sys)
    ensures Reaches(rates, false, [Enqueue(None), Requeue, Enqueue(None)], s)
    ensures s.row == NewRun(false) && s.lock.None? && |s.jobs| == 2
    ensures s.jobs[0] == s.jobs[1] == Job(None, RETRY_BUDGET, 0, Queued)
  {
    var s1 := Step(rates, Init(false), Enqueue(None)).value;
    var s2 := Step(rates, s1, Requeue).value;
    s := Step(rates, s2, Enqueue(None)).value;
    Trace3(rates, Init(false), s1, s2, s, Enqueue(None), Requeue, Enqueue(None));
  }

  /** The second job uses up its three attempts before its failure callback runs. */
  lemma SecondJobFails(rates: Rates) returns (s: Sys)
    ensures Reaches(rates, false, [Enqueue(None), Requeue, Enqueue(None)]
                                  + (FailedAttempt(1) + (FailedAttempt(1) + FailedAttempt(1))), s)
    ensures s.row == NewRun(false) && s.lock.None? && |s.jobs| == 2
    ensures s.jobs[0] == Job(None, RETRY_BUDGET, 0, Queued) && s.jobs[1].pc == CallbackDue
  {
    var waiting := RequeuedWhileWaiting(rates);
    var once := FailedAttemptIsTrace(rates, waiting, 1);
    var twice := FailedAttemptIsTrace(rates, once, 1);
    s := FailedAttemptIsTrace(rates, twice, 1);
    Then(rates, once, FailedAttempt(1), twice, FailedAttempt(1), s);
    Then(rates, waiting, FailedAttempt(1), once, FailedAttempt(1) + FailedAttempt(1), s);
    Then(rates, Init(false), [Enqueue(None), Requeue, Enqueue(None)], waiting,
         FailedAttempt(1) + (FailedAttempt(1) + FailedAttempt(1)), s);
  }

  /** The code's stale-lock test alone does not protect a live worker. A run is created and requeued
      while its first job waits; the second job fails three times, then the first one starts. The next
      requeue finds a failed newest job and a running run, deletes the lock of the working job, and its
      own job enters beside it. */
  lemma StaleTestAloneIsUnsafe(rates: Rates) returns (s: Sys, t: Sys)
    ensures Reaches(rates, false, [Enqueue(None), Requeue, Enqueue(None)]
                                  + (FailedAttempt(1) + (FailedAttempt(1) + FailedAttempt(1))) + [Acquire(0)], s)
    ensures StaleLockTest(s, 1) && s.jobs[1].pc == CallbackDue && Live(s.jobs[0].pc) && s.lock == Some(0)
    ensures Exec(rates, s.(lock := None), [Requeue, Enqueue(None), Acquire(2)]) == Some(t)
    ensures Live(t.jobs[0].pc) && Live(t.jobs[2].pc)
  {
    var failed := SecondJobFails(rates);
    s := Step(rates, failed, Acquire(0)).value;
    assert [Acquire(0)] == [Acquire(0)] + [];
    ExecCons(rates, failed, Acquire(0), []);
    Then(rates, Init(false), [Enqueue(None), Requeue, Enqueue(None)]
                             + (FailedAttempt(1) + (FailedAttempt(1) + FailedAttempt(1))), failed, [Acquire(0)], s);
    t := JoinedByRequeue(rates, s.(lock := None));
  }

  lemma JoinedByRequeue(rates: Rates, s: Sys) returns (t: Sys)
    requires s.row == NewRun(false) && s.lock.None? && |s.jobs| == 2
    ensures Exec(rates, s, [Requeue, Enqueue(None), Acquire(2)]) == Some(t)
    ensures |t.jobs| == 3 && t.jobs[0] == s.jobs[0] && Live(t.jobs[2].pc)
  {
    var s1 := Step(rates, s, Requeue).value;
    var s2 := Step(rates, s1, Enqueue(None)).value;
    t := Step(rates, s2, Acquire(2)).value;
    Trace3(rates, s, s1, s2, t, Requeue, Enqueue(None), Acquire(2));
  }

  lemma Trace3(rates: Rates, s: Sys, s1: Sys, s2: Sys, s3: Sys, a: Action, b: Action, c: Action)
    requires Step(rates, s, a) == Some(s1) && Step(rates, s1, b) == Some(s2) && Step(rates, s2, c) == Some(s3)
    ensures Exec(rates, s, [a, b, c]) == Some(s3)
  {
    assert [a, b, c] == [a] + ([b] + ([c] + []));
    ExecCons(rates, s, a, [b] + ([c] + []));
    ExecCons(rates, s1, b, [c] + []);
    ExecCons(rates, s2, c, []);
  }

  lemma Trace5(rates: Rates, s: Sys, s1: Sys, s2: Sys, s3: Sys, s4: Sys, s5: Sys,
               a: Action, b: Action, c: Action, d: Action, e: Action)
    requires Step(rates, s, a) == Some(s1) && Step(rates, s1, b) == Some(s2) && Step(rates, s2, c) == Some(s3)
    requires Step(rates, s3, d) == Some(s4) && Step(rates, s4, e) == Some(s5)
    ensures Exec(rates, s, [a, b, c, d, e]) == Some(s5)
  {
    assert [a, b, c, d, e] == [a] + ([b] + [c, d, e]);
    ExecCons(rates, s, a, [b] + [c, d, e]);
    ExecCons(rates, s1, b, [c, d, e]);
    Trace3(rates, s2, s3, s4, s5, c, d, e);
  }

  /** Nobody is at work once the lock is gone: then no continuation puts two workers in. */
  lemma NoneLiveStaysExclusive(rates: Rates, s: Sys)
    requires Inv(s) && forall k :: 0 <= k < |s.jobs| ==> !Live(s.jobs[k].pc)
    ensures !LetsTwoIn(rates, s.(lock := None))
  {
    var free := s.(lock := None);
    forall k | 0 <= k < |free.jobs|
      ensures JobOk(free, k)
    {
      assert JobOk(s, k);
    }
    forall more, t, i, j |
      Exec(rates, free, more) == Some(t) && 0 <= i < j < |t.jobs| && Live(t.jobs[i].pc) && Live(t.jobs[j].pc)
      ensures false
    {
      ExecKeepsInv(rates, free, more);
      InvOwnsLocks(t);
    }
  }

  /** Deleting the lock of a live worker lets a second one in, two steps later. */
  lemma LiveWorkerIsJoined(rates: Rates, s: Sys, k: nat)
    requires k < |s.jobs| && Live(s.jobs[k].pc)
    ensures LetsTwoIn(rates, s.(lock := None))
  {
    var free, n := s.(lock := None), |s.jobs|;
    var added := free.(jobs := s.jobs + [Job(None, RETRY_BUDGET, 0, Queued)]);
    var more := [Enqueue(None), Acquire(n)];
    var t := added.(lock := Some(n), jobs := added.jobs[n := added.jobs[n].(attempts := 1, pc := Locked)]);
    assert more == [Enqueue(None)] + ([Acquire(n)] + []);
    ExecCons(rates, free, Enqueue(None), [Acquire(n)] + []);
    ExecCons(rates, added, Acquire(n), []);
    assert Exec(rates, free, more) == Some(t) && Live(t.jobs[k].pc) && Live(t.jobs[n].pc);
  }

  /** Exactly when clearing the lock of a run ends mutual exclusion, whatever its job statuses say:
      when a worker is in the pipeline. */
  lemma StaleClearSafeIff(rates: Rates, hybrid: bool, actions: seq<Action>, s: Sys)
    requires Reaches(rates, hybrid, actions, s)
    ensures LetsTwoIn(rates, s.(lock := None)) <==> exists k :: 0 <= k < |s.jobs| && Live(s.jobs[k].pc)
  {
    ReachableInv(rates, hybrid, actions, s);
    if k :| 0 <= k < |s.jobs| && Live(s.jobs[k].pc) {
      LiveWorkerIsJoined(rates, s, k);
    } else {
      NoneLiveStaysExclusive(rates, s);
    }
  }

  /** What an operator can read from the queue: RQ reports no job of the run as started. A worker that
      died unnoticed still counts as started; jobs that wait do not matter. */
  predicate NoneStarted(s: Sys) {
    forall k :: 0 <= k < |s.jobs| ==> !Live(s.jobs[k].pc) && !s.jobs[k].pc.Dead?
  }

  /** Clearing is safe whenever no job is started, in particular when the newest job passes the code's
      test and every other job has ended. */
  lemma StaleClearSafeWhenNoneStarted(rates: Rates, hybrid: bool, actions: seq<Action>, s: Sys, newest: nat)
    requires Reaches(rates, hybrid, actions, s)
    ensures NoneStarted(s) ==> !LetsTwoIn(rates, s.(lock := None))
    ensures StaleLockTest(s, newest) && OthersEnded(s, newest) ==> NoneStarted(s)
  {
    StaleClearSafeIff(rates, hybrid, actions, s);
  }

  // ----- Accounting of completed runs -----------------------------------------------------------

  /** The step that completes a run is the commit of a judgement of its one generation row. */
  lemma CompletingStep(rates: Rates, s: Sys, a: Action)
    requires Inv(s) && s.row.status != Completed && Step(rates, s, a).Some?
    requires Step(rates, s, a).value.row.status == Completed
    ensures var row := Step(rates, s, a).value.row;
            && a.FinishJudge? && |row.generations| == 1
            && row.evaluations == [EvaluationFor(row.hybrid, rates, row.generations[0], a.verdict)]
            && Instrumented(row, PaidCalls(row.hybrid, row.generations[0], a.verdict), row.evaluations[0])
  {
    if FinishesPhase(a) {
      PhaseCommit(rates, s, a);
      if a.FinishJudge? {
        CommitJudgeConsistent(s.row, s.jobs[a.j].pc.seen, rates, a.verdict, a.ms);
        CommitInstruments(s.row, s.jobs[a.j].pc.seen, rates, a.verdict, a.ms);
      }
    } else {
      RowOfOtherSteps(rates, s, a);
    }
  }

  /** The judgement behind a completed run's evaluation row. */
  lemma {:induction false} CompletingJudge(rates: Rates, s: Sys, actions: seq<Action>) returns (a: Action)
    requires Inv(s) && s.row.status != Completed
    requires Exec(rates, s, actions).Some? && Exec(rates, s, actions).value.row.status == Completed
    ensures var row := Exec(rates, s, actions).value.row;
            && a in actions && a.FinishJudge? && |row.generations| == 1
            && row.evaluations == [EvaluationFor(row.hybrid, rates, row.generations[0], a.verdict)]
            && Instrumented(row, PaidCalls(row.hybrid, row.generations[0], a.verdict), row.evaluations[0])
    decreases |actions|
  {
    var t := Step(rates, s, actions[0]).value;
    StepKeepsInv(rates, s, actions[0]);
    if t.row.status == Completed {
      a := actions[0];
      CompletingStep(rates, s, a);
      CompletedStays(rates, t, actions[1..]);
    } else {
      a := CompletingJudge(rates, t, actions[1..]);
    }
  }

  /** Latency sum and judge counters of every completed full run. */
  lemma CompletedAccounts(rates: Rates, hybrid: bool, actions: seq<Action>, s: Sys)
    requires Reaches(rates, hybrid, actions, s) && s.row.status == Completed
    ensures s.row.retrievalMs.Some? && s.row.generationMs.Some? && s.row.evaluationMs.Some?
    ensures s.row.totalMs == Some(s.row.retrievalMs.value + s.row.generationMs.value + s.row.evaluationMs.value)
    ensures |s.row.evaluations| == 1 && CountersAgree(s.row)
  {
    ReachableInv(rates, hybrid, actions, s);
  }

  // ----- What the judgement stored ----------------------------------------------------------------------

  /** The evaluation row of a run whose hybrid gate skipped the judge. */
  predicate HeuristicRow(ev: EvaluationRow, v: Judgement) {
    && !ev.usedLlmJudge && ev.evaluatorType == "heuristic"
    && ev.scores.faithfulness == v.heuristicScores.faithfulness
    && ev.scores.completeness == v.heuristicScores.completeness
    && ev.scores.retrievalRelevance == v.heuristicScores.retrievalRelevance
    && ev.scores.contextCoverage == v.heuristicScores.contextCoverage
    && ev.scores.groundedness == None
    && ev.failureType == v.heuristicFailure
    && ev.judgeTokens == Tokens(None, None)
  }

  /** The evaluation row of a judged run. */
  predicate JudgedRow(ev: EvaluationRow, v: Judgement) {
    && ev.usedLlmJudge && ev.evaluatorType == "llm"
    && ev.scores == v.judgeScores
    && ev.failureType == v.judgeFailure
    && ev.judgeTokens.inp == TotalKnown([v.firstCall] + RetryCalls(v), true)
    && ev.judgeTokens.out == TotalKnown([v.firstCall] + RetryCalls(v), false)
  }

  function RetryCalls(v: Judgement): seq<Tokens> {
    match v.retryCall case None => [] case Some(second) => [second]
  }

  function CountIn(t: Tokens, prompt: bool): Option<nat> {
    if prompt then t.inp else t.out
  }

  /** The sum of the reported prompt (or completion) counts, if any was reported. */
  function TotalKnown(calls: seq<Tokens>, prompt: bool): Option<nat> {
    if calls == [] then None
    else
      var rest := TotalKnown(calls[1..], prompt);
      var first := CountIn(calls[0], prompt);
      if first.None? then rest else Some(first.value + rest.GetOr(0))
  }

  function Count(c: Option<nat>): Json {
    if c.Some? then Num(c.value) else Null
  }

  /** What the run's instrumentation says of the calls that were paid for. */
  ghost predicate Instrumented(row: RunRow, calls: seq<Tokens>, ev: EvaluationRow) {
    && var c := row.instrumentation;
    && {"evaluator_execution_mode", "llm_generation_calls", "estimated_prompt_tokens", "estimated_completion_tokens",
        "estimated_cost_usd"} <= c.Keys
    && c["evaluator_execution_mode"] == Str(if ev.usedLlmJudge then "llm_only" else "hybrid")
    && c["llm_generation_calls"] == Num(1)
    && c["estimated_prompt_tokens"] == Count(TotalKnown(calls, true))
    && c["estimated_completion_tokens"] == Count(TotalKnown(calls, false))
    && c["estimated_cost_usd"] == (if ev.cost.Some? then Amount(ev.cost.value) else Null)
  }

  lemma TotalOfTwo(a: Tokens, b: Tokens, prompt: bool)
    ensures TotalKnown([a], prompt) == CountIn(a, prompt)
    ensures TotalKnown([a, b], prompt) == SumCounts(CountIn(a, prompt), CountIn(b, prompt))
  {
    assert [a, b][1..] == [b] && [a][1..] == [] && [b][1..] == [];
  }

  lemma TotalOfThree(a: Tokens, b: Tokens, c: Tokens, prompt: bool)
    ensures TotalKnown([a, b, c], prompt) ==
            SumCounts(CountIn(a, prompt), SumCounts(CountIn(b, prompt), CountIn(c, prompt)))
  {
    assert [a, b, c][1..] == [b, c];
    TotalOfTwo(b, c, prompt);
  }

  /** The recorded judge usage is the sum over the judge's calls, and the recorded totals that over all. */
  lemma UsageTotals(gen: Tokens, v: Judgement, prompt: bool)
    ensures var judge := JudgeUsage(v.firstCall, v.retryCall);
            && CountIn(judge, prompt) == TotalKnown([v.firstCall] + RetryCalls(v), prompt)
            && SumCounts(CountIn(gen, prompt), CountIn(judge, prompt)) ==
               TotalKnown(CallsOf(gen, v.firstCall, v.retryCall), prompt)
  {
    match v.retryCall
    case None =>
      assert [v.firstCall] + [] == [v.firstCall] && [gen, v.firstCall] + [] == [gen, v.firstCall];
      TotalOfTwo(v.firstCall, v.firstCall, prompt);
      TotalOfTwo(gen, v.firstCall, prompt);
    case Some(second) =>
      assert [v.firstCall] + [second] == [v.firstCall, second];
      assert [gen, v.firstCall] + [second] == [gen, v.firstCall, second];
      TotalOfTwo(v.firstCall, second, prompt);
      TotalOfThree(gen, v.firstCall, second, prompt);
  }

  lemma EvaluationForStores(hybrid: bool, rates: Rates, gen: GenerationRow, v: Judgement)
    ensures var ev := EvaluationFor(hybrid, rates, gen, v);
            if hybrid && v.gatePasses then HeuristicRow(ev, v) else JudgedRow(ev, v)
  {
    UsageTotals(gen.tokens, v, true);
    UsageTotals(gen.tokens, v, false);
  }

  /** The instrumentation a judgement's transaction leaves, over whatever was recorded before. */
  lemma CommitInstruments(row: RunRow, seen: Status, rates: Rates, v: Judgement, ms: nat)
    requires CommitJudge(row, seen, rates, v, ms).Ok? && |row.generations| == 1 && row.evaluations == []
    ensures var done := CommitJudge(row, seen, rates, v, ms).value;
            |done.evaluations| == 1
            && Instrumented(done, PaidCalls(row.hybrid, row.generations[0], v), done.evaluations[0])
  {
    var gen := row.generations[0].tokens;
    UsageTotals(gen, v, true);
    UsageTotals(gen, v, false);
    TotalOfTwo(gen, gen, true);
    TotalOfTwo(gen, gen, false);
  }

  lemma StepKeepsMode(rates: Rates, s: Sys, a: Action)
    requires Step(rates, s, a).Some?
    ensures Step(rates, s, a).value.row.hybrid == s.row.hybrid
  {
    if !FinishesPhase(a) {
      RowOfOtherSteps(rates, s, a);
    }
  }

  lemma {:induction false} ExecKeepsMode(rates: Rates, s: Sys, actions: seq<Action>)
    requires Exec(rates, s, actions).Some?
    ensures Exec(rates, s, actions).value.row.hybrid == s.row.hybrid
    decreases |actions|
  {
    if actions != [] {
      StepKeepsMode(rates, s, actions[0]);
      ExecKeepsMode(rates, Step(rates, s, actions[0]).value, actions[1..]);
    }
  }

  /** The judgement that completed a run, found in its execution, is what the run stores: the judge's
      scores, label and usage if the judge was used, otherwise the heuristic ones without groundedness;
      and token totals over every provider call it paid for. */
  lemma CompletedJudgement(rates: Rates, hybrid: bool, actions: seq<Action>, s: Sys) returns (a: Action)
    requires Reaches(rates, hybrid, actions, s) && s.row.status == Completed
    ensures |s.row.generations| == 1 && |s.row.evaluations| == 1
    ensures a in actions && a.FinishJudge?
    ensures var ev := s.row.evaluations[0];
            && (if hybrid && a.verdict.gatePasses then HeuristicRow(ev, a.verdict) else JudgedRow(ev, a.verdict))
            && Instrumented(s.row, PaidCalls(hybrid, s.row.generations[0], a.verdict), ev)
  {
    a := CompletingJudge(rates, Init(hybrid), actions);
    ExecKeepsMode(rates, Init(hybrid), actions);
    EvaluationForStores(s.row.hybrid, rates, s.row.generations[0], a.verdict);
  }

  /** The provider calls a judgement of generation `gen` pays for: the generation and, unless the hybrid
      gate skipped the judge, each of the judge's one or two calls. */
  function PaidCalls(hybrid: bool, gen: GenerationRow, v: Judgement): seq<Tokens> {
    if hybrid && v.gatePasses then [gen.tokens] else CallsOf(gen.tokens, v.firstCall, v.retryCall)
  }

  lemma EvaluationCost(hybrid: bool, rates: Rates, gen: GenerationRow, v: Judgement)
    ensures var ev := EvaluationFor(hybrid, rates, gen, v);
            var calls := PaidCalls(hybrid, gen, v);
            && (ev.cost.None? <==> rates.PricingOff() || !AnyCountKnown(calls))
            && (ev.cost.Some? ==> -0.000001 <= Usd(ev.cost.value) - ExactBill(rates, calls) <= 0.000001)
  {
    if hybrid && v.gatePasses {
      EstimateBound(rates, gen.tokens);
    } else {
      StoredCostBound(rates, gen.tokens, v.firstCall, v.retryCall);
    }
  }

  /** The cost a completed run stores is within one micro-dollar of the exact bill for every provider
      call of the judgement that completed it, the judge's retry included, and is null exactly when
      pricing is off or none of those calls reported a count. */
  lemma CompletedCost(rates: Rates, hybrid: bool, actions: seq<Action>, s: Sys) returns (a: Action)
    requires Reaches(rates, hybrid, actions, s) && s.row.status == Completed
    ensures |s.row.generations| == 1 && |s.row.evaluations| == 1
    ensures a in actions && a.FinishJudge?
    ensures var ev, calls := s.row.evaluations[0], PaidCalls(hybrid, s.row.generations[0], a.verdict);
            && ev.usedLlmJudge == !(hybrid && a.verdict.gatePasses)
            && (ev.cost.None? <==> rates.PricingOff() || !AnyCountKnown(calls))
            && (ev.cost.Some? ==> -0.000001 <= Usd(ev.cost.value) - ExactBill(rates, calls) <= 0.000001)
  {
    a := CompletingJudge(rates, Init(hybrid), actions);
    ExecKeepsMode(rates, Init(hybrid), actions);
    EvaluationCost(s.row.hybrid, rates, s.row.generations[0], a.verdict);
  }
}
