/** Interrupted runs: what a requeue restores, and why retries cannot change what is stored. */
module Recovery {
  import opened Basics
  import opened Cost
  import opened RunLifecycle
  import opened Protocol
  import opened Attempt
  import FullRunSafety

  // ----- Requeue ------------------------------------------------------------------------------

  /** In every reachable, unfinished state: failing the run and normalising it for a requeue gives
      the same row back, unless retrieval had completed without hits; then it restarts. */
  lemma FailureIsUndone(rates: Rates, hybrid: bool, actions: seq<Action>, s: Sys)
    requires Reaches(rates, hybrid, actions, s) && s.row.status !in {Completed, Failed}
    ensures NormalizeFailed(MarkFailed(s.row)) ==
            if s.row.status == RetrievalCompleted && s.row.retrieval == [] then s.row.(status := Running) else s.row
  {
    FullRunSafety.ReachableInv(rates, hybrid, actions, s);
    FailThenNormalize(s.row);
  }

  /** Every external call returns, and the search finds something. */
  predicate FaultFree(o: Outcomes) {
    o.retrieval.Returns? && o.retrieval.value != [] && o.generation.Returns? && o.judge.Returns?
  }

  predicate RetrievedNothing(row: RunRow) {
    row.status == RetrievalCompleted && row.retrieval == []
  }

  lemma JudgeStageCompletes(row: RunRow, rates: Rates, o: Outcomes)
    requires Consistent(row) && row.status == GenerationCompleted && FaultFree(o)
    ensures var r := PhasesFrom(JudgePhase, row, rates, o); r.0.status == Completed && !r.1
  {
    CommitJudgeConsistent(row, row.status, rates, o.judge.value, o.judge.ms);
  }

  lemma GenerationStageCompletes(row: RunRow, rates: Rates, o: Outcomes)
    requires Consistent(row) && row.status in {RetrievalCompleted, GenerationCompleted} && FaultFree(o)
    ensures var r := PhasesFrom(GenerationPhase, row, rates, o);
            if RetrievedNothing(row) then r == (MarkFailed(row), false) else r.0.status == Completed && !r.1
  {
    var flow := PhaseFlow(GenerationPhase, row, rates, o);
    if !RetrievedNothing(row) {
      assert row.generations == [] ==> row.generations + [o.generation.value] == [o.generation.value];
      JudgeStageCompletes(flow.row, rates, o);
    }
  }

  lemma FaultFreePipeline(row: RunRow, rates: Rates, o: Outcomes)
    requires Consistent(row) && row.status !in {Completed, Failed} && FaultFree(o)
    ensures var r := Pipeline(row, rates, o);
            if RetrievedNothing(row) then r == (MarkFailed(row), false) else r.0.status == Completed && !r.1
  {
    var flow := PhaseFlow(RetrievalPhase, row, rates, o);
    if row.status == Running {
      assert row.retrieval + RankRows(o.retrieval.value) == RankRows(o.retrieval.value);
    }
    GenerationStageCompletes(flow.row, rates, o);
  }

  /** An operator's requeue followed by one undisturbed attempt of the new job. */
  function RequeueThenRun(s: Sys, scope: Option<int>, rates: Rates, o: Outcomes): seq<Action> {
    [Requeue, Enqueue(scope)] + AttemptActions(|s.jobs|, NormalizeFailed(s.row), rates, o)
  }

  /** From any reachable unfinished state with a free lock, one requeue and one fault-free attempt
      are an execution of the protocol, and it completes the run exactly when the run was not
      left at `retrieval_completed` with no hits. */
  lemma RequeueRecovers(rates: Rates, hybrid: bool, actions: seq<Action>, s: Sys, scope: Option<int>, o: Outcomes)
    requires Reaches(rates, hybrid, actions, s) && s.row.status != Completed && s.lock.None? && FaultFree(o)
    ensures var t := Exec(rates, s, RequeueThenRun(s, scope, rates, o));
            && t.Some?
            && (t.value.row.status == Completed <==> !RetrievedNothing(s.row))
            && t.value.lock.None?
            && (RetrievedNothing(s.row) ==> t.value.row == MarkFailed(s.row))
  {
    FullRunSafety.ReachableInv(rates, hybrid, actions, s);
    RequeueFromInv(rates, s, scope, o);
  }

  lemma RequeueFromInv(rates: Rates, s: Sys, scope: Option<int>, o: Outcomes)
    requires Inv(s) && s.row.status != Completed && s.lock.None? && FaultFree(o)
    ensures var row := NormalizeFailed(s.row);
            var t := Exec(rates, s, RequeueThenRun(s, scope, rates, o));
            && t.Some?
            && (t.value.row.status == Completed <==> !RetrievedNothing(s.row))
            && t.value.lock.None?
            && (RetrievedNothing(s.row) ==> t.value.row == MarkFailed(s.row))
  {
    EligibleUnlessCompleted(s.row);
    NormalizeConsistent(s.row);
    var n := |s.jobs|;
    var s1 := Step(rates, s, Requeue).value;
    var s2 := Step(rates, s1, Enqueue(scope)).value;
    Exec2(rates, s, Requeue, Enqueue(scope));
    AttemptIsTrace(rates, s2, n, o);
    FaultFreePipeline(s1.row, rates, o);
    ExecConcat(rates, s, [Requeue, Enqueue(scope)], AttemptActions(n, s1.row, rates, o));
  }

  /** The exception is real: a search without hits, a worker that dies before the next phase, and an
      expired lock. */
  lemma EmptyRetrievalIsReachable(rates: Rates, hybrid: bool) returns (s: Sys)
    ensures Reaches(rates, hybrid, [Enqueue(None), Acquire(0), CheckTerminal(0), Begin(0), FinishRetrieval(0, [], 0),
                                    Die(0), ExpireLock], s)
    ensures RetrievedNothing(s.row) && s.lock.None?
  {
    var mid := EmptySearch(rates, hybrid);
    s := DeadLockExpires(rates, mid, 0);
    var first := [Enqueue(None), Acquire(0), CheckTerminal(0), Begin(0), FinishRetrieval(0, [], 0)];
    ExecConcat(rates, Init(hybrid), first, [Die(0), ExpireLock]);
    assert first + [Die(0), ExpireLock] ==
           [Enqueue(None), Acquire(0), CheckTerminal(0), Begin(0), FinishRetrieval(0, [], 0), Die(0), ExpireLock];
  }

  /** A worker dies, and its lock expires. */
  lemma DeadLockExpires(rates: Rates, s: Sys, j: nat) returns (t: Sys)
    requires j < |s.jobs| && Live(s.jobs[j].pc) && s.lock == Some(j)
    ensures Exec(rates, s, [Die(j), ExpireLock]) == Some(t) && t.lock.None? && t.row == s.row
  {
    t := SetPc(s, j, Dead).(lock := None);
    Exec2(rates, s, Die(j), ExpireLock);
  }

  lemma EmptySearch(rates: Rates, hybrid: bool) returns (s: Sys)
    ensures Reaches(rates, hybrid, [Enqueue(None), Acquire(0), CheckTerminal(0), Begin(0),
                                    FinishRetrieval(0, [], 0)], s)
    ensures RetrievedNothing(s.row) && s.lock == Some(0) && |s.jobs| == 1 && s.jobs[0].pc == Between(GenerationPhase)
  {
    var s1 := Step(rates, Init(hybrid), Enqueue(None)).value;
    var s2 := Step(rates, s1, Acquire(0)).value;
    var s3 := Step(rates, s2, CheckTerminal(0)).value;
    var s4 := Step(rates, s3, Begin(0)).value;
    assert s4.jobs[0].pc == Inside(RetrievalPhase, Running);
    s := Step(rates, s4, FinishRetrieval(0, [], 0)).value;
    FullRunSafety.Trace5(rates, Init(hybrid), s1, s2, s3, s4, s,
                         Enqueue(None), Acquire(0), CheckTerminal(0), Begin(0), FinishRetrieval(0, [], 0));
  }

  /** A run stuck on an empty retrieval needs exactly one more requeue. */
  lemma SecondRequeueRecovers(rates: Rates, hybrid: bool, actions: seq<Action>, s: Sys, scope: Option<int>, o: Outcomes)
    requires Reaches(rates, hybrid, actions, s) && RetrievedNothing(s.row) && s.lock.None? && FaultFree(o)
    ensures var t := Exec(rates, s, RequeueThenRun(s, scope, rates, o));
            && t.Some?
            && var u := Exec(rates, t.value, RequeueThenRun(t.value, scope, rates, o));
               u.Some? && u.value.row.status == Completed
  {
    FullRunSafety.ReachableInv(rates, hybrid, actions, s);
    RequeueFromInv(rates, s, scope, o);
    var t := Exec(rates, s, RequeueThenRun(s, scope, rates, o)).value;
    ExecKeepsInv(rates, s, RequeueThenRun(s, scope, rates, o));
    RequeueFromInv(rates, t, scope, o);
  }

  // ----- Crash-retry refinement -----------------------------------------------------------------

  /** Deterministic external calls. */
  datatype Env = Env(
    retrieve: Option<int> -> seq<Hit>,
    generate: seq<RetrievalRow> -> GenerationRow,
    judge: (seq<RetrievalRow>, GenerationRow) -> Judgement)

  /** The action uses the environment's answers, and no job with another document scope is
      enqueued before retrieval has stored rows. Raises, deaths, expiries, callbacks, retries and
      requeues are unrestricted. */
  ghost predicate Follows(env: Env, scope: Option<int>, s: Sys, a: Action) {
    match a
    case Enqueue(sc) => sc == scope || s.row.retrieval != []
    case FinishRetrieval(j, hits, _) => j < |s.jobs| ==> hits == env.retrieve(s.jobs[j].scope)
    case FinishGeneration(_, gen, _) => gen == env.generate(s.row.retrieval)
    case FinishJudge(_, v, _) => s.row.generations != [] ==> v == env.judge(s.row.retrieval, s.row.generations[0])
    case _ => true
  }

  ghost predicate AllFollow(env: Env, scope: Option<int>, rates: Rates, s: Sys, actions: seq<Action>)
    decreases |actions|
  {
    actions != [] && Step(rates, s, actions[0]).Some? ==>
      && Follows(env, scope, s, actions[0])
      && AllFollow(env, scope, rates, Step(rates, s, actions[0]).value, actions[1..])
  }

  /** The stored rows are a prefix of what one uninterrupted attempt stores. */
  ghost predicate Faithful(env: Env, scope: Option<int>, rates: Rates, hybrid: bool, s: Sys) {
    var row := s.row;
    && row.hybrid == hybrid
    && (row.retrieval == [] ==> forall j :: 0 <= j < |s.jobs| ==> s.jobs[j].scope == scope)
    && (row.retrieval != [] ==> row.retrieval == RankRows(env.retrieve(scope)))
    && (row.generations != [] ==> row.generations == [env.generate(row.retrieval)])
    && (row.evaluations != [] ==>
          && row.generations != []
          && row.evaluations == [EvaluationFor(hybrid, rates, row.generations[0],
                                               env.judge(row.retrieval, row.generations[0]))])
  }

  lemma ScopesKept(rates: Rates, s: Sys, a: Action)
    requires Step(rates, s, a).Some? && !a.Enqueue?
    ensures var t := Step(rates, s, a).value;
            |t.jobs| == |s.jobs| && forall j :: 0 <= j < |s.jobs| ==> t.jobs[j].scope == s.jobs[j].scope
  {
  }

  lemma RetrievalKeepsFaithful(env: Env, scope: Option<int>, rates: Rates, hybrid: bool, s: Sys, a: Action)
    requires Inv(s) && Faithful(env, scope, rates, hybrid, s)
    requires Step(rates, s, a).Some? && Follows(env, scope, s, a) && a.FinishRetrieval?
    ensures Faithful(env, scope, rates, hybrid, Step(rates, s, a).value)
  {
    assert a.j < |s.jobs| && JobOk(s, a.j);
    ScopesKept(rates, s, a);
    assert s.row.retrieval + RankRows(a.hits) == RankRows(a.hits);
    assert Step(rates, s, a).value.row == CommitRetrieval(s.row, a.hits, a.ms);
  }

  lemma GenerationKeepsFaithful(env: Env, scope: Option<int>, rates: Rates, hybrid: bool, s: Sys, a: Action)
    requires Inv(s) && Faithful(env, scope, rates, hybrid, s)
    requires Step(rates, s, a).Some? && Follows(env, scope, s, a) && a.FinishGeneration?
    ensures Faithful(env, scope, rates, hybrid, Step(rates, s, a).value)
  {
    assert a.j < |s.jobs| && JobOk(s, a.j);
    ScopesKept(rates, s, a);
    assert s.row.generations + [a.gen] == [a.gen];
    var r := CommitGeneration(s.row, s.jobs[a.j].pc.seen, a.gen, a.ms);
    assert Step(rates, s, a).value.row == (if r.Ok? then r.value else s.row);
  }

  lemma JudgeKeepsFaithful(env: Env, scope: Option<int>, rates: Rates, hybrid: bool, s: Sys, a: Action)
    requires Inv(s) && Faithful(env, scope, rates, hybrid, s)
    requires Step(rates, s, a).Some? && Follows(env, scope, s, a) && a.FinishJudge?
    ensures Faithful(env, scope, rates, hybrid, Step(rates, s, a).value)
  {
    assert a.j < |s.jobs| && JobOk(s, a.j);
    ScopesKept(rates, s, a);
    var seen := s.jobs[a.j].pc.seen;
    CommitJudgeConsistent(s.row, seen, rates, a.verdict, a.ms);
    assert Step(rates, s, a).value.row == CommitJudge(s.row, seen, rates, a.verdict, a.ms).value;
  }

  lemma StepKeepsFaithful(env: Env, scope: Option<int>, rates: Rates, hybrid: bool, s: Sys, a: Action)
    requires Inv(s) && Faithful(env, scope, rates, hybrid, s)
    requires Step(rates, s, a).Some? && Follows(env, scope, s, a)
    ensures Faithful(env, scope, rates, hybrid, Step(rates, s, a).value)
  {
    if a.FinishRetrieval? {
      RetrievalKeepsFaithful(env, scope, rates, hybrid, s, a);
    } else if a.FinishGeneration? {
      GenerationKeepsFaithful(env, scope, rates, hybrid, s, a);
    } else if a.FinishJudge? {
      JudgeKeepsFaithful(env, scope, rates, hybrid, s, a);
    } else {
      RowOfOtherSteps(rates, s, a);
      if !a.Enqueue? {
        ScopesKept(rates, s, a);
      }
    }
  }

  lemma {:induction false} ExecKeepsFaithful(env: Env, scope: Option<int>, rates: Rates, hybrid: bool, s: Sys,
                                             actions: seq<Action>)
    requires Inv(s) && Faithful(env, scope, rates, hybrid, s)
    requires Exec(rates, s, actions).Some? && AllFollow(env, scope, rates, s, actions)
    ensures Faithful(env, scope, rates, hybrid, Exec(rates, s, actions).value)
    decreases |actions|
  {
    if actions != [] {
      StepKeepsInv(rates, s, actions[0]);
      StepKeepsFaithful(env, scope, rates, hybrid, s, actions[0]);
      ExecKeepsFaithful(env, scope, rates, hybrid, Step(rates, s, actions[0]).value, actions[1..]);
    }
  }

  /** One uninterrupted attempt of one job, with the environment's answers. */
  function UninterruptedOutcomes(env: Env, scope: Option<int>): Outcomes {
    var rows := RankRows(env.retrieve(scope));
    var gen := env.generate(rows);
    Outcomes(Returns(env.retrieve(scope), 0), Returns(gen, 0), Returns(env.judge(rows, gen), 0))
  }

  function Uninterrupted(env: Env, scope: Option<int>, rates: Rates, hybrid: bool): RunRow {
    Pipeline(NewRun(hybrid), rates, UninterruptedOutcomes(env, scope)).0
  }

  lemma UninterruptedRows(env: Env, scope: Option<int>, rates: Rates, hybrid: bool)
    requires env.retrieve(scope) != []
    ensures var row := Uninterrupted(env, scope, rates, hybrid);
            && row.status == Completed
            && row.retrieval == RankRows(env.retrieve(scope))
            && row.generations == [env.generate(row.retrieval)]
            && row.evaluations == [EvaluationFor(hybrid, rates, row.generations[0],
                                                 env.judge(row.retrieval, row.generations[0]))]
  {
    var o := UninterruptedOutcomes(env, scope);
    var r0 := NewRun(hybrid);
    var r1 := PhaseFlow(RetrievalPhase, r0, rates, o).row;
    assert [] + RankRows(env.retrieve(scope)) == RankRows(env.retrieve(scope));
    var r2 := PhaseFlow(GenerationPhase, r1, rates, o).row;
    assert r1.generations + [o.generation.value] == [o.generation.value];
    CommitJudgeConsistent(r2, r2.status, rates, o.judge.value, o.judge.ms);
    assert PhasesFrom(JudgePhase, r2, rates, o).0 == PhaseFlow(JudgePhase, r2, rates, o).row;
    assert PhasesFrom(GenerationPhase, r1, rates, o) == PhasesFrom(JudgePhase, r2, rates, o);
    assert PhasesFrom(RetrievalPhase, r0, rates, o) == PhasesFrom(GenerationPhase, r1, rates, o);
  }

  /** Crash-retry refinement: however often attempts are interrupted, retried, failed by callbacks
      and requeued, a run that reaches `completed` stores exactly the rows of one uninterrupted
      attempt. */
  lemma RetriesDoNotChangeRows(env: Env, scope: Option<int>, rates: Rates, hybrid: bool, actions: seq<Action>, s: Sys)
    requires Reaches(rates, hybrid, actions, s) && s.row.status == Completed
    requires AllFollow(env, scope, rates, Init(hybrid), actions)
    ensures var once := Uninterrupted(env, scope, rates, hybrid);
            && once.status == Completed
            && s.row.retrieval == once.retrieval
            && s.row.generations == once.generations
            && s.row.evaluations == once.evaluations
  {
    FullRunSafety.ReachableInv(rates, hybrid, actions, s);
    ExecKeepsFaithful(env, scope, rates, hybrid, Init(hybrid), actions);
    assert |s.row.retrieval| == |env.retrieve(scope)|;
    UninterruptedRows(env, scope, rates, hybrid);
  }
}
