/** The mutable objects behind the protocol: the run's database rows, its Redis lock key and the
    job queue, and the code that updates them. Each method is proved against the transaction
    functions of `RunLifecycle` and the attempt function of `Attempt`. */
module Worker {
  import opened Basics
  import opened Cost
  import opened RunLifecycle
  import opened Protocol
  import opened Attempt
  import opened PipelineOutcome

  /** How a Python call ends. */
  datatype Exn = NoExn | ValueErr | OtherErr

  /** The exception that leaves a phase with this flow. */
  function FlowExn(f: Flow): Exn {
    match f
    case Proceed(_) => NoExn
    case ValueErrorCaught(_) => ValueErr
    case Propagates(_) => OtherErr
  }

  class RunRecord {
    var status: Status
    var hybrid: bool
    var retrieval: seq<RetrievalRow>
    var generations: seq<GenerationRow>
    var evaluations: seq<EvaluationRow>
    var retrievalMs: Option<nat>
    var generationMs: Option<nat>
    var evaluationMs: Option<nat>
    var totalMs: Option<nat>
    var instrumentation: map<string, Json>

    /** The committed contents as a value. */
    ghost function Row(): RunRow
      reads this
    {
      RunRow(status, hybrid, retrieval, generations, evaluations,
             retrievalMs, generationMs, evaluationMs, totalMs, instrumentation)
    }

    constructor (hybrid: bool)
      ensures Row() == NewRun(hybrid)
    {
      this.status, this.hybrid := Running, hybrid;
      this.retrieval, this.generations, this.evaluations := [], [], [];
      this.retrievalMs, this.generationMs, this.evaluationMs, this.totalMs := None, None, None, None;
      this.instrumentation := map[];
    }

    /** `store_retrieval_results` over `enumerate(hits)`. */
    method StoreRetrievalResults(hits: seq<Hit>)
      modifies this
      ensures Row() == old(Row()).(retrieval := old(retrieval) + RankRows(hits))
    {
      var i := 0;
      while i < |hits|
        invariant 0 <= i <= |hits|
        invariant Row() == old(Row()).(retrieval := old(retrieval) + RankRows(hits)[..i])
      {
        retrieval := retrieval + [RetrievalRow(hits[i].chunkId, i + 1, hits[i].score)];
        assert RankRows(hits)[..i + 1] == RankRows(hits)[..i] + [RankRows(hits)[i]];
        i := i + 1;
      }
      assert RankRows(hits)[..i] == RankRows(hits);
    }

    method ExecuteRetrieval(search: Outcome<seq<Hit>>) returns (exn: Exn)
      modifies this
      ensures exn == (match search case Returns(_,
              _) => NoExn case RaisesValueError => ValueErr case RaisesOther => OtherErr)
      ensures Row() == if search.Returns? then CommitRetrieval(old(Row()), search.value, search.ms) else old(Row())
    {
      match search {
        case RaisesValueError => return ValueErr;
        case RaisesOther => return OtherErr;
        case Returns(hits, ms) =>
          StoreRetrievalResults(hits);
          retrievalMs := Some(ms);
          status := RetrievalCompleted;
          return NoExn;
      }
    }

    method ExecuteGeneration(rates: Rates, o: Outcomes) returns (exn: Exn)
      modifies this
      ensures old(status) != RetrievalCompleted ==> exn == ValueErr && Row() == old(Row())
      ensures old(status) == RetrievalCompleted ==>
                var flow := PhaseFlow(GenerationPhase, old(Row()), rates, o);
                exn == FlowExn(flow) && Row() == flow.row
      ensures old(status) != RetrievalCompleted || old(generations) != [] || old(retrieval) == [] ==>
                exn == ValueErr && Row() == old(Row())
      ensures old(status) == RetrievalCompleted && old(generations) == [] && old(retrieval) != [] ==>
                match o.generation
                case Returns(gen, ms) =>
                  && exn == NoExn
                  && Row() == old(Row()).(generations := [gen], generationMs := Some(ms), status := GenerationCompleted)
                case RaisesValueError => exn == ValueErr && Row() == old(Row())
                case RaisesOther => exn == OtherErr && Row() == old(Row())
    {
      if status != RetrievalCompleted { return ValueErr; }
      if generations != [] { return ValueErr; }
      if retrieval == [] { return ValueErr; }
      match o.generation {
        case RaisesValueError => return ValueErr;
        case RaisesOther => return OtherErr;
        case Returns(gen, ms) =>
          generations := generations + [gen];
          generationMs := Some(ms);
          status := GenerationCompleted;
          return NoExn;
      }
    }

    /** `persist_evaluation_and_complete_run` with the session's own view of the status. */
    method PersistEvaluationAndComplete(ev: EvaluationRow, evalMs: int, total: int, prerequisite: Status)
        returns (exn: Exn)
      modifies this
      ensures match PersistEvaluation(old(Row()), old(status), prerequisite, ev, evalMs, total)
              case Ok(row) => exn == NoExn && Row() == row
              case Err(_) => exn == ValueErr && Row() == old(Row())
    {
      if evalMs < 0 || total < 0 { return ValueErr; }
      if status != prerequisite { return ValueErr; }
      if evaluations != [] { return ValueErr; }
      if prerequisite == RetrievalCompleted && retrieval == [] { return ValueErr; }
      if prerequisite == GenerationCompleted && generations == [] { return ValueErr; }
      if ev.usedLlmJudge && generations == [] { return ValueErr; }
      evaluations := evaluations + [ev];
      evaluationMs, totalMs := Some(evalMs), Some(total);
      status := Completed;
      return NoExn;
    }

    method ExecuteJudge(rates: Rates, o: Outcomes) returns (exn: Exn)
      modifies this
      ensures old(status) != GenerationCompleted ==> exn == ValueErr && Row() == old(Row())
      ensures old(status) == GenerationCompleted ==>
                var flow := PhaseFlow(JudgePhase, old(Row()), rates, o);
                exn == FlowExn(flow) && Row() == flow.row
      ensures old(status) == GenerationCompleted && old(generations) != [] ==>
                match o.judge
                case Returns(_, _) => if old(evaluations) == [] then exn == NoExn && status == Completed
                                      else exn == ValueErr && Row() == old(Row())
                case RaisesValueError => exn == ValueErr && Row() == old(Row())
                case RaisesOther => exn == OtherErr && Row() == old(Row())
    {
      if status != GenerationCompleted { return ValueErr; }
      if generations == [] { return ValueErr; }
      match o.judge {
        case RaisesValueError => return ValueErr;
        case RaisesOther => return OtherErr;
        case Returns(v, ms) =>
          var gen := generations[0];
          var total := retrievalMs.GetOr(0) + generationMs.GetOr(0) + ms;
          var ev := EvaluationFor(hybrid, rates, gen, v);
          exn := PersistEvaluationAndComplete(ev, ms, total, GenerationCompleted);
          if exn == NoExn {
            if ev.usedLlmJudge {
              instrumentation := instrumentation + FullLlmInstrumentation(ev.judgeTokens, gen.tokens, ev.cost);
            } else {
              instrumentation := instrumentation + HybridSkippedInstrumentation(gen.tokens, ev.cost);
            }
          }
      }
    }

    method MarkRunFailed()
      modifies this
      ensures Row() == MarkFailed(old(Row()))
    {
      if status == Completed { return; }
      status := Failed;
    }

    method NormalizeFailedForResume()
      modifies this
      ensures Row() == NormalizeFailed(old(Row()))
    {
      if status != Failed { return; }
      if generations != [] {
        status := GenerationCompleted;
        return;
      }
      if retrieval != [] {
        status := RetrievalCompleted;
        return;
      }
      status := Running;
    }

    /** The three phases inside one `try`; `raised` says that an exception leaves it. */
    method RunPhases(rates: Rates, o: Outcomes) returns (raised: bool)
      modifies this
      ensures (Row(), raised) == PhasesFrom(RetrievalPhase, old(Row()), rates, o)
    {
      ghost var r0 := Row();
      var exn := NoExn;
      if status == Running {
        exn := ExecuteRetrieval(o.retrieval);
      }
      ghost var f0 := PhaseFlow(RetrievalPhase, r0, rates, o);
      assert exn == FlowExn(f0) && Row() == f0.row;
      ghost var r1 := Row();
      if exn == NoExn && status == RetrievalCompleted {
        exn := ExecuteGeneration(rates, o);
      }
      ghost var f1 := PhaseFlow(GenerationPhase, r1, rates, o);
      assert f0.Proceed? ==> exn == FlowExn(f1) && Row() == f1.row;
      ghost var r2 := Row();
      if exn == NoExn && status == GenerationCompleted {
        exn := ExecuteJudge(rates, o);
      }
      ghost var f2 := PhaseFlow(JudgePhase, r2, rates, o);
      assert f0.Proceed? && f1.Proceed? ==> exn == FlowExn(f2) && Row() == f2.row;
      if exn == ValueErr {
        MarkRunFailed();
        exn := NoExn;
      }
      raised := exn == OtherErr;
      assert f0.Proceed? ==> PhasesFrom(RetrievalPhase, r0, rates, o) == PhasesFrom(GenerationPhase, r1, rates, o);
      assert f0.Proceed? && f1.Proceed? ==>
             PhasesFrom(GenerationPhase, r1, rates, o) == PhasesFrom(JudgePhase, r2, rates, o);
    }

    /** `run_full_benchmark_pipeline`: a finished run is left alone. */
    method RunFullBenchmarkPipeline(rates: Rates, o: Outcomes) returns (raised: bool)
      modifies this
      ensures (Row(), raised) == Pipeline(old(Row()), rates, o)
      ensures Consistent(old(Row())) && Unfinished(old(Row())) ==> Ends(old(Row()), o, Row(), raised)
      ensures old(status) in {Completed, Failed} ==> Row() == old(Row()) && !raised
    {
      if status == Completed || status == Failed { return false; }
      ghost var before := Row();
      raised := RunPhases(rates, o);
      if Consistent(before) && Unfinished(before) {
        PipelineEnds(before, rates, o);
      }
    }
  }

  /** The key `contextlens:full_run_lock:{run_id}`. */
  class RunLock {
    var present: bool

    /** `SET key value NX`. */
    method SetIfAbsent() returns (got: bool)
      modifies this
      ensures got == !old(present) && present
    {
      got := !present;
      present := true;
    }

    method Delete()
      modifies this
      ensures !present
    {
      present := false;
    }
  }

  /** `full_benchmark_run_job`: the lock is deleted in `finally`, and only by a job that set it. */
  method FullBenchmarkRunJob(run: RunRecord, lock: RunLock, rates: Rates, o: Outcomes) returns (ran: bool, raised: bool)
    modifies run, lock
    ensures ran == !old(lock.present)
    ensures lock.present == old(lock.present)
    ensures (run.Row(), raised) == if ran then Pipeline(old(run.Row()), rates, o) else (old(run.Row()), false)
  {
    var got := lock.SetIfAbsent();
    if !got {
      return false, false;
    }
    ran := true;
    raised := run.RunFullBenchmarkPipeline(rates, o);
    lock.Delete();
  }

  // ----- Queue --------------------------------------------------------------------------------

  datatype RqStatus = RqQueued | RqScheduled | RqStarted | RqFinished | RqFailed | RqStopped | RqCanceled

  /** Where RQ keeps a job. `Elsewhere` is a place the code does not scan, such as the registry of
      canceled jobs, or a job that has expired or cannot be fetched. */
  datatype Registry = QueueIds | StartedJobs | FinishedJobs | FailedJobs | DeferredJobs | ScheduledJobs | Elsewhere

  /** A job as RQ stores it; `runId` is the first argument when it is a number. */
  datatype RqJob = RqJob(id: nat, runId: Option<int>, documentId: Option<int>, retries: nat, timestamp: int,
                         status: RqStatus, place: Registry)

  /** The scan of the queue and of five registries comes across the job, and its argument is the run. */
  predicate Found(job: RqJob, runId: int) {
    !job.place.Elsewhere? && job.runId == Some(runId)
  }

  ghost predicate IsPrimary(jobs: seq<RqJob>, runId: int, best: Option<RqJob>) {
    match best
    case None => forall job :: job in jobs ==> !Found(job, runId)
    case Some(b) =>
      && b in jobs && Found(b, runId)
      && forall job :: job in jobs && Found(job, runId) ==> job.timestamp <= b.timestamp
  }

  class JobQueue {
    var jobs: seq<RqJob>

    /** `enqueue_full_benchmark_run`: two retries, so three attempts. */
    method EnqueueFullBenchmarkRun(runId: int, documentId: Option<int>, now: int) returns (id: nat)
      modifies this
      ensures id == |old(jobs)|
      ensures jobs == old(jobs) + [RqJob(id, Some(runId), documentId, RETRY_BUDGET, now, RqQueued, QueueIds)]
    {
      id := |jobs|;
      jobs := jobs + [RqJob(id, Some(runId), documentId, 2, now, RqQueued, QueueIds)];
    }

    /** `find_primary_job_for_run`: the newest job of the run that the scan comes across. */
    method FindPrimaryJobForRun(runId: int) returns (best: Option<RqJob>)
      ensures IsPrimary(jobs, runId, best)
    {
      var candidates: seq<RqJob> := [];
      var i := 0;
      while i < |jobs|
        invariant 0 <= i <= |jobs|
        invariant forall job :: job in candidates <==> job in jobs[..i] && Found(job, runId)
      {
        if Found(jobs[i], runId) {
          candidates := candidates + [jobs[i]];
        }
        assert jobs[..i + 1] == jobs[..i] + [jobs[i]];
        i := i + 1;
      }
      assert jobs[..i] == jobs;
      if candidates == [] {
        assert forall job :: job in jobs && Found(job, runId) ==> job in candidates;
        return None;
      }
      var newest := candidates[0];
      var k := 1;
      while k < |candidates|
        invariant 1 <= k <= |candidates|
        invariant newest in candidates
        invariant forall job :: job in candidates[..k] ==> job.timestamp <= newest.timestamp
      {
        if candidates[k].timestamp > newest.timestamp {
          newest := candidates[k];
        }
        assert candidates[..k + 1] == candidates[..k] + [candidates[k]];
        k := k + 1;
      }
      assert candidates[..k] == candidates;
      best := Some(newest);
    }
  }

  /** The test of `clear_stale_full_run_lock_if_applicable` on the newest job. */
  predicate StaleTest(primary: Option<RqJob>, status: Status) {
    primary.Some? && primary.value.status in {RqFailed, RqStopped, RqCanceled} && status in {Running, Failed}
  }

  method ClearStaleLockIfApplicable(lock: RunLock, status: Status, primary: Option<RqJob>) returns (cleared: bool)
    modifies lock
    ensures cleared == (old(lock.present) && StaleTest(primary, status))
    ensures lock.present == (old(lock.present) && !cleared)
  {
    if primary.None? { return false; }
    if primary.value.status !in {RqFailed, RqStopped, RqCanceled} { return false; }
    if status !in {Running, Failed} { return false; }
    if !lock.present { return false; }
    lock.Delete();
    return true;
  }

  predicate AllInDocument(rows: seq<RetrievalRow>, documentOf: int -> int, doc: int) {
    forall r :: r in rows ==> documentOf(r.chunkId) == doc
  }

  /** `infer_document_id_for_full_run`: the one document every hit belongs to, if there is one. */
  function InferDocumentId(rows: seq<RetrievalRow>, documentOf: int -> int): (d: Option<int>)
    ensures d.Some? ==> rows != [] && AllInDocument(rows, documentOf, d.value)
    ensures d.None? && rows != [] ==> forall doc :: !AllInDocument(rows, documentOf, doc)
  {
    if rows == [] then None
    else
      assert rows[0] in rows;
      var first := documentOf(rows[0].chunkId);
      assert forall doc :: AllInDocument(rows, documentOf, doc) ==> doc == first;
      if AllInDocument(rows, documentOf, first) then Some(first) else None
  }

  datatype RequeueError = Refused(why: RequeueRefusal) | MissingApiKey

  /** `requeue_full_run`. */
  method RequeueFullRun(run: RunRecord, lock: RunLock, queue: JobQueue, runId: int, apiKey: bool,
                        documentOf: int -> int, now: int) returns (r: Result<nat, RequeueError>)
    modifies run, lock, queue
    ensures RequeueEligibility(old(run.Row())).Some? ==>
              && r == Err(Refused(RequeueEligibility(old(run.Row())).value))
              && run.Row() == old(run.Row()) && queue.jobs == old(queue.jobs) && lock.present == old(lock.present)
    ensures r.Err? ==> run.Row() == old(run.Row()) && queue.jobs == old(queue.jobs)
    ensures r.Ok? ==>
              && !lock.present && r.value == |old(queue.jobs)|
              && RequeueCheck(Sys(old(run.Row()), None, [])) == Ok(Sys(run.Row(), None, []))
              && queue.jobs == old(queue.jobs) +
                   [RqJob(r.value, Some(runId), InferDocumentId(run.retrieval, documentOf), RETRY_BUDGET, now,
                          RqQueued, QueueIds)]
    ensures RequeueEligibility(old(run.Row())).None? ==>
              exists primary ::
                && IsPrimary(old(queue.jobs), runId, primary)
                && lock.present == (old(lock.present) && !StaleTest(primary, old(run.status)))
                && r.Ok? == (apiKey && !lock.present)
                && (r.Err? ==> r.error == if apiKey then Refused(LockHeld) else MissingApiKey)
  {
    if run.status == Completed { return Err(Refused(AlreadyCompleted)); }
    if run.status !in {Running, RetrievalCompleted, GenerationCompleted, Failed} {
      return Err(Refused(StatusNotAllowed(run.status)));
    }
    if run.generations == [] && run.evaluations != [] && HeuristicBucket(run.evaluations[0]) {
      return Err(Refused(HeuristicBenchmark));
    }
    var primary := queue.FindPrimaryJobForRun(runId);
    var _ := ClearStaleLockIfApplicable(lock, run.status, primary);
    if !apiKey { return Err(MissingApiKey); }
    if lock.present { return Err(Refused(LockHeld)); }
    if run.status == Failed {
      run.NormalizeFailedForResume();
    }
    var id := queue.EnqueueFullBenchmarkRun(runId, InferDocumentId(run.retrieval, documentOf), now);
    return Ok(id);
  }
}
