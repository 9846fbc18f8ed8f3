/** The queue and lock objects of `Worker` as the jobs and lock of the protocol: what the code reads and
    changes there are the protocol's own tests and steps. */
module QueueView {
  import opened Basics
  import opened Lists
  import opened Cost
  import opened RunLifecycle
  import opened Protocol
  import opened FullRunSafety
  import opened Attempt
  import opened Worker

  /** The status RQ reports for a job at `pc`. A job is started before it asks for the lock, and one whose
      worker died unnoticed still counts as started. */
  predicate StatusShows(status: RqStatus, pc: Pc) {
    match status
    case RqQueued | RqScheduled => pc.Queued?
    case RqStarted => pc.Queued? || Live(pc) || pc.Dead?
    case RqFinished => pc.Finished?
    case RqFailed => pc.CallbackDue? || pc.Unsuccessful?
    case RqStopped | RqCanceled => pc.Unsuccessful?
  }

  /** A canceled job has left the queue for a registry that is not scanned. */
  predicate Shows(rq: RqJob, job: Job) {
    && rq.documentId == job.scope && rq.retries == job.retries && StatusShows(rq.status, job.pc)
    && (rq.status == RqCanceled ==> rq.place == Elsewhere)
  }

  function OfRun(runId: int): RqJob -> bool {
    (job: RqJob) => job.runId == Some(runId)
  }

  function Own(jobs: seq<RqJob>, runId: int): seq<RqJob> {
    Select(jobs, OfRun(runId))
  }

  /** The run's jobs in the queue are the protocol's jobs, in the order they were enqueued. */
  ghost predicate QueueShows(jobs: seq<RqJob>, runId: int, model: seq<Job>) {
    var own := Own(jobs, runId);
    |own| == |model| && forall k :: 0 <= k < |own| ==> Shows(own[k], model[k])
  }

  /** What `enqueue_full_benchmark_run` does to the queue is the protocol's step, and concerns no other run. */
  lemma EnqueueIsStep(rates: Rates, s: Sys, jobs: seq<RqJob>, added: RqJob, runId: int, scope: Option<int>, now: int,
                      other: int)
    requires QueueShows(jobs, runId, s.jobs)
    requires added == RqJob(|jobs|, Some(runId), scope, RETRY_BUDGET, now, RqQueued, QueueIds)
    ensures Step(rates, s, Enqueue(scope)).Some?
    ensures QueueShows(jobs + [added], runId, Step(rates, s, Enqueue(scope)).value.jobs)
    ensures other != runId ==> Own(jobs + [added], other) == Own(jobs, other)
  {
    SelectConcat(jobs, [added], OfRun(runId));
    SelectConcat(jobs, [added], OfRun(other));
    assert [added][1..] == [];
    assert Own([added], runId) == [added];
    assert Own(jobs, other) + [] == Own(jobs, other);
  }

  /** The newest job as the queue reports it is one of the protocol's jobs, never a canceled one, and the
      code's test on it is the protocol's test. When it passes and every other job has ended, the deletion is the
      protocol's step. */
  lemma ClearIsStep(rates: Rates, s: Sys, jobs: seq<RqJob>, runId: int, primary: Option<RqJob>) returns (k: nat)
    requires QueueShows(jobs, runId, s.jobs) && IsPrimary(jobs, runId, primary)
    ensures primary.None? <==> forall i :: 0 <= i < |s.jobs| ==> Own(jobs, runId)[i].place == Elsewhere
    ensures primary.Some? ==>
              && primary.value.status != RqCanceled
              && k < |s.jobs| && Shows(primary.value, s.jobs[k])
              && (s.lock.Some? && StaleTest(primary, s.row.status) <==> StaleLockTest(s, k))
              && (StaleLockTest(s, k) && OthersEnded(s, k) ==> Step(rates, s, ClearStale(k)) == Some(s.(lock := None)))
  {
    k := 0;
    var own := Own(jobs, runId);
    match primary
    case None =>
      forall i | 0 <= i < |own|
        ensures own[i].place == Elsewhere
      {
        SelectMembers(jobs, OfRun(runId), own[i]);
        assert own[i] in jobs;
      }
    case Some(job) =>
      SelectMembers(jobs, OfRun(runId), job);
      k :| 0 <= k < |own| && own[k] == job;
  }

  /** The condition for a safe clear is read from the queue: no job of the run is reported as started. */
  lemma NoneReportedStarted(s: Sys, jobs: seq<RqJob>, runId: int)
    requires QueueShows(jobs, runId, s.jobs)
    requires forall job :: job in Own(jobs, runId) ==> job.status != RqStarted
    ensures NoneStarted(s)
  {
    var own := Own(jobs, runId);
    forall k | 0 <= k < |s.jobs|
      ensures !Live(s.jobs[k].pc) && !s.jobs[k].pc.Dead?
    {
      assert own[k] in own && Shows(own[k], s.jobs[k]);
    }
  }

  /** A successful requeue of a run whose lock is free is the protocol's requeue followed by its enqueue. */
  lemma RequeueIsSteps(rates: Rates, s: Sys, row: RunRow, jobs: seq<RqJob>, added: RqJob, runId: int,
                       scope: Option<int>, now: int)
      returns (t: Sys)
    requires QueueShows(jobs, runId, s.jobs) && s.lock.None?
    requires RequeueCheck(Sys(s.row, None, [])) == Ok(Sys(row, None, []))
    requires added == RqJob(|jobs|, Some(runId), scope, RETRY_BUDGET, now, RqQueued, QueueIds)
    ensures Exec(rates, s, [Requeue, Enqueue(scope)]) == Some(t)
    ensures t.row == row && t.lock.None? && QueueShows(jobs + [added], runId, t.jobs)
  {
    var mid := s.(row := row);
    EnqueueIsStep(rates, mid, jobs, added, runId, scope, now, runId);
    t := Step(rates, mid, Enqueue(scope)).value;
    Exec2(rates, s, Requeue, Enqueue(scope));
  }
}
