/** The durable full-run protocol as a step system: one run, its Redis lock key and every queue
    job ever enqueued for it. An execution is any list of enabled actions, so a statement about
    `Exec` is a statement about every interleaving of workers, callbacks and operators. */
module Protocol {
  import opened Basics
  import opened Cost
  import opened RunLifecycle

  datatype Phase = RetrievalPhase | GenerationPhase | JudgePhase

  /** Where a job stands. */
  datatype Pc =
    | Queued                          // waiting in the queue, or scheduled for a retry
    | Locked                          // holds the lock, terminal-status check still ahead
    | Between(next: Phase)            // next: open a session and look at the status
    | Inside(phase: Phase, seen: Status)  // session open, `seen` loaded, nothing committed yet
    | Marking                         // caught ValueError/TypeError, about to mark the run failed
    | Leaving(raised: bool)           // in `finally`, about to delete the lock
    | Dead                            // worker died without running `finally`
    | CallbackDue                     // RQ status failed, `on_failure` not run yet
    | Finished                        // returned normally
    | Unsuccessful                    // RQ status failed, stopped or canceled for good

  datatype Job = Job(scope: Option<int>, retries: nat, attempts: nat, pc: Pc)

  /** `lock` is the key's presence; the holder's index is bookkeeping that no action of the code reads. */
  datatype Sys = Sys(row: RunRow, lock: Option<nat>, jobs: seq<Job>)

  const RETRY_BUDGET: nat := 2

  datatype Action =
    | Enqueue(scope: Option<int>)
    | EnqueueFails
    | Cancel(j: nat)
    | Acquire(j: nat)
    | CheckTerminal(j: nat)
    | Begin(j: nat)
    | FinishRetrieval(j: nat, hits: seq<Hit>, ms: nat)
    | FinishGeneration(j: nat, gen: GenerationRow, ms: nat)
    | FinishJudge(j: nat, verdict: Judgement, ms: nat)
    | Raise(j: nat, valueError: bool)
    | MarkOwnFailure(j: nat)
    | Release(j: nat)
    | Die(j: nat)
    | Abandon(j: nat, retry: bool)
    | OnFailure(j: nat, written: bool)
    | ExpireLock
    | ClearStale(j: nat)
    | Requeue

  // ----- Steps ------------------------------------------------------------------------------

  /** Working on the run: past `SET NX`, before the lock is deleted. */
  predicate Live(pc: Pc) {
    pc.Locked? || pc.Between? || pc.Inside? || pc.Marking? || pc.Leaving?
  }

  /** RQ reports a terminal job status. */
  predicate RqEnded(pc: Pc) {
    pc.CallbackDue? || pc.Finished? || pc.Unsuccessful?
  }

  /** RQ reports failed, stopped or canceled. */
  predicate RqUnsuccessful(pc: Pc) {
    pc.CallbackDue? || pc.Unsuccessful?
  }

  function ExpectedStatus(p: Phase): Status {
    match p
    case RetrievalPhase => Running
    case GenerationPhase => RetrievalCompleted
    case JudgePhase => GenerationCompleted
  }

  /** Where a worker goes once phase `p` is committed or skipped. */
  function AfterPhase(p: Phase): Pc {
    match p
    case RetrievalPhase => Between(GenerationPhase)
    case GenerationPhase => Between(JudgePhase)
    case JudgePhase => Leaving(false)
  }

  function SetPc(s: Sys, j: nat, pc: Pc): Sys
    requires j < |s.jobs|
  {
    s.(jobs := s.jobs[j := s.jobs[j].(pc := pc)])
  }

  predicate IsAt(s: Sys, j: nat, pc: Pc) {
    j < |s.jobs| && s.jobs[j].pc == pc
  }

  /** RQ's retry rule: another attempt while the budget lasts, the failure callback after that. */
  function Retried(job: Job): Job {
    if job.retries > 0 then job.(retries := job.retries - 1, pc := Queued) else job.(pc := CallbackDue)
  }

  /** A phase's transaction either commits, or its guard raises `ValueError` inside the pipeline. */
  function SettlePhase(s: Sys, j: nat, p: Phase, r: Result<RunRow, GuardError>): Sys
    requires j < |s.jobs|
  {
    match r
    case Ok(row) => SetPc(s, j, AfterPhase(p)).(row := row)
    case Err(_) => SetPc(s, j, Marking)
  }

  /** The code's own test before it deletes a lock it takes to be stale; `newest` is the newest job. */
  predicate StaleLockTest(s: Sys, newest: nat) {
    newest < |s.jobs| && RqUnsuccessful(s.jobs[newest].pc) && s.row.status in {Running, Failed} && s.lock.Some?
  }

  predicate OthersEnded(s: Sys, j: nat) {
    forall k :: 0 <= k < |s.jobs| && k != j ==> RqEnded(s.jobs[k].pc)
  }

  /** `requeue_full_run` up to its commit; the new job is a separate `Enqueue`. */
  function RequeueCheck(s: Sys): Result<Sys, RequeueRefusal> {
    match RequeueEligibility(s.row)
    case Some(refusal) => Err(refusal)
    case None =>
      if s.lock.Some? then Err(LockHeld) else Ok(s.(row := NormalizeFailed(s.row)))
  }

  /** One atomic step; `None` when the action is not enabled. */
  function Step(rates: Rates, s: Sys, a: Action): Option<Sys> {
    match a
    case Enqueue(scope) => Some(s.(jobs := s.jobs + [Job(scope, RETRY_BUDGET, 0, Queued)]))
    case EnqueueFails => if s.jobs == [] then Some(s.(row := s.row.(status := Failed))) else None
    case Cancel(j) => if IsAt(s, j, Queued) then Some(SetPc(s, j, Unsuccessful)) else None
    case Acquire(j) =>
      if !IsAt(s, j, Queued) then None
      else
        var job := s.jobs[j].(attempts := s.jobs[j].attempts + 1);
        if s.lock.Some? then Some(s.(jobs := s.jobs[j := job.(pc := Finished)]))
        else Some(s.(lock := Some(j), jobs := s.jobs[j := job.(pc := Locked)]))
    case CheckTerminal(j) =>
      if !IsAt(s, j, Locked) then None
      else Some(SetPc(s, j, if s.row.status in {Completed, Failed} then Leaving(false) else Between(RetrievalPhase)))
    case Begin(j) =>
      if !(j < |s.jobs| && s.jobs[j].pc.Between?) then None
      else
        var p := s.jobs[j].pc.next;
        Some(SetPc(s, j, if s.row.status == ExpectedStatus(p) then Inside(p, s.row.status) else AfterPhase(p)))
    case FinishRetrieval(j, hits, ms) =>
      if !(j < |s.jobs| && s.jobs[j].pc.Inside? && s.jobs[j].pc.phase == RetrievalPhase) then None
      else Some(SettlePhase(s, j, RetrievalPhase, Ok(CommitRetrieval(s.row, hits, ms))))
    case FinishGeneration(j, gen, ms) =>
      if !(j < |s.jobs| && s.jobs[j].pc.Inside? && s.jobs[j].pc.phase == GenerationPhase) then None
      else Some(SettlePhase(s, j, GenerationPhase, CommitGeneration(s.row, s.jobs[j].pc.seen, gen, ms)))
    case FinishJudge(j, v, ms) =>
      if !(j < |s.jobs| && s.jobs[j].pc.Inside? && s.jobs[j].pc.phase == JudgePhase) then None
      else Some(SettlePhase(s, j, JudgePhase, CommitJudge(s.row, s.jobs[j].pc.seen, rates, v, ms)))
    case Raise(j, valueError) =>
      if !(j < |s.jobs| && Live(s.jobs[j].pc) && !s.jobs[j].pc.Leaving?) then
        // After the last commit: marking a settled run failed changes nothing, so only other errors count.
        if IsAt(s, j, Leaving(false)) && !valueError then Some(SetPc(s, j, Leaving(true))) else None
      else if valueError && (s.jobs[j].pc.Between? || s.jobs[j].pc.Inside?) then Some(SetPc(s, j, Marking))
      else Some(SetPc(s, j, Leaving(true)))
    case MarkOwnFailure(j) =>
      if IsAt(s, j, Marking) then Some(SetPc(s, j, Leaving(false)).(row := MarkFailed(s.row))) else None
    case Release(j) =>
      if !(j < |s.jobs| && s.jobs[j].pc.Leaving?) then None
      else if s.jobs[j].pc.raised then Some(s.(lock := None, jobs := s.jobs[j := Retried(s.jobs[j])]))
      else Some(SetPc(s, j, Finished).(lock := None))
    case Die(j) => if j < |s.jobs| && Live(s.jobs[j].pc) then Some(SetPc(s, j, Dead)) else None
    case Abandon(j, retry) =>
      if !IsAt(s, j, Dead) || (retry && s.jobs[j].retries == 0) then None
      else if retry then Some(s.(jobs := s.jobs[j := Retried(s.jobs[j])]))
      else Some(SetPc(s, j, CallbackDue))
    case OnFailure(j, written) =>
      if !IsAt(s, j, CallbackDue) then None
      else Some(SetPc(s, j, Unsuccessful).(row := if written then MarkFailed(s.row) else s.row))
    case ExpireLock =>
      if s.lock.Some? && s.lock.value < |s.jobs| && !Live(s.jobs[s.lock.value].pc) then Some(s.(lock := None)) else None
    case ClearStale(j) =>
      if StaleLockTest(s, j) && OthersEnded(s, j) then Some(s.(lock := None)) else None
    case Requeue =>
      match RequeueCheck(s) { case Ok(t) => Some(t) case Err(_) => None }
  }

  /** A run of the protocol: `None` as soon as an action is not enabled. */
  function Exec(rates: Rates, s: Sys, actions: seq<Action>): Option<Sys>
    decreases |actions|
  {
    if actions == [] then Some(s)
    else
      match Step(rates, s, actions[0])
      case None => None
      case Some(t) => Exec(rates, t, actions[1..])
  }

  function Init(hybrid: bool): Sys {
    Sys(NewRun(hybrid), None, [])
  }

  ghost predicate Reaches(rates: Rates, hybrid: bool, actions: seq<Action>, s: Sys) {
    Exec(rates, Init(hybrid), actions) == Some(s)
  }

  lemma {:induction false} ExecConcat(rates: Rates, s: Sys, a: seq<Action>, b: seq<Action>)
    ensures Exec(rates, s, a + b) ==
            match Exec(rates, s, a) { case None => None case Some(t) => Exec(rates, t, b) }
    decreases |a|
  {
    if a == [] {
      assert a + b == b;
    } else {
      assert (a + b)[0] == a[0] && (a + b)[1..] == a[1..] + b;
      match Step(rates, s, a[0])
      case None =>
      case Some(t) => ExecConcat(rates, t, a[1..], b);
    }
  }

  // ----- The inductive invariant --------------------------------------------------------------

  /** The rows a phase finds when its session opens, and keeps finding until it commits. Only
      the status may meanwhile turn to `Failed`, by the callback of another job. */
  ghost predicate PhaseReady(p: Phase, row: RunRow) {
    && row.status in {ExpectedStatus(p), Failed}
    && row.evaluations == []
    && match p
       case RetrievalPhase => row.retrieval == [] && row.generations == []
       case GenerationPhase => row.generations == [] && row.retrievalMs.Some?
       case JudgePhase =>
         row.retrieval != [] && |row.generations| == 1 && row.retrievalMs.Some? && row.generationMs.Some?
  }

  ghost predicate JobOk(s: Sys, j: nat)
    requires j < |s.jobs|
  {
    var job := s.jobs[j];
    && (Live(job.pc) ==> s.lock == Some(j))
    && (job.pc.Inside? ==> job.pc.seen == ExpectedStatus(job.pc.phase) && PhaseReady(job.pc.phase, s.row))
    && job.attempts + job.retries + (if job.pc.Queued? then 1 else 0) <= RETRY_BUDGET + 1
  }

  ghost predicate Inv(s: Sys) {
    && Consistent(s.row)
    && (s.lock.Some? ==> s.lock.value < |s.jobs|)
    && (s.jobs == [] ==> s.row.status != Completed)
    && forall j :: 0 <= j < |s.jobs| ==> JobOk(s, j)
  }

  lemma StepKeepsInv(rates: Rates, s: Sys, a: Action)
    requires Inv(s) && Step(rates, s, a).Some?
    ensures Inv(Step(rates, s, a).value)
  {
    StepKeepsRow(rates, s, a);
    StepKeepsShape(rates, s, a);
    StepKeepsJobs(rates, s, a);
  }

  predicate FinishesPhase(a: Action) {
    a.FinishRetrieval? || a.FinishGeneration? || a.FinishJudge?
  }

  /** Outside the three phase transactions only the status can change, in three ways. */
  lemma RowOfOtherSteps(rates: Rates, s: Sys, a: Action)
    requires Step(rates, s, a).Some? && !FinishesPhase(a)
    ensures var t := Step(rates, s, a).value;
            || t.row == s.row
            || t.row == MarkFailed(s.row)
            || (t.row == NormalizeFailed(s.row) && s.lock.None?)
            || (t.row == s.row.(status := Failed) && s.jobs == [])
  {
  }

  lemma FailConsistent(row: RunRow)
    requires Consistent(row)
    ensures Consistent(MarkFailed(row))
  {
  }

  /** The row after a phase transaction of a live worker. */
  lemma PhaseCommit(rates: Rates, s: Sys, a: Action)
    requires Inv(s) && Step(rates, s, a).Some? && FinishesPhase(a)
    ensures a.j < |s.jobs| && JobOk(s, a.j) && Live(s.jobs[a.j].pc)
    ensures Consistent(Step(rates, s, a).value.row)
  {
    assert JobOk(s, a.j);
    match a
    case FinishRetrieval(j, hits, ms) =>
      assert s.row.retrieval + RankRows(hits) == RankRows(hits);
    case FinishGeneration(j, gen, ms) =>
      assert s.row.generations + [gen] == [gen];
    case FinishJudge(j, v, ms) =>
      CommitJudgeConsistent(s.row, s.jobs[j].pc.seen, rates, v, ms);
  }

  lemma StepKeepsRow(rates: Rates, s: Sys, a: Action)
    requires Inv(s) && Step(rates, s, a).Some?
    ensures Consistent(Step(rates, s, a).value.row)
  {
    if FinishesPhase(a) {
      PhaseCommit(rates, s, a);
    } else {
      RowOfOtherSteps(rates, s, a);
      FailConsistent(s.row);
      NormalizeConsistent(s.row);
    }
  }

  lemma JobsOnlyGrow(rates: Rates, s: Sys, a: Action)
    requires Step(rates, s, a).Some?
    ensures var t := Step(rates, s, a).value;
            && |s.jobs| <= |t.jobs| <= |s.jobs| + 1
            && (t.lock != s.lock ==> t.lock.None? || t.lock.value < |s.jobs|)
            && (|t.jobs| > |s.jobs| ==> a.Enqueue? && t == s.(jobs := s.jobs + [Job(a.scope, RETRY_BUDGET, 0, Queued)]))
  {
  }

  lemma StepKeepsShape(rates: Rates, s: Sys, a: Action)
    requires Inv(s) && Step(rates, s, a).Some?
    ensures var t := Step(rates, s, a).value;
            && (t.lock.Some? ==> t.lock.value < |t.jobs|)
            && (t.jobs == [] ==> t.row.status != Completed)
            && |t.jobs| >= |s.jobs|
  {
    JobsOnlyGrow(rates, s, a);
    if FinishesPhase(a) {
      PhaseCommit(rates, s, a);
    } else {
      RowOfOtherSteps(rates, s, a);
    }
  }

  lemma StepKeepsJobs(rates: Rates, s: Sys, a: Action)
    requires Inv(s) && Step(rates, s, a).Some?
    ensures var t := Step(rates, s, a).value; forall j :: 0 <= j < |t.jobs| ==> JobOk(t, j)
  {
    var t := Step(rates, s, a).value;
    JobsOnlyGrow(rates, s, a);
    forall j | 0 <= j < |t.jobs|
      ensures JobOk(t, j)
    {
      if j < |s.jobs| {
        StepKeepsJob(rates, s, a, j);
      }
    }
  }

  /** The job an action belongs to, if any. */
  function Actor(a: Action): Option<nat> {
    match a
    case Enqueue(_) | EnqueueFails | ExpireLock | Requeue => None
    case Cancel(j) => Some(j)
    case Acquire(j) => Some(j)
    case CheckTerminal(j) => Some(j)
    case Begin(j) => Some(j)
    case FinishRetrieval(j, _, _) => Some(j)
    case FinishGeneration(j, _, _) => Some(j)
    case FinishJudge(j, _, _) => Some(j)
    case Raise(j, _) => Some(j)
    case MarkOwnFailure(j) => Some(j)
    case Release(j) => Some(j)
    case Die(j) => Some(j)
    case Abandon(j, _) => Some(j)
    case OnFailure(j, _) => Some(j)
    case ClearStale(j) => Some(j)
  }

  lemma ReadyAtBegin(p: Phase, row: RunRow)
    requires Consistent(row) && row.status == ExpectedStatus(p)
    ensures PhaseReady(p, row)
  {
  }

  /** A live worker holds the lock. */
  ghost predicate LocksOwned(s: Sys) {
    forall k :: 0 <= k < |s.jobs| && Live(s.jobs[k].pc) ==> s.lock == Some(k)
  }

  lemma InvOwnsLocks(s: Sys)
    requires Inv(s)
    ensures LocksOwned(s)
  {
    forall k | 0 <= k < |s.jobs| && Live(s.jobs[k].pc)
      ensures s.lock == Some(k)
    {
      assert JobOk(s, k);
    }
  }

  /** An action leaves the other jobs alone, and the lock of a live one. */
  lemma OtherJobs(rates: Rates, s: Sys, a: Action, j: nat)
    requires LocksOwned(s) && Step(rates, s, a).Some? && j < |s.jobs| && Actor(a) != Some(j)
    ensures var t := Step(rates, s, a).value; j < |t.jobs| && t.jobs[j] == s.jobs[j]
    ensures Live(s.jobs[j].pc) ==> Step(rates, s, a).value.lock == Some(j) && !FinishesPhase(a)
  {
  }

  lemma OthersStayOk(rates: Rates, s: Sys, a: Action, j: nat)
    requires LocksOwned(s) && Step(rates, s, a).Some? && j < |s.jobs| && JobOk(s, j) && Actor(a) != Some(j)
    ensures j < |Step(rates, s, a).value.jobs| && JobOk(Step(rates, s, a).value, j)
  {
    OtherJobs(rates, s, a, j);
    if Live(s.jobs[j].pc) {
      RowOfOtherSteps(rates, s, a);
    }
  }

  predicate ChangesRow(a: Action) {
    FinishesPhase(a) || a.MarkOwnFailure? || a.OnFailure?
  }

  /** A phase that job `j` may now begin will find its rows. */
  ghost predicate ReadyToBegin(s: Sys, j: nat)
    requires j < |s.jobs|
  {
    var pc := s.jobs[j].pc;
    pc.Between? && s.row.status == ExpectedStatus(pc.next) ==> PhaseReady(pc.next, s.row)
  }

  /** A worker's own steps between the phase transactions. */
  lemma OwnMoveOk(rates: Rates, s: Sys, a: Action, j: nat)
    requires Step(rates, s, a).Some? && j < |s.jobs| && JobOk(s, j) && ReadyToBegin(s, j)
    requires Actor(a) == Some(j) && !ChangesRow(a)
    ensures j < |Step(rates, s, a).value.jobs| && JobOk(Step(rates, s, a).value, j)
  {
  }

  lemma SettledOk(s: Sys, j: nat, r: Result<RunRow, GuardError>)
    requires j < |s.jobs| && JobOk(s, j) && s.jobs[j].pc.Inside?
    ensures var t := SettlePhase(s, j, s.jobs[j].pc.phase, r); j < |t.jobs| && JobOk(t, j)
  {
  }

  lemma OwnCommitOk(rates: Rates, s: Sys, a: Action, j: nat)
    requires Step(rates, s, a).Some? && j < |s.jobs| && JobOk(s, j) && Actor(a) == Some(j) && ChangesRow(a)
    ensures j < |Step(rates, s, a).value.jobs| && JobOk(Step(rates, s, a).value, j)
  {
    match a
    case FinishRetrieval(_, hits, ms) => SettledOk(s, j, Ok(CommitRetrieval(s.row, hits, ms)));
    case FinishGeneration(_, gen, ms) => SettledOk(s, j, CommitGeneration(s.row, s.jobs[j].pc.seen, gen, ms));
    case FinishJudge(_, v, ms) => SettledOk(s, j, CommitJudge(s.row, s.jobs[j].pc.seen, rates, v, ms));
    case MarkOwnFailure(_) =>
    case OnFailure(_, written) =>
  }

  lemma StepKeepsJob(rates: Rates, s: Sys, a: Action, j: nat)
    requires Inv(s) && Step(rates, s, a).Some? && j < |s.jobs|
    ensures j < |Step(rates, s, a).value.jobs| && JobOk(Step(rates, s, a).value, j)
  {
    assert JobOk(s, j);
    InvOwnsLocks(s);
    assert ReadyToBegin(s, j) by {
      if s.jobs[j].pc.Between? && s.row.status == ExpectedStatus(s.jobs[j].pc.next) {
        ReadyAtBegin(s.jobs[j].pc.next, s.row);
      }
    }
    if Actor(a) != Some(j) {
      OthersStayOk(rates, s, a, j);
    } else if ChangesRow(a) {
      OwnCommitOk(rates, s, a, j);
    } else {
      OwnMoveOk(rates, s, a, j);
    }
  }

  lemma {:induction false} ExecKeepsInv(rates: Rates, s: Sys, actions: seq<Action>)
    requires Inv(s) && Exec(rates, s, actions).Some?
    ensures Inv(Exec(rates, s, actions).value)
    decreases |actions|
  {
    if actions != [] {
      StepKeepsInv(rates, s, actions[0]);
      ExecKeepsInv(rates, Step(rates, s, actions[0]).value, actions[1..]);
    }
  }
}
