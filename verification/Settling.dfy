/** When a run settles without an operator: what a job's end says about the run, and how a run can be
    left unfinished with no job to finish it. */
module Settling {
  import opened Basics
  import opened Cost
  import opened RunLifecycle
  import opened Protocol
  import opened Attempt
  import opened FullRunSafety

  predicate Terminal(status: Status) {
    status == Completed || status == Failed
  }

  /** What a worker that passed a phase, or returned normally, knows of the status. */
  predicate Passed(status: Status, pc: Pc) {
    match pc
    case Between(GenerationPhase) => status != Running
    case Between(JudgePhase) => status != Running && status != RetrievalCompleted
    case Leaving(raised) => raised || Terminal(status)
    case _ => true
  }

  ghost predicate AllPassed(s: Sys) {
    forall j :: 0 <= j < |s.jobs| ==> Passed(s.row.status, s.jobs[j].pc)
  }

  lemma OthersPassed(rates: Rates, s: Sys, a: Action, j: nat)
    requires Inv(s) && Step(rates, s, a).Some? && j < |s.jobs| && Actor(a) != Some(j)
    requires Passed(s.row.status, s.jobs[j].pc)
    ensures var t := Step(rates, s, a).value; j < |t.jobs| && Passed(t.row.status, t.jobs[j].pc)
  {
    InvOwnsLocks(s);
    OtherJobs(rates, s, a, j);
    if Live(s.jobs[j].pc) {
      RowOfOtherSteps(rates, s, a);
    }
  }

  /** The status a phase transaction of a live worker leaves. */
  lemma CommitStatus(rates: Rates, s: Sys, a: Action)
    requires Inv(s) && Step(rates, s, a).Some? && FinishesPhase(a)
    ensures var t := Step(rates, s, a).value;
            && a.j < |t.jobs|
            && (a.FinishRetrieval? ==> t.row.status == RetrievalCompleted && t.jobs[a.j].pc == Between(GenerationPhase))
            && (a.FinishGeneration? && s.row.retrieval != [] ==>
                  t.row.status == GenerationCompleted && t.jobs[a.j].pc == Between(JudgePhase))
            && (a.FinishGeneration? && s.row.retrieval == [] ==> t.row == s.row && t.jobs[a.j].pc == Marking)
            && (a.FinishJudge? ==> t.row.status == Completed && t.jobs[a.j].pc == Leaving(false))
  {
    PhaseCommit(rates, s, a);
    if a.FinishJudge? {
      CommitJudgeConsistent(s.row, s.jobs[a.j].pc.seen, rates, a.verdict, a.ms);
    }
  }

  lemma OwnPassed(rates: Rates, s: Sys, a: Action, j: nat)
    requires Inv(s) && Step(rates, s, a).Some? && j < |s.jobs| && Actor(a) == Some(j)
    requires Passed(s.row.status, s.jobs[j].pc)
    ensures var t := Step(rates, s, a).value; j < |t.jobs| && Passed(t.row.status, t.jobs[j].pc)
  {
    if FinishesPhase(a) {
      OwnCommitPassed(rates, s, a);
    } else {
      OwnOtherPassed(rates, s, a, j);
    }
  }

  lemma OwnOtherPassed(rates: Rates, s: Sys, a: Action, j: nat)
    requires s.row.status != Pending && j < |s.jobs| && Actor(a) == Some(j) && !FinishesPhase(a)
    requires Step(rates, s, a).Some? && Passed(s.row.status, s.jobs[j].pc)
    ensures var t := Step(rates, s, a).value; j < |t.jobs| && Passed(t.row.status, t.jobs[j].pc)
  {
    if a.Begin? && s.row.status != ExpectedStatus(s.jobs[j].pc.next) {
      SkippedPassed(s.row.status, s.jobs[j].pc.next);
    }
  }

  /** A phase that is skipped is behind the run, if the worker passed the ones before it. */
  lemma SkippedPassed(status: Status, p: Phase)
    requires status != Pending && status != ExpectedStatus(p) && Passed(status, Between(p))
    ensures Passed(status, AfterPhase(p))
  {
  }

  lemma OwnCommitPassed(rates: Rates, s: Sys, a: Action)
    requires Inv(s) && Step(rates, s, a).Some? && FinishesPhase(a)
    ensures var t := Step(rates, s, a).value; a.j < |t.jobs| && Passed(t.row.status, t.jobs[a.j].pc)
  {
    CommitStatus(rates, s, a);
  }

  lemma StepKeepsPassed(rates: Rates, s: Sys, a: Action)
    requires Inv(s) && AllPassed(s) && Step(rates, s, a).Some?
    ensures AllPassed(Step(rates, s, a).value)
  {
    var t := Step(rates, s, a).value;
    JobsOnlyGrow(rates, s, a);
    forall j | 0 <= j < |t.jobs|
      ensures Passed(t.row.status, t.jobs[j].pc)
    {
      if j < |s.jobs| {
        if Actor(a) == Some(j) {
          OwnPassed(rates, s, a, j);
        } else {
          OthersPassed(rates, s, a, j);
        }
      }
    }
  }

  /** A job that returns normally from the pipeline leaves the run completed or failed. */
  predicate ReturnsNormally(s: Sys, a: Action) {
    a.Release? && a.j < |s.jobs| && s.jobs[a.j].pc == Leaving(false)
  }

  // ----- Exactly when a run is settled -----------------------------------------------------------------

  /** The events after which a run is completed or failed. */
  predicate Settles(s: Sys, a: Action) {
    || a.FinishJudge? || a.MarkOwnFailure? || a.EnqueueFails?
    || (a.OnFailure? && a.written)
    || ReturnsNormally(s, a)
  }

  /** The events after which it is open again: two commits, and a requeue. */
  predicate Reopens(s: Sys, a: Action) {
    a.FinishRetrieval? || (a.FinishGeneration? && s.row.retrieval != []) || a.Requeue?
  }

  /** Whether the last event of either kind in `actions` settled the run; `before` if there is none. */
  function Settled(rates: Rates, s: Sys, actions: seq<Action>, before: bool): bool
    decreases |actions|
  {
    if actions == [] then before
    else
      var a := actions[0];
      match Step(rates, s, a)
      case None => before
      case Some(t) => Settled(rates, t, actions[1..], Settles(s, a) || (before && !Reopens(s, a)))
  }

  lemma OtherStepSettles(rates: Rates, s: Sys, a: Action)
    requires Step(rates, s, a).Some? && !FinishesPhase(a) && !a.Requeue? && !a.Release?
    ensures Terminal(Step(rates, s, a).value.row.status) <==> Settles(s, a) || Terminal(s.row.status)
  {
  }

  lemma ReleaseSettles(rates: Rates, s: Sys, a: Action)
    requires Step(rates, s, a).Some? && a.Release? && AllPassed(s)
    ensures Terminal(Step(rates, s, a).value.row.status) <==> ReturnsNormally(s, a) || Terminal(s.row.status)
  {
    assert Passed(s.row.status, s.jobs[a.j].pc);
  }

  lemma RequeueReopens(rates: Rates, s: Sys)
    requires RowsAgree(s.row) && Step(rates, s, Requeue).Some?
    ensures !Terminal(Step(rates, s, Requeue).value.row.status)
  {
    EligibleUnlessCompleted(s.row);
  }

  lemma StepSettles(rates: Rates, s: Sys, a: Action)
    requires Inv(s) && AllPassed(s) && Step(rates, s, a).Some?
    ensures Terminal(Step(rates, s, a).value.row.status) <==>
            Settles(s, a) || (Terminal(s.row.status) && !Reopens(s, a))
  {
    if FinishesPhase(a) {
      CommitStatus(rates, s, a);
    } else if a.Release? {
      ReleaseSettles(rates, s, a);
    } else if a.Requeue? {
      RequeueReopens(rates, s);
    } else {
      OtherStepSettles(rates, s, a);
    }
  }

  lemma {:induction false} ExecSettles(rates: Rates, s: Sys, actions: seq<Action>)
    requires Inv(s) && AllPassed(s) && Exec(rates, s, actions).Some?
    ensures var t := Exec(rates, s, actions).value;
            AllPassed(t) && (Terminal(t.row.status) <==> Settled(rates, s, actions, Terminal(s.row.status)))
    decreases |actions|
  {
    if actions != [] {
      var t := Step(rates, s, actions[0]).value;
      StepKeepsInv(rates, s, actions[0]);
      StepKeepsPassed(rates, s, actions[0]);
      StepSettles(rates, s, actions[0]);
      ExecSettles(rates, t, actions[1..]);
    }
  }

  /** In every execution the run is completed or failed exactly when its last settling event, a
      judgement, a failure mark, a written callback or a job's normal return, came after the last
      commit of an earlier phase and the last requeue. */
  lemma SettledIff(rates: Rates, hybrid: bool, actions: seq<Action>, s: Sys)
    requires Reaches(rates, hybrid, actions, s)
    ensures Terminal(s.row.status) <==> Settled(rates, Init(hybrid), actions, false)
  {
    ExecSettles(rates, Init(hybrid), actions);
  }

  /** In particular a normal return always leaves it so. */
  lemma NormalReturnSettles(rates: Rates, hybrid: bool, actions: seq<Action>, s: Sys, j: nat)
    requires Reaches(rates, hybrid, actions, s)
    requires j < |s.jobs| && s.jobs[j].pc == Leaving(false)
    ensures Terminal(s.row.status)
  {
    ExecSettles(rates, Init(hybrid), actions);
    assert Passed(s.row.status, s.jobs[j].pc);
  }

  // ----- Runs whose jobs have all ended ----------------------------------------------------------------

  predicate Ended(pc: Pc) {
    pc.Finished? || pc.Unsuccessful?
  }

  predicate AllEnded(s: Sys) {
    s.jobs != [] && forall j :: 0 <= j < |s.jobs| ==> Ended(s.jobs[j].pc)
  }

  /** The ways a job ends without having settled the run: canceled while it waits, turned away by the
      lock, or a failure callback that could not write. */
  predicate EndsSilently(s: Sys, a: Action) {
    a.Cancel? || (a.Acquire? && s.lock.Some?) || (a.OnFailure? && !a.written)
  }

  /** No job ends silently and nobody requeues. */
  ghost predicate Undisturbed(rates: Rates, s: Sys, actions: seq<Action>)
    decreases |actions|
  {
    actions != [] && Step(rates, s, actions[0]).Some? ==>
      && !EndsSilently(s, actions[0]) && !actions[0].Requeue?
      && Undisturbed(rates, Step(rates, s, actions[0]).value, actions[1..])
  }

  /** An unsettled run has a job that will go on. */
  ghost predicate Attended(s: Sys) {
    s.jobs == [] || Terminal(s.row.status) || exists j :: 0 <= j < |s.jobs| && !Ended(s.jobs[j].pc)
  }

  /** A job ends by a normal return, a written callback or silently. */
  lemma EndOfJob(rates: Rates, s: Sys, a: Action, j: nat)
    requires Step(rates, s, a).Some? && j < |s.jobs| && !Ended(s.jobs[j].pc)
    ensures var t := Step(rates, s, a).value;
            j < |t.jobs| && (Ended(t.jobs[j].pc) ==> Settles(s, a) || EndsSilently(s, a))
  {
  }

  lemma CommitterGoesOn(rates: Rates, s: Sys, a: Action)
    requires Inv(s) && Step(rates, s, a).Some? && FinishesPhase(a)
    ensures var t := Step(rates, s, a).value; a.j < |t.jobs| && !Ended(t.jobs[a.j].pc)
  {
    CommitStatus(rates, s, a);
  }

  lemma StepKeepsAttended(rates: Rates, s: Sys, a: Action)
    requires Inv(s) && AllPassed(s) && Attended(s) && Step(rates, s, a).Some?
    requires !EndsSilently(s, a) && !a.Requeue?
    ensures Attended(Step(rates, s, a).value)
  {
    var t := Step(rates, s, a).value;
    StepSettles(rates, s, a);
    JobsOnlyGrow(rates, s, a);
    if |t.jobs| > |s.jobs| {
      assert !Ended(t.jobs[|s.jobs|].pc);
    } else if FinishesPhase(a) {
      CommitterGoesOn(rates, s, a);
    } else if s.jobs != [] && !Terminal(s.row.status) {
      var j :| 0 <= j < |s.jobs| && !Ended(s.jobs[j].pc);
      EndOfJob(rates, s, a, j);
    }
  }

  lemma {:induction false} ExecKeepsAttended(rates: Rates, s: Sys, actions: seq<Action>)
    requires Inv(s) && AllPassed(s) && Attended(s)
    requires Exec(rates, s, actions).Some? && Undisturbed(rates, s, actions)
    ensures Attended(Exec(rates, s, actions).value)
    decreases |actions|
  {
    if actions != [] {
      StepKeepsInv(rates, s, actions[0]);
      StepKeepsPassed(rates, s, actions[0]);
      StepKeepsAttended(rates, s, actions[0]);
      ExecKeepsAttended(rates, Step(rates, s, actions[0]).value, actions[1..]);
    }
  }

  /** From any reachable state in which the run is settled or some job still has to go on, a requeued run
      included: when all jobs have ended, none of them silently since, the run is completed or failed. */
  lemma AttendedRunSettles(rates: Rates, hybrid: bool, before: seq<Action>, s: Sys, after: seq<Action>, t: Sys)
    requires Reaches(rates, hybrid, before, s) && Attended(s)
    requires Exec(rates, s, after) == Some(t) && Undisturbed(rates, s, after) && AllEnded(t)
    ensures Terminal(t.row.status)
  {
    ReachableInv(rates, hybrid, before, s);
    ExecSettles(rates, Init(hybrid), before);
    ExecKeepsAttended(rates, s, after);
  }

  /** A requeue is such a state as soon as its job is enqueued, however the run got there. */
  lemma RequeuedRunSettles(rates: Rates, hybrid: bool, before: seq<Action>, s: Sys, scope: Option<int>,
                           after: seq<Action>, t: Sys)
    requires Reaches(rates, hybrid, before, s)
    requires Exec(rates, s, [Requeue, Enqueue(scope)] + after) == Some(t) && AllEnded(t)
    requires forall u :: Exec(rates, s, [Requeue, Enqueue(scope)]) == Some(u) ==> Undisturbed(rates, u, after)
    ensures Terminal(t.row.status)
  {
    var asked := [Requeue, Enqueue(scope)];
    ExecConcat(rates, s, asked, after);
    var u := Exec(rates, s, asked).value;
    var mid := Step(rates, s, Requeue).value;
    Exec2(rates, s, Requeue, Enqueue(scope));
    assert u.jobs[|mid.jobs|].pc == Queued;
    ExecConcat(rates, Init(hybrid), before, asked);
    AttendedRunSettles(rates, hybrid, before + asked, u, after, t);
  }

  /** Without an operator: when all its jobs have ended, none of them silently, the run is completed
      or failed, over every interleaving, crash and retry. */
  lemma EndedRunIsSettled(rates: Rates, hybrid: bool, actions: seq<Action>, s: Sys)
    requires Reaches(rates, hybrid, actions, s) && Undisturbed(rates, Init(hybrid), actions) && AllEnded(s)
    ensures Terminal(s.row.status)
  {
    ExecKeepsAttended(rates, Init(hybrid), actions);
  }

  ghost predicate Stranded(rates: Rates, hybrid: bool, actions: seq<Action>) {
    var s := Exec(rates, Init(hybrid), actions);
    s.Some? && AllEnded(s.value) && s.value.row == NewRun(hybrid)
  }

  /** Each silent end does strand a run in `running` with no job left: its only job is canceled, */
  lemma CanceledStrands(rates: Rates, hybrid: bool)
    ensures Stranded(rates, hybrid, [Enqueue(None), Cancel(0)])
  {
    var s0 := Init(hybrid);
    Exec2(rates, s0, Enqueue(None), Cancel(0));
  }

  /** or is retried after its worker died, and turned away by its own dead lock, */
  lemma OwnDeadLockStrands(rates: Rates, hybrid: bool)
    ensures Stranded(rates, hybrid, [Enqueue(None), Acquire(0), Die(0), Abandon(0, true), Acquire(0)])
  {
    var s := DeadJob(rates, hybrid);
    var retried := Step(rates, s, Abandon(0, true)).value;
    Exec2(rates, s, Abandon(0, true), Acquire(0));
    assert [Enqueue(None), Acquire(0), Die(0)] + [Abandon(0, true), Acquire(0)] ==
           [Enqueue(None), Acquire(0), Die(0), Abandon(0, true), Acquire(0)];
    ExecConcat(rates, Init(hybrid), [Enqueue(None), Acquire(0), Die(0)], [Abandon(0, true), Acquire(0)]);
  }

  /** or is given up after its worker died, and its callback cannot write. */
  lemma UnwrittenCallbackStrands(rates: Rates, hybrid: bool)
    ensures Stranded(rates, hybrid, [Enqueue(None), Acquire(0), Die(0), Abandon(0, false), OnFailure(0, false)])
  {
    var s := DeadJob(rates, hybrid);
    Exec2(rates, s, Abandon(0, false), OnFailure(0, false));
    assert [Enqueue(None), Acquire(0), Die(0)] + [Abandon(0, false), OnFailure(0, false)] ==
           [Enqueue(None), Acquire(0), Die(0), Abandon(0, false), OnFailure(0, false)];
    ExecConcat(rates, Init(hybrid), [Enqueue(None), Acquire(0), Die(0)], [Abandon(0, false), OnFailure(0, false)]);
  }

  lemma DeadJob(rates: Rates, hybrid: bool) returns (s: Sys)
    ensures Reaches(rates, hybrid, [Enqueue(None), Acquire(0), Die(0)], s)
    ensures s.row == NewRun(hybrid) && s.lock == Some(0)
    ensures |s.jobs| == 1 && s.jobs[0] == Job(None, RETRY_BUDGET, 1, Dead)
  {
    var s1 := Step(rates, Init(hybrid), Enqueue(None)).value;
    var s2 := Step(rates, s1, Acquire(0)).value;
    s := Step(rates, s2, Die(0)).value;
    Trace3(rates, Init(hybrid), s1, s2, s, Enqueue(None), Acquire(0), Die(0));
  }
}
