/** Progress of the full-run protocol: jobs take boundedly many steps, never get stuck, and no
    reachable state rules out completing the run. */
module Liveness {
  import opened Basics
  import opened Cost
  import opened RunLifecycle
  import opened Protocol
  import opened Attempt
  import opened Recovery
  import opened Settling
  import FullRunSafety

  // ----- Every job takes boundedly many steps -----------------------------------------------------

  /** Steps an attempt can still take, at most. */
  function StepsLeft(pc: Pc): nat {
    match pc
    case Queued => 14
    case Locked => 13
    case Between(RetrievalPhase) => 12
    case Inside(RetrievalPhase, _) => 11
    case Between(GenerationPhase) => 10
    case Inside(GenerationPhase, _) => 9
    case Between(JudgePhase) => 8
    case Inside(JudgePhase, _) => 7
    case Marking => 6
    case Leaving(raised) => if raised then 4 else 5
    case Dead => 3
    case CallbackDue => 2
    case Finished => 0
    case Unsuccessful => 0
  }

  function Potential(job: Job): nat {
    15 * job.retries + StepsLeft(job.pc)
  }

  predicate OwnStep(a: Action, j: nat) {
    Actor(a) == Some(j) && !a.ClearStale?
  }

  /** The number of actions of job `j`; an operator's stale-lock clearing is not one. */
  function OwnSteps(actions: seq<Action>, j: nat): nat {
    if actions == [] then 0 else (if OwnStep(actions[0], j) then 1 else 0) + OwnSteps(actions[1..], j)
  }

  lemma OwnStepSpends(rates: Rates, s: Sys, a: Action, j: nat)
    requires Step(rates, s, a).Some? && OwnStep(a, j)
    ensures var t := Step(rates, s, a).value;
            j < |s.jobs| && j < |t.jobs| && Potential(t.jobs[j]) < Potential(s.jobs[j])
  {
  }

  lemma OtherStepKeeps(rates: Rates, s: Sys, a: Action, j: nat)
    requires Step(rates, s, a).Some? && !OwnStep(a, j) && j < |s.jobs|
    ensures var t := Step(rates, s, a).value; j < |t.jobs| && t.jobs[j] == s.jobs[j]
  {
  }

  lemma {:induction false} StepsAreBounded(rates: Rates, s: Sys, actions: seq<Action>, j: nat)
    requires Exec(rates, s, actions).Some? && j < |s.jobs|
    ensures var t := Exec(rates, s, actions).value;
            j < |t.jobs| && OwnSteps(actions, j) + Potential(t.jobs[j]) <= Potential(s.jobs[j])
    decreases |actions|
  {
    if actions != [] {
      var a := actions[0];
      if OwnStep(a, j) {
        OwnStepSpends(rates, s, a, j);
      } else {
        OtherStepKeeps(rates, s, a, j);
      }
      StepsAreBounded(rates, Step(rates, s, a).value, actions[1..], j);
    }
  }

  const MAX_STEPS: nat := 44

  /** A job that does not exist yet has taken no step. */
  lemma {:induction false} StepsOfNewJob(rates: Rates, s: Sys, actions: seq<Action>, j: nat)
    requires Exec(rates, s, actions).Some? && j >= |s.jobs|
    ensures var t := Exec(rates, s, actions).value;
            j >= |t.jobs| || OwnSteps(actions, j) + Potential(t.jobs[j]) <= MAX_STEPS
    decreases |actions|
  {
    if actions != [] {
      var a := actions[0];
      var t := Step(rates, s, a).value;
      JobsOnlyGrow(rates, s, a);
      if OwnStep(a, j) {
        OwnStepSpends(rates, s, a, j);
      }
      if j < |t.jobs| {
        assert t.jobs[j] == Job(a.scope, RETRY_BUDGET, 0, Queued);
        StepsAreBounded(rates, t, actions[1..], j);
      } else {
        StepsOfNewJob(rates, t, actions[1..], j);
      }
    }
  }

  /** In every execution a job, over all its retries, takes at most 44 steps. */
  lemma JobsTerminate(rates: Rates, hybrid: bool, actions: seq<Action>, s: Sys, j: nat)
    requires Reaches(rates, hybrid, actions, s) && j < |s.jobs|
    ensures OwnSteps(actions, j) <= MAX_STEPS
  {
    StepsOfNewJob(rates, Init(hybrid), actions, j);
  }

  /** Whatever the external calls do next, a job that has not ended has a step to take. */
  function NextStep(job: Job, j: nat, hits: seq<Hit>, gen: GenerationRow, v: Judgement): Action {
    match job.pc
    case Queued => Acquire(j)
    case Locked => CheckTerminal(j)
    case Between(_) => Begin(j)
    case Inside(RetrievalPhase, _) => FinishRetrieval(j, hits, 0)
    case Inside(GenerationPhase, _) => FinishGeneration(j, gen, 0)
    case Inside(JudgePhase, _) => FinishJudge(j, v, 0)
    case Marking => MarkOwnFailure(j)
    case Leaving(_) => Release(j)
    case Dead => Abandon(j, false)
    case _ => OnFailure(j, true)
  }

  lemma JobsNeverStuck(rates: Rates, s: Sys, j: nat, hits: seq<Hit>, gen: GenerationRow, v: Judgement)
    requires j < |s.jobs| && !Ended(s.jobs[j].pc)
    ensures var a := NextStep(s.jobs[j], j, hits, gen, v); OwnStep(a, j) && Step(rates, s, a).Some?
  {
  }

  /** Left alone, a job runs to its end by its own steps. */
  lemma {:induction false} JobRunsToItsEnd(rates: Rates, s: Sys, j: nat, hits: seq<Hit>, gen: GenerationRow,
                                           v: Judgement)
      returns (more: seq<Action>, t: Sys)
    requires j < |s.jobs|
    ensures Exec(rates, s, more) == Some(t) && j < |t.jobs| && Ended(t.jobs[j].pc)
    ensures forall a :: a in more ==> OwnStep(a, j)
    decreases Potential(s.jobs[j])
  {
    if Ended(s.jobs[j].pc) {
      more, t := [], s;
    } else {
      var a := NextStep(s.jobs[j], j, hits, gen, v);
      JobsNeverStuck(rates, s, j, hits, gen, v);
      OwnStepSpends(rates, s, a, j);
      var next := Step(rates, s, a).value;
      var rest, u := JobRunsToItsEnd(rates, next, j, hits, gen, v);
      more, t := [a] + rest, u;
      assert more[1..] == rest;
    }
  }

  // ----- Completion is never out of reach ------------------------------------------------------------

  /** The lock of a reachable state can always become free without touching the rows. */
  lemma LockCanBeFreed(rates: Rates, s: Sys) returns (more: seq<Action>, t: Sys)
    requires Inv(s)
    ensures Exec(rates, s, more) == Some(t) && t.lock.None? && t.row == s.row
  {
    if s.lock.None? {
      more, t := [], s;
    } else if Live(s.jobs[s.lock.value].pc) {
      var j := s.lock.value;
      more := [Die(j), ExpireLock];
      t := DeadLockExpires(rates, s, j);
    } else {
      more, t := [ExpireLock], s.(lock := None);
      Exec1(rates, s, ExpireLock);
    }
  }

  /** From every reachable state some continuation completes the run: there is no state, however
      many crashes and failures led to it, that an operator cannot recover from. */
  lemma CompletionStaysReachable(rates: Rates, hybrid: bool, actions: seq<Action>, s: Sys, o: Outcomes)
      returns (more: seq<Action>, t: Sys)
    requires Reaches(rates, hybrid, actions, s) && FaultFree(o)
    ensures Exec(rates, s, more) == Some(t) && t.row.status == Completed
  {
    FullRunSafety.ReachableInv(rates, hybrid, actions, s);
    if s.row.status == Completed {
      more, t := [], s;
    } else {
      var unlock, free := LockCanBeFreed(rates, s);
      ExecKeepsInv(rates, s, unlock);
      var finish, done := FinishFromFree(rates, free, o);
      more, t := unlock + finish, done;
      ExecConcat(rates, s, unlock, finish);
    }
  }

  lemma FinishFromFree(rates: Rates, s: Sys, o: Outcomes) returns (more: seq<Action>, t: Sys)
    requires Inv(s) && s.row.status != Completed && s.lock.None? && FaultFree(o)
    ensures Exec(rates, s, more) == Some(t) && t.row.status == Completed
  {
    more := RequeueThenRun(s, None, rates, o);
    RequeueFromInv(rates, s, None, o);
    t := Exec(rates, s, more).value;
    if RetrievedNothing(s.row) {
      ExecKeepsInv(rates, s, more);
      var again := RequeueThenRun(t, None, rates, o);
      RequeueFromInv(rates, t, None, o);
      ExecConcat(rates, s, more, again);
      more, t := more + again, Exec(rates, t, again).value;
    }
  }
}
