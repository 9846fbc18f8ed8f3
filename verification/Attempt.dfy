/** One attempt of a queue job taken on its own: `full_benchmark_run_job` around
    `run_full_benchmark_pipeline`, as a function of what its three external calls do. Every
    attempt is an execution of the protocol. */
module Attempt {
  import opened Basics
  import opened Cost
  import opened RunLifecycle
  import opened Protocol

  /** What an external call (vector search, answer model, judge model) does in this attempt. */
  datatype Outcome<+T> = Returns(value: T, ms: nat) | RaisesValueError | RaisesOther

  datatype Outcomes = Outcomes(
    retrieval: Outcome<seq<Hit>>,
    generation: Outcome<GenerationRow>,
    judge: Outcome<Judgement>)

  /** How one phase of the pipeline ends. */
  datatype Flow =
    | Proceed(row: RunRow)
    | ValueErrorCaught(row: RunRow)
    | Propagates(row: RunRow)

  /** The guard of the generation phase, evaluated before the model is called. */
  function GenerationGuard(row: RunRow, seen: Status): Option<GuardError> {
    if seen != RetrievalCompleted then Some(WrongStatus(seen))
    else if row.generations != [] then Some(DuplicateGeneration)
    else if row.retrieval == [] then Some(NoRetrievalRows)
    else None
  }

  function PhaseFlow(p: Phase, row: RunRow, rates: Rates, o: Outcomes): Flow {
    if row.status != ExpectedStatus(p) then Proceed(row)
    else
      match p
      case RetrievalPhase => (
        match o.retrieval
        case Returns(hits, ms) => Proceed(CommitRetrieval(row, hits, ms))
        case RaisesValueError => ValueErrorCaught(row)
        case RaisesOther => Propagates(row))
      case GenerationPhase => (
        if GenerationGuard(row, row.status).Some? then ValueErrorCaught(row)
        else
          match o.generation
          case Returns(gen, ms) => (
            match CommitGeneration(row, row.status, gen, ms)
            case Ok(done) => Proceed(done)
            case Err(_) => ValueErrorCaught(row))
          case RaisesValueError => ValueErrorCaught(row)
          case RaisesOther => Propagates(row))
      case JudgePhase => (
        if row.generations == [] then ValueErrorCaught(row)
        else
          match o.judge
          case Returns(v, ms) => (
            match CommitJudge(row, row.status, rates, v, ms)
            case Ok(done) => Proceed(done)
            case Err(_) => ValueErrorCaught(row))
          case RaisesValueError => ValueErrorCaught(row)
          case RaisesOther => Propagates(row))
  }

  /** The phases from `p` on: the row they leave, and whether an exception leaves the pipeline. */
  function PhasesFrom(p: Phase, row: RunRow, rates: Rates, o: Outcomes): (RunRow, bool)
    decreases PhasesLeft(p)
  {
    match PhaseFlow(p, row, rates, o)
    case Proceed(next) => if p.JudgePhase? then (next, false) else PhasesFrom(AfterPhase(p).next, next, rates, o)
    case ValueErrorCaught(r) => (MarkFailed(r), false)
    case Propagates(r) => (r, true)
  }

  function PhasesLeft(p: Phase): nat {
    match p case RetrievalPhase => 3 case GenerationPhase => 2 case JudgePhase => 1
  }

  function Pipeline(row: RunRow, rates: Rates, o: Outcomes): (RunRow, bool) {
    if row.status in {Completed, Failed} then (row, false) else PhasesFrom(RetrievalPhase, row, rates, o)
  }

  // ----- The attempt as protocol actions --------------------------------------------------------

  function FinishAction(p: Phase, j: nat, o: Outcomes): Action {
    match p
    case RetrievalPhase =>
      if o.retrieval.Returns? then FinishRetrieval(j, o.retrieval.value, o.retrieval.ms) else Raise(j, false)
    case GenerationPhase =>
      if o.generation.Returns? then FinishGeneration(j, o.generation.value, o.generation.ms) else Raise(j, false)
    case JudgePhase => if o.judge.Returns? then FinishJudge(j, o.judge.value, o.judge.ms) else Raise(j, false)
  }

  function PhaseActions(p: Phase, j: nat, row: RunRow, rates: Rates, o: Outcomes): seq<Action> {
    if row.status != ExpectedStatus(p) then [Begin(j)]
    else
      match PhaseFlow(p, row, rates, o)
      case Proceed(_) => [Begin(j), FinishAction(p, j, o)]
      case ValueErrorCaught(_) => [Begin(j), Raise(j, true), MarkOwnFailure(j)]
      case Propagates(_) => [Begin(j), Raise(j, false)]
  }

  function ActionsFrom(p: Phase, j: nat, row: RunRow, rates: Rates, o: Outcomes): seq<Action>
    decreases PhasesLeft(p)
  {
    var flow := PhaseFlow(p, row, rates, o);
    PhaseActions(p, j, row, rates, o) +
    if flow.Proceed? && !p.JudgePhase? then ActionsFrom(AfterPhase(p).next, j, flow.row, rates, o) else []
  }

  /** What happens between taking the lock and releasing it. */
  function Body(j: nat, row: RunRow, rates: Rates, o: Outcomes): seq<Action> {
    if row.status in {Completed, Failed} then [] else ActionsFrom(RetrievalPhase, j, row, rates, o)
  }

  function AttemptActions(j: nat, row: RunRow, rates: Rates, o: Outcomes): seq<Action> {
    [Acquire(j), CheckTerminal(j)] +
    Body(j, row, rates, o) +
    [Release(j)]
  }

  lemma Exec1(rates: Rates, s: Sys, a: Action)
    ensures Exec(rates, s, [a]) == Step(rates, s, a)
  {
    assert [a][1..] == [];
  }

  lemma Exec2(rates: Rates, s: Sys, a: Action, b: Action)
    requires Step(rates, s, a).Some?
    ensures Exec(rates, s, [a, b]) == Step(rates, Step(rates, s, a).value, b)
  {
    assert [a, b] == [a] + [b];
    ExecConcat(rates, s, [a], [b]);
    Exec1(rates, s, a);
    Exec1(rates, Step(rates, s, a).value, b);
  }

  lemma Exec3(rates: Rates, s: Sys, a: Action, b: Action, c: Action)
    requires Step(rates, s, a).Some? && Step(rates, Step(rates, s, a).value, b).Some?
    ensures Exec(rates, s, [a, b, c]) == Step(rates, Step(rates, Step(rates, s, a).value, b).value, c)
  {
    assert [a, b, c] == [a, b] + [c];
    ExecConcat(rates, s, [a, b], [c]);
    Exec2(rates, s, a, b);
    Exec1(rates, Step(rates, Step(rates, s, a).value, b).value, c);
  }

  /** The state after one phase, read off its flow. */
  function AfterFlow(s: Sys, j: nat, p: Phase, flow: Flow): Sys
    requires j < |s.jobs|
  {
    match flow
    case Proceed(row) => SetPc(s, j, AfterPhase(p)).(row := row)
    case ValueErrorCaught(row) => SetPc(s, j, Leaving(false)).(row := MarkFailed(row))
    case Propagates(row) => SetPc(s, j, Leaving(true)).(row := row)
  }

  lemma PhaseSkipped(rates: Rates, s: Sys, j: nat, p: Phase)
    requires IsAt(s, j, Between(p)) && s.row.status != ExpectedStatus(p)
    ensures Exec(rates, s, [Begin(j)]) == Some(SetPc(s, j, AfterPhase(p)).(row := s.row))
  {
    Exec1(rates, s, Begin(j));
  }

  lemma PhaseOpens(rates: Rates, s: Sys, j: nat, p: Phase)
    requires IsAt(s, j, Between(p)) && s.row.status == ExpectedStatus(p)
    ensures Step(rates, s, Begin(j)) == Some(SetPc(s, j, Inside(p, s.row.status)))
  {
  }

  /** Only the last position given to a job counts. */
  lemma SetTwice(s: Sys, j: nat, a: Pc, b: Pc)
    requires j < |s.jobs|
    ensures SetPc(SetPc(s, j, a), j, b) == SetPc(s, j, b)
  {
  }

  lemma PhaseFinishes(rates: Rates, s: Sys, j: nat, p: Phase, o: Outcomes)
    requires j < |s.jobs| && s.jobs[j].pc == Inside(p, s.row.status) && s.row.status == ExpectedStatus(p)
    requires PhaseFlow(p, s.row, rates, o).Proceed?
    ensures Step(rates, s, FinishAction(p, j, o)) ==
            Some(SetPc(s, j, AfterPhase(p)).(row := PhaseFlow(p, s.row, rates, o).row))
  {
  }

  lemma PhaseProceeds(rates: Rates, s: Sys, j: nat, p: Phase, o: Outcomes)
    requires IsAt(s, j, Between(p)) && s.row.status == ExpectedStatus(p)
    requires PhaseFlow(p, s.row, rates, o).Proceed?
    ensures Exec(rates, s, [Begin(j), FinishAction(p, j, o)]) ==
            Some(SetPc(s, j, AfterPhase(p)).(row := PhaseFlow(p, s.row, rates, o).row))
  {
    PhaseOpens(rates, s, j, p);
    var open := SetPc(s, j, Inside(p, s.row.status));
    Exec2(rates, s, Begin(j), FinishAction(p, j, o));
    PhaseFinishes(rates, open, j, p, o);
    SetTwice(s, j, Inside(p, s.row.status), AfterPhase(p));
  }

  lemma PhaseCaught(rates: Rates, s: Sys, j: nat, p: Phase)
    requires IsAt(s, j, Between(p)) && s.row.status == ExpectedStatus(p)
    ensures Exec(rates, s, [Begin(j), Raise(j, true), MarkOwnFailure(j)]) ==
            Some(SetPc(s, j, Leaving(false)).(row := MarkFailed(s.row)))
  {
    PhaseOpens(rates, s, j, p);
    var open := SetPc(s, j, Inside(p, s.row.status));
    assert Step(rates, open, Raise(j, true)) == Some(SetPc(open, j, Marking));
    Exec3(rates, s, Begin(j), Raise(j, true), MarkOwnFailure(j));
    SetTwice(s, j, Inside(p, s.row.status), Marking);
    SetTwice(s, j, Marking, Leaving(false));
  }

  lemma PhasePropagates(rates: Rates, s: Sys, j: nat, p: Phase)
    requires IsAt(s, j, Between(p)) && s.row.status == ExpectedStatus(p)
    ensures Exec(rates, s, [Begin(j), Raise(j, false)]) == Some(SetPc(s, j, Leaving(true)).(row := s.row))
  {
    PhaseOpens(rates, s, j, p);
    Exec2(rates, s, Begin(j), Raise(j, false));
    SetTwice(s, j, Inside(p, s.row.status), Leaving(true));
  }

  lemma FailedFlowKeepsRow(p: Phase, row: RunRow, rates: Rates, o: Outcomes)
    ensures PhaseFlow(p, row, rates, o).Proceed? || PhaseFlow(p, row, rates, o).row == row
  {
  }

  lemma PhaseIsTrace(rates: Rates, s: Sys, j: nat, p: Phase, o: Outcomes)
    requires IsAt(s, j, Between(p))
    ensures Exec(rates, s, PhaseActions(p, j, s.row, rates, o)) ==
            Some(AfterFlow(s, j, p, PhaseFlow(p, s.row, rates, o)))
  {
    if s.row.status != ExpectedStatus(p) {
      PhaseSkipped(rates, s, j, p);
    } else {
      FailedFlowKeepsRow(p, s.row, rates, o);
      match PhaseFlow(p, s.row, rates, o)
      case Proceed(_) => PhaseProceeds(rates, s, j, p, o);
      case ValueErrorCaught(_) => PhaseCaught(rates, s, j, p);
      case Propagates(_) => PhasePropagates(rates, s, j, p);
    }
  }

  lemma PhasesAreTrace(rates: Rates, s: Sys, j: nat, p: Phase, o: Outcomes)
    requires IsAt(s, j, Between(p))
    ensures var r := PhasesFrom(p, s.row, rates, o);
            Exec(rates, s, ActionsFrom(p, j, s.row, rates, o)) ==
            Some(SetPc(s, j, Leaving(r.1)).(row := r.0))
    decreases PhasesLeft(p)
  {
    var flow := PhaseFlow(p, s.row, rates, o);
    var mid := AfterFlow(s, j, p, flow);
    var r := PhasesFrom(p, s.row, rates, o);
    PhaseIsTrace(rates, s, j, p, o);
    var head := PhaseActions(p, j, s.row, rates, o);
    if flow.Proceed? && !p.JudgePhase? {
      var q := AfterPhase(p).next;
      PhasesAreTrace(rates, mid, j, q, o);
      ExecConcat(rates, s, head, ActionsFrom(q, j, flow.row, rates, o));
      assert SetPc(mid, j, Leaving(r.1)).jobs == SetPc(s, j, Leaving(r.1)).jobs;
    } else {
      assert head + [] == head;
    }
  }

  /** The job after its attempt: done, retried, or out of retries. */
  function JobAfter(job: Job, raised: bool): Job {
    var tried := job.(attempts := job.attempts + 1);
    if raised then Retried(tried) else tried.(pc := Finished)
  }

  lemma BodyIsTrace(rates: Rates, s: Sys, j: nat, o: Outcomes)
    requires IsAt(s, j, if s.row.status in {Completed, Failed} then Leaving(false) else Between(RetrievalPhase))
    ensures var r := Pipeline(s.row, rates, o);
            Exec(rates, s, Body(j, s.row, rates, o)) == Some(SetPc(s, j, Leaving(r.1)).(row := r.0))
  {
    var r := Pipeline(s.row, rates, o);
    if s.row.status in {Completed, Failed} {
      assert SetPc(s, j, Leaving(r.1)).jobs == s.jobs;
    } else {
      PhasesAreTrace(rates, s, j, RetrievalPhase, o);
    }
  }

  /** The job takes the free lock and looks at the status. */
  lemma EntryIsTrace(rates: Rates, s: Sys, j: nat) returns (t: Sys)
    requires IsAt(s, j, Queued) && s.lock.None?
    ensures Exec(rates, s, [Acquire(j), CheckTerminal(j)]) == Some(t)
    ensures t.row == s.row && t.lock == Some(j) && |t.jobs| == |s.jobs|
    ensures forall k :: 0 <= k < |s.jobs| && k != j ==> t.jobs[k] == s.jobs[k]
    ensures t.jobs[j] == s.jobs[j].(attempts := s.jobs[j].attempts + 1,
                                    pc := if s.row.status in {Completed, Failed} then Leaving(false)
                                          else Between(RetrievalPhase))
  {
    t := Step(rates, Step(rates, s, Acquire(j)).value, CheckTerminal(j)).value;
    Exec2(rates, s, Acquire(j), CheckTerminal(j));
  }

  lemma ReleaseIsStep(rates: Rates, s: Sys, j: nat, raised: bool)
    requires IsAt(s, j, Leaving(raised))
    ensures var job := s.jobs[j];
            Exec(rates, s, [Release(j)]) ==
            Some(s.(lock := None, jobs := s.jobs[j := if raised then Retried(job) else job.(pc := Finished)]))
  {
    Exec1(rates, s, Release(j));
  }

  /** Running an attempt by itself, from a free lock, is one execution of the protocol: it
      leaves the row the pipeline leaves, a free lock and an updated job. */
  lemma AttemptIsTrace(rates: Rates, s: Sys, j: nat, o: Outcomes)
    requires IsAt(s, j, Queued) && s.lock.None?
    ensures var r := Pipeline(s.row, rates, o);
            Exec(rates, s, AttemptActions(j, s.row, rates, o)) ==
            Some(Sys(r.0, None, s.jobs[j := JobAfter(s.jobs[j], r.1)]))
  {
    var r := Pipeline(s.row, rates, o);
    var body := Body(j, s.row, rates, o);
    var entered := EntryIsTrace(rates, s, j);
    BodyIsTrace(rates, entered, j, o);
    var left := SetPc(entered, j, Leaving(r.1)).(row := r.0);
    ReleaseIsStep(rates, left, j, r.1);
    ExecConcat(rates, s, [Acquire(j), CheckTerminal(j)], body);
    ExecConcat(rates, s, [Acquire(j), CheckTerminal(j)] + body, [Release(j)]);
    var job := left.jobs[j];
    assert left.jobs[j := if r.1 then Retried(job) else job.(pc := Finished)] == s.jobs[j := JobAfter(s.jobs[j], r.1)];
  }
}
