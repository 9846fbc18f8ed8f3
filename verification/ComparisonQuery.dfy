/** The comparison query over the stored tables: in-scope runs, evaluations aggregated per run, a left
    join of the two, and one group per pipeline config. */
module ComparisonQuery {
  import opened Basics
  import opened Lists

  // ----- Tables ----------------------------------------------------------------------------------------

  datatype Latency = Latency(retrieval: Option<real>, evaluation: Option<real>, total: Option<real>)

  datatype Run = Run(id: int, config: int, queryCase: int, realism: bool, latency: Latency)

  /** The averaged columns; a null is left out of an average. */
  datatype Scores = Scores(groundedness: Option<real>, faithfulness: Option<real>, completeness: Option<real>,
                           relevance: Option<real>, coverage: Option<real>, cost: Option<real>)

  const NO_SCORES := Scores(None, None, None, None, None, None)

  datatype EvaluationRow = EvaluationRow(runId: int, scores: Scores, usedJudge: bool, evaluatorType: Option<string>,
                                         failure: Option<string>)

  /** The aggregates over the values that are not null which are left to the database engine, and the
      rounding for display. */
  datatype Engine = Engine(percentile95: seq<real> -> Option<real>, deviation: seq<real> -> Option<real>,
                           shown: real -> real)

  /** `retrieved` lists the run of every retrieval row, `datasetOf` the dataset of every query case. */
  datatype Database = Database(runs: seq<Run>, retrieved: seq<int>, evaluations: seq<EvaluationRow>,
                               datasetOf: map<int, int>, engine: Engine)

  datatype Scope = Scope(configs: seq<int>, dataset: Option<int>, includeRealism: bool)

  datatype Bucket = HeuristicBucket | LlmBucket

  // ----- Evaluator buckets ----------------------------------------------------------------------------

  /** A comparison with a null is neither true nor false. */
  datatype Truth = True | False | Unknown {
    function Or(other: Truth): Truth {
      if this == True || other == True then True
      else if this == Unknown || other == Unknown then Unknown
      else False
    }

    function Not(): Truth {
      match this
      case True => False
      case False => True
      case Unknown => Unknown
    }
  }

  function EqualsLlm(evaluatorType: Option<string>): Truth {
    match evaluatorType
    case None => Unknown
    case Some(t) => if t == "llm" then True else False
  }

  function IsLlm(e: EvaluationRow): Truth {
    (if e.usedJudge then True else False).Or(EqualsLlm(e.evaluatorType))
  }

  /** The bucket filter of a `WHERE` clause, which keeps a row only when the condition is true. */
  predicate InBucket(e: EvaluationRow, bucket: Bucket) {
    (if bucket == LlmBucket then IsLlm(e) else IsLlm(e).Not()) == True
  }

  /** The bucket the Python mirror of the filter reports. */
  function ResolvedBucket(e: EvaluationRow): Bucket {
    if e.usedJudge || e.evaluatorType == Some("llm") then LlmBucket else HeuristicBucket
  }

  /** The two filters never overlap, but a row without an evaluator type that did not use the judge
      is in neither: only the other rows are counted in the bucket the mirror reports. */
  lemma BucketsCoverIff(e: EvaluationRow)
    ensures !(InBucket(e, LlmBucket) && InBucket(e, HeuristicBucket))
    ensures InBucket(e, ResolvedBucket(e)) <==> e.usedJudge || e.evaluatorType.Some?
    ensures InBucket(e, LlmBucket) || InBucket(e, HeuristicBucket) <==> e.usedJudge || e.evaluatorType.Some?
  {
  }

  /** A legacy row belongs to the heuristic bucket, yet its filter drops it. */
  lemma LegacyRowIsDropped()
    ensures var e := EvaluationRow(1, NO_SCORES, false, None, None);
            ResolvedBucket(e) == HeuristicBucket && !InBucket(e, HeuristicBucket)
  {
  }

  // ----- The query -----------------------------------------------------------------------------------

  predicate InScope(db: Database, scope: Scope, r: Run) {
    && r.config in scope.configs
    && r.queryCase in db.datasetOf
    && r.id in db.retrieved
    && (scope.includeRealism || !r.realism)
    && (scope.dataset.Some? ==> db.datasetOf[r.queryCase] == scope.dataset.value)
  }

  function RunBase(db: Database, scope: Scope): seq<Run> {
    Select(db.runs, r => InScope(db, scope, r))
  }

  predicate EvaluationInScope(db: Database, scope: Scope, e: EvaluationRow) {
    exists r :: r in db.runs && r.id == e.runId && InScope(db, scope, r)
  }

  function EvaluationsIn(db: Database, scope: Scope, bucket: Bucket): seq<EvaluationRow> {
    Select(db.evaluations, e => EvaluationInScope(db, scope, e) && InBucket(e, bucket))
  }

  /** `AVG`: nulls do not count, and an average of nothing is null. */
  function Known(values: seq<Option<real>>): seq<real> {
    if values == [] then []
    else (if values[0].Some? then [values[0].value] else []) + Known(values[1..])
  }

  function Sum(xs: seq<real>): real {
    if xs == [] then 0.0 else xs[0] + Sum(xs[1..])
  }

  function Average(values: seq<Option<real>>): Option<real> {
    var known := Known(values);
    if known == [] then None else Some(Sum(known) / |known| as real)
  }

  function Column(rows: seq<Scores>, column: Scores -> Option<real>): seq<Option<real>> {
    seq(|rows|, i requires 0 <= i < |rows| => column(rows[i]))
  }

  function AverageScores(rows: seq<Scores>): Scores {
    Scores(Average(Column(rows, (s: Scores) => s.groundedness)), Average(Column(rows, (s: Scores) => s.faithfulness)),
           Average(Column(rows, (s: Scores) => s.completeness)), Average(Column(rows, (s: Scores) => s.relevance)),
           Average(Column(rows, (s: Scores) => s.coverage)), Average(Column(rows, (s: Scores) => s.cost)))
  }

  /** One row per run. */
  datatype EvalAgg = EvalAgg(runId: int, scores: Scores)

  function ScoresOfRun(evaluations: seq<EvaluationRow>, runId: int): seq<Scores> {
    var rows := Select(evaluations, (e: EvaluationRow) => e.runId == runId);
    seq(|rows|, i requires 0 <= i < |rows| => rows[i].scores)
  }

  function RunIds(evaluations: seq<EvaluationRow>): seq<int> {
    seq(|evaluations|, i requires 0 <= i < |evaluations| => evaluations[i].runId)
  }

  function AggregateFor(evaluations: seq<EvaluationRow>, ids: seq<int>): seq<EvalAgg> {
    seq(|ids|, i requires 0 <= i < |ids| => EvalAgg(ids[i], AverageScores(ScoresOfRun(evaluations, ids[i]))))
  }

  function AggregateEvaluations(evaluations: seq<EvaluationRow>): seq<EvalAgg> {
    AggregateFor(evaluations, Dedup(RunIds(evaluations)))
  }

  function SameRun(): (Run, EvalAgg) -> bool {
    (r: Run, a: EvalAgg) => a.runId == r.id
  }

  type Joined = (Run, Option<EvalAgg>)

  function JoinedRows(db: Database, scope: Scope, bucket: Bucket): seq<Joined> {
    LeftJoin(RunBase(db, scope), AggregateEvaluations(EvaluationsIn(db, scope, bucket)), SameRun())
  }

  /** The aggregated columns. Faithfulness, completeness, relevance and coverage have a deviation, and so
      have the retrieval and total latencies. */
  datatype Measures = Measures(averages: Scores, average: Latency, percentile95: Latency,
                               scoreDeviations: Scores, latencyDeviations: Latency)

  const NO_LATENCY := Latency(None, None, None)
  const NO_MEASURES := Measures(NO_SCORES, NO_LATENCY, NO_LATENCY, NO_SCORES, NO_LATENCY)

  datatype MainRow = MainRow(tracedRuns: nat, uniqueQueries: nat, measures: Measures)

  function RunColumn(rows: seq<Joined>, column: Latency -> Option<real>): seq<Option<real>> {
    seq(|rows|, i requires 0 <= i < |rows| => column(rows[i].0.latency))
  }

  function LatencyBy(rows: seq<Joined>, aggregate: seq<Option<real>> -> Option<real>): Latency {
    Latency(aggregate(RunColumn(rows, (l: Latency) => l.retrieval)),
            aggregate(RunColumn(rows, (l: Latency) => l.evaluation)),
            aggregate(RunColumn(rows, (l: Latency) => l.total)))
  }

  function DeviationScores(engine: Engine, rows: seq<Scores>): Scores {
    Scores(None, engine.deviation(Known(Column(rows, (s: Scores) => s.faithfulness))),
           engine.deviation(Known(Column(rows, (s: Scores) => s.completeness))),
           engine.deviation(Known(Column(rows, (s: Scores) => s.relevance))),
           engine.deviation(Known(Column(rows, (s: Scores) => s.coverage))), None)
  }

  function MeasuresOf(engine: Engine, rows: seq<Joined>): Measures {
    Measures(AverageScores(JoinedScores(rows)), LatencyBy(rows, Average),
             LatencyBy(rows, values => engine.percentile95(Known(values))),
             DeviationScores(engine, JoinedScores(rows)),
             LatencyBy(rows, values => engine.deviation(Known(values))).(evaluation := None))
  }

  function OfConfig(config: int): Joined -> bool {
    (j: Joined) => j.0.config == config
  }

  function JoinedScores(rows: seq<Joined>): seq<Scores> {
    seq(|rows|, i requires 0 <= i < |rows| => if rows[i].1.Some? then rows[i].1.value.scores else NO_SCORES)
  }

  function GroupRow(engine: Engine, rows: seq<Joined>): MainRow {
    MainRow(|rows|, |set j | j in rows :: j.0.queryCase|, MeasuresOf(engine, rows))
  }

  /** The result of the whole query, one row per config that has any joined row. */
  function QueryMain(db: Database, scope: Scope, bucket: Bucket): map<int, MainRow> {
    var joined := JoinedRows(db, scope, bucket);
    map config | config in (set j | j in joined :: j.0.config) :: GroupRow(db.engine, Select(joined, OfConfig(config)))
  }

  // ----- Failure counts --------------------------------------------------------------------------------

  /** `COALESCE(NULLIF(BTRIM(failure_type), ''), 'UNKNOWN')`, which trims spaces only. */
  function TrimLeft(s: string): string {
    if s != "" && s[0] == ' ' then TrimLeft(s[1..]) else s
  }

  function TrimRight(s: string): string {
    if s != "" && s[|s| - 1] == ' ' then TrimRight(s[..|s| - 1]) else s
  }

  function FailureName(e: EvaluationRow): string {
    var name := TrimRight(TrimLeft(e.failure.GetOr("")));
    if name == "" then "UNKNOWN" else name
  }

  /** One row for each evaluation of each run. */
  function FailureRows(runs: seq<Run>, evaluations: seq<EvaluationRow>): seq<(int, string)> {
    if runs == [] then []
    else
      var own := Select(evaluations, (e: EvaluationRow) => e.runId == runs[0].id);
      seq(|own|, i requires 0 <= i < |own| => (runs[0].config, FailureName(own[i]))) +
          FailureRows(runs[1..], evaluations)
  }

  function NamesOf(rows: seq<(int, string)>, config: int): set<string> {
    set row | row in rows && row.0 == config :: row.1
  }

  function FailureCounts(rows: seq<(int, string)>, config: int): map<string, nat> {
    map name | name in NamesOf(rows, config) :: multiset(rows)[(config, name)]
  }

  function QueryFailures(db: Database, scope: Scope, bucket: Bucket): map<int, map<string, nat>> {
    var rows := FailureRows(RunBase(db, scope), Select(db.evaluations, e => InBucket(e, bucket)));
    map config | config in (set row | row in rows :: row.0) :: FailureCounts(rows, config)
  }

  // ----- What the query counts -------------------------------------------------------------------------

  /** The runs the query is about, whatever their evaluations. */
  function RunsOf(db: Database, scope: Scope, config: int): seq<Run> {
    Select(RunBase(db, scope), (r: Run) => r.config == config)
  }

  function QueriesOf(runs: seq<Run>): set<int> {
    set r | r in runs :: r.queryCase
  }

  function Expected(evaluations: seq<EvaluationRow>, r: Run): Option<EvalAgg> {
    if r.id in RunIds(evaluations) then Some(EvalAgg(r.id, AverageScores(ScoresOfRun(evaluations, r.id)))) else None
  }

  function JoinedOnce(evaluations: seq<EvaluationRow>, runs: seq<Run>): seq<Joined> {
    seq(|runs|, i requires 0 <= i < |runs| => (runs[i], Expected(evaluations, runs[i])))
  }

  lemma {:induction false} OneMatch(evaluations: seq<EvaluationRow>, ids: seq<int>, r: Run)
    requires Distinct(ids)
    ensures Matches(r, AggregateFor(evaluations, ids), SameRun()) ==
            if r.id in ids then [EvalAgg(r.id, AverageScores(ScoresOfRun(evaluations, r.id)))] else []
    decreases |ids|
  {
    if ids != [] {
      OneMatch(evaluations, ids[1..], r);
      assert AggregateFor(evaluations, ids)[1..] == AggregateFor(evaluations, ids[1..]);
      if r.id == ids[0] {
        assert r.id !in ids[1..];
      }
    }
  }

  lemma JoinOne(evaluations: seq<EvaluationRow>, r: Run)
    ensures Paired(r, Matches(r, AggregateEvaluations(evaluations), SameRun())) == [(r, Expected(evaluations, r))]
  {
    DedupMeans(RunIds(evaluations));
    OneMatch(evaluations, Dedup(RunIds(evaluations)), r);
  }

  /** Because evaluations are aggregated first, the join has one row per run: with the averages over
      all of the run's evaluations if it has any. */
  lemma {:induction false} JoinIsPerRun(evaluations: seq<EvaluationRow>, runs: seq<Run>)
    ensures LeftJoin(runs, AggregateEvaluations(evaluations), SameRun()) == JoinedOnce(evaluations, runs)
    decreases |runs|
  {
    if runs != [] {
      JoinIsPerRun(evaluations, runs[1..]);
      JoinOne(evaluations, runs[0]);
      JoinedOnceHead(evaluations, runs);
    }
  }

  lemma JoinedOnceHead(evaluations: seq<EvaluationRow>, runs: seq<Run>)
    requires runs != []
    ensures JoinedOnce(evaluations, runs) ==
            [(runs[0], Expected(evaluations, runs[0]))] + JoinedOnce(evaluations, runs[1..])
  {
  }

  lemma {:induction false} GroupOfJoin(evaluations: seq<EvaluationRow>, runs: seq<Run>, config: int)
    ensures Select(JoinedOnce(evaluations, runs), OfConfig(config)) ==
            JoinedOnce(evaluations, Select(runs, (r: Run) => r.config == config))
    decreases |runs|
  {
    if runs != [] {
      var rest := Select(runs[1..], (r: Run) => r.config == config);
      GroupOfJoin(evaluations, runs[1..], config);
      assert JoinedOnce(evaluations, runs)[1..] == JoinedOnce(evaluations, runs[1..]);
      assert JoinedOnce(evaluations, [runs[0]] + rest) ==
             [(runs[0], Expected(evaluations, runs[0]))] + JoinedOnce(evaluations, rest);
    }
  }

  lemma QueriesOfJoin(evaluations: seq<EvaluationRow>, runs: seq<Run>)
    ensures (set j | j in JoinedOnce(evaluations, runs) :: j.0.queryCase) == QueriesOf(runs)
  {
    var joined := JoinedOnce(evaluations, runs);
    forall q | q in QueriesOf(runs)
      ensures q in (set j | j in joined :: j.0.queryCase)
    {
      var r :| r in runs && r.queryCase == q;
      var i :| 0 <= i < |runs| && runs[i] == r;
      assert joined[i] in joined;
    }
  }

  /** One config's row of the query: plain counts over its in-scope runs with a retrieval row, and
      aggregates in which every run counts once. */
  lemma QueryMainCounts(db: Database, scope: Scope, bucket: Bucket, config: int)
    ensures var runs, main := RunsOf(db, scope, config), QueryMain(db, scope, bucket);
            && (config in main <==> runs != [])
            && (config in main ==>
                  && main[config].tracedRuns == |runs|
                  && main[config].uniqueQueries == |QueriesOf(runs)|
                  && main[config].measures == MeasuresOf(db.engine, JoinedOnce(EvaluationsIn(db, scope, bucket), runs)))
  {
    var evaluations, runs := EvaluationsIn(db, scope, bucket), RunsOf(db, scope, config);
    var joined := JoinedRows(db, scope, bucket);
    JoinIsPerRun(evaluations, RunBase(db, scope));
    GroupOfJoin(evaluations, RunBase(db, scope), config);
    QueriesOfJoin(evaluations, runs);
    var group := Select(joined, OfConfig(config));
    assert |group| == |runs|;
    assert config in QueryMain(db, scope, bucket) <==> group != [] by {
      if group != [] {
        SelectMembers(joined, OfConfig(config), group[0]);
        assert group[0] in joined;
      }
      if config in QueryMain(db, scope, bucket) {
        var j :| j in joined && j.0.config == config;
        SelectMembers(joined, OfConfig(config), j);
        assert j in group;
      }
    }
  }
}
