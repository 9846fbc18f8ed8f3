/** What the reported numbers of a comparison say about the stored rows, column by column. */
module ComparisonMeaning {
  import opened Basics
  import opened Lists
  import opened ComparisonQuery
  import opened ConfigComparison

  // ----- Which runs count ------------------------------------------------------------------------------

  /** A run counts for a config when the config was asked for, its query case exists and lies in the dataset,
      if one is given, and it has a retrieval row. Runs made for benchmark realism count when they are asked
      for, or whenever a dataset is given. */
  lemma RunsOfMeans(db: Database, ids: seq<int>, dataset: Option<int>, includeRealism: bool, config: int, r: Run)
    ensures r in RunsOf(db, ScopeFor(ids, dataset, includeRealism), config) <==>
              && r in db.runs && r.config == config && config in ids
              && r.id in db.retrieved && r.queryCase in db.datasetOf
              && (dataset.Some? ==> db.datasetOf[r.queryCase] == dataset.value)
              && (dataset.None? && !includeRealism ==> !r.realism)
  {
    var scope := ScopeFor(ids, dataset, includeRealism);
    DedupMeans(ids);
    SelectMembers(db.runs, r => InScope(db, scope, r), r);
    SelectMembers(RunBase(db, scope), (r: Run) => r.config == config, r);
  }

  // ----- One run, one evaluation -------------------------------------------------------------------------

  lemma AverageOfOne(values: seq<Option<real>>, value: Option<real>)
    requires values == [value]
    ensures Average(values) == value
  {
    assert values[0] == value && values[1..] == [] && Known(values[1..]) == [];
    if value.Some? {
      var known := Known(values);
      assert known == [value.value] + [] == [value.value] && known[1..] == [];
      assert Sum(known) == value.value + 0.0;
      assert value.value / 1.0 == value.value;
    } else {
      assert Known(values) == [] + [];
    }
  }

  lemma AverageScoresOfOne(s: Scores)
    ensures AverageScores([s]) == s
  {
    AverageOfOne(Column([s], (t: Scores) => t.groundedness), s.groundedness);
    AverageOfOne(Column([s], (t: Scores) => t.faithfulness), s.faithfulness);
    AverageOfOne(Column([s], (t: Scores) => t.completeness), s.completeness);
    AverageOfOne(Column([s], (t: Scores) => t.relevance), s.relevance);
    AverageOfOne(Column([s], (t: Scores) => t.coverage), s.coverage);
    AverageOfOne(Column([s], (t: Scores) => t.cost), s.cost);
  }

  lemma LatencyOfOne(j: Joined)
    ensures LatencyBy([j], Average) == j.0.latency
  {
    AverageOfOne(RunColumn([j], (l: Latency) => l.retrieval), j.0.latency.retrieval);
    AverageOfOne(RunColumn([j], (l: Latency) => l.evaluation), j.0.latency.evaluation);
    AverageOfOne(RunColumn([j], (l: Latency) => l.total), j.0.latency.total);
  }

  lemma JoinedAlone(evaluations: seq<EvaluationRow>, r: Run, e: EvaluationRow)
    requires Select(evaluations, (x: EvaluationRow) => x.runId == r.id) == [e]
    ensures JoinedOnce(evaluations, [r]) == [(r, Some(EvalAgg(r.id, e.scores)))]
  {
    SelectMembers(evaluations, (x: EvaluationRow) => x.runId == r.id, e);
    var i :| 0 <= i < |evaluations| && evaluations[i] == e;
    assert RunIds(evaluations)[i] == r.id;
    assert ScoresOfRun(evaluations, r.id) == [e.scores];
    AverageScoresOfOne(e.scores);
  }

  /** The measures of a config with one run that has one evaluation in the bucket. */
  ghost predicate ReportsRun(engine: Engine, m: Measures, r: Run, s: Scores) {
    && m.averages.groundedness == Shown(engine, s.groundedness)
    && m.averages.faithfulness == Shown(engine, s.faithfulness)
    && m.averages.completeness == Shown(engine, s.completeness)
    && m.averages.relevance == Shown(engine, s.relevance)
    && m.averages.coverage == Shown(engine, s.coverage)
    && m.averages.cost == Shown(engine, s.cost)
    && m.average.retrieval == Shown(engine, r.latency.retrieval)
    && m.average.evaluation == Shown(engine, r.latency.evaluation)
    && m.average.total == Shown(engine, r.latency.total)
    && m.percentile95.retrieval == Shown(engine, engine.percentile95(Given(r.latency.retrieval)))
    && m.percentile95.evaluation == Shown(engine, engine.percentile95(Given(r.latency.evaluation)))
    && m.percentile95.total == Shown(engine, engine.percentile95(Given(r.latency.total)))
    && m.scoreDeviations.faithfulness == Shown(engine, engine.deviation(Given(s.faithfulness)))
    && m.scoreDeviations.completeness == Shown(engine, engine.deviation(Given(s.completeness)))
    && m.scoreDeviations.relevance == Shown(engine, engine.deviation(Given(s.relevance)))
    && m.scoreDeviations.coverage == Shown(engine, engine.deviation(Given(s.coverage)))
    && m.latencyDeviations.retrieval == Shown(engine, engine.deviation(Given(r.latency.retrieval)))
    && m.latencyDeviations.total == Shown(engine, engine.deviation(Given(r.latency.total)))
  }

  /** The values of one column over one row. */
  function Given(value: Option<real>): seq<real> {
    if value.Some? then [value.value] else []
  }

  lemma KnownOfOne(values: seq<Option<real>>, value: Option<real>)
    requires values == [value]
    ensures Known(values) == Given(value)
  {
    assert values[0] == value && values[1..] == [] && Known(values[1..]) == [];
    assert Given(value) + [] == Given(value);
  }

  lemma KnownLatency(j: Joined)
    ensures Known(RunColumn([j], (l: Latency) => l.retrieval)) == Given(j.0.latency.retrieval)
    ensures Known(RunColumn([j], (l: Latency) => l.evaluation)) == Given(j.0.latency.evaluation)
    ensures Known(RunColumn([j], (l: Latency) => l.total)) == Given(j.0.latency.total)
  {
    KnownOfOne(RunColumn([j], (l: Latency) => l.retrieval), j.0.latency.retrieval);
    KnownOfOne(RunColumn([j], (l: Latency) => l.evaluation), j.0.latency.evaluation);
    KnownOfOne(RunColumn([j], (l: Latency) => l.total), j.0.latency.total);
  }

  lemma KnownScores(s: Scores)
    ensures Known(Column([s], (t: Scores) => t.faithfulness)) == Given(s.faithfulness)
    ensures Known(Column([s], (t: Scores) => t.completeness)) == Given(s.completeness)
    ensures Known(Column([s], (t: Scores) => t.relevance)) == Given(s.relevance)
    ensures Known(Column([s], (t: Scores) => t.coverage)) == Given(s.coverage)
  {
    KnownOfOne(Column([s], (t: Scores) => t.faithfulness), s.faithfulness);
    KnownOfOne(Column([s], (t: Scores) => t.completeness), s.completeness);
    KnownOfOne(Column([s], (t: Scores) => t.relevance), s.relevance);
    KnownOfOne(Column([s], (t: Scores) => t.coverage), s.coverage);
  }

  lemma MeasuresOfOne(engine: Engine, r: Run, s: Scores)
    ensures ReportsRun(engine, ShownMeasures(engine, MeasuresOf(engine, [(r, Some(EvalAgg(r.id, s)))])), r, s)
  {
    var rows := [(r, Some(EvalAgg(r.id, s)))];
    assert JoinedScores(rows) == [s];
    AverageScoresOfOne(s);
    LatencyOfOne(rows[0]);
    KnownLatency(rows[0]);
    KnownScores(s);
  }

  lemma MainRowOf(db: Database, scope: Scope, bucket: Bucket, config: int, runs: seq<Run>, rows: seq<Joined>)
    requires runs == RunsOf(db, scope, config) && runs != []
    requires rows == JoinedOnce(EvaluationsIn(db, scope, bucket), runs)
    ensures var main := QueryMain(db, scope, bucket);
            config in main && main[config] == MainRow(|runs|, |QueriesOf(runs)|, MeasuresOf(db.engine, rows))
  {
    QueryMainCounts(db, scope, bucket, config);
  }

  lemma OneQuery(r: Run)
    ensures |QueriesOf([r])| == 1
  {
    assert QueriesOf([r]) == {r.queryCase};
  }

  lemma MainOfOne(db: Database, scope: Scope, bucket: Bucket, config: int, r: Run, e: EvaluationRow, rows: seq<Joined>)
    requires RunsOf(db, scope, config) == [r] && rows == [(r, Some(EvalAgg(r.id, e.scores)))]
    requires Select(EvaluationsIn(db, scope, bucket), (x: EvaluationRow) => x.runId == r.id) == [e]
    ensures MetricsOf(db, scope, bucket, config).tracedRuns == MetricsOf(db, scope, bucket, config).uniqueQueries == 1
    ensures MetricsOf(db, scope, bucket, config).measures == ShownMeasures(db.engine, MeasuresOf(db.engine, rows))
  {
    JoinedAlone(EvaluationsIn(db, scope, bucket), r, e);
    MainRowOf(db, scope, bucket, config, [r], rows);
    OneQuery(r);
  }

  /** A config with one counted run, and one evaluation of it in the bucket, is reported with that run's
      latencies and that evaluation's scores, every number under its own name. */
  lemma OneRunReportsItself(db: Database, scope: Scope, bucket: Bucket, config: int, r: Run, e: EvaluationRow)
    requires RunsOf(db, scope, config) == [r]
    requires Select(EvaluationsIn(db, scope, bucket), (x: EvaluationRow) => x.runId == r.id) == [e]
    ensures var m := MetricsOf(db, scope, bucket, config);
            m.config == config && m.tracedRuns == 1 && m.uniqueQueries == 1
            && ReportsRun(db.engine, m.measures, r, e.scores)
  {
    MainOfOne(db, scope, bucket, config, r, e, [(r, Some(EvalAgg(r.id, e.scores)))]);
    MeasuresOfOne(db.engine, r, e.scores);
  }

  // ----- Failure counts -----------------------------------------------------------------------------------

  /** The pairs of a run of the config and an evaluation of it with the failure name. */
  function PairsWith(runs: seq<Run>, evaluations: seq<EvaluationRow>, config: int, name: string): nat {
    if runs == [] then 0
    else
      (if runs[0].config == config then CountNamed(evaluations, runs[0].id, name) else 0)
      + PairsWith(runs[1..], evaluations, config, name)
  }

  function CountNamed(evaluations: seq<EvaluationRow>, runId: int, name: string): nat {
    if evaluations == [] then 0
    else
      (if evaluations[0].runId == runId && FailureName(evaluations[0]) == name then 1 else 0)
      + CountNamed(evaluations[1..], runId, name)
  }

  function Rows(config: int, own: seq<EvaluationRow>): seq<(int, string)> {
    seq(|own|, i requires 0 <= i < |own| => (config, FailureName(own[i])))
  }

  lemma RowsAdd(config: int, e: EvaluationRow, rest: seq<EvaluationRow>)
    ensures multiset(Rows(config, [e] + rest)) == multiset{(config, FailureName(e))} + multiset(Rows(config, rest))
  {
    assert Rows(config, [e] + rest) == [(config, FailureName(e))] + Rows(config, rest);
  }

  lemma {:induction false} OwnRowsCount(config: int, evaluations: seq<EvaluationRow>, runId: int, other: int,
                                        name: string)
    ensures multiset(Rows(config, Select(evaluations, (e: EvaluationRow) => e.runId == runId)))[(other, name)] ==
            if other == config then CountNamed(evaluations, runId, name) else 0
  {
    if evaluations != [] {
      var own := Select(evaluations, (e: EvaluationRow) => e.runId == runId);
      var rest := Select(evaluations[1..], (e: EvaluationRow) => e.runId == runId);
      OwnRowsCount(config, evaluations[1..], runId, other, name);
      if evaluations[0].runId == runId {
        assert own == [evaluations[0]] + rest;
        RowsAdd(config, evaluations[0], rest);
      } else {
        assert own == [] + rest == rest;
      }
    }
  }

  lemma {:induction false} FailureRowsCount(runs: seq<Run>, evaluations: seq<EvaluationRow>, config: int, name: string)
    ensures multiset(FailureRows(runs, evaluations))[(config, name)] == PairsWith(runs, evaluations, config, name)
  {
    if runs != [] {
      var own := Select(evaluations, (e: EvaluationRow) => e.runId == runs[0].id);
      FailureRowsCount(runs[1..], evaluations, config, name);
      OwnRowsCount(runs[0].config, evaluations, runs[0].id, config, name);
      assert FailureRows(runs, evaluations) == Rows(runs[0].config, own) + FailureRows(runs[1..], evaluations);
    }
  }

  lemma CountsOfRows(rows: seq<(int, string)>, config: int, name: string)
    ensures name in FailureCounts(rows, config) <==> multiset(rows)[(config, name)] > 0
    ensures name in FailureCounts(rows, config) ==> FailureCounts(rows, config)[name] == multiset(rows)[(config, name)]
  {
    if (config, name) in multiset(rows) {
      assert (config, name) in rows;
    }
    if name in NamesOf(rows, config) {
      assert (config, name) in rows && (config, name) in multiset(rows);
    }
  }

  /** The evaluations in the bucket, whatever their runs. */
  function BucketRows(db: Database, bucket: Bucket): seq<EvaluationRow> {
    Select(db.evaluations, e => InBucket(e, bucket))
  }

  lemma FailuresOfConfig(db: Database, scope: Scope, bucket: Bucket, config: int, name: string)
    ensures var rows := FailureRows(RunBase(db, scope), BucketRows(db, bucket));
            var counts := MetricsOf(db, scope, bucket, config).failures;
            && (name in counts <==> name in FailureCounts(rows, config))
            && (name in counts ==> counts[name] == FailureCounts(rows, config)[name])
  {
    var rows := FailureRows(RunBase(db, scope), BucketRows(db, bucket));
    assert QueryFailures(db, scope, bucket) ==
           map c | c in (set row | row in rows :: row.0) :: FailureCounts(rows, c);
    if name in FailureCounts(rows, config) {
      var row :| row in rows && row.0 == config;
    }
  }

  /** A config's failure counts: every name with the number of evaluations of its counted runs in the bucket
      that have it; names that nobody has are not listed. */
  lemma FailureCountsMean(db: Database, scope: Scope, bucket: Bucket, config: int, name: string)
    ensures var counts := MetricsOf(db, scope, bucket, config).failures;
            var pairs := PairsWith(RunBase(db, scope), BucketRows(db, bucket), config, name);
            && (name in counts <==> pairs > 0)
            && (name in counts ==> counts[name] == pairs)
  {
    FailuresOfConfig(db, scope, bucket, config, name);
    CountsOfRows(FailureRows(RunBase(db, scope), BucketRows(db, bucket)), config, name);
    FailureRowsCount(RunBase(db, scope), BucketRows(db, bucket), config, name);
  }
}
