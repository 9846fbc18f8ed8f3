/** Comparing pipeline configs: metrics per config, the integrity check and the confidence fields. */
module ConfigComparison {
  import opened Basics
  import opened Lists
  import opened ComparisonQuery
  import opened ScoreRanking

  datatype Metrics = Metrics(config: int, tracedRuns: nat, uniqueQueries: nat, measures: Measures,
                             failures: map<string, nat>)

  datatype Tier = LOW | MEDIUM | HIGH

  datatype Confidence = Confidence(tier: Tier, reliable: bool, minTracedRuns: nat, effectiveSampleSize: nat)

  datatype Evaluator = Heuristic | Llm | Both

  datatype CompareError =
    | NoConfigs
    | TooManyConfigs
    | DatasetRequired
    | QuerySetsDiffer
    | TooFewRuns(config: int, traced: nat)

  /** The best and worst config by average faithfulness and by average completeness. */
  datatype ScoreSummary = ScoreSummary(bestFaithfulness: Option<int>, worstFaithfulness: Option<int>,
                                       faithfulnessDelta: Option<real>, bestCompleteness: Option<int>,
                                       worstCompleteness: Option<int>, completenessDelta: Option<real>)

  datatype BucketReport = BucketReport(configs: seq<Metrics>, scores: ScoreSummary)

  /** `heuristic` and `llm` report on the buckets that were asked for. */
  datatype Comparison = Comparison(configs: seq<int>, heuristic: Option<BucketReport>, llm: Option<BucketReport>,
                                   confidence: Confidence, dataset: Option<int>, strictApplied: bool,
                                   minEnforced: Option<int>)

  const MAX_CONFIG_IDS := 64
  const RECOMMENDED_MIN_UNIQUE_QUERIES := 10

  // ----- Metrics per config -------------------------------------------------------------------------

  function Shown(engine: Engine, value: Option<real>): Option<real> {
    if value.Some? then Some(engine.shown(value.value)) else None
  }

  function ShownScores(engine: Engine, s: Scores): Scores {
    Scores(Shown(engine, s.groundedness), Shown(engine, s.faithfulness), Shown(engine, s.completeness),
           Shown(engine, s.relevance), Shown(engine, s.coverage), Shown(engine, s.cost))
  }

  function ShownLatency(engine: Engine, l: Latency): Latency {
    Latency(Shown(engine, l.retrieval), Shown(engine, l.evaluation), Shown(engine, l.total))
  }

  function ShownMeasures(engine: Engine, m: Measures): Measures {
    Measures(ShownScores(engine, m.averages), ShownLatency(engine, m.average), ShownLatency(engine, m.percentile95),
             ShownScores(engine, m.scoreDeviations), ShownLatency(engine, m.latencyDeviations))
  }

  /** One entry of the list, read off the two query results. */
  function MetricsEntry(engine: Engine, main: map<int, MainRow>, fails: map<int, map<string, nat>>,
                        config: int): Metrics {
    var failures := if config in fails then fails[config] else map[];
    if config in main then
      Metrics(config, main[config].tracedRuns, main[config].uniqueQueries,
              ShownMeasures(engine, main[config].measures), failures)
    else Metrics(config, 0, 0, NO_MEASURES, failures)
  }

  function MetricsOf(db: Database, scope: Scope, bucket: Bucket, config: int): Metrics {
    MetricsEntry(db.engine, QueryMain(db, scope, bucket), QueryFailures(db, scope, bucket), config)
  }

  function MetricsList(db: Database, scope: Scope, bucket: Bucket, configs: seq<int>): seq<Metrics> {
    seq(|configs|, i requires 0 <= i < |configs| => MetricsOf(db, scope, bucket, configs[i]))
  }

  function Entries(engine: Engine, main: map<int, MainRow>, fails: map<int, map<string, nat>>,
                   configs: seq<int>): seq<Metrics> {
    seq(|configs|, i requires 0 <= i < |configs| => MetricsEntry(engine, main, fails, configs[i]))
  }

  lemma EntriesGrow(engine: Engine, main: map<int, MainRow>, fails: map<int, map<string, nat>>, configs: seq<int>,
                    i: nat)
    requires i < |configs|
    ensures Entries(engine, main, fails, configs[..i + 1]) ==
            Entries(engine, main, fails, configs[..i]) + [MetricsEntry(engine, main, fails, configs[i])]
  {
  }

  /** One entry per requested config, in order: a config without traced runs has zeros and no measures,
      and keeps its failure counts. */
  method BuildMetricsList(engine: Engine, configs: seq<int>, main: map<int, MainRow>, fails: map<int, map<string, nat>>)
      returns (out: seq<Metrics>)
    ensures |out| == |configs|
    ensures forall i :: 0 <= i < |configs| ==>
              var c := configs[i];
              && out[i].config == c
              && out[i].failures == (if c in fails then fails[c] else map[])
              && (c !in main ==> out[i].tracedRuns == out[i].uniqueQueries == 0 && out[i].measures == NO_MEASURES)
              && (c in main ==>
                    && out[i].tracedRuns == main[c].tracedRuns && out[i].uniqueQueries == main[c].uniqueQueries
                    && out[i].measures == ShownMeasures(engine, main[c].measures))
  {
    out := [];
    var i := 0;
    while i < |configs|
      invariant 0 <= i <= |configs|
      invariant out == Entries(engine, main, fails, configs[..i])
    {
      EntriesGrow(engine, main, fails, configs, i);
      out := out + [MetricsEntry(engine, main, fails, configs[i])];
      i := i + 1;
    }
    assert configs[..i] == configs;
  }

  /** Counts do not depend on the bucket, nor on how many evaluation rows a run has. */
  ghost predicate PlainCounts(db: Database, scope: Scope, m: Metrics) {
    var runs := RunsOf(db, scope, m.config);
    m.tracedRuns == |runs| && m.uniqueQueries == |QueriesOf(runs)|
  }

  lemma MetricsArePlain(db: Database, scope: Scope, bucket: Bucket, config: int)
    ensures PlainCounts(db, scope, MetricsOf(db, scope, bucket, config))
    ensures MetricsOf(db, scope, bucket, config).config == config
  {
    QueryMainCounts(db, scope, bucket, config);
    var runs := RunsOf(db, scope, config);
    assert runs == [] ==> QueriesOf(runs) == {};
  }

  lemma ListIsPlain(db: Database, scope: Scope, bucket: Bucket, configs: seq<int>)
    ensures forall i :: 0 <= i < |configs| ==>
              var m := MetricsList(db, scope, bucket, configs)[i];
              m.config == configs[i] && PlainCounts(db, scope, m)
  {
    forall i | 0 <= i < |configs|
      ensures var m := MetricsList(db, scope, bucket, configs)[i];
              m.config == configs[i] && PlainCounts(db, scope, m)
    {
      MetricsArePlain(db, scope, bucket, configs[i]);
    }
  }

  // ----- Query sets -----------------------------------------------------------------------------------

  /** `SELECT DISTINCT` of config and query case; it has no place for the bucket filter. */
  function QueryPairs(db: Database, scope: Scope): seq<(int, int)> {
    var runs := RunBase(db, scope);
    Dedup(seq(|runs|, i requires 0 <= i < |runs| => (runs[i].config, runs[i].queryCase)))
  }

  ghost predicate SetsSoFar(acc: map<int, set<int>>, pairs: seq<(int, int)>, configs: seq<int>) {
    forall c :: c in configs ==> c in acc && forall q :: q in acc[c] <==> (c, q) in pairs
  }

  lemma PairsAreQueries(db: Database, scope: Scope, config: int, q: int)
    ensures (config, q) in QueryPairs(db, scope) <==> q in QueriesOf(RunsOf(db, scope, config))
  {
    var base, runs := RunBase(db, scope), RunsOf(db, scope, config);
    var pairs := seq(|base|, i requires 0 <= i < |base| => (base[i].config, base[i].queryCase));
    DedupMeans(pairs);
    if (config, q) in pairs {
      var i :| 0 <= i < |base| && pairs[i] == (config, q);
      SelectMembers(base, (r: Run) => r.config == config, base[i]);
      assert base[i] in runs;
    }
    if q in QueriesOf(runs) {
      var r :| r in runs && r.queryCase == q;
      SelectMembers(base, (r: Run) => r.config == config, r);
      var i :| 0 <= i < |base| && base[i] == r;
      assert pairs[i] == (config, q);
    }
  }

  method QueryQueryCaseSets(db: Database, scope: Scope) returns (sets: map<int, set<int>>)
    ensures forall c :: c in scope.configs ==> c in sets && sets[c] == QueriesOf(RunsOf(db, scope, c))
  {
    var pairs := QueryPairs(db, scope);
    sets := map c | c in scope.configs :: {};
    var i := 0;
    while i < |pairs|
      invariant 0 <= i <= |pairs|
      invariant SetsSoFar(sets, pairs[..i], scope.configs)
    {
      var (c, q) := pairs[i];
      assert pairs[..i + 1] == pairs[..i] + [(c, q)];
      sets := sets[c := (if c in sets then sets[c] else {}) + {q}];
      i := i + 1;
    }
    assert pairs[..i] == pairs;
    forall c | c in scope.configs
      ensures sets[c] == QueriesOf(RunsOf(db, scope, c))
    {
      forall q
        ensures q in sets[c] <==> q in QueriesOf(RunsOf(db, scope, c))
      {
        PairsAreQueries(db, scope, c, q);
      }
    }
  }

  // ----- The integrity check --------------------------------------------------------------------------

  /** The last metrics row of a config, as a dictionary keyed by config keeps it. */
  function ByConfig(rows: seq<Metrics>, config: int): Option<Metrics> {
    if rows == [] then None
    else if rows[|rows| - 1].config == config then Some(rows[|rows| - 1])
    else ByConfig(rows[..|rows| - 1], config)
  }

  function TracedOf(rows: seq<Metrics>, config: int): nat {
    var m := ByConfig(rows, config);
    if m.Some? then m.value.tracedRuns else 0
  }

  function SetOf(sets: map<int, set<int>>, config: int): set<int> {
    if config in sets then sets[config] else {}
  }

  ghost predicate SameSets(configs: seq<int>, sets: map<int, set<int>>) {
    forall c, d :: c in configs && d in configs ==> SetOf(sets, c) == SetOf(sets, d)
  }

  lemma OneSetIff(configs: seq<int>, sets: map<int, set<int>>)
    ensures |set c | c in configs :: SetOf(sets, c)| <= 1 <==> SameSets(configs, sets)
  {
    var all := set c | c in configs :: SetOf(sets, c);
    if |all| > 1 {
      var x :| x in all;
      assert |all - {x}| > 0;
      var y :| y in all - {x};
    } else {
      forall c, d | c in configs && d in configs
        ensures SetOf(sets, c) == SetOf(sets, d)
      {
        assert SetOf(sets, c) in all && SetOf(sets, d) in all;
        assert {SetOf(sets, c), SetOf(sets, d)} <= all;
        SubsetSize({SetOf(sets, c), SetOf(sets, d)}, all);
      }
    }
  }

  predicate EnoughRuns(rows: seq<Metrics>, configs: seq<int>, least: int) {
    forall i :: 0 <= i < |configs| ==> TracedOf(rows, configs[i]) >= least
  }

  /** The check raises for the first config that is short of runs, unless the query sets differ. */
  method EnforceIntegrity(configs: seq<int>, rows: seq<Metrics>, sets: map<int, set<int>>,
                          minTraced: Option<int>, sameQueries: bool) returns (bad: Option<CompareError>)
    ensures bad == Some(QuerySetsDiffer) <==> sameQueries && !SameSets(configs, sets)
    ensures bad.None? <==> (sameQueries ==> SameSets(configs, sets))
                           && (minTraced.Some? ==> EnoughRuns(rows, configs, minTraced.value))
    ensures bad.Some? && bad.value != QuerySetsDiffer ==>
              exists k :: 0 <= k < |configs| && bad.value == TooFewRuns(configs[k], TracedOf(rows, configs[k]))
                          && TracedOf(rows, configs[k]) < minTraced.GetOr(0)
                          && EnoughRuns(rows, configs[..k], minTraced.GetOr(0))
  {
    if sameQueries && |configs| >= 2 {
      OneSetIff(configs, sets);
      if |set c | c in configs :: SetOf(sets, c)| > 1 {
        return Some(QuerySetsDiffer);
      }
    }
    if minTraced.Some? {
      var i := 0;
      while i < |configs|
        invariant 0 <= i <= |configs|
        invariant EnoughRuns(rows, configs[..i], minTraced.value)
      {
        var traced := TracedOf(rows, configs[i]);
        if traced < minTraced.value {
          return Some(TooFewRuns(configs[i], traced));
        }
        i := i + 1;
      }
      assert configs[..i] == configs;
    }
    bad := None;
  }

  lemma {:induction false} ByConfigFinds(rows: seq<Metrics>, configs: seq<int>, i: nat)
    requires |rows| == |configs| && Distinct(configs) && i < |configs|
    requires forall k :: 0 <= k < |rows| ==> rows[k].config == configs[k]
    ensures ByConfig(rows, configs[i]) == Some(rows[i])
    decreases |rows|
  {
    if i < |rows| - 1 {
      ByConfigFinds(rows[..|rows| - 1], configs[..|rows| - 1], i);
    }
  }

  // ----- Confidence -----------------------------------------------------------------------------------

  function TierOf(sample: nat): Tier {
    if sample < 8 then LOW else if sample < 15 then MEDIUM else HIGH
  }

  function MinOf(values: seq<nat>): nat
    requires values != []
  {
    if |values| == 1 then values[0]
    else
      var front := MinOf(values[..|values| - 1]);
      if values[|values| - 1] < front then values[|values| - 1] else front
  }

  lemma {:induction false} MinMeans(values: seq<nat>)
    requires values != []
    ensures MinOf(values) in values && forall v :: v in values ==> MinOf(values) <= v
  {
    if |values| > 1 {
      MinMeans(values[..|values| - 1]);
      assert forall v :: v in values <==> v in values[..|values| - 1] || v == values[|values| - 1];
    }
  }

  lemma MinOfSame(a: seq<nat>, b: seq<nat>)
    requires a != [] && b != [] && forall v :: v in a <==> v in b
    ensures MinOf(a) == MinOf(b)
  {
    MinMeans(a);
    MinMeans(b);
  }

  function TracedCounts(rows: seq<Metrics>): seq<nat> {
    seq(|rows|, i requires 0 <= i < |rows| => rows[i].tracedRuns)
  }

  function UniqueCounts(rows: seq<Metrics>): seq<nat> {
    seq(|rows|, i requires 0 <= i < |rows| => rows[i].uniqueQueries)
  }

  function ConfidenceOf(rows: seq<Metrics>): Confidence {
    if rows == [] then Confidence(LOW, false, 0, 0)
    else
      var sample := MinOf(UniqueCounts(rows));
      Confidence(TierOf(sample), sample >= RECOMMENDED_MIN_UNIQUE_QUERIES, MinOf(TracedCounts(rows)), sample)
  }

  predicate SameCounts(a: seq<Metrics>, b: seq<Metrics>) {
    |a| == |b| &&
    forall i :: 0 <= i < |a| ==> a[i].tracedRuns == b[i].tracedRuns && a[i].uniqueQueries == b[i].uniqueQueries
  }

  /** The tier and the reliability flag in terms of the configs: low when some config covers fewer than 8
      query cases, high when every config covers at least 15, reliable when every config covers 10. */
  lemma ConfidenceMeans(rows: seq<Metrics>)
    requires rows != []
    ensures var c := ConfidenceOf(rows);
            && (c.tier == LOW <==> exists i :: 0 <= i < |rows| && rows[i].uniqueQueries < 8)
            && (c.tier == HIGH <==> forall i :: 0 <= i < |rows| ==> rows[i].uniqueQueries >= 15)
            && (c.reliable <==> forall i :: 0 <= i < |rows| ==> rows[i].uniqueQueries >= 10)
            && (forall i :: 0 <= i < |rows| ==> rows[i].tracedRuns >= c.minTracedRuns)
  {
    var counts := UniqueCounts(rows);
    MinMeans(counts);
    MinMeans(TracedCounts(rows));
    var least :| 0 <= least < |counts| && counts[least] == MinOf(counts);
    forall i | 0 <= i < |rows|
      ensures MinOf(counts) <= rows[i].uniqueQueries && MinOf(TracedCounts(rows)) <= rows[i].tracedRuns
    {
      assert counts[i] in counts && TracedCounts(rows)[i] in TracedCounts(rows);
    }
    assert rows[least].uniqueQueries == MinOf(counts);
  }

  /** Confidence over both buckets together is the confidence of either. */
  lemma ConfidenceOfBoth(a: seq<Metrics>, b: seq<Metrics>)
    requires SameCounts(a, b) && a != []
    ensures ConfidenceOf(a + b) == ConfidenceOf(a) == ConfidenceOf(b)
  {
    assert UniqueCounts(a) == UniqueCounts(b) && TracedCounts(a) == TracedCounts(b);
    assert UniqueCounts(a + b) == UniqueCounts(a) + UniqueCounts(a);
    assert TracedCounts(a + b) == TracedCounts(a) + TracedCounts(a);
    MinOfSame(UniqueCounts(a + b), UniqueCounts(a));
    MinOfSame(TracedCounts(a + b), TracedCounts(a));
  }

  lemma BucketsCountAlike(db: Database, scope: Scope, configs: seq<int>)
    ensures SameCounts(MetricsList(db, scope, HeuristicBucket, configs), MetricsList(db, scope, LlmBucket, configs))
  {
    ListIsPlain(db, scope, HeuristicBucket, configs);
    ListIsPlain(db, scope, LlmBucket, configs);
    var h, l := MetricsList(db, scope, HeuristicBucket, configs), MetricsList(db, scope, LlmBucket, configs);
    forall i | 0 <= i < |configs|
      ensures h[i].tracedRuns == l[i].tracedRuns && h[i].uniqueQueries == l[i].uniqueQueries
    {
      assert PlainCounts(db, scope, h[i]) && PlainCounts(db, scope, l[i]);
    }
  }

  // ----- Best and worst config ------------------------------------------------------------------------

  function EntriesBy(rows: seq<Metrics>, score: Scores -> Option<real>): seq<Entry> {
    seq(|rows|, i requires 0 <= i < |rows| =>
      Entry(rows[i].config, rows[i].tracedRuns, score(rows[i].measures.averages)))
  }

  function Delta(engine: Engine, r: Option<Ranking>): Option<real> {
    match r
    case None => None
    case Some(Ranking(best, worst)) =>
      if best.score.None? || worst.score.None? then None
      else Shown(engine, DeltaPercent(best.score.value, worst.score.value))
  }

  function BestConfig(r: Option<Ranking>): Option<int> {
    if r.Some? then Some(r.value.best.config) else None
  }

  function WorstConfig(r: Option<Ranking>): Option<int> {
    if r.Some? then Some(r.value.worst.config) else None
  }

  /** `build_config_score_comparison`, with faithfulness. */
  function SummaryOf(engine: Engine, rows: seq<Metrics>): ScoreSummary {
    var f := Rank(EntriesBy(rows, (s: Scores) => s.faithfulness));
    var c := Rank(EntriesBy(rows, (s: Scores) => s.completeness));
    ScoreSummary(BestConfig(f), WorstConfig(f), Delta(engine, f), BestConfig(c), WorstConfig(c), Delta(engine, c))
  }

  function ReportOf(engine: Engine, rows: seq<Metrics>): BucketReport {
    BucketReport(rows, SummaryOf(engine, rows))
  }

  /** The metrics of a config that can be ranked by this column. */
  predicate Ranked(m: Metrics, column: Scores -> Option<real>) {
    m.tracedRuns > 0 && column(m.measures.averages).Some?
  }

  /** Some traced config has the score iff a best and a worst config are named; these are such configs, and
      every other one's shown average lies between theirs. */
  ghost predicate NamesExtremes(rows: seq<Metrics>, column: Scores -> Option<real>, best: Option<int>,
                                worst: Option<int>) {
    && (best.Some? <==> exists i :: 0 <= i < |rows| && Ranked(rows[i], column))
    && (worst.Some? <==> best.Some?)
    && (best.Some? ==>
          exists b, w ::
            && 0 <= b < |rows| && 0 <= w < |rows| && Ranked(rows[b], column) && Ranked(rows[w], column)
            && rows[b].config == best.value && rows[w].config == worst.value
            && forall i :: 0 <= i < |rows| && Ranked(rows[i], column) ==>
                 && column(rows[i].measures.averages).value <= column(rows[b].measures.averages).value
                 && column(rows[w].measures.averages).value <= column(rows[i].measures.averages).value)
  }

  lemma RankedBetween(rows: seq<Metrics>, column: Scores -> Option<real>, i: nat)
    requires i < |rows| && Ranked(rows[i], column)
    ensures var r := Rank(EntriesBy(rows, column));
            && r.Some? && r.value.best.score.Some? && r.value.worst.score.Some?
            && r.value.worst.score.value <= column(rows[i].measures.averages).value <= r.value.best.score.value
  {
    var entries := EntriesBy(rows, column);
    assert entries[i] in entries;
    RankMeans(entries, entries[i]);
  }

  lemma RankedRow(rows: seq<Metrics>, column: Scores -> Option<real>, e: Entry) returns (i: nat)
    requires e in EntriesBy(rows, column) && CanRank(e)
    ensures i < |rows| && Ranked(rows[i], column) && rows[i].config == e.config
    ensures column(rows[i].measures.averages) == e.score
  {
    i :| 0 <= i < |rows| && EntriesBy(rows, column)[i] == e;
  }

  lemma RankNamesExtremes(rows: seq<Metrics>, column: Scores -> Option<real>)
    ensures var r := Rank(EntriesBy(rows, column)); NamesExtremes(rows, column, BestConfig(r), WorstConfig(r))
  {
    var r := Rank(EntriesBy(rows, column));
    forall i | 0 <= i < |rows| && Ranked(rows[i], column)
      ensures r.Some? && r.value.best.score.Some? && r.value.worst.score.Some?
      ensures r.value.worst.score.value <= column(rows[i].measures.averages).value <= r.value.best.score.value
    {
      RankedBetween(rows, column, i);
    }
    if r.Some? {
      RankMeans(EntriesBy(rows, column), r.value.best);
      var b := RankedRow(rows, column, r.value.best);
      var w := RankedRow(rows, column, r.value.worst);
    }
  }

  /** The summary names the extremes of average faithfulness and of average completeness. */
  ghost predicate SummaryRight(report: BucketReport) {
    && NamesExtremes(report.configs, (s: Scores) => s.faithfulness, report.scores.bestFaithfulness,
                     report.scores.worstFaithfulness)
    && NamesExtremes(report.configs, (s: Scores) => s.completeness, report.scores.bestCompleteness,
                     report.scores.worstCompleteness)
  }

  lemma ReportIsRight(engine: Engine, rows: seq<Metrics>)
    ensures SummaryRight(ReportOf(engine, rows))
  {
    RankNamesExtremes(rows, (s: Scores) => s.faithfulness);
    RankNamesExtremes(rows, (s: Scores) => s.completeness);
  }

  // ----- The comparison -------------------------------------------------------------------------------

  function Max(a: int, b: int): int {
    if a > b then a else b
  }

  function MinEnforced(strict: bool, minTraced: Option<int>): Option<int> {
    if strict then Some(Max(2, if minTraced.GetOr(0) == 0 then 2 else minTraced.value)) else minTraced
  }

  /** What strict mode, or a minimum on its own, demands of the stored runs. */
  ghost predicate Sound(db: Database, scope: Scope, least: Option<int>, strict: bool) {
    && (strict ==> forall c, d :: c in scope.configs && d in scope.configs ==>
                     QueriesOf(RunsOf(db, scope, c)) == QueriesOf(RunsOf(db, scope, d)))
    && (least.Some? ==> forall c :: c in scope.configs ==> |RunsOf(db, scope, c)| >= least.value)
  }

  lemma TracedIsPlain(db: Database, scope: Scope, bucket: Bucket)
    requires Distinct(scope.configs)
    ensures var rows := MetricsList(db, scope, bucket, scope.configs);
            forall i :: 0 <= i < |scope.configs| ==>
                TracedOf(rows, scope.configs[i]) == |RunsOf(db, scope, scope.configs[i])|
  {
    var rows := MetricsList(db, scope, bucket, scope.configs);
    ListIsPlain(db, scope, bucket, scope.configs);
    forall i | 0 <= i < |scope.configs|
      ensures TracedOf(rows, scope.configs[i]) == |RunsOf(db, scope, scope.configs[i])|
    {
      ByConfigFinds(rows, scope.configs, i);
      assert PlainCounts(db, scope, rows[i]);
    }
  }

  lemma SoundIff(db: Database, scope: Scope, bucket: Bucket, sets: map<int, set<int>>, least: Option<int>, strict: bool)
    requires Distinct(scope.configs)
    requires forall c :: c in scope.configs ==> c in sets && sets[c] == QueriesOf(RunsOf(db, scope, c))
    ensures var rows := MetricsList(db, scope, bucket, scope.configs);
            Sound(db, scope, least, strict) <==>
              (strict ==> SameSets(scope.configs, sets))
              && (least.Some? ==> EnoughRuns(rows, scope.configs, least.value))
  {
    var rows := MetricsList(db, scope, bucket, scope.configs);
    TracedIsPlain(db, scope, bucket);
    assert forall c :: c in scope.configs ==> SetOf(sets, c) == QueriesOf(RunsOf(db, scope, c));
    if least.Some? && EnoughRuns(rows, scope.configs, least.value) {
      forall c | c in scope.configs
        ensures |RunsOf(db, scope, c)| >= least.value
      {
        var i :| 0 <= i < |scope.configs| && scope.configs[i] == c;
        assert TracedOf(rows, scope.configs[i]) >= least.value;
      }
    }
  }

  method CompareBucket(db: Database, scope: Scope, bucket: Bucket, least: Option<int>, strict: bool)
      returns (rows: seq<Metrics>, bad: Option<CompareError>)
    requires Distinct(scope.configs)
    ensures rows == MetricsList(db, scope, bucket, scope.configs)
    ensures bad.None? <==> Sound(db, scope, least, strict)
    ensures bad.Some? ==> bad.value == QuerySetsDiffer || bad.value.TooFewRuns?
  {
    var sets := QueryQueryCaseSets(db, scope);
    var main := QueryMain(db, scope, bucket);
    var fails := QueryFailures(db, scope, bucket);
    rows := BuildMetricsList(db.engine, scope.configs, main, fails);
    assert rows == MetricsList(db, scope, bucket, scope.configs);
    bad := EnforceIntegrity(scope.configs, rows, sets, least, strict);
    SoundIff(db, scope, bucket, sets, least, strict);
  }

  function ScopeFor(ids: seq<int>, dataset: Option<int>, includeRealism: bool): Scope {
    Scope(Dedup(ids), dataset, includeRealism || dataset.Some?)
  }

  /** Whether the arguments are refused before anything is read. */
  function Refused(configs: seq<int>, dataset: Option<int>, strict: bool): Option<CompareError> {
    if configs == [] then Some(NoConfigs)
    else if |configs| > MAX_CONFIG_IDS then Some(TooManyConfigs)
    else if strict && dataset.None? then Some(DatasetRequired)
    else None
  }

  lemma SharedConfidence(db: Database, scope: Scope)
    requires scope.configs != []
    ensures var h := MetricsList(db, scope, HeuristicBucket, scope.configs);
            var l := MetricsList(db, scope, LlmBucket, scope.configs);
            ConfidenceOf(h + l) == ConfidenceOf(h) == ConfidenceOf(l)
  {
    BucketsCountAlike(db, scope, scope.configs);
    ConfidenceOfBoth(MetricsList(db, scope, HeuristicBucket, scope.configs),
                     MetricsList(db, scope, LlmBucket, scope.configs));
  }

  method CompareEvaluator(db: Database, scope: Scope, evaluator: Evaluator, least: Option<int>, strict: bool)
      returns (r: Result<Comparison, CompareError>)
    requires Distinct(scope.configs) && scope.configs != []
    ensures r.Ok? <==> Sound(db, scope, least, strict)
    ensures r.Ok? ==> Reports(db, scope, evaluator, r.value)
    ensures r.Ok? ==> r.value.minEnforced == least && r.value.strictApplied == strict
    ensures r.Err? ==> r.error == QuerySetsDiffer || r.error.TooFewRuns?
  {
    SharedConfidence(db, scope);
    if evaluator == Both {
      var h, badH := CompareBucket(db, scope, HeuristicBucket, least, strict);
      var l, badL := CompareBucket(db, scope, LlmBucket, least, strict);
      var bad := if badH.Some? then badH else badL;
      if bad.Some? {
        return Err(bad.value);
      }
      return Ok(Comparison(scope.configs, Some(ReportOf(db.engine, h)), Some(ReportOf(db.engine, l)),
                           ConfidenceOf(h + l), scope.dataset, strict, least));
    }
    var rows, bad := CompareBucket(db, scope, if evaluator == Llm then LlmBucket else HeuristicBucket, least, strict);
    if bad.Some? {
      return Err(bad.value);
    }
    var report := ReportOf(db.engine, rows);
    r := Ok(Comparison(scope.configs, if evaluator == Heuristic then Some(report) else None,
                       if evaluator == Llm then Some(report) else None,
                       ConfidenceOf(rows), scope.dataset, strict, least));
  }

  /** A comparison succeeds exactly when its arguments are admissible and the stored runs are sound. In
      strict mode what it then returns is strictly comparable. */
  method ComparePipelineConfigs(db: Database, ids: seq<int>, evaluator: Evaluator, dataset: Option<int>,
                                minTraced: Option<int>, strict: bool, includeRealism: bool)
      returns (r: Result<Comparison, CompareError>)
    ensures var refused := Refused(Dedup(ids), dataset, strict);
            var scope := ScopeFor(ids, dataset, includeRealism);
            var least := MinEnforced(strict, minTraced);
            && (refused.Some? ==> r == Err(refused.value))
            && (refused.None? && !Sound(db, scope, least, strict) ==>
                  r.Err? && (r.error == QuerySetsDiffer || r.error.TooFewRuns?))
            && (refused.None? && Sound(db, scope, least, strict) ==>
                  r.Ok? && Reports(db, scope, evaluator, r.value)
                  && r.value.minEnforced == least && r.value.strictApplied == strict)
    ensures r.Ok? ==>
              && (r.value.heuristic.Some? ==> SummaryRight(r.value.heuristic.value))
              && (r.value.llm.Some? ==> SummaryRight(r.value.llm.value))
    ensures r == Err(NoConfigs) <==> ids == []
    ensures r == Err(TooManyConfigs) <==> |Dedup(ids)| > 64
    ensures r == Err(DatasetRequired) <==> ids != [] && |Dedup(ids)| <= 64 && strict && dataset.None?
    ensures MinEnforced(strict, minTraced) == if strict then Some(Max(2, minTraced.GetOr(0))) else minTraced
    ensures strict && r.Ok? ==>
              StrictlyComparable(db, ScopeFor(ids, dataset, includeRealism), Max(2, minTraced.GetOr(0)), r.value)
  {
    DedupMeans(ids);
    var refused := Refused(Dedup(ids), dataset, strict);
    if refused.Some? {
      return Err(refused.value);
    }
    var scope := ScopeFor(ids, dataset, includeRealism);
    r := CompareEvaluator(db, scope, evaluator, MinEnforced(strict, minTraced), strict);
    ReportIsRight(db.engine, MetricsList(db, scope, HeuristicBucket, scope.configs));
    ReportIsRight(db.engine, MetricsList(db, scope, LlmBucket, scope.configs));
    if strict && r.Ok? {
      StrictIsSound(db, scope, evaluator, minTraced, r.value);
    }
  }

  /** The buckets asked for, with one confidence that is the same whichever they are. */
  ghost predicate Reports(db: Database, scope: Scope, evaluator: Evaluator, c: Comparison) {
    && c.configs == scope.configs
    && c.dataset == scope.dataset
    && c.heuristic == (if evaluator != Llm then Some(BucketReportOf(db, scope, HeuristicBucket)) else None)
    && c.llm == (if evaluator != Heuristic then Some(BucketReportOf(db, scope, LlmBucket)) else None)
    && c.confidence == ConfidenceOf(MetricsList(db, scope, HeuristicBucket, scope.configs))
    && c.confidence == ConfidenceOf(MetricsList(db, scope, LlmBucket, scope.configs))
  }

  function BucketReportOf(db: Database, scope: Scope, bucket: Bucket): BucketReport {
    ReportOf(db.engine, MetricsList(db, scope, bucket, scope.configs))
  }

  /** What a caller of strict mode can rely on: all configs cover one set of query cases, whose size is the
      effective sample and every unique query count, and each has at least `least` traced runs. */
  ghost predicate StrictlyComparable(db: Database, scope: Scope, least: int, c: Comparison) {
    && (forall i, j :: 0 <= i < |c.configs| && 0 <= j < |c.configs| ==>
          QueriesOf(RunsOf(db, scope, c.configs[i])) == QueriesOf(RunsOf(db, scope, c.configs[j])))
    && (forall i :: 0 <= i < |c.configs| ==>
          c.confidence.effectiveSampleSize == |QueriesOf(RunsOf(db, scope, c.configs[i]))|)
    && c.confidence.minTracedRuns >= least
    && (c.heuristic.Some? ==> RowsComparable(c.heuristic.value.configs, c.configs, least, c.confidence))
    && (c.llm.Some? ==> RowsComparable(c.llm.value.configs, c.configs, least, c.confidence))
  }

  ghost predicate RowsComparable(rows: seq<Metrics>, configs: seq<int>, least: int, confidence: Confidence) {
    && |rows| == |configs|
    && forall i :: 0 <= i < |rows| ==>
         && rows[i].config == configs[i]
         && rows[i].uniqueQueries == confidence.effectiveSampleSize
         && rows[i].tracedRuns >= least
  }

  lemma StrictCounts(db: Database, scope: Scope, bucket: Bucket, minTraced: Option<int>)
    requires scope.configs != [] && Sound(db, scope, MinEnforced(true, minTraced), true)
    ensures var rows := MetricsList(db, scope, bucket, scope.configs);
            var least := Max(2, minTraced.GetOr(0));
            && RowsComparable(rows, scope.configs, least, ConfidenceOf(rows))
            && ConfidenceOf(rows).minTracedRuns >= least
    ensures forall i :: 0 <= i < |scope.configs| ==>
              ConfidenceOf(MetricsList(db, scope, bucket, scope.configs)).effectiveSampleSize ==
              |QueriesOf(RunsOf(db, scope, scope.configs[i]))|
  {
    var rows := MetricsList(db, scope, bucket, scope.configs);
    ListIsPlain(db, scope, bucket, scope.configs);
    MinMeans(UniqueCounts(rows));
    MinMeans(TracedCounts(rows));
    var u :| 0 <= u < |rows| && UniqueCounts(rows)[u] == MinOf(UniqueCounts(rows));
    var t :| 0 <= t < |rows| && TracedCounts(rows)[t] == MinOf(TracedCounts(rows));
    assert PlainCounts(db, scope, rows[u]) && PlainCounts(db, scope, rows[t]);
    assert scope.configs[u] in scope.configs && scope.configs[t] in scope.configs;
    forall i | 0 <= i < |scope.configs|
      ensures rows[i].uniqueQueries == |QueriesOf(RunsOf(db, scope, scope.configs[i]))| == rows[u].uniqueQueries
      ensures rows[i].tracedRuns >= Max(2, minTraced.GetOr(0))
    {
      assert PlainCounts(db, scope, rows[i]) && scope.configs[i] in scope.configs;
    }
  }

  lemma StrictIsSound(db: Database, scope: Scope, evaluator: Evaluator, minTraced: Option<int>, c: Comparison)
    requires scope.configs != [] && Sound(db, scope, MinEnforced(true, minTraced), true)
    requires Reports(db, scope, evaluator, c)
    ensures StrictlyComparable(db, scope, Max(2, minTraced.GetOr(0)), c)
  {
    StrictCounts(db, scope, HeuristicBucket, minTraced);
    StrictCounts(db, scope, LlmBucket, minTraced);
    assert forall i :: 0 <= i < |scope.configs| ==> scope.configs[i] in scope.configs;
  }
}
