/** The dashboard's multi-section CSV export. Numbers that are only printed are given as the text
    JavaScript prints for them. */
module DashboardExport {
  import opened Basics
  import opened Text
  import opened Lists
  import opened Csv

  datatype FailureCount = FailureCount(failure: string, count: nat)

  datatype RecentRun = RecentRun(id: string, status: string, createdAt: string, evaluator: string,
                                 latency: Cell, cost: Cell, failure: Cell)

  datatype ConfigInsight = ConfigInsight(id: string, name: string, traced: string, completed: string, failed: string,
                                         avgLatency: Cell, minLatency: Cell, maxLatency: Cell, avgCost: Cell,
                                         totalCost: Cell,
                                         avgRelevance: Cell, avgCoverage: Cell, avgCompleteness: Cell,
                                         avgFaithfulness: Cell,
                                         latestRunAt: Cell, topFailure: Cell)

  datatype Day = Day(date: string, runs: string, completed: string, failed: string,
                     avgLatency: Cell, avgCost: Cell, failures: string)

  datatype PhaseStats = PhaseStats(count: string, min: Cell, max: Cell, avg: Cell, median: Cell, p95: Cell)

  /** `counts` holds the values of the metrics that are present. */
  datatype Summary = Summary(counts: map<string, string>, failures: seq<FailureCount>, recent: seq<RecentRun>)

  datatype Analytics = Analytics(latency: Option<map<string, PhaseStats>>, avgSeconds: Cell, p95Seconds: Cell,
                                 days: seq<Option<Day>>, heuristic: seq<Option<ConfigInsight>>,
                                 llm: seq<Option<ConfigInsight>>)

  const SUMMARY_METRICS: seq<string> := [
    "total_runs", "repeated_sampling_note", "scale_benchmark_datasets", "scale_total_queries",
    "scale_total_traced_runs",
    "scale_configs_tested", "scale_documents_processed", "scale_chunks_indexed", "scale_unique_query_cases_with_runs",
    "diagnosis_evidence_tier", "diagnosis_sessions_count", "llm_reduction_evidence_tier",
    "llm_reduction_workload_count",
    "llm_reduction_median_pct", "status_completed", "status_failed", "status_in_progress", "evaluator_heuristic_runs",
    "evaluator_llm_runs", "evaluator_runs_without_evaluation", "model_failures", "latency_avg_retrieval_ms",
    "latency_retrieval_p50_ms", "latency_retrieval_p95_ms", "latency_avg_generation_ms", "latency_avg_evaluation_ms",
    "latency_avg_total_ms", "latency_total_p50_ms", "end_to_end_run_latency_avg_sec", "end_to_end_run_latency_p50_sec",
    "end_to_end_run_latency_p95_sec", "cost_total_usd", "cost_avg_usd", "cost_rows_with_value",
    "cost_rows_not_available",
    "cost_avg_usd_per_llm_run", "cost_llm_runs_with_measured_cost", "cost_avg_usd_per_full_rag_run",
    "cost_full_rag_runs_with_measured_cost"]

  const PHASES := ["retrieval", "generation", "evaluation", "total"]

  // ----- Rows ---------------------------------------------------------------------------------------

  function Words(texts: seq<string>): (row: Row)
    ensures |row| == |texts|
  {
    seq(|texts|, i requires 0 <= i < |texts| => Some(texts[i]))
  }

  /** `x ?? ''` */
  function OrBlank(c: Cell): Cell {
    Some(c.GetOr(""))
  }

  function MetricValue(metric: string, counts: map<string, string>): Cell {
    if metric in counts then Some(counts[metric])
    else if metric == "model_failures" then Some("0")
    else if metric == "repeated_sampling_note" then Some("")
    else None
  }

  function MetricRows(counts: map<string, string>): seq<Row> {
    seq(|SUMMARY_METRICS|, i requires 0 <= i < |SUMMARY_METRICS| =>
      [Some(SUMMARY_METRICS[i]), MetricValue(SUMMARY_METRICS[i], counts)])
  }

  function RecentRunRow(r: RecentRun): Row {
    [Some(r.id), Some(r.status), Some(r.createdAt), Some(r.evaluator), OrBlank(r.latency), OrBlank(r.cost),
     OrBlank(r.failure)]
  }

  function ConfigInsightRow(c: ConfigInsight): Row {
    [Some(c.id), Some(c.name), Some(c.traced), Some(c.completed), Some(c.failed),
     OrBlank(c.avgLatency), OrBlank(c.minLatency), OrBlank(c.maxLatency), OrBlank(c.avgCost), OrBlank(c.totalCost),
     OrBlank(c.avgRelevance), OrBlank(c.avgCoverage), OrBlank(c.avgCompleteness), OrBlank(c.avgFaithfulness),
     OrBlank(c.latestRunAt), OrBlank(c.topFailure)]
  }

  function DayRow(d: Day): Row {
    [Some(d.date), Some(d.runs), Some(d.completed), Some(d.failed), OrBlank(d.avgLatency), OrBlank(d.avgCost),
     Some(d.failures)]
  }

  function PhaseRow(phase: string, stats: map<string, PhaseStats>): Row {
    if phase in stats then
      var s := stats[phase];
      [Some(phase), Some(s.count), OrBlank(s.min), OrBlank(s.max), OrBlank(s.avg), OrBlank(s.median), OrBlank(s.p95)]
    else
      Words([phase, "", "", "", "", "", ""])
  }

  function PhaseRows(stats: map<string, PhaseStats>): seq<Row> {
    seq(|PHASES|, i requires 0 <= i < |PHASES| => PhaseRow(PHASES[i], stats))
  }

  function RowsOf<T>(items: seq<T>, row: T -> Row): seq<Row> {
    seq(|items|, i requires 0 <= i < |items| => row(items[i]))
  }

  function Present<T>(items: seq<Option<T>>): seq<T> {
    if items == [] then []
    else (if items[0].Some? then [items[0].value] else []) + Present(items[1..])
  }

  function Decimal(n: nat): string {
    if n < 10 then ["0123456789"[n]] else Decimal(n / 10) + ["0123456789"[n % 10]]
  }

  function FailureRow(f: FailureCount): Row {
    [Some(f.failure), Some(Decimal(f.count))]
  }

  // ----- Failure counts, most frequent first ----------------------------------------------------------

  function CountOrder(): (FailureCount, FailureCount) -> bool {
    (a: FailureCount, b: FailureCount) => a.count >= b.count
  }

  function ByCount(entries: seq<FailureCount>): seq<FailureCount> {
    Sort(entries, CountOrder())
  }

  /** The export lists every failure count once, most frequent first, ties in their given order. */
  lemma ByCountSorts(entries: seq<FailureCount>, n: nat)
    ensures multiset(ByCount(entries)) == multiset(entries)
    ensures forall i, j :: 0 <= i < j < |ByCount(entries)| ==> ByCount(entries)[i].count >= ByCount(entries)[j].count
    ensures var tied := (f: FailureCount) => f.count == n; Select(ByCount(entries), tied) == Select(entries, tied)
  {
    SortKeepsAll(entries, CountOrder());
    SortSorts(entries, CountOrder());
    SortKeepsTies(entries, CountOrder(), (f: FailureCount) => f.count == n);
    var sorted := ByCount(entries);
    assert forall i, j :: 0 <= i < j < |sorted| ==> CountOrder()(sorted[i], sorted[j]);
  }

  // ----- Sections --------------------------------------------------------------------------------------

  function MakeSection(name: string, columns: seq<string>, rows: seq<Row>): Section {
    [Words(["section", name]), Words(columns)] + rows
  }

  const RECENT_COLUMNS := ["run_id", "status", "created_at", "evaluator_type", "total_latency_ms", "cost_usd",
                           "failure_type"]
  const PHASE_COLUMNS := ["phase", "count", "min_ms", "max_ms", "avg_ms", "median_ms", "p95_ms"]
  const DAY_COLUMNS := ["date", "runs", "completed", "failed", "avg_total_latency_ms", "avg_cost_usd", "failure_count"]
  const INSIGHT_COLUMNS := [
    "pipeline_config_id", "pipeline_config_name", "traced_runs", "completed_runs", "failed_runs",
    "avg_total_latency_ms",
    "min_total_latency_ms", "max_total_latency_ms", "avg_cost_usd", "total_cost_usd", "avg_retrieval_relevance",
    "avg_context_coverage", "avg_completeness", "avg_faithfulness", "latest_run_at", "top_failure_type"]

  function SummarySections(s: Summary): seq<Section> {
    [MakeSection("summary_counts", ["metric", "value"], MetricRows(s.counts)),
     MakeSection("failure_type_counts", ["failure_type", "count"], RowsOf(ByCount(s.failures), FailureRow)),
     MakeSection("recent_runs", RECENT_COLUMNS, RowsOf(s.recent, RecentRunRow))]
  }

  function SecondsRows(a: Analytics): seq<Row> {
    [[Some("end_to_end_run_latency_avg_sec"), OrBlank(a.avgSeconds)],
     [Some("end_to_end_run_latency_p95_sec"), OrBlank(a.p95Seconds)]]
  }

  function LatencySections(a: Analytics): seq<Section> {
    if a.latency.Some? then [MakeSection("latency_distribution", PHASE_COLUMNS, PhaseRows(a.latency.value))] else []
  }

  function TrendSections(a: Analytics): seq<Section> {
    [MakeSection("end_to_end_run_latency_sec", ["metric", "value"], SecondsRows(a)),
     MakeSection("time_series_daily", DAY_COLUMNS, RowsOf(Present(a.days), DayRow))]
  }

  function InsightSections(a: Analytics): seq<Section> {
    [MakeSection("config_insights_heuristic", INSIGHT_COLUMNS, RowsOf(Present(a.heuristic), ConfigInsightRow)),
     MakeSection("config_insights_llm", INSIGHT_COLUMNS, RowsOf(Present(a.llm), ConfigInsightRow))]
  }

  function AnalyticsSections(a: Analytics): seq<Section> {
    LatencySections(a) + TrendSections(a) + InsightSections(a)
  }

  const NO_DATA: Section := [Words(["contextlens_dashboard_csv", "no_data_loaded"])]

  function Sections(summary: Option<Summary>, analytics: Option<Analytics>): seq<Section> {
    if summary.None? && analytics.None? then [NO_DATA]
    else SummaryPart(summary) + AnalyticsPart(analytics)
  }

  function SummaryPart(summary: Option<Summary>): seq<Section> {
    if summary.Some? then SummarySections(summary.value) else []
  }

  function AnalyticsPart(analytics: Option<Analytics>): seq<Section> {
    if analytics.Some? then AnalyticsSections(analytics.value) else []
  }

  // ----- Columns and their fields -----------------------------------------------------------------------

  function RecentField(r: RecentRun, column: string): Cell {
    match column
    case "run_id" => Some(r.id)
    case "status" => Some(r.status)
    case "created_at" => Some(r.createdAt)
    case "evaluator_type" => Some(r.evaluator)
    case "total_latency_ms" => r.latency
    case "cost_usd" => r.cost
    case "failure_type" => r.failure
    case _ => None
  }

  function DayField(d: Day, column: string): Cell {
    match column
    case "date" => Some(d.date)
    case "runs" => Some(d.runs)
    case "completed" => Some(d.completed)
    case "failed" => Some(d.failed)
    case "avg_total_latency_ms" => d.avgLatency
    case "avg_cost_usd" => d.avgCost
    case "failure_count" => Some(d.failures)
    case _ => None
  }

  function InsightField(c: ConfigInsight, column: string): Cell {
    match column
    case "pipeline_config_id" => Some(c.id)
    case "pipeline_config_name" => Some(c.name)
    case "traced_runs" => Some(c.traced)
    case "completed_runs" => Some(c.completed)
    case "failed_runs" => Some(c.failed)
    case "avg_total_latency_ms" => c.avgLatency
    case "min_total_latency_ms" => c.minLatency
    case "max_total_latency_ms" => c.maxLatency
    case "avg_cost_usd" => c.avgCost
    case "total_cost_usd" => c.totalCost
    case "avg_retrieval_relevance" => c.avgRelevance
    case "avg_context_coverage" => c.avgCoverage
    case "avg_completeness" => c.avgCompleteness
    case "avg_faithfulness" => c.avgFaithfulness
    case "latest_run_at" => c.latestRunAt
    case "top_failure_type" => c.topFailure
    case _ => None
  }

  function PhaseField(phase: string, s: PhaseStats, column: string): Cell {
    match column
    case "phase" => Some(phase)
    case "count" => Some(s.count)
    case "min_ms" => s.min
    case "max_ms" => s.max
    case "avg_ms" => s.avg
    case "median_ms" => s.median
    case "p95_ms" => s.p95
    case _ => None
  }

  /** In every table the cell under a column's name shows the field of that name. */
  lemma RecentColumns(r: RecentRun, k: nat)
    requires k < |RECENT_COLUMNS|
    ensures |RecentRunRow(r)| == |RECENT_COLUMNS| &&
            Shown(RecentRunRow(r)[k]) == Shown(RecentField(r, RECENT_COLUMNS[k]))
  {
  }

  lemma DayColumns(d: Day, k: nat)
    requires k < |DAY_COLUMNS|
    ensures |DayRow(d)| == |DAY_COLUMNS| && Shown(DayRow(d)[k]) == Shown(DayField(d, DAY_COLUMNS[k]))
  {
  }

  lemma InsightColumns(c: ConfigInsight, k: nat)
    requires k < |INSIGHT_COLUMNS|
    ensures |ConfigInsightRow(c)| == |INSIGHT_COLUMNS|
    ensures Shown(ConfigInsightRow(c)[k]) == Shown(InsightField(c, INSIGHT_COLUMNS[k]))
  {
  }

  /** A phase without statistics shows its name and blanks. */
  lemma PhaseColumns(phase: string, stats: map<string, PhaseStats>, k: nat)
    requires k < |PHASE_COLUMNS|
    ensures |PhaseRow(phase, stats)| == |PHASE_COLUMNS|
    ensures Shown(PhaseRow(phase, stats)[k]) ==
            if phase in stats then Shown(PhaseField(phase, stats[phase], PHASE_COLUMNS[k]))
            else if PHASE_COLUMNS[k] == "phase" then phase else ""
  {
  }

  /** Every metric of the summary is listed with its value; a missing one is blank, but no model
      failures are shown as none. */
  lemma MetricsListed(counts: map<string, string>, k: nat)
    requires k < |SUMMARY_METRICS|
    ensures var name, row := SUMMARY_METRICS[k], MetricRows(counts)[k];
            && |MetricRows(counts)| == |SUMMARY_METRICS| && |row| == 2 && Shown(row[0]) == name
            && Shown(row[1]) == if name in counts then counts[name] else if name == "model_failures" then "0" else ""
  {
  }

  // ----- What the sections are ----------------------------------------------------------------------------

  /** The title shown in a section's first row. */
  function Title(section: Section): string {
    if section != [] && |section[0]| > 1 then Shown(section[0][1]) else ""
  }

  function Titles(sections: seq<Section>): seq<string> {
    seq(|sections|, i requires 0 <= i < |sections| => Title(sections[i]))
  }

  const SUMMARY_TITLES := ["summary_counts", "failure_type_counts", "recent_runs"]
  const ANALYTICS_TITLES := ["end_to_end_run_latency_sec", "time_series_daily", "config_insights_heuristic",
                             "config_insights_llm"]

  lemma TitlesConcat(a: seq<Section>, b: seq<Section>)
    ensures Titles(a + b) == Titles(a) + Titles(b)
  {
  }

  lemma TitleOfMade(name: string, columns: seq<string>, rows: seq<Row>)
    ensures Title(MakeSection(name, columns, rows)) == name
  {
  }

  lemma SummaryTitles(s: Summary)
    ensures Titles(SummarySections(s)) == SUMMARY_TITLES
  {
    TitleOfMade("summary_counts", ["metric", "value"], MetricRows(s.counts));
    TitleOfMade("failure_type_counts", ["failure_type", "count"], RowsOf(ByCount(s.failures), FailureRow));
    TitleOfMade("recent_runs", RECENT_COLUMNS, RowsOf(s.recent, RecentRunRow));
  }

  lemma TrendTitles(a: Analytics)
    ensures Titles(TrendSections(a)) == ANALYTICS_TITLES[..2]
  {
    TitleOfMade("end_to_end_run_latency_sec", ["metric", "value"], SecondsRows(a));
    TitleOfMade("time_series_daily", DAY_COLUMNS, RowsOf(Present(a.days), DayRow));
  }

  lemma InsightTitles(a: Analytics)
    ensures Titles(InsightSections(a)) == ANALYTICS_TITLES[2..]
  {
    TitleOfMade("config_insights_heuristic", INSIGHT_COLUMNS, RowsOf(Present(a.heuristic), ConfigInsightRow));
    TitleOfMade("config_insights_llm", INSIGHT_COLUMNS, RowsOf(Present(a.llm), ConfigInsightRow));
  }

  function LatencyTitles(a: Analytics): seq<string> {
    if a.latency.Some? then ["latency_distribution"] else []
  }

  lemma AnalyticsTitles(a: Analytics)
    ensures Titles(AnalyticsSections(a)) == LatencyTitles(a) + ANALYTICS_TITLES
  {
    TitlesConcat(LatencySections(a) + TrendSections(a), InsightSections(a));
    TitlesConcat(LatencySections(a), TrendSections(a));
    TrendTitles(a);
    InsightTitles(a);
    if a.latency.Some? {
      TitleOfMade("latency_distribution", PHASE_COLUMNS, PhaseRows(a.latency.value));
    }
    assert Titles(LatencySections(a)) == LatencyTitles(a);
    assert ANALYTICS_TITLES[..2] + ANALYTICS_TITLES[2..] == ANALYTICS_TITLES;
  }

  /** Which sections the export has, in order: those of the summary, if it is loaded, then those of the
      analytics, where the latency distribution may be missing. */
  lemma SectionTitles(summary: Option<Summary>, analytics: Option<Analytics>)
    ensures summary.None? && analytics.None? ==> Titles(Sections(summary, analytics)) == ["no_data_loaded"]
    ensures summary.Some? || analytics.Some? ==>
              Titles(Sections(summary, analytics)) ==
              (if summary.Some? then SUMMARY_TITLES else [])
              + (if analytics.Some? then LatencyTitles(analytics.value) + ANALYTICS_TITLES else [])
  {
    if summary.Some? {
      SummaryTitles(summary.value);
    }
    if analytics.Some? {
      AnalyticsTitles(analytics.value);
    }
    TitlesConcat(if summary.Some? then SummarySections(summary.value) else [],
                 if analytics.Some? then AnalyticsSections(analytics.value) else []);
  }

  /** Behind its title and column names a summary section has one row for each failure label and one for each
      recent run, and an analytics section one for each day and insight that is present. */
  lemma SectionBodies(s: Summary, a: Analytics)
    ensures var failures, recent := SummarySections(s)[1], SummarySections(s)[2];
            && |failures| == 2 + |s.failures| && |recent| == 2 + |s.recent|
            && (forall i :: 0 <= i < |s.recent| ==> recent[2 + i] == RecentRunRow(s.recent[i]))
            && (forall i :: 0 <= i < |s.failures| ==> failures[2 + i] == FailureRow(ByCount(s.failures)[i]))
    ensures var days, heuristic, llm := TrendSections(a)[1], InsightSections(a)[0], InsightSections(a)[1];
            && days[2..] == RowsOf(Present(a.days), DayRow)
            && heuristic[2..] == RowsOf(Present(a.heuristic), ConfigInsightRow)
            && llm[2..] == RowsOf(Present(a.llm), ConfigInsightRow)
  {
    ByCountSorts(s.failures, 0);
    assert |multiset(ByCount(s.failures))| == |multiset(s.failures)|;
    assert |ByCount(s.failures)| == |s.failures|;
    var rows := RowsOf(s.recent, RecentRunRow);
    assert SummarySections(s)[2][2..] == rows;
    assert SummarySections(s)[1][2..] == RowsOf(ByCount(s.failures), FailureRow);
  }

  function ValueOf(digits: string): nat {
    if digits == "" then 0
    else
      var d := digits[|digits| - 1];
      10 * ValueOf(digits[..|digits| - 1]) + if '0' <= d <= '9' then d as int - '0' as int else 0
  }

  /** A count is printed in decimal digits. */
  lemma {:induction false} DecimalIsRead(n: nat)
    ensures ValueOf(Decimal(n)) == n && Decimal(n) != ""
  {
    var digit := "0123456789"[n % 10];
    assert digit as int == '0' as int + n % 10;
    if n < 10 {
      assert Decimal(n) == [digit] && [digit][..0] == [];
      assert ValueOf([]) == 0;
    } else {
      DecimalIsRead(n / 10);
      assert Decimal(n)[..|Decimal(n)| - 1] == Decimal(n / 10);
    }
  }

  // ----- Writing the sections line by line -------------------------------------------------------------

  lemma SectionsConcat(a: seq<Section>, b: seq<Section>)
    ensures SectionRows(a + b) == SectionRows(a) + SectionRows(b)
  {
    if a == [] {
      assert a + b == b;
    } else {
      assert (a + b)[1..] == a[1..] + b;
      SectionsConcat(a[1..], b);
    }
  }

  lemma LinesConcat(a: seq<Row>, b: seq<Row>)
    ensures Lines(a + b) == Lines(a) + Lines(b)
  {
  }

  function SectionLines(sections: seq<Section>): seq<string> {
    Lines(SectionRows(sections))
  }

  lemma SectionLinesConcat(a: seq<Section>, b: seq<Section>)
    ensures SectionLines(a + b) == SectionLines(a) + SectionLines(b)
  {
    SectionsConcat(a, b);
    LinesConcat(SectionRows(a), SectionRows(b));
  }

  lemma ThreeSections(a: Section, b: Section, c: Section)
    ensures SectionLines([a, b, c]) == SectionLines([a]) + SectionLines([b]) + SectionLines([c])
  {
    assert [a] + [b] == [a, b] && [a, b] + [c] == [a, b, c];
    SectionLinesConcat([a], [b]);
    SectionLinesConcat([a, b], [c]);
  }

  lemma OneSectionLines(section: Section)
    ensures SectionLines([section]) == Lines(section) + [""]
  {
    assert SectionRows([section]) == section + [BLANK];
    LinesConcat(section, [BLANK]);
    assert Escaped(BLANK) == [""];
    assert Lines([BLANK]) == [""];
  }

  lemma SummaryLines(s: Summary, before: seq<string>)
    ensures before + SectionLines(SummarySections(s)) ==
            before + SectionLines([SummarySections(s)[0]]) + SectionLines([SummarySections(s)[1]])
            + SectionLines([SummarySections(s)[2]])
  {
    var all := SummarySections(s);
    ThreeSections(all[0], all[1], all[2]);
    assert all == [all[0], all[1], all[2]];
  }

  lemma AnalyticsLines(a: Analytics, before: seq<string>)
    ensures before + SectionLines(AnalyticsSections(a)) ==
            before + SectionLines(LatencySections(a)) + SectionLines(TrendSections(a))
            + SectionLines(InsightSections(a))
  {
    SectionLinesConcat(LatencySections(a), TrendSections(a));
    SectionLinesConcat(LatencySections(a) + TrendSections(a), InsightSections(a));
  }

  /** The array of lines the export pushes into. */
  class CsvLines {
    var lines: seq<string>

    constructor ()
      ensures lines == []
    {
      lines := [];
    }

    method PushRow(row: Row)
      modifies this
      ensures lines == old(lines) + [JoinRow(row)]
    {
      lines := lines + [JoinRow(row)];
    }

    /** A title, the column names, one line per row and a blank line. */
    method PushSection(name: string, columns: seq<string>, rows: seq<Row>)
      modifies this
      ensures lines == old(lines) + SectionLines([MakeSection(name, columns, rows)])
    {
      var head := [Words(["section", name]), Words(columns)];
      PushRow(head[0]);
      PushRow(head[1]);
      assert Lines(head) == [JoinRow(head[0]), JoinRow(head[1])];
      var i := 0;
      while i < |rows|
        invariant 0 <= i <= |rows|
        invariant lines == old(lines) + Lines(head) + Lines(rows[..i])
      {
        PushRow(rows[i]);
        assert rows[..i + 1] == rows[..i] + [rows[i]];
        i := i + 1;
      }
      assert rows[..i] == rows;
      lines := lines + [""];
      LinesConcat(head, rows);
      OneSectionLines(MakeSection(name, columns, rows));
    }

    method PushSummary(s: Summary)
      modifies this
      ensures lines == old(lines) + SectionLines(SummarySections(s))
    {
      SummaryLines(s, lines);
      PushSection("summary_counts", ["metric", "value"], MetricRows(s.counts));
      PushSection("failure_type_counts", ["failure_type", "count"], RowsOf(ByCount(s.failures), FailureRow));
      PushSection("recent_runs", RECENT_COLUMNS, RowsOf(s.recent, RecentRunRow));
    }

    method PushLatency(a: Analytics)
      modifies this
      ensures lines == old(lines) + SectionLines(LatencySections(a))
    {
      assert SectionLines([]) == [];
      if a.latency.Some? {
        PushSection("latency_distribution", PHASE_COLUMNS, PhaseRows(a.latency.value));
      }
    }

    method PushTrend(a: Analytics)
      modifies this
      ensures lines == old(lines) + SectionLines(TrendSections(a))
    {
      ghost var all := TrendSections(a);
      PushSection("end_to_end_run_latency_sec", ["metric", "value"], SecondsRows(a));
      PushSection("time_series_daily", DAY_COLUMNS, RowsOf(Present(a.days), DayRow));
      SectionLinesConcat([all[0]], [all[1]]);
      assert all == [all[0]] + [all[1]];
    }

    method PushInsights(a: Analytics)
      modifies this
      ensures lines == old(lines) + SectionLines(InsightSections(a))
    {
      ghost var all := InsightSections(a);
      PushSection("config_insights_heuristic", INSIGHT_COLUMNS, RowsOf(Present(a.heuristic), ConfigInsightRow));
      PushSection("config_insights_llm", INSIGHT_COLUMNS, RowsOf(Present(a.llm), ConfigInsightRow));
      SectionLinesConcat([all[0]], [all[1]]);
      assert all == [all[0]] + [all[1]];
    }

    method PushNoData()
      modifies this
      ensures lines == old(lines) + SectionLines([NO_DATA])
    {
      PushRow(NO_DATA[0]);
      lines := lines + [""];
      OneSectionLines(NO_DATA);
      assert Lines(NO_DATA) == [JoinRow(NO_DATA[0])];
    }

    method PushAnalytics(a: Analytics)
      modifies this
      ensures lines == old(lines) + SectionLines(AnalyticsSections(a))
    {
      AnalyticsLines(a, lines);
      PushLatency(a);
      PushTrend(a);
      PushInsights(a);
    }

    method PushParts(summary: Option<Summary>, analytics: Option<Analytics>)
      modifies this
      ensures lines == old(lines) + SectionLines(SummaryPart(summary)) + SectionLines(AnalyticsPart(analytics))
    {
      assert SectionLines([]) == [];
      if summary.Some? {
        PushSummary(summary.value);
      }
      assert lines == old(lines) + SectionLines(SummaryPart(summary));
      if analytics.Some? {
        PushAnalytics(analytics.value);
      }
    }

    method PushAll(summary: Option<Summary>, analytics: Option<Analytics>)
      modifies this
      ensures lines == old(lines) + SectionLines(Sections(summary, analytics))
    {
      if summary.None? && analytics.None? {
        PushNoData();
      } else {
        SectionLinesConcat(SummaryPart(summary), AnalyticsPart(analytics));
        PushParts(summary, analytics);
      }
    }
  }

  predicate VisibleRows(rows: seq<Row>) {
    forall j :: 0 <= j < |rows| ==> Visible(rows[j])
  }

  lemma VisibleAppend(sections: seq<Section>, section: Section)
    requires VisibleSections(sections) && VisibleRows(section)
    ensures VisibleSections(sections + [section])
  {
  }

  lemma MadeVisible(sections: seq<Section>, name: string, columns: seq<string>, rows: seq<Row>)
    requires VisibleSections(sections) && |columns| >= 2 && VisibleRows(rows)
    ensures VisibleSections(sections + [MakeSection(name, columns, rows)])
  {
    VisibleAppend(sections, MakeSection(name, columns, rows));
  }

  lemma SummaryIsVisible(s: Summary)
    ensures VisibleSections(SummarySections(s))
  {
    var all := SummarySections(s);
    MadeVisible([], "summary_counts", ["metric", "value"], MetricRows(s.counts));
    MadeVisible(all[..1], "failure_type_counts", ["failure_type", "count"], RowsOf(ByCount(s.failures), FailureRow));
    MadeVisible(all[..2], "recent_runs", RECENT_COLUMNS, RowsOf(s.recent, RecentRunRow));
    assert all[..1] == [] + [all[0]] && all[..2] == all[..1] + [all[1]] && all == all[..2] + [all[2]];
  }

  lemma AnalyticsIsVisible(a: Analytics)
    ensures VisibleSections(AnalyticsSections(a))
  {
    var first := LatencySections(a);
    if a.latency.Some? {
      MadeVisible([], "latency_distribution", PHASE_COLUMNS, PhaseRows(a.latency.value));
      assert first == [] + [MakeSection("latency_distribution", PHASE_COLUMNS, PhaseRows(a.latency.value))];
    }
    MadeVisible(first, "end_to_end_run_latency_sec", ["metric", "value"], SecondsRows(a));
    var two := first + [MakeSection("end_to_end_run_latency_sec", ["metric", "value"], SecondsRows(a))];
    MadeVisible(two, "time_series_daily", DAY_COLUMNS, RowsOf(Present(a.days), DayRow));
    var three := two + [MakeSection("time_series_daily", DAY_COLUMNS, RowsOf(Present(a.days), DayRow))];
    MadeVisible(three, "config_insights_heuristic", INSIGHT_COLUMNS, RowsOf(Present(a.heuristic), ConfigInsightRow));
    var four := three + [MakeSection("config_insights_heuristic", INSIGHT_COLUMNS,
                                     RowsOf(Present(a.heuristic), ConfigInsightRow))];
    MadeVisible(four, "config_insights_llm", INSIGHT_COLUMNS, RowsOf(Present(a.llm), ConfigInsightRow));
    assert AnalyticsSections(a) == four +
           [MakeSection("config_insights_llm", INSIGHT_COLUMNS, RowsOf(Present(a.llm), ConfigInsightRow))];
  }

  lemma SectionsAreVisible(summary: Option<Summary>, analytics: Option<Analytics>)
    ensures var sections := Sections(summary, analytics); sections != [] && VisibleSections(sections)
  {
    if summary.Some? {
      SummaryIsVisible(summary.value);
    }
    if analytics.Some? {
      AnalyticsIsVisible(analytics.value);
    }
  }

  /** The export, and what a reader gets back from it: every section, in order, row by row. */
  method BuildDashboardExportCsv(summary: Option<Summary>, analytics: Option<Analytics>) returns (csv: string)
    ensures csv == Document(SectionRows(Sections(summary, analytics)))
    ensures Parse(csv).Some? && CutSections(Parse(csv).value, []) == Tables(Sections(summary, analytics))
  {
    ghost var sections := Sections(summary, analytics);
    var out := new CsvLines();
    out.PushAll(summary, analytics);
    assert out.lines == SectionLines(sections);
    csv := Join(out.lines, "\n");
    SectionsAreVisible(summary, analytics);
    SectionsRoundTrip(sections);
  }
}
