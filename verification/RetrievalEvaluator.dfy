/** Heuristic evaluation of a run from its stored retrieval scores and chunk texts. */
module RetrievalEvaluator {
  import opened Basics
  import opened Text
  import opened Lists
  import opened Tokens

  /** A retrieval row joined with its chunk, in rank order. */
  datatype Retrieved = Retrieved(score: real, content: string)

  datatype FailureLabel = RetrievalMiss | RetrievalPartial | ContextInsufficient | AnswerIncomplete | NoFailure

  datatype Evaluation = Evaluation(relevance: Option<real>, coverage: Option<real>, completeness: Option<real>,
                                   faithfulness: Option<real>, failure: FailureLabel)

  const RELEVANCE_PARTIAL_THRESHOLD := 0.3
  const CONTEXT_INSUFFICIENT_THRESHOLD := 0.4
  const COMPLETENESS_INCOMPLETE_THRESHOLD := 0.5

  const HYBRID_GATE_MAX_CHUNK_SCORE := 0.88
  const HYBRID_GATE_MEAN_RELEVANCE := 0.55
  const HYBRID_GATE_CONTEXT_COVERAGE := 0.42

  predicate IsBelow(score: Option<real>, threshold: real) {
    score.Some? && score.value < threshold
  }

  function Classify(miss: bool, relevance: Option<real>, coverage: Option<real>,
                    completeness: Option<real>): FailureLabel {
    if miss then RetrievalMiss
    else if IsBelow(relevance, RELEVANCE_PARTIAL_THRESHOLD) then RetrievalPartial
    else if IsBelow(coverage, CONTEXT_INSUFFICIENT_THRESHOLD) then ContextInsufficient
    else if IsBelow(completeness, COMPLETENESS_INCOMPLETE_THRESHOLD) then AnswerIncomplete
    else NoFailure
  }

  /** The fraction of `wanted` found in a text with the tokens `against`. */
  function Recall(wanted: set<string>, against: set<string>): Option<real> {
    if wanted == {} then None
    else if against == {} then Some(0.0)
    else Some(|wanted * against| as real / |wanted| as real)
  }

  function TokenRecall(wanted: set<string>, corpus: string): Option<real> {
    Recall(wanted, SignificantTokens(corpus))
  }

  function TotalScore(hits: seq<Retrieved>): real {
    if hits == [] then 0.0 else TotalScore(hits[..|hits| - 1]) + hits[|hits| - 1].score
  }

  function Mean(hits: seq<Retrieved>): real
    requires hits != []
  {
    TotalScore(hits) / |hits| as real
  }

  function Bodies(hits: seq<Retrieved>): seq<string> {
    seq(|hits|, i requires 0 <= i < |hits| => hits[i].content)
  }

  function ChunkText(hits: seq<Retrieved>): string {
    Join(Bodies(hits), "\n\n")
  }

  function Completeness(expected: Option<string>, corpus: string): Option<real> {
    if expected.Some? && Strip(expected.value) != "" then TokenRecall(SignificantTokens(expected.value), corpus)
    else None
  }

  function MinimalEvaluation(hits: seq<Retrieved>, query: string, expected: Option<string>): Evaluation {
    if hits == [] then Evaluation(None, None, None, None, RetrievalMiss)
    else
      var corpus := ChunkText(hits);
      var relevance := Some(Mean(hits));
      var coverage := TokenRecall(SignificantTokens(query), corpus);
      var completeness := Completeness(expected, corpus);
      Evaluation(relevance, coverage, completeness, None, Classify(false, relevance, coverage, completeness))
  }

  /** The scores stored when the judge is skipped: the minimal ones, and the recall of the answer. */
  function HybridSkippedEvaluation(hits: seq<Retrieved>, query: string, expected: Option<string>,
                                   answer: string): Evaluation {
    var base := MinimalEvaluation(hits, query, expected);
    if hits == [] then base
    else base.(faithfulness := TokenRecall(SignificantTokens(answer), ChunkText(hits)))
  }

  function MaxScore(hits: seq<Retrieved>): real {
    if hits == [] then 0.0
    else if |hits| == 1 then hits[0].score
    else
      var rest := MaxScore(hits[1..]);
      if rest > hits[0].score then rest else hits[0].score
  }

  predicate GatePasses(maxScore: real, relevance: Option<real>, coverage: Option<real>) {
    && relevance.Some? && coverage.Some?
    && maxScore >= HYBRID_GATE_MAX_CHUNK_SCORE
    && relevance.value >= HYBRID_GATE_MEAN_RELEVANCE
    && coverage.value >= HYBRID_GATE_CONTEXT_COVERAGE
  }

  predicate HybridGate(hits: seq<Retrieved>, query: string) {
    var e := MinimalEvaluation(hits, query, None);
    GatePasses(MaxScore(hits), e.relevance, e.coverage)
  }

  // ----- Bounds ----------------------------------------------------------------------------------------

  predicate InUnit(score: Option<real>) {
    score.Some? ==> 0.0 <= score.value <= 1.0
  }

  lemma FractionBounds(part: nat, whole: nat)
    requires part <= whole && whole > 0
    ensures 0.0 <= part as real / whole as real <= 1.0
    ensures part as real / whole as real == 1.0 <==> part == whole
    ensures part as real / whole as real == 0.0 <==> part == 0
  {
    RatioGrows(part, whole, whole);
    var q := part as real / whole as real;
    assert q * whole as real == part as real;
  }

  /** Recall is a fraction; it is 1 exactly when every wanted token is found and 0 exactly when none is. */
  lemma RecallMeans(wanted: set<string>, against: set<string>)
    ensures Recall(wanted, against).None? <==> wanted == {}
    ensures InUnit(Recall(wanted, against))
    ensures wanted != {} ==> (Recall(wanted, against) == Some(1.0) <==> wanted <= against)
    ensures wanted != {} ==> (Recall(wanted, against) == Some(0.0) <==> wanted !! against)
  {
    if wanted != {} {
      var found := wanted * against;
      SubsetSize(found, wanted);
      FractionBounds(|found|, |wanted|);
      assert found == wanted <==> wanted <= against;
      assert |found| == 0 <==> found == {};
      assert found == {} <==> wanted !! against by {
        if found == {} {
          forall t | t in wanted
            ensures t !in against
          {
            assert t !in found;
          }
        }
      }
    }
  }

  // ----- What the scores say -----------------------------------------------------------------------------

  lemma {:induction false} TotalConcat(a: seq<Retrieved>, b: seq<Retrieved>)
    ensures TotalScore(a + b) == TotalScore(a) + TotalScore(b)
    decreases |b|
  {
    if b == [] {
      assert a + b == a;
    } else {
      assert (a + b)[..|a + b| - 1] == a + b[..|b| - 1];
      TotalConcat(a, b[..|b| - 1]);
    }
  }

  /** The mean of one score is that score, and every score weighs the same. */
  lemma MeanMeans(a: seq<Retrieved>, b: seq<Retrieved>, h: Retrieved)
    requires a != [] && b != []
    ensures Mean([h]) == h.score
    ensures Mean(a + b) * |a + b| as real == Mean(a) * |a| as real + Mean(b) * |b| as real
  {
    TotalConcat(a, b);
    assert [h][..0] == [] && TotalScore([h]) == h.score;
    assert h.score / 1.0 == h.score;
  }

  /** The token sets that recall compares: each score is the share of its tokens found in some chunk. */
  predicate ShareOf(score: Option<real>, wanted: set<string>, chunks: seq<string>) {
    && (score.None? <==> wanted == {})
    && (score.Some? ==> score.value * |wanted| as real == |wanted * TokensOfAll(chunks)| as real)
  }

  lemma ShareMeans(wanted: set<string>, hits: seq<Retrieved>)
    ensures ShareOf(TokenRecall(wanted, ChunkText(hits)), wanted, Bodies(hits))
  {
    TokensOfJoin(Bodies(hits));
    var against := TokensOfAll(Bodies(hits));
    RecallIsShare(wanted, against);
    assert TokenRecall(wanted, ChunkText(hits)) == Recall(wanted, against);
  }

  lemma RecallIsShare(wanted: set<string>, against: set<string>)
    ensures Recall(wanted, against).None? <==> wanted == {}
    ensures wanted != {} ==> Recall(wanted, against).value * |wanted| as real == |wanted * against| as real
  {
    if wanted != {} {
      ShareTimesWhole(|wanted * against|, |wanted|);
      assert against == {} ==> wanted * against == {};
    }
  }

  lemma ShareTimesWhole(part: nat, whole: nat)
    requires whole > 0
    ensures part as real / whole as real * whole as real == part as real
  {
  }

  /** For a run with hits: relevance is the mean score; coverage, completeness and faithfulness are the
      shares of the query's, the expected answer's and the given answer's tokens found in the chunks.
      Completeness is missing without an expected answer, and faithfulness in the minimal evaluation. */
  lemma EvaluationMeans(hits: seq<Retrieved>, query: string, expected: Option<string>, answer: string)
    requires hits != []
    ensures var e := HybridSkippedEvaluation(hits, query, expected, answer);
            && e.relevance == Some(Mean(hits))
            && ShareOf(e.coverage, SignificantTokens(query), Bodies(hits))
            && ShareOf(e.faithfulness, SignificantTokens(answer), Bodies(hits))
            && (expected.None? || Blank(expected.value) ==> e.completeness == None)
            && (expected.Some? && !Blank(expected.value) ==>
                  ShareOf(e.completeness, SignificantTokens(expected.value), Bodies(hits)))
    ensures var e := HybridSkippedEvaluation(hits, query, expected, answer);
            MinimalEvaluation(hits, query, expected) == e.(faithfulness := None)
  {
    ShareMeans(SignificantTokens(query), hits);
    ShareMeans(SignificantTokens(answer), hits);
    if expected.Some? {
      ShareMeans(SignificantTokens(expected.value), hits);
      StripParts(expected.value);
    }
  }

  predicate AtLeast(score: Option<real>, least: real) {
    score.None? || score.value >= least
  }

  lemma ClassifyMeans(relevance: Option<real>, coverage: Option<real>, completeness: Option<real>)
    ensures var f := Classify(false, relevance, coverage, completeness);
            && f != RetrievalMiss
            && (f == NoFailure <==>
                  AtLeast(relevance, 0.3) && AtLeast(coverage, 0.4) && AtLeast(completeness, 0.5))
            && (f == RetrievalPartial <==> !AtLeast(relevance, 0.3))
            && (f == ContextInsufficient <==> AtLeast(relevance, 0.3) && !AtLeast(coverage, 0.4))
  {
  }

  /** The labels, each with the scores it stands for. */
  lemma LabelsMean(hits: seq<Retrieved>, query: string, expected: Option<string>)
    ensures var e := MinimalEvaluation(hits, query, expected);
            && (e.failure == RetrievalMiss <==> hits == [])
            && (e.failure == NoFailure <==>
                  hits != [] && AtLeast(e.relevance, 0.3) && AtLeast(e.coverage, 0.4) && AtLeast(e.completeness, 0.5))
            && (e.failure == RetrievalPartial <==> !AtLeast(e.relevance, 0.3))
            && (e.failure == ContextInsufficient <==> AtLeast(e.relevance, 0.3) && !AtLeast(e.coverage, 0.4))
  {
    if hits != [] {
      var e := MinimalEvaluation(hits, query, expected);
      ClassifyMeans(e.relevance, e.coverage, e.completeness);
    }
  }

  /** The judge is skipped exactly when the best hit scores at least 0.88, the mean at least 0.55, and at
      least 0.42 of the query's tokens are found. */
  lemma GateMeans(hits: seq<Retrieved>, query: string)
    requires Falling(hits) && hits != []
    ensures HybridGate(hits, query) <==>
              && hits[0].score >= 0.88 && Mean(hits) >= 0.55 && SignificantTokens(query) != {}
              && TokenRecall(SignificantTokens(query), ChunkText(hits)).value >= 0.42
  {
    MaxIsFirst(hits);
  }

  // ----- Growing top_k -----------------------------------------------------------------------------------

  predicate Falling(hits: seq<Retrieved>) {
    forall i, j :: 0 <= i < j < |hits| ==> hits[i].score >= hits[j].score
  }

  lemma {:induction false} TotalAtLeast(hits: seq<Retrieved>, low: real)
    requires forall i :: 0 <= i < |hits| ==> hits[i].score >= low
    ensures TotalScore(hits) >= |hits| as real * low
  {
    if hits != [] {
      TotalAtLeast(hits[..|hits| - 1], low);
    }
  }

  lemma DivideBoth(a: real, b: real, n: real)
    requires a <= b && n > 0.0
    ensures a / n <= b / n
  {
  }

  lemma MeanStep(total: real, n: real, next: real)
    requires n >= 1.0 && total >= n * next
    ensures (total + next) / (n + 1.0) <= total / n
  {
    var mean := total / n;
    assert mean * n == total;
    DivideBoth(n * next, total, n);
    assert (n * next) / n == next;
    assert total + next <= mean * (n + 1.0);
  }

  lemma {:induction false} MeanFalls(hits: seq<Retrieved>, k: nat)
    requires Falling(hits) && 1 <= k <= |hits|
    ensures Mean(hits) <= Mean(hits[..k])
    decreases |hits|
  {
    if k == |hits| {
      assert hits[..k] == hits;
    } else {
      var front, next := hits[..|hits| - 1], hits[|hits| - 1].score;
      assert front[..k] == hits[..k];
      MeanFalls(front, k);
      TotalAtLeast(front, next);
      MeanStep(TotalScore(front), |front| as real, next);
    }
  }

  predicate NotAbove(a: Option<real>, b: Option<real>) {
    a.Some? == b.Some? && (a.Some? ==> a.value <= b.value)
  }

  lemma RecallGrows(wanted: set<string>, small: set<string>, large: set<string>)
    requires small <= large
    ensures NotAbove(Recall(wanted, small), Recall(wanted, large))
  {
    RecallMeans(wanted, large);
    if wanted != {} && small != {} {
      SubsetSize(wanted * small, wanted * large);
      RatioGrows(|wanted * small|, |wanted * large|, |wanted|);
    }
  }

  lemma RatioGrows(a: nat, b: nat, whole: nat)
    requires a <= b && whole > 0
    ensures a as real / whole as real <= b as real / whole as real
  {
  }

  lemma PrefixTokens(hits: seq<Retrieved>, k: nat)
    requires k <= |hits|
    ensures SignificantTokens(ChunkText(hits[..k])) <= SignificantTokens(ChunkText(hits))
  {
    TokensOfJoin(Bodies(hits));
    TokensOfJoin(Bodies(hits[..k]));
    assert Bodies(hits[..k]) == Bodies(hits)[..k];
    TokensOfPrefix(Bodies(hits), k);
  }

  lemma RecallOfPrefix(hits: seq<Retrieved>, k: nat, wanted: set<string>)
    requires 1 <= k <= |hits|
    ensures NotAbove(TokenRecall(wanted, ChunkText(hits[..k])), TokenRecall(wanted, ChunkText(hits)))
  {
    PrefixTokens(hits, k);
    RecallGrows(wanted, SignificantTokens(ChunkText(hits[..k])), SignificantTokens(ChunkText(hits)));
  }

  /** Retrieving more of the same hits never raises mean relevance, and never lowers context coverage,
      completeness or the lexical faithfulness of a given answer. */
  lemma TopKTradeOff(hits: seq<Retrieved>, k: nat, query: string, expected: Option<string>, answer: string)
    requires Falling(hits) && 1 <= k <= |hits|
    ensures var few := HybridSkippedEvaluation(hits[..k], query, expected, answer);
            var many := HybridSkippedEvaluation(hits, query, expected, answer);
            && NotAbove(many.relevance, few.relevance)
            && NotAbove(few.coverage, many.coverage)
            && NotAbove(few.completeness, many.completeness)
            && NotAbove(few.faithfulness, many.faithfulness)
  {
    MeanFalls(hits, k);
    RecallOfPrefix(hits, k, SignificantTokens(query));
    RecallOfPrefix(hits, k, SignificantTokens(answer));
    if expected.Some? {
      RecallOfPrefix(hits, k, SignificantTokens(expected.value));
    }
  }

  /** The order in which the failure label can move as `top_k` grows. */
  function Stage(f: FailureLabel): nat {
    match f
    case RetrievalMiss => 0
    case ContextInsufficient => 1
    case AnswerIncomplete => 2
    case NoFailure => 3
    case RetrievalPartial => 4
  }

  /** As `top_k` grows the label only moves one way: lack of context is cured first, then lack of
      completeness, until the falling mean relevance makes the run a partial retrieval for good. */
  lemma LabelOnlyAdvances(hits: seq<Retrieved>, k: nat, query: string, expected: Option<string>)
    requires Falling(hits) && k <= |hits|
    ensures Stage(MinimalEvaluation(hits[..k], query, expected).failure) <=
            Stage(MinimalEvaluation(hits, query, expected).failure)
  {
    if k > 0 {
      TopKTradeOff(hits, k, query, expected, "");
      var few, many := MinimalEvaluation(hits[..k], query, expected), MinimalEvaluation(hits, query, expected);
      ClassifyAdvances(few, many);
    }
  }

  lemma ClassifyAdvances(few: Evaluation, many: Evaluation)
    requires NotAbove(many.relevance, few.relevance)
    requires NotAbove(few.coverage, many.coverage) && NotAbove(few.completeness, many.completeness)
    ensures Stage(Classify(false, few.relevance, few.coverage, few.completeness)) <=
            Stage(Classify(false, many.relevance, many.coverage, many.completeness))
  {
  }

  lemma {:induction false} MaxIsFirst(hits: seq<Retrieved>)
    requires Falling(hits) && hits != []
    ensures MaxScore(hits) == hits[0].score
  {
    if |hits| > 1 {
      MaxIsFirst(hits[1..]);
    }
  }

  lemma GateBetween(maxScore: real, few: Evaluation, mid: Evaluation, many: Evaluation)
    requires GatePasses(maxScore, few.relevance, few.coverage) && GatePasses(maxScore, many.relevance, many.coverage)
    requires NotAbove(few.coverage, mid.coverage) && NotAbove(many.relevance, mid.relevance)
    ensures GatePasses(maxScore, mid.relevance, mid.coverage)
  {
  }

  lemma MoreHits(few: seq<Retrieved>, many: seq<Retrieved>, query: string)
    requires Falling(many) && 1 <= |few| <= |many| && few == many[..|few|]
    ensures var e, f := MinimalEvaluation(few, query, None), MinimalEvaluation(many, query, None);
            NotAbove(f.relevance, e.relevance) && NotAbove(e.coverage, f.coverage)
    ensures MaxScore(few) == MaxScore(many)
  {
    TopKTradeOff(many, |few|, query, None, "");
    MaxIsFirst(few);
    MaxIsFirst(many);
  }

  lemma GateOfThree(few: seq<Retrieved>, mid: seq<Retrieved>, many: seq<Retrieved>, query: string)
    requires Falling(many) && 1 <= |few| <= |mid| <= |many| && few == mid[..|few|] && mid == many[..|mid|]
    requires HybridGate(few, query) && HybridGate(many, query)
    ensures HybridGate(mid, query)
  {
    MoreHits(few, mid, query);
    MoreHits(mid, many, query);
    GateBetween(MaxScore(mid), MinimalEvaluation(few, query, None), MinimalEvaluation(mid, query, None),
                MinimalEvaluation(many, query, None));
  }

  /** The values of `top_k` that let a run skip the judge form an interval: if the gate passes with
      few hits and with many, it passes in between. */
  lemma GateIsInterval(hits: seq<Retrieved>, k: nat, m: nat, query: string)
    requires Falling(hits) && k <= m <= |hits|
    ensures HybridGate(hits[..k], query) && HybridGate(hits, query) ==> HybridGate(hits[..m], query)
  {
    if k > 0 && HybridGate(hits[..k], query) && HybridGate(hits, query) {
      GateOfThree(hits[..k], hits[..m], hits, query);
    }
  }
}
