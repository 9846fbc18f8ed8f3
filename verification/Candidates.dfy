/** Bucketing and scoring of the runs a diagnosis experiment can use. */
module Candidates {
  import opened Basics
  import opened Text
  import opened Lists

  datatype Bucket = RetrievalRelated | GenerationIncomplete | MixedAmbiguous | EasyControl

  const ALL_BUCKETS: seq<Bucket> := [RetrievalRelated, GenerationIncomplete, MixedAmbiguous, EasyControl]

  const FAILURE_TO_BUCKET: map<string, Bucket> := map[
    "RETRIEVAL_MISS" := RetrievalRelated,
    "RETRIEVAL_PARTIAL" := RetrievalRelated,
    "CHUNK_FRAGMENTATION" := RetrievalRelated,
    "ANSWER_UNSUPPORTED" := GenerationIncomplete,
    "ANSWER_INCOMPLETE" := GenerationIncomplete,
    "CONTEXT_TRUNCATION" := GenerationIncomplete,
    "MIXED_FAILURE" := MixedAmbiguous,
    "UNKNOWN" := MixedAmbiguous,
    "CONTEXT_INSUFFICIENT" := MixedAmbiguous,
    "NO_FAILURE" := EasyControl]

  datatype Candidate = Candidate(runId: int, failure: string, query: string, queryCase: int,
                                 relevance: Option<real>, coverage: Option<real>,
                                 completeness: Option<real>, faithfulness: Option<real>,
                                 manualSessions: nat, assistedSessions: nat)

  /** A line of the rationale, with the number it shows. */
  datatype Reason =
    | ControlPenalty(amount: real)
    | HasFailure(failure: string)
    | DifficultyBonus(amount: real, difficulty: real)
    | RepeatQuery(place: nat, amount: real)
    | ExistingSessions(total: nat, amount: real)

  datatype Scored = Scored(candidate: Candidate, bucket: Bucket, score: real, reasons: seq<Reason>)

  function ClassifyBucket(failure: string): Bucket {
    if failure == "" then EasyControl
    else if Strip(failure) in FAILURE_TO_BUCKET then FAILURE_TO_BUCKET[Strip(failure)]
    else MixedAmbiguous
  }

  // ----- Difficulty ---------------------------------------------------------------------------------

  function Clamp(x: real): real {
    if x < 0.0 then 0.0 else if x > 1.0 then 1.0 else x
  }

  /** A missing score is neutral. */
  function Hardness(score: Option<real>): real {
    if score.Some? then 1.0 - Clamp(score.value) else 0.5
  }

  function EvalScores(c: Candidate): seq<Option<real>> {
    [c.relevance, c.coverage, c.completeness, c.faithfulness]
  }

  function TotalHardness(scores: seq<Option<real>>): real {
    if scores == [] then 0.0 else TotalHardness(scores[..|scores| - 1]) + Hardness(scores[|scores| - 1])
  }

  function Difficulty(c: Candidate): real {
    TotalHardness(EvalScores(c)) / 4.0
  }

  method ComputeDifficulty(c: Candidate) returns (d: real)
    ensures d == Difficulty(c) && 0.0 <= d <= 1.0
  {
    var scores := EvalScores(c);
    var total, i := 0.0, 0;
    while i < |scores|
      invariant 0 <= i <= |scores|
      invariant total == TotalHardness(scores[..i])
    {
      total := total + Hardness(scores[i]);
      assert scores[..i + 1][..i] == scores[..i];
      i := i + 1;
    }
    assert scores[..i] == scores;
    d := total / |scores| as real;
    DifficultyBounds(c);
  }

  lemma {:induction false} HardnessBounds(scores: seq<Option<real>>)
    ensures 0.0 <= TotalHardness(scores) <= |scores| as real
  {
    if scores != [] {
      HardnessBounds(scores[..|scores| - 1]);
    }
  }

  lemma DifficultyBounds(c: Candidate)
    ensures 0.0 <= Difficulty(c) <= 1.0
  {
    HardnessBounds(EvalScores(c));
  }

  /** The four components, one by one. */
  lemma DifficultyIs(c: Candidate)
    ensures 4.0 * Difficulty(c) ==
            Hardness(c.relevance) + Hardness(c.coverage) + Hardness(c.completeness) + Hardness(c.faithfulness)
  {
    var one, two, three := [c.relevance], [c.relevance, c.coverage], [c.relevance, c.coverage, c.completeness];
    assert [] + [c.relevance] == one && one + [c.coverage] == two && two + [c.completeness] == three;
    assert three + [c.faithfulness] == EvalScores(c);
    AddHardness([], c.relevance);
    AddHardness(one, c.coverage);
    AddHardness(two, c.completeness);
    AddHardness(three, c.faithfulness);
  }

  lemma AddHardness(scores: seq<Option<real>>, score: Option<real>)
    ensures TotalHardness(scores + [score]) == TotalHardness(scores) + Hardness(score)
  {
    assert (scores + [score])[..|scores|] == scores;
  }

  /** Both missing, or both known and the first not above the second. */
  predicate NoBetter(a: Option<real>, b: Option<real>) {
    a.Some? == b.Some? && (a.Some? ==> a.value <= b.value)
  }

  /** Known, and lower by an amount that counts. */
  predicate Worse(a: Option<real>, b: Option<real>) {
    a.Some? && b.Some? && a.value < b.value && a.value < 1.0 && b.value > 0.0
  }

  /** `a` has nowhere a better score than `b`. */
  predicate NowhereBetter(a: Candidate, b: Candidate) {
    && NoBetter(a.relevance, b.relevance) && NoBetter(a.coverage, b.coverage)
    && NoBetter(a.completeness, b.completeness) && NoBetter(a.faithfulness, b.faithfulness)
  }

  predicate SomewhereWorse(a: Candidate, b: Candidate) {
    || Worse(a.relevance, b.relevance) || Worse(a.coverage, b.coverage)
    || Worse(a.completeness, b.completeness) || Worse(a.faithfulness, b.faithfulness)
  }

  /** Lower evaluation scores mean a harder run: strictly so as soon as one score is lower within 0 and 1. */
  lemma LowerScoresAreHarder(a: Candidate, b: Candidate)
    requires NowhereBetter(a, b)
    ensures Difficulty(a) >= Difficulty(b)
    ensures SomewhereWorse(a, b) <==> Difficulty(a) > Difficulty(b)
  {
    DifficultyIs(a);
    DifficultyIs(b);
  }

  predicate Perfect(score: Option<real>) {
    score.Some? && score.value >= 1.0
  }

  predicate Worthless(score: Option<real>) {
    score.Some? && score.value <= 0.0
  }

  /** A run is as easy as can be exactly when all four scores are known and full, and as hard as can be
      exactly when all four are known and nil. */
  lemma DifficultyExtremes(c: Candidate)
    ensures Difficulty(c) == 0.0 <==>
              Perfect(c.relevance) && Perfect(c.coverage) && Perfect(c.completeness) && Perfect(c.faithfulness)
    ensures Difficulty(c) == 1.0 <==>
              Worthless(c.relevance) && Worthless(c.coverage) && Worthless(c.completeness) && Worthless(c.faithfulness)
  {
    DifficultyIs(c);
  }

  /** A missing score counts like a score of one half. */
  lemma MissingIsNeutral(c: Candidate)
    requires c.relevance.None?
    ensures Difficulty(c) == Difficulty(c.(relevance := Some(0.5)))
  {
    DifficultyIs(c);
    DifficultyIs(c.(relevance := Some(0.5)));
  }

  // ----- Scoring --------------------------------------------------------------------------------------

  datatype Weights = Weights(noFailure: real, repeat: real, session: real, difficulty: real)

  const DEFAULT_WEIGHTS := Weights(-50.0, -30.0, -10.0, 20.0)

  /** The score of a candidate whose query was already met `seen` times. */
  function Score(w: Weights, c: Candidate, seen: nat): real {
    var sessions := c.manualSessions + c.assistedSessions;
    Amount(BaseReason(w, c))
    + Difficulty(c) * w.difficulty
    + (if seen > 0 then w.repeat * seen as real else 0.0)
    + (if sessions > 0 then w.session * sessions as real else 0.0)
  }

  function When(holds: bool, r: Reason): seq<Reason> {
    if holds then [r] else []
  }

  function BaseReason(w: Weights, c: Candidate): Reason {
    if ClassifyBucket(c.failure) == EasyControl then ControlPenalty(w.noFailure) else HasFailure(c.failure)
  }

  function BonusReason(w: Weights, c: Candidate): Reason {
    DifficultyBonus(Difficulty(c) * w.difficulty, Difficulty(c))
  }

  function RepeatReason(w: Weights, seen: nat): Reason {
    RepeatQuery(seen + 1, w.repeat * seen as real)
  }

  function SessionReason(w: Weights, c: Candidate): Reason {
    ExistingSessions(c.manualSessions + c.assistedSessions, w.session * (c.manualSessions + c.assistedSessions) as real)
  }

  function Reasons(w: Weights, c: Candidate, seen: nat): seq<Reason> {
    [BaseReason(w, c)]
    + When(Difficulty(c) * w.difficulty > 0.0, BonusReason(w, c))
    + When(seen > 0, RepeatReason(w, seen))
    + When(c.manualSessions + c.assistedSessions > 0, SessionReason(w, c))
  }

  function Amount(r: Reason): real {
    match r
    case HasFailure(_) => 40.0
    case _ => r.amount
  }

  function TotalAmount(reasons: seq<Reason>): real {
    if reasons == [] then 0.0 else TotalAmount(reasons[..|reasons| - 1]) + Amount(reasons[|reasons| - 1])
  }

  lemma AddReason(reasons: seq<Reason>, holds: bool, r: Reason)
    ensures TotalAmount(reasons + When(holds, r)) == TotalAmount(reasons) + if holds then Amount(r) else 0.0
  {
    if holds {
      assert (reasons + [r])[..|reasons|] == reasons;
    } else {
      assert reasons + [] == reasons;
    }
  }

  lemma TotalOfReasons(a: Reason, x: bool, b: Reason, y: bool, c: Reason, z: bool, d: Reason)
    ensures TotalAmount([a] + When(x, b) + When(y, c) + When(z, d)) ==
            Amount(a) + (if x then Amount(b) else 0.0) + (if y then Amount(c) else 0.0) + (if z then Amount(d) else 0.0)
  {
    assert [a][..0] == [] && TotalAmount([a]) == Amount(a);
    AddReason([a], x, b);
    AddReason([a] + When(x, b), y, c);
    AddReason([a] + When(x, b) + When(y, c), z, d);
  }

  /** The stated reasons add up to the score exactly when no negative difficulty bonus is left out. */
  lemma ReasonsExplainScore(w: Weights, c: Candidate, seen: nat)
    ensures TotalAmount(Reasons(w, c, seen)) == Score(w, c, seen) <==> Difficulty(c) * w.difficulty >= 0.0
  {
    TotalOrMore(w, c, seen, Difficulty(c) * w.difficulty);
  }

  lemma TotalOrMore(w: Weights, c: Candidate, seen: nat, bonus: real)
    requires bonus == Difficulty(c) * w.difficulty
    ensures TotalAmount(Reasons(w, c, seen)) == Score(w, c, seen) + if bonus < 0.0 then -bonus else 0.0
  {
    var sessions := c.manualSessions + c.assistedSessions;
    TotalOfReasons(BaseReason(w, c), bonus > 0.0, BonusReason(w, c), seen > 0, RepeatReason(w, seen),
                   sessions > 0, SessionReason(w, c));
  }

  /** With the default weights they always do. */
  lemma DefaultReasonsExplain(c: Candidate, seen: nat)
    ensures TotalAmount(Reasons(DEFAULT_WEIGHTS, c, seen)) == Score(DEFAULT_WEIGHTS, c, seen)
  {
    DifficultyBounds(c);
    ReasonsExplainScore(DEFAULT_WEIGHTS, c, seen);
  }

  /** With a negative difficulty weight a candidate without scores, of neutral difficulty, loses points
      that no reason states. */
  lemma HiddenPenalty(c: Candidate, seen: nat)
    requires EvalScores(c) == [None, None, None, None]
    ensures var w := DEFAULT_WEIGHTS.(difficulty := -20.0);
            TotalAmount(Reasons(w, c, seen)) == Score(w, c, seen) + 10.0
  {
    var w := DEFAULT_WEIGHTS.(difficulty := -20.0);
    NeutralDifficulty(c);
    TotalOfReasons(BaseReason(w, c), false, BonusReason(w, c), seen > 0, RepeatReason(w, seen),
                   c.manualSessions + c.assistedSessions > 0, SessionReason(w, c));
  }

  lemma NeutralDifficulty(c: Candidate)
    requires EvalScores(c) == [None, None, None, None]
    ensures Difficulty(c) == 0.5
  {
    DifficultyIs(c);
    assert EvalScores(c)[0] == EvalScores(c)[1] == EvalScores(c)[2] == EvalScores(c)[3] == None;
  }

  /** How many candidates of `cs` have the query key `key`. */
  function Met(cs: seq<Candidate>, key: string -> string, k: string): nat {
    if cs == [] then 0
    else Met(cs[..|cs| - 1], key, k) + if key(cs[|cs| - 1].query) == k then 1 else 0
  }

  function Marked(w: Weights, cs: seq<Candidate>, key: string -> string): seq<Scored> {
    seq(|cs|, i requires 0 <= i < |cs| => Mark(w, cs, key, i))
  }

  function MarkedAs(w: Weights, c: Candidate, seen: nat): Scored {
    Scored(c, ClassifyBucket(c.failure), Score(w, c, seen), Reasons(w, c, seen))
  }

  function Mark(w: Weights, cs: seq<Candidate>, key: string -> string, i: nat): Scored
    requires i < |cs|
  {
    var seen := Met(cs[..i], key, key(cs[i].query));
    MarkedAs(w, cs[i], seen)
  }

  /** Higher score first, then higher run id. */
  function ScoreOrder(): (Scored, Scored) -> bool {
    (a: Scored, b: Scored) => a.score > b.score || (a.score == b.score && a.candidate.runId >= b.candidate.runId)
  }

  function Ranked(w: Weights, cs: seq<Candidate>, key: string -> string): seq<Scored> {
    Sort(Marked(w, cs, key), ScoreOrder())
  }

  lemma MarkedGrows(w: Weights, cs: seq<Candidate>, key: string -> string, i: nat)
    requires i < |cs|
    ensures Marked(w, cs, key)[..i + 1] ==
            Marked(w, cs, key)[..i] + [MarkedAs(w, cs[i], Met(cs[..i], key, key(cs[i].query)))]
    ensures forall k :: Met(cs[..i + 1], key, k) == Met(cs[..i], key, k) + if key(cs[i].query) == k then 1 else 0
  {
    assert cs[..i + 1][..i] == cs[..i];
  }

  /** `key` is the query fingerprint. */
  method ScoreCandidates(w: Weights, cs: seq<Candidate>, key: string -> string) returns (scored: seq<Scored>)
    ensures scored == Ranked(w, cs, key)
  {
    var seen: map<string, nat> := map[];
    scored := [];
    var i := 0;
    while i < |cs|
      invariant 0 <= i <= |cs|
      invariant scored == Marked(w, cs, key)[..i]
      invariant forall k :: (if k in seen then seen[k] else 0) == Met(cs[..i], key, k)
    {
      var c := cs[i];
      var k := key(c.query);
      var count := if k in seen then seen[k] else 0;
      MarkedGrows(w, cs, key, i);
      seen := seen[k := count + 1];
      scored := scored + [MarkedAs(w, c, count)];
      i := i + 1;
    }
    assert scored == Marked(w, cs, key);
    scored := Sort(scored, ScoreOrder());
  }

  lemma RankedIsSorted(w: Weights, cs: seq<Candidate>, key: string -> string)
    ensures multiset(Ranked(w, cs, key)) == multiset(Marked(w, cs, key))
    ensures SortedBy(Ranked(w, cs, key), ScoreOrder())
    ensures var ranked := Ranked(w, cs, key);
            forall i, j :: 0 <= i < j < |ranked| ==>
              || ranked[i].score > ranked[j].score
              || (ranked[i].score == ranked[j].score && ranked[i].candidate.runId >= ranked[j].candidate.runId)
  {
    SortKeepsAll(Marked(w, cs, key), ScoreOrder());
    SortSorts(Marked(w, cs, key), ScoreOrder());
    var ranked := Ranked(w, cs, key);
    assert forall i, j :: 0 <= i < j < |ranked| ==> ScoreOrder()(ranked[i], ranked[j]);
  }

  predicate DistinctRuns(cs: seq<Candidate>) {
    forall i, j :: 0 <= i < j < |cs| ==> cs[i].runId != cs[j].runId
  }

  predicate DistinctIds(ss: seq<Scored>) {
    forall i, j :: 0 <= i < j < |ss| ==> ss[i].candidate.runId != ss[j].candidate.runId
  }

  /** With the default weights no difficulty makes up for one more repetition of the query: of two
      candidates of one bucket with equally many sessions, the one whose query is newer ranks first. */
  lemma RepeatOutweighsDifficulty(a: Candidate, b: Candidate, seenA: nat, seenB: nat)
    requires ClassifyBucket(a.failure) == ClassifyBucket(b.failure)
    requires a.manualSessions + a.assistedSessions == b.manualSessions + b.assistedSessions
    requires seenA < seenB
    ensures Score(DEFAULT_WEIGHTS, a, seenA) > Score(DEFAULT_WEIGHTS, b, seenB)
  {
    DifficultyBounds(a);
    DifficultyBounds(b);
    assert seenB as real >= seenA as real + 1.0;
  }

  /** With the default weights a failed run always outranks a control run that has been used as often. */
  lemma FailureOutranksControl(a: Candidate, b: Candidate, seen: nat)
    requires ClassifyBucket(a.failure) != EasyControl && ClassifyBucket(b.failure) == EasyControl
    requires a.manualSessions + a.assistedSessions == b.manualSessions + b.assistedSessions
    ensures Score(DEFAULT_WEIGHTS, a, seen) - Score(DEFAULT_WEIGHTS, b, seen) ==
            90.0 + 20.0 * (Difficulty(a) - Difficulty(b))
    ensures Score(DEFAULT_WEIGHTS, a, seen) >= Score(DEFAULT_WEIGHTS, b, seen) + 70.0
  {
    DifficultyBounds(a);
    DifficultyBounds(b);
  }

  predicate SameSessions(a: Candidate, b: Candidate) {
    a.manualSessions + a.assistedSessions == b.manualSessions + b.assistedSessions
  }

  /** With the default weights, of two candidates of one bucket, seen and used as often, the harder one
      scores more: by 20 for the whole range of difficulty. */
  lemma HarderScoresMore(a: Candidate, b: Candidate, seen: nat)
    requires ClassifyBucket(a.failure) == ClassifyBucket(b.failure) && SameSessions(a, b)
    ensures Score(DEFAULT_WEIGHTS, a, seen) - Score(DEFAULT_WEIGHTS, b, seen) == 20.0 * (Difficulty(a) - Difficulty(b))
    ensures NowhereBetter(a, b) && SomewhereWorse(a, b) ==>
              Score(DEFAULT_WEIGHTS, a, seen) > Score(DEFAULT_WEIGHTS, b, seen)
  {
    if NowhereBetter(a, b) {
      LowerScoresAreHarder(a, b);
    }
  }

  /** With the default weights a repetition costs 30, and a recorded session 10. */
  lemma RepeatAndSessionCost(a: Candidate, b: Candidate, seen: nat, more: nat)
    requires a == b.(manualSessions := a.manualSessions, assistedSessions := a.assistedSessions)
    ensures var used := b.manualSessions + b.assistedSessions - a.manualSessions - a.assistedSessions;
            Score(DEFAULT_WEIGHTS, a, seen) - Score(DEFAULT_WEIGHTS, b, seen + more) ==
            30.0 * more as real + 10.0 * used as real
  {
    assert Difficulty(a) == Difficulty(b) by {
      assert EvalScores(a) == EvalScores(b);
    }
    assert BaseReason(DEFAULT_WEIGHTS, a) == BaseReason(DEFAULT_WEIGHTS, b);
  }

  /** A failed run of neutral difficulty, with a new query and no sessions, scores 50, a control one -40. */
  lemma NeutralScore(c: Candidate)
    requires EvalScores(c) == [None, None, None, None] && c.manualSessions == c.assistedSessions == 0
    ensures Score(DEFAULT_WEIGHTS, c, 0) == if ClassifyBucket(c.failure) == EasyControl then -40.0 else 50.0
  {
    NeutralDifficulty(c);
  }

  /** Which labels a bucket holds, spaces around a label aside. */
  lemma BucketLabels(failure: string)
    requires failure != ""
    ensures ClassifyBucket(failure) == RetrievalRelated <==>
              Strip(failure) in {"RETRIEVAL_MISS", "RETRIEVAL_PARTIAL", "CHUNK_FRAGMENTATION"}
    ensures ClassifyBucket(failure) == GenerationIncomplete <==>
              Strip(failure) in {"ANSWER_UNSUPPORTED", "ANSWER_INCOMPLETE", "CONTEXT_TRUNCATION"}
    ensures ClassifyBucket(failure) == EasyControl <==> Strip(failure) == "NO_FAILURE"
  {
  }

  /** Controls are the runs without a failure label and those labelled as no failure; a label the table
      does not know is ambiguous. */
  lemma ControlIff(failure: string)
    ensures ClassifyBucket(failure) == EasyControl <==> failure == "" || Strip(failure) == "NO_FAILURE"
    ensures failure != "" && Strip(failure) !in FAILURE_TO_BUCKET ==> ClassifyBucket(failure) == MixedAmbiguous
  {
  }

  /** Scoring and sorting neither lose nor invent a run. */
  lemma RankedKeepsDistinct(w: Weights, cs: seq<Candidate>, key: string -> string)
    requires DistinctRuns(cs)
    ensures DistinctIds(Ranked(w, cs, key)) && |Ranked(w, cs, key)| == |cs|
  {
    var marked, ranked := Marked(w, cs, key), Ranked(w, cs, key);
    RankedIsSorted(w, cs, key);
    assert |ranked| == |multiset(ranked)| == |multiset(marked)| == |marked|;
    SameIds(marked, ranked);
  }

  /** Two places of one sequence that hold the same element. */
  lemma TwicePresent(ss: seq<Scored>, i: nat, j: nat)
    requires i < j < |ss| && ss[i] == ss[j]
    ensures multiset(ss)[ss[i]] >= 2
  {
    assert ss == ss[..i] + [ss[i]] + ss[i + 1..j] + [ss[j]] + ss[j + 1..];
  }

  lemma {:induction false} OncePresent(ss: seq<Scored>, x: Scored)
    requires DistinctIds(ss)
    ensures multiset(ss)[x] <= 1
  {
    if ss != [] {
      OncePresent(ss[1..], x);
      assert ss == [ss[0]] + ss[1..];
      if x == ss[0] {
        assert x !in ss[1..];
      }
    }
  }

  /** Taking elements out of a sequence without repeated runs cannot repeat a run. */
  lemma SameIds(ss: seq<Scored>, taken: seq<Scored>)
    requires DistinctIds(ss) && multiset(taken) <= multiset(ss)
    ensures DistinctIds(taken)
  {
    forall i, j | 0 <= i < j < |taken|
      ensures taken[i].candidate.runId != taken[j].candidate.runId
    {
      assert taken[i] in multiset(taken) && taken[j] in multiset(taken);
      assert taken[i] in multiset(ss) && taken[j] in multiset(ss);
      var a :| 0 <= a < |ss| && ss[a] == taken[i];
      var b :| 0 <= b < |ss| && ss[b] == taken[j];
      if a == b {
        TwicePresent(taken, i, j);
        OncePresent(ss, taken[i]);
        assert false;
      }
    }
  }
}
