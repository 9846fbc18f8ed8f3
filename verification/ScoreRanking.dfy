/** The best and the worst config of a comparison by one average score, and how far apart they are. */
module ScoreRanking {
  import opened Basics
  import opened Lists

  /** A config's shown average, if it has one. */
  datatype Entry = Entry(config: int, traced: nat, score: Option<real>)

  datatype Ranking = Ranking(best: Entry, worst: Entry)

  const SCORE_EPS := 0.000000001

  predicate CanRank(e: Entry) {
    e.traced > 0 && e.score.Some?
  }

  function Eligible(entries: seq<Entry>): seq<Entry> {
    Select(entries, CanRank)
  }

  /** Higher score first, then lower config id. */
  predicate Beats(a: Entry, b: Entry)
    requires a.score.Some? && b.score.Some?
  {
    a.score.value > b.score.value || (a.score.value == b.score.value && a.config < b.config)
  }

  /** Lower score first, then lower config id. */
  predicate Trails(a: Entry, b: Entry)
    requires a.score.Some? && b.score.Some?
  {
    a.score.value < b.score.value || (a.score.value == b.score.value && a.config < b.config)
  }

  predicate AllScored(entries: seq<Entry>) {
    forall e :: e in entries ==> e.score.Some?
  }

  function First(entries: seq<Entry>): (first: Entry)
    requires entries != [] && AllScored(entries)
    ensures first in entries
  {
    if |entries| == 1 then entries[0]
    else
      var before := First(entries[..|entries| - 1]);
      if Beats(entries[|entries| - 1], before) then entries[|entries| - 1] else before
  }

  function Last(entries: seq<Entry>): (last: Entry)
    requires entries != [] && AllScored(entries)
    ensures last in entries
  {
    if |entries| == 1 then entries[0]
    else
      var before := Last(entries[..|entries| - 1]);
      if Trails(entries[|entries| - 1], before) then entries[|entries| - 1] else before
  }

  lemma EligibleScored(entries: seq<Entry>)
    ensures AllScored(Eligible(entries))
  {
    forall e | e in Eligible(entries)
      ensures e.score.Some?
    {
      SelectMembers(entries, CanRank, e);
    }
  }

  /** `_rank_avg_dimension` */
  function Rank(entries: seq<Entry>): Option<Ranking> {
    EligibleScored(entries);
    var eligible := Eligible(entries);
    if eligible == [] then None else Some(Ranking(First(eligible), Last(eligible)))
  }

  lemma {:induction false} FirstMeans(entries: seq<Entry>, e: Entry)
    requires e in entries && AllScored(entries)
    ensures First(entries) in entries && !Beats(e, First(entries))
  {
    if |entries| > 1 {
      var front := entries[..|entries| - 1];
      assert front[0] in entries && forall x :: x in entries <==> x in front || x == entries[|entries| - 1];
      FirstMeans(front, if e in front then e else front[0]);
    }
  }

  lemma {:induction false} LastMeans(entries: seq<Entry>, e: Entry)
    requires e in entries && AllScored(entries)
    ensures Last(entries) in entries && !Trails(e, Last(entries))
  {
    if |entries| > 1 {
      var front := entries[..|entries| - 1];
      assert front[0] in entries && forall x :: x in entries <==> x in front || x == entries[|entries| - 1];
      LastMeans(front, if e in front then e else front[0]);
    }
  }

  /** There is a ranking iff some traced config has the score; then best and worst are such configs, no
      such config scores above the best or below the worst, and ties go to the lower config id. */
  lemma RankMeans(entries: seq<Entry>, e: Entry)
    ensures e in entries && CanRank(e) ==>
              && Rank(entries).Some?
              && var r := Rank(entries).value;
                 && r.best.score.Some? && r.worst.score.Some?
                 && r.worst.score.value <= e.score.value <= r.best.score.value
                 && (e.score == r.best.score ==> r.best.config <= e.config)
                 && (e.score == r.worst.score ==> r.worst.config <= e.config)
    ensures Rank(entries).Some? ==>
              var r := Rank(entries).value;
              r.best in entries && CanRank(r.best) && r.worst in entries && CanRank(r.worst)
  {
    var eligible := Eligible(entries);
    EligibleScored(entries);
    if eligible != [] {
      FirstMeans(eligible, eligible[0]);
      LastMeans(eligible, eligible[0]);
      SelectMembers(entries, CanRank, First(eligible));
      SelectMembers(entries, CanRank, Last(eligible));
    }
    if e in entries && CanRank(e) {
      SelectMembers(entries, CanRank, e);
      FirstMeans(eligible, e);
      LastMeans(eligible, e);
    }
  }

  /** `_delta_pct` */
  function DeltaPercent(best: real, worst: real): Option<real> {
    if -SCORE_EPS < best - worst < SCORE_EPS then Some(0.0)
    else if worst > SCORE_EPS then Some(100.0 * (best - worst) / worst)
    else None
  }

  /** The stated percentage, added to the worst score, gives the best one, up to the tolerance; it is never
      negative, and it is missing exactly when the scores differ and the worst is not positive. */
  lemma DeltaMeans(best: real, worst: real)
    requires best >= worst
    ensures var d := DeltaPercent(best, worst);
            && (d.None? <==> best - worst >= 0.000000001 && worst <= 0.000000001)
            && (d.Some? ==>
                  d.value >= 0.0 && best - 0.000000001 < worst + worst * d.value / 100.0 <= best)
  {
    var d := DeltaPercent(best, worst);
    if d.Some? && best - worst >= SCORE_EPS {
      DeltaScales(best - worst, worst);
    }
  }

  lemma DeltaScales(gap: real, worst: real)
    requires gap >= 0.0 && worst > 0.0
    ensures 100.0 * gap / worst >= 0.0 && worst * (100.0 * gap / worst) / 100.0 == gap
  {
    var d := 100.0 * gap / worst;
    assert d * worst == 100.0 * gap;
  }
}
