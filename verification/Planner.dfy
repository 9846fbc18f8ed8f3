/** The greedy choice of manual and assisted runs, bucket by bucket. */
module Planner {
  import opened Basics
  import opened Lists
  import opened Candidates

  // ----- One bucket ----------------------------------------------------------------------------------

  datatype Groups = Groups(manual: seq<Scored>, assisted: seq<Scored>) {
    predicate Full(target: int) {
      |manual| >= target && |assisted| >= target
    }

    function Runs(): set<int> {
      Ids(manual) + Ids(assisted)
    }

    function All(): multiset<Scored> {
      multiset(manual) + multiset(assisted)
    }

    function Size(): nat {
      |manual| + |assisted|
    }
  }

  function Ids(ss: seq<Scored>): set<int> {
    set s | s in ss :: s.candidate.runId
  }

  function Queries(ss: seq<Scored>): set<int> {
    set s | s in ss :: s.candidate.queryCase
  }

  datatype Mode = Manual | Assisted

  /** The group that takes a query, when at least one group has room. */
  function Choose(inManual: bool, inAssisted: bool, manualRoom: int, assistedRoom: int): Mode {
    var canManual := manualRoom > 0 && !inManual;
    var canAssisted := assistedRoom > 0 && !inAssisted;
    if canManual && canAssisted then (if manualRoom >= assistedRoom then Manual else Assisted)
    else if canManual then Manual
    else if canAssisted then Assisted
    else if manualRoom > 0 then Manual else Assisted
  }

  function Place(g: Groups, s: Scored, target: int): Groups {
    var q := s.candidate.queryCase;
    var manualRoom, assistedRoom := target - |g.manual|, target - |g.assisted|;
    if g.Full(target) || s.candidate.runId in g.Runs() then g
    else if Choose(q in Queries(g.manual), q in Queries(g.assisted), manualRoom, assistedRoom) == Manual
    then g.(manual := g.manual + [s])
    else g.(assisted := g.assisted + [s])
  }

  /** The groups after all of `pool`, in order. */
  function Assign(pool: seq<Scored>, target: int): Groups {
    if pool == [] then Groups([], []) else Place(Assign(pool[..|pool| - 1], target), pool[|pool| - 1], target)
  }

  lemma {:induction false} FullStays(pool: seq<Scored>, i: nat, target: int)
    requires i <= |pool| && Assign(pool[..i], target).Full(target)
    ensures Assign(pool, target) == Assign(pool[..i], target)
    decreases |pool|
  {
    if i < |pool| {
      var front := pool[..|pool| - 1];
      assert front[..i] == pool[..i];
      FullStays(front, i, target);
    } else {
      assert pool[..i] == pool;
    }
  }

  lemma AssignTurn(pool: seq<Scored>, i: nat, target: int)
    requires i < |pool|
    ensures Assign(pool[..i + 1], target) == Place(Assign(pool[..i], target), pool[i], target)
  {
    assert pool[..i + 1][..i] == pool[..i];
  }

  lemma AddQuery(ss: seq<Scored>, s: Scored)
    ensures Queries(ss + [s]) == Queries(ss) + {s.candidate.queryCase}
    ensures Ids(ss + [s]) == Ids(ss) + {s.candidate.runId}
  {
  }

  method AssignBucket(pool: seq<Scored>, target: int) returns (g: Groups)
    ensures g == Assign(pool, target)
  {
    g := Groups([], []);
    var usedManual: set<int>, usedAssisted: set<int>, placed: set<int> := {}, {}, {};
    var i := 0;
    while i < |pool|
      invariant 0 <= i <= |pool|
      invariant g == Assign(pool[..i], target)
      invariant usedManual == Queries(g.manual) && usedAssisted == Queries(g.assisted)
      invariant placed == g.Runs()
    {
      var s := pool[i];
      var q := s.candidate.queryCase;
      AssignTurn(pool, i, target);
      if s.candidate.runId !in placed {
        var manualRoom, assistedRoom := target - |g.manual|, target - |g.assisted|;
        if manualRoom <= 0 && assistedRoom <= 0 {
          FullStays(pool, i, target);
          return;
        }
        if Choose(q in usedManual, q in usedAssisted, manualRoom, assistedRoom) == Manual {
          AddQuery(g.manual, s);
          g := g.(manual := g.manual + [s]);
          usedManual := usedManual + {q};
        } else {
          AddQuery(g.assisted, s);
          g := g.(assisted := g.assisted + [s]);
          usedAssisted := usedAssisted + {q};
        }
        placed := placed + {s.candidate.runId};
      }
      i := i + 1;
    }
    assert pool[..i] == pool;
  }

  // ----- What one bucket gets --------------------------------------------------------------------------

  /** A run goes to a group with room, unless it is already placed or neither group has room. */
  lemma PlaceCases(g: Groups, s: Scored, target: int)
    ensures var h := Place(g, s, target);
            || (h == g && (g.Full(target) || s.candidate.runId in g.Runs()))
            || (h == g.(manual := g.manual + [s]) && |g.manual| < target && !g.Full(target) &&
                s.candidate.runId !in g.Runs())
            || (h == g.(assisted := g.assisted + [s]) && |g.assisted| < target && !g.Full(target) &&
                s.candidate.runId !in g.Runs())
  {
  }

  /** A query repeats inside a group only when the other group is full or already holds it. */
  lemma RepeatOnlyWhenForced(g: Groups, s: Scored, target: int)
    ensures var h, q := Place(g, s, target), s.candidate.queryCase;
            && (h.manual != g.manual && q in Queries(g.manual) ==> |g.assisted| >= target || q in Queries(g.assisted))
            && (h.assisted != g.assisted && q in Queries(g.assisted) ==> |g.manual| >= target || q in Queries(g.manual))
  {
  }

  predicate Repeats(ss: seq<Scored>, q: int) {
    exists i, j :: 0 <= i < j < |ss| && ss[i].candidate.queryCase == q && ss[j].candidate.queryCase == q
  }

  lemma RepeatsAdd(ss: seq<Scored>, s: Scored, q: int)
    ensures Repeats(ss + [s], q) ==> Repeats(ss, q) || (s.candidate.queryCase == q && q in Queries(ss))
  {
    if Repeats(ss + [s], q) {
      var all := ss + [s];
      var i, j :| 0 <= i < j < |all| && all[i].candidate.queryCase == q && all[j].candidate.queryCase == q;
      if j < |ss| {
        assert ss[i] == all[i] && ss[j] == all[j];
      } else {
        assert ss[i] in ss;
      }
    }
  }

  ghost predicate RepeatsForced(g: Groups, target: int, q: int) {
    && (Repeats(g.manual, q) ==> |g.assisted| >= target || q in Queries(g.assisted))
    && (Repeats(g.assisted, q) ==> |g.manual| >= target || q in Queries(g.manual))
  }

  lemma PlaceKeepsForced(g: Groups, s: Scored, target: int, q: int)
    requires RepeatsForced(g, target, q)
    ensures RepeatsForced(Place(g, s, target), target, q)
  {
    PlaceCases(g, s, target);
    RepeatOnlyWhenForced(g, s, target);
    AddQuery(g.manual, s);
    AddQuery(g.assisted, s);
    RepeatsAdd(g.manual, s, q);
    RepeatsAdd(g.assisted, s, q);
  }

  /** In every assignment, a query case that repeats inside one group is also held by the other, unless
      the other has no room. */
  lemma {:induction false} RepeatsAreForced(pool: seq<Scored>, target: int, q: int)
    ensures RepeatsForced(Assign(pool, target), target, q)
  {
    if pool != [] {
      RepeatsAreForced(pool[..|pool| - 1], target, q);
      PlaceKeepsForced(Assign(pool[..|pool| - 1], target), pool[|pool| - 1], target, q);
    }
  }

  ghost predicate FromPool(g: Groups, pool: seq<Scored>) {
    && (forall s :: s in g.manual ==> s in pool)
    && (forall s :: s in g.assisted ==> s in pool)
  }

  lemma {:induction false} AssignFromPool(pool: seq<Scored>, target: int)
    ensures FromPool(Assign(pool, target), pool)
  {
    if pool != [] {
      AssignFromPool(pool[..|pool| - 1], target);
    }
  }

  lemma NewRun(pool: seq<Scored>, g: Groups)
    requires pool != [] && DistinctIds(pool) && FromPool(g, pool[..|pool| - 1])
    ensures pool[|pool| - 1].candidate.runId !in g.Runs()
  {
  }

  lemma AddOne(pool: seq<Scored>, g: Groups, h: Groups)
    requires pool != []
    requires var s := pool[|pool| - 1]; h == g.(manual := g.manual + [s]) || h == g.(assisted := g.assisted + [s])
    requires g.All() == multiset(pool[..|pool| - 1])
    ensures h.All() == multiset(pool) && h.Size() == g.Size() + 1
  {
    assert pool == pool[..|pool| - 1] + [pool[|pool| - 1]];
  }

  ghost predicate TakesPrefix(pool: seq<Scored>, target: nat, g: Groups) {
    var n := Min(|pool|, 2 * target);
    && |g.manual| <= target && |g.assisted| <= target
    && g.Size() == n
    && g.All() == multiset(pool[..n])
  }

  lemma TakesOneMore(pool: seq<Scored>, target: nat, g: Groups)
    requires pool != [] && |pool| <= 2 * target
    requires TakesPrefix(pool[..|pool| - 1], target, g) && pool[|pool| - 1].candidate.runId !in g.Runs()
    ensures TakesPrefix(pool, target, Place(g, pool[|pool| - 1], target))
  {
    var front := pool[..|pool| - 1];
    assert front[..|front|] == front && pool[..|pool|] == pool;
    PlaceCases(g, pool[|pool| - 1], target);
    AddOne(pool, g, Place(g, pool[|pool| - 1], target));
  }

  lemma TakesNoMore(pool: seq<Scored>, target: nat, g: Groups)
    requires |pool| > 2 * target
    requires TakesPrefix(pool[..|pool| - 1], target, g)
    ensures g.Full(target) && TakesPrefix(pool, target, g)
  {
    assert pool[..|pool| - 1][..2 * target] == pool[..2 * target];
  }

  /** A bucket gets exactly its first `min(available, 2 * target)` runs, at most `target` in each group. */
  lemma {:induction false} AssignTakesPrefix(pool: seq<Scored>, target: nat)
    requires DistinctIds(pool)
    ensures TakesPrefix(pool, target, Assign(pool, target))
  {
    if pool != [] {
      var front := pool[..|pool| - 1];
      AssignTakesPrefix(front, target);
      AssignFromPool(front, target);
      NewRun(pool, Assign(front, target));
      if |pool| <= 2 * target {
        TakesOneMore(pool, target, Assign(front, target));
      } else {
        TakesNoMore(pool, target, Assign(front, target));
      }
    }
  }

  ghost predicate GroupsSorted(g: Groups) {
    SortedBy(g.manual, ScoreOrder()) && SortedBy(g.assisted, ScoreOrder())
  }

  lemma SortedAdd(pool: seq<Scored>, ss: seq<Scored>)
    requires pool != [] && SortedBy(pool, ScoreOrder()) && SortedBy(ss, ScoreOrder())
    requires forall s :: s in ss ==> s in pool[..|pool| - 1]
    ensures SortedBy(ss + [pool[|pool| - 1]], ScoreOrder())
  {
    forall i | 0 <= i < |ss|
      ensures ScoreOrder()(ss[i], pool[|pool| - 1])
    {
      assert ss[i] in ss;
      var k :| 0 <= k < |pool| - 1 && pool[k] == ss[i];
    }
  }

  lemma {:induction false} AssignKeepsOrder(pool: seq<Scored>, target: int)
    requires SortedBy(pool, ScoreOrder())
    ensures GroupsSorted(Assign(pool, target))
  {
    if pool != [] {
      var front := pool[..|pool| - 1];
      AssignKeepsOrder(front, target);
      AssignFromPool(front, target);
      SortedAdd(pool, Assign(front, target).manual);
      SortedAdd(pool, Assign(front, target).assisted);
      PlaceCases(Assign(front, target), pool[|pool| - 1], target);
    }
  }

  lemma FirstAreAssigned(pool: seq<Scored>, target: nat, k: nat)
    requires k < |pool| && TakesPrefix(pool, target, Assign(pool, target))
    ensures pool[k] in Assign(pool, target).manual || pool[k] in Assign(pool, target).assisted || k >= 2 * target
  {
    var best := pool[..Min(|pool|, 2 * target)];
    if k < 2 * target {
      assert best[k] in multiset(best);
      assert pool[k] in Assign(pool, target).All();
    }
  }

  /** Nothing that was left out scores more than anything that was assigned. */
  lemma BestAreAssigned(pool: seq<Scored>, target: nat, k: nat, s: Scored)
    requires DistinctIds(pool) && SortedBy(pool, ScoreOrder()) && k < |pool|
    requires pool[k] !in Assign(pool, target).manual && pool[k] !in Assign(pool, target).assisted
    requires s in Assign(pool, target).manual || s in Assign(pool, target).assisted
    ensures s.score >= pool[k].score
  {
    AssignTakesPrefix(pool, target);
    FirstAreAssigned(pool, target, k);
    var best := pool[..Min(|pool|, 2 * target)];
    assert s in Assign(pool, target).All();
    assert s in best;
    var i :| 0 <= i < |best| && best[i] == s;
    assert ScoreOrder()(pool[i], pool[k]);
  }

  predicate DistinctQueries(ss: seq<Scored>) {
    forall i, j :: 0 <= i < j < |ss| ==> ss[i].candidate.queryCase != ss[j].candidate.queryCase
  }

  predicate Overlap(g: Groups) {
    Queries(g.manual) * Queries(g.assisted) != {}
  }

  /** The elements at even (or odd) places. */
  function Every2nd(ss: seq<Scored>, odd: bool): seq<Scored> {
    if ss == [] then []
    else Every2nd(ss[..|ss| - 1], odd) + if (|ss| % 2 == 0) == odd then [ss[|ss| - 1]] else []
  }

  lemma {:induction false} Every2ndSize(ss: seq<Scored>)
    ensures |Every2nd(ss, false)| == (|ss| + 1) / 2 && |Every2nd(ss, true)| == |ss| / 2
  {
    if ss != [] {
      Every2ndSize(ss[..|ss| - 1]);
    }
  }

  lemma ChooseInTurn(k: nat, target: nat)
    requires k < 2 * target
    ensures (Choose(false, false, target - (k + 1) / 2, target - k / 2) == Manual) == (k % 2 == 0)
  {
  }

  lemma Every2ndAdd(front: seq<Scored>, s: Scored, odd: bool)
    ensures Every2nd(front + [s], odd) ==
            if (|front| % 2 == 1) == odd then Every2nd(front, odd) + [s] else Every2nd(front, odd)
  {
    assert (front + [s])[..|front|] == front;
  }

  lemma PlaceInTurn(g: Groups, s: Scored, target: nat, k: nat)
    requires |g.manual| == (k + 1) / 2 && |g.assisted| == k / 2 && k < 2 * target
    requires s.candidate.runId !in g.Runs()
    requires s.candidate.queryCase !in Queries(g.manual) && s.candidate.queryCase !in Queries(g.assisted)
    ensures k % 2 == 0 ==> Place(g, s, target) == Groups(g.manual + [s], g.assisted)
    ensures k % 2 == 1 ==> Place(g, s, target) == Groups(g.manual, g.assisted + [s])
  {
    ChooseInTurn(k, target);
    assert !g.Full(target);
  }

  lemma AlternateStep(front: seq<Scored>, s: Scored, target: nat, g: Groups)
    requires g == Groups(Every2nd(front, false), Every2nd(front, true)) && |front| < 2 * target
    requires s.candidate.runId !in g.Runs()
    requires s.candidate.queryCase !in Queries(g.manual) && s.candidate.queryCase !in Queries(g.assisted)
    ensures Place(g, s, target) == Groups(Every2nd(front + [s], false), Every2nd(front + [s], true))
  {
    Every2ndSize(front);
    PlaceInTurn(g, s, target, |front|);
    Every2ndAdd(front, s, false);
    Every2ndAdd(front, s, true);
    if |front| % 2 == 0 {
      assert Every2nd(front + [s], true) == g.assisted;
    } else {
      assert Every2nd(front + [s], false) == g.manual;
    }
  }

  lemma NewQuery(pool: seq<Scored>, g: Groups)
    requires pool != [] && DistinctQueries(pool) && FromPool(g, pool[..|pool| - 1])
    ensures pool[|pool| - 1].candidate.queryCase !in Queries(g.manual)
    ensures pool[|pool| - 1].candidate.queryCase !in Queries(g.assisted)
  {
  }

  lemma {:induction false} ShortPoolAlternates(pool: seq<Scored>, target: nat)
    requires DistinctIds(pool) && DistinctQueries(pool) && |pool| <= 2 * target
    ensures Assign(pool, target) == Groups(Every2nd(pool, false), Every2nd(pool, true))
  {
    if pool != [] {
      var front, s := pool[..|pool| - 1], pool[|pool| - 1];
      ShortPoolAlternates(front, target);
      AssignFromPool(front, target);
      NewRun(pool, Assign(front, target));
      NewQuery(pool, Assign(front, target));
      AlternateStep(front, s, target, Assign(front, target));
      assert front + [s] == pool;
    }
  }

  /** When no query repeats among the runs a bucket gets, they go to the two groups in turn, manual
      first. */
  lemma DistinctQueriesAlternate(pool: seq<Scored>, target: nat)
    requires DistinctIds(pool) && DistinctQueries(pool[..Min(|pool|, 2 * target)])
    ensures var best := pool[..Min(|pool|, 2 * target)];
            Assign(pool, target) == Groups(Every2nd(best, false), Every2nd(best, true))
  {
    var n := Min(|pool|, 2 * target);
    ShortPoolAlternates(pool[..n], target);
    if n < |pool| {
      AssignTakesPrefix(pool[..n], target);
      FullStays(pool, n, target);
    } else {
      assert pool[..n] == pool;
    }
  }

  lemma NoQueryTwice(best: seq<Scored>, g: Groups)
    requires DistinctQueries(best) && g.All() == multiset(best)
    ensures !Overlap(g)
  {
    if Overlap(g) {
      var q :| q in Queries(g.manual) && q in Queries(g.assisted);
      var a :| a in g.manual && a.candidate.queryCase == q;
      var b :| b in g.assisted && b.candidate.queryCase == q;
      assert a in g.All() && b in g.All();
      assert a in best && b in best;
      assert a == b;
      assert multiset(best)[a] >= 2;
      AtMostOnce(best, a);
      assert false;
    }
  }

  lemma {:induction false} AtMostOnce(ss: seq<Scored>, x: Scored)
    requires DistinctQueries(ss)
    ensures multiset(ss)[x] <= 1
  {
    if ss != [] {
      AtMostOnce(ss[1..], x);
      assert ss == [ss[0]] + ss[1..];
      if x == ss[0] {
        assert x !in ss[1..];
      }
    }
  }

  lemma HeldByOne(g: Groups, best: seq<Scored>, q: int)
    requires g.All() == multiset(best) && q in Queries(best)
    ensures q in Queries(g.manual) || q in Queries(g.assisted)
  {
    var s :| s in best && s.candidate.queryCase == q;
    assert s in multiset(best);
    assert s in g.All();
    assert s in g.manual || s in g.assisted;
  }

  /** A group that holds the query leaves it to the other one, as long as that has room. */
  lemma RepeatOverlaps(g: Groups, s: Scored, target: int)
    requires |g.manual| < target && |g.assisted| < target && s.candidate.runId !in g.Runs()
    requires s.candidate.queryCase in Queries(g.manual) || s.candidate.queryCase in Queries(g.assisted)
    ensures Overlap(Place(g, s, target))
  {
    var q := s.candidate.queryCase;
    AddQuery(g.manual, s);
    AddQuery(g.assisted, s);
    PlaceCases(g, s, target);
    var h := Place(g, s, target);
    assert q in Queries(h.manual) * Queries(h.assisted);
  }

  lemma OverlapStays(g: Groups, s: Scored, target: int)
    requires Overlap(g)
    ensures Overlap(Place(g, s, target))
  {
    var q :| q in Queries(g.manual) && q in Queries(g.assisted);
    AddQuery(g.manual, s);
    AddQuery(g.assisted, s);
    PlaceCases(g, s, target);
    var h := Place(g, s, target);
    assert q in Queries(h.manual) * Queries(h.assisted);
  }

  /** The first repetition, which finds room in both groups. */
  lemma FirstRepeat(front: seq<Scored>, s: Scored, target: nat)
    requires DistinctIds(front + [s]) && DistinctQueries(front) && s.candidate.queryCase in Queries(front)
    requires |front| < 2 * target - 1
    ensures Overlap(Place(Assign(front, target), s, target))
  {
    var g, pool := Assign(front, target), front + [s];
    assert pool[..|front|] == front && pool[|front|] == s;
    ShortPoolAlternates(front, target);
    Every2ndSize(front);
    AssignTakesPrefix(front, target);
    assert front[..|front|] == front;
    AssignFromPool(front, target);
    NewRun(pool, g);
    HeldByOne(g, front, s.candidate.queryCase);
    RepeatOverlaps(g, s, target);
  }

  lemma RepeatOfLast(pool: seq<Scored>)
    requires pool != [] && DistinctQueries(pool[..|pool| - 1])
    ensures DistinctQueries(pool) <==> pool[|pool| - 1].candidate.queryCase !in Queries(pool[..|pool| - 1])
  {
    var front := pool[..|pool| - 1];
    assert forall i :: 0 <= i < |front| ==> front[i] == pool[i] && front[i] in front;
  }

  /** Before the last place is left, any repetition reaches both groups. */
  lemma {:induction false} RepeatReachesBoth(pool: seq<Scored>, target: nat)
    requires DistinctIds(pool) && |pool| <= 2 * target - 1 && !DistinctQueries(pool)
    ensures Overlap(Assign(pool, target))
  {
    var front, s := pool[..|pool| - 1], pool[|pool| - 1];
    assert pool == front + [s];
    if DistinctQueries(front) {
      RepeatOfLast(pool);
      FirstRepeat(front, s, target);
    } else {
      RepeatReachesBoth(front, target);
      OverlapStays(Assign(front, target), s, target);
    }
  }

  /** The run for the last place always joins the assisted group. */
  lemma LastPlace(g: Groups, s: Scored, target: int)
    requires |g.manual| == target && |g.assisted| == target - 1 && s.candidate.runId !in g.Runs()
    ensures Place(g, s, target) == Groups(g.manual, g.assisted + [s])
  {
  }

  lemma OverlapOfLast(g: Groups, s: Scored)
    requires !Overlap(g)
    ensures Overlap(Groups(g.manual, g.assisted + [s])) <==> s.candidate.queryCase in Queries(g.manual)
  {
    AddQuery(g.assisted, s);
    if s.candidate.queryCase in Queries(g.manual) {
      assert s.candidate.queryCase in Queries(g.manual) * Queries(g.assisted + [s]);
    }
  }

  lemma LastPlaceOverlaps(front: seq<Scored>, s: Scored, target: nat)
    requires DistinctIds(front + [s]) && DistinctQueries(front) && |front| == 2 * target - 1
    ensures Overlap(Place(Assign(front, target), s, target)) <==>
            s.candidate.queryCase in Queries(Every2nd(front, false))
  {
    var g, pool := Assign(front, target), front + [s];
    assert pool[..|front|] == front && pool[|front|] == s;
    ShortPoolAlternates(front, target);
    Every2ndSize(front);
    AssignTakesPrefix(front, target);
    assert front[..|front|] == front;
    AssignFromPool(front, target);
    NewRun(pool, g);
    NoQueryTwice(front, g);
    LastPlace(g, s, target);
    OverlapOfLast(g, s);
  }

  /** Readable from the best-scoring runs alone: no query repeats before the last place, and the run for
      the last place repeats none of those at even positions, which the manual group holds. */
  predicate QueriesApart(best: seq<Scored>, target: int) {
    target <= 0 ||
    (&& DistinctQueries(best[..Min(|best|, 2 * target - 1)])
     && (|best| >= 2 * target ==>
           best[2 * target - 1].candidate.queryCase !in Queries(Every2nd(best[..2 * target - 1], false))))
  }

  lemma {:induction false} NoTarget(pool: seq<Scored>, target: int)
    requires target <= 0
    ensures Assign(pool, target) == Groups([], [])
  {
    if pool != [] {
      NoTarget(pool[..|pool| - 1], target);
    }
  }

  lemma NoOverlapShort(pool: seq<Scored>, target: nat)
    requires DistinctIds(pool) && |pool| <= 2 * target - 1
    ensures !Overlap(Assign(pool, target)) <==> DistinctQueries(pool)
  {
    if DistinctQueries(pool) {
      AssignTakesPrefix(pool, target);
      assert pool[..|pool|] == pool;
      NoQueryTwice(pool, Assign(pool, target));
    } else {
      RepeatReachesBoth(pool, target);
    }
  }

  lemma NoOverlapFull(pool: seq<Scored>, target: nat)
    requires DistinctIds(pool) && target > 0 && |pool| >= 2 * target
    ensures !Overlap(Assign(pool, target)) <==> QueriesApart(pool, target)
  {
    var n := 2 * target;
    var front, s := pool[..n - 1], pool[n - 1];
    assert front + [s] == pool[..n];
    AssignTurn(pool, n - 1, target);
    AssignTakesPrefix(pool[..n], target);
    FullStays(pool, n, target);
    if DistinctQueries(front) {
      LastPlaceOverlaps(front, s, target);
    } else {
      RepeatReachesBoth(front, target);
      OverlapStays(Assign(front, target), s, target);
    }
  }

  /** Exactly when the groups of a bucket share no query case, for a bucket of any size and any target. */
  lemma NoOverlapIff(pool: seq<Scored>, target: int)
    requires DistinctIds(pool)
    ensures !Overlap(Assign(pool, target)) <==> QueriesApart(pool, target)
  {
    if target <= 0 {
      NoTarget(pool, target);
    } else if |pool| >= 2 * target {
      NoOverlapFull(pool, target);
    } else {
      assert pool[..|pool|] == pool;
      NoOverlapShort(pool, target);
    }
  }

  /** The two groups can share a query: two runs of one query fill the two places of a target of one. */
  lemma SameQueryInBothGroups(a: Scored, b: Scored)
    requires a.candidate.runId != b.candidate.runId && a.candidate.queryCase == b.candidate.queryCase
    ensures Assign([a, b], 1) == Groups([a], [b]) && Overlap(Assign([a, b], 1))
  {
    assert [a, b][..1] == [a] && [a][..0] == [];
    assert Assign([a], 1) == Groups([a], []);
    assert a.candidate.queryCase in Queries([a]) * Queries([b]);
  }
}
