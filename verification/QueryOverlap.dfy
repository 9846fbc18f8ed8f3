/** Whether a query case ends up in both groups of the whole plan. The code keeps the groups apart bucket
    by bucket, and not always there. */
module QueryOverlap {
  import opened Basics
  import opened Candidates
  import opened Planner
  import opened ExperimentPlan

  /** The runs a bucket of `pool` gets. */
  function Best(pool: seq<Scored>, target: int): seq<Scored> {
    if target <= 0 then [] else pool[..Min(|pool|, 2 * target)]
  }

  // ----- The groups of a bucket that keeps its queries apart ---------------------------------------------

  /** The run for the last place joins the assisted group, as its odd position says. */
  lemma LastInTurn(front: seq<Scored>, s: Scored, target: nat)
    requires DistinctIds(front + [s]) && DistinctQueries(front) && |front| == 2 * target - 1
    ensures Place(Assign(front, target), s, target) ==
            Groups(Every2nd(front + [s], false), Every2nd(front + [s], true))
  {
    var g, pool := Assign(front, target), front + [s];
    assert pool[..|front|] == front && pool[|front|] == s;
    ShortPoolAlternates(front, target);
    Every2ndSize(front);
    AssignFromPool(front, target);
    NewRun(pool, g);
    LastPlace(g, s, target);
    Every2ndAdd(front, s, false);
    Every2ndAdd(front, s, true);
  }

  lemma ApartFullPool(pool: seq<Scored>, target: nat)
    requires DistinctIds(pool) && target > 0 && |pool| >= 2 * target && QueriesApart(pool, target)
    ensures Assign(pool, target) == Groups(Every2nd(Best(pool, target), false), Every2nd(Best(pool, target), true))
  {
    var n := 2 * target;
    var front, s := pool[..n - 1], pool[n - 1];
    assert front + [s] == pool[..n];
    AssignTurn(pool, n - 1, target);
    AssignTakesPrefix(pool[..n], target);
    FullStays(pool, n, target);
    LastInTurn(front, s, target);
  }

  /** A bucket that keeps its queries apart gives its runs to the two groups in turn. */
  lemma ApartAlternates(pool: seq<Scored>, target: int)
    requires DistinctIds(pool) && QueriesApart(pool, target)
    ensures Assign(pool, target) == Groups(Every2nd(Best(pool, target), false), Every2nd(Best(pool, target), true))
  {
    if target <= 0 {
      NoTarget(pool, target);
    } else if |pool| >= 2 * target {
      ApartFullPool(pool, target);
    } else {
      assert pool[..|pool|] == pool;
      ShortPoolAlternates(pool, target);
    }
  }

  // ----- All buckets ---------------------------------------------------------------------------------------

  ghost predicate Disjoint(a: seq<Scored>, b: seq<Scored>) {
    Queries(a) !! Queries(b)
  }

  function BestOf(scored: seq<Scored>, targets: Targets, b: Bucket): seq<Scored> {
    Best(Pool(scored, b), Target(targets, b))
  }

  /** A query case is in some manual slot and in some assisted slot of the plan. */
  ghost predicate PlanOverlaps(scored: seq<Scored>, targets: Targets) {
    !Disjoint(Picks(scored, targets, ALL_BUCKETS, Manual), Picks(scored, targets, ALL_BUCKETS, Assisted))
  }

  /** Readable from each bucket's best-scoring runs: every bucket keeps its own queries apart, and no query
      at an even place of one bucket is at an odd place of another. */
  ghost predicate PlanQueriesApart(scored: seq<Scored>, targets: Targets) {
    && (forall b :: QueriesApart(Pool(scored, b), Target(targets, b)))
    && (forall b, c :: b != c ==>
          Disjoint(Every2nd(BestOf(scored, targets, b), false), Every2nd(BestOf(scored, targets, c), true)))
  }

  lemma QueriesConcat(a: seq<Scored>, b: seq<Scored>)
    ensures Queries(a + b) == Queries(a) + Queries(b)
  {
  }

  /** A query of a group of the plan is a query of that group in some bucket. */
  lemma {:induction false} QueryOfPicks(scored: seq<Scored>, targets: Targets, bs: seq<Bucket>, mode: Mode, q: int)
    ensures q in Queries(Picks(scored, targets, bs, mode)) <==>
            exists b :: b in bs && q in Queries(GroupOf(Picked(scored, targets, b), mode))
  {
    if bs != [] {
      var front, last := bs[..|bs| - 1], bs[|bs| - 1];
      QueryOfPicks(scored, targets, front, mode, q);
      QueriesConcat(Picks(scored, targets, front, mode), GroupOf(Picked(scored, targets, last), mode));
      assert forall b :: b in bs <==> b in front || b == last;
    }
  }

  lemma QueryOfGroup(scored: seq<Scored>, targets: Targets, mode: Mode, b: Bucket, q: int)
    requires q in Queries(GroupOf(Picked(scored, targets, b), mode))
    ensures q in Queries(Picks(scored, targets, ALL_BUCKETS, mode))
  {
    InAllBuckets(b);
    QueryOfPicks(scored, targets, ALL_BUCKETS, mode, q);
  }

  lemma BucketOfQuery(scored: seq<Scored>, targets: Targets, mode: Mode, q: int) returns (b: Bucket)
    requires q in Queries(Picks(scored, targets, ALL_BUCKETS, mode))
    ensures q in Queries(GroupOf(Picked(scored, targets, b), mode))
  {
    QueryOfPicks(scored, targets, ALL_BUCKETS, mode, q);
    b :| b in ALL_BUCKETS && q in Queries(GroupOf(Picked(scored, targets, b), mode));
  }

  ghost predicate BucketsDisjoint(scored: seq<Scored>, targets: Targets) {
    forall b, c :: Disjoint(Picked(scored, targets, b).manual, Picked(scored, targets, c).assisted)
  }

  /** The plan's groups are apart exactly when every bucket's manual group is apart from every bucket's
      assisted group. */
  lemma OverlapByBuckets(scored: seq<Scored>, targets: Targets)
    ensures !PlanOverlaps(scored, targets) <==> BucketsDisjoint(scored, targets)
  {
    if !PlanOverlaps(scored, targets) {
      forall b, c
        ensures Disjoint(Picked(scored, targets, b).manual, Picked(scored, targets, c).assisted)
      {
        forall q | q in Queries(Picked(scored, targets, b).manual)
          ensures q !in Queries(Picked(scored, targets, c).assisted)
        {
          QueryOfGroup(scored, targets, Manual, b, q);
          if q in Queries(Picked(scored, targets, c).assisted) {
            QueryOfGroup(scored, targets, Assisted, c, q);
          }
        }
      }
    } else {
      var q :| q in Queries(Picks(scored, targets, ALL_BUCKETS, Manual))
               && q in Queries(Picks(scored, targets, ALL_BUCKETS, Assisted));
      var b := BucketOfQuery(scored, targets, Manual, q);
      var c := BucketOfQuery(scored, targets, Assisted, q);
      assert !Disjoint(Picked(scored, targets, b).manual, Picked(scored, targets, c).assisted);
    }
  }

  lemma DisjointIff(g: Groups)
    ensures Disjoint(g.manual, g.assisted) <==> !Overlap(g)
  {
    if !Overlap(g) {
      forall q | q in Queries(g.manual)
        ensures q !in Queries(g.assisted)
      {
        assert q !in Queries(g.manual) * Queries(g.assisted);
      }
    }
  }

  lemma BucketApartIff(scored: seq<Scored>, targets: Targets, b: Bucket)
    requires DistinctIds(scored)
    ensures Disjoint(Picked(scored, targets, b).manual, Picked(scored, targets, b).assisted) <==>
            QueriesApart(Pool(scored, b), Target(targets, b))
  {
    PoolIsDistinct(scored, b);
    NoOverlapIff(Pool(scored, b), Target(targets, b));
    DisjointIff(Picked(scored, targets, b));
  }

  lemma BucketGroups(scored: seq<Scored>, targets: Targets, b: Bucket)
    requires DistinctIds(scored) && QueriesApart(Pool(scored, b), Target(targets, b))
    ensures Picked(scored, targets, b) ==
            Groups(Every2nd(BestOf(scored, targets, b), false), Every2nd(BestOf(scored, targets, b), true))
  {
    PoolIsDistinct(scored, b);
    ApartAlternates(Pool(scored, b), Target(targets, b));
  }

  /** Exactly when no query case is in both groups of the plan, for any distinct runs and any targets. */
  lemma PlanOverlapIff(scored: seq<Scored>, targets: Targets)
    requires DistinctIds(scored)
    ensures !PlanOverlaps(scored, targets) <==> PlanQueriesApart(scored, targets)
  {
    OverlapByBuckets(scored, targets);
    forall b
      ensures Disjoint(Picked(scored, targets, b).manual, Picked(scored, targets, b).assisted) <==>
              QueriesApart(Pool(scored, b), Target(targets, b))
    {
      BucketApartIff(scored, targets, b);
    }
    if forall b :: QueriesApart(Pool(scored, b), Target(targets, b)) {
      forall b
        ensures Picked(scored, targets, b) ==
                Groups(Every2nd(BestOf(scored, targets, b), false), Every2nd(BestOf(scored, targets, b), true))
      {
        BucketGroups(scored, targets, b);
      }
    }
  }

  // ----- A query shared across buckets ----------------------------------------------------------------------

  lemma PoolsOfThree(a: Scored, x: Scored, b: Scored)
    requires a.bucket == RetrievalRelated && x.bucket == b.bucket == GenerationIncomplete
    ensures Pool([a, x, b], RetrievalRelated) == [a] && Pool([a, x, b], GenerationIncomplete) == [x, b]
    ensures Pool([a, x, b], MixedAmbiguous) == [] && Pool([a, x, b], EasyControl) == []
  {
    assert [a, x, b][1..] == [x, b] && [x, b][1..] == [b] && [b][1..] == [];
    forall k: Bucket
      ensures Pool([b], k) == if b.bucket == k then [b] else []
      ensures Pool([x, b], k) == (if x.bucket == k then [x] else []) + Pool([b], k)
      ensures Pool([a, x, b], k) == (if a.bucket == k then [a] else []) + Pool([x, b], k)
    {
      assert Pool([], k) == [];
    }
  }

  lemma TwoInTurn(x: Scored, b: Scored)
    ensures Every2nd([x], false) == [x] && Every2nd([x], true) == []
    ensures Every2nd([x, b], false) == [x] && Every2nd([x, b], true) == [b]
  {
    assert [x, b][..1] == [x] && [x][..0] == [];
  }

  /** Every bucket of the default plan keeps its queries apart, and yet one query case is in both groups:
      manual in one bucket, assisted in another. */
  lemma SharedAcrossBuckets(a: Scored, x: Scored, b: Scored)
    requires a.bucket == RetrievalRelated && x.bucket == b.bucket == GenerationIncomplete
    requires DistinctIds([a, x, b])
    requires a.candidate.queryCase == b.candidate.queryCase != x.candidate.queryCase
    ensures forall k :: QueriesApart(Pool([a, x, b], k), Target(GROUP_TARGETS, k))
    ensures PlanOverlaps([a, x, b], GROUP_TARGETS)
  {
    var scored := [a, x, b];
    PoolsOfThree(a, x, b);
    TwoInTurn(a, b);
    TwoInTurn(x, b);
    assert [a][..1] == [a] && [x, b][..2] == [x, b];
    assert BestOf(scored, GROUP_TARGETS, RetrievalRelated) == [a];
    assert BestOf(scored, GROUP_TARGETS, GenerationIncomplete) == [x, b];
    assert a.candidate.queryCase in Queries([a]) && a.candidate.queryCase in Queries([b]);
    assert !Disjoint(Every2nd(BestOf(scored, GROUP_TARGETS, RetrievalRelated), false),
                     Every2nd(BestOf(scored, GROUP_TARGETS, GenerationIncomplete), true));
    PlanOverlapIff(scored, GROUP_TARGETS);
  }
}
