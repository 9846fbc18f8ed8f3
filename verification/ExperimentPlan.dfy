/** The whole experiment plan: all buckets, its slots, warnings and export rows. */
module ExperimentPlan {
  import opened Basics
  import opened Lists
  import opened Candidates
  import opened Planner
  import Cost

  type Targets = map<Bucket, int>

  /** 4 + 3 + 2 + 1 = 10 runs per group. */
  const GROUP_TARGETS: Targets := map[RetrievalRelated := 4, GenerationIncomplete := 3, MixedAmbiguous := 2,
                                      EasyControl := 1]

  function Target(targets: Targets, b: Bucket): int {
    if b in targets then targets[b] else 0
  }

  datatype Slot = Slot(runId: int, mode: Mode, bucket: Bucket, failure: string, query: string, difficulty: real,
                       rationale: seq<Reason>, manualSessions: nat, assistedSessions: nat)

  datatype ExportRow = ExportRow(run_id: int, assigned_mode: Mode, bucket: Bucket, failure_type: string,
                                 query_text: string,
                                 difficulty_score: real, rationale: seq<Reason>, existing_manual_sessions: nat,
                                 existing_assisted_sessions: nat)

  datatype BucketInfo = BucketInfo(available: nat, needed: int, taken: nat)

  datatype Warning = ShortBucket(bucket: Bucket, needed: int, available: nat) | ShortPlan(total: nat)

  datatype Plan = Plan(manual: seq<Slot>, assisted: seq<Slot>, warnings: seq<Warning>, summary: map<Bucket, BucketInfo>)

  function InBucket(b: Bucket): Scored -> bool {
    (s: Scored) => s.bucket == b
  }

  function Pool(scored: seq<Scored>, b: Bucket): seq<Scored> {
    Select(scored, InBucket(b))
  }

  function Picked(scored: seq<Scored>, targets: Targets, b: Bucket): Groups {
    Assign(Pool(scored, b), Target(targets, b))
  }

  /** `round(difficulty, 3)`, on exact numbers. */
  function MakeSlot(s: Scored, mode: Mode): Slot {
    var c := s.candidate;
    Slot(c.runId, mode, s.bucket, c.failure, c.query, Cost.RoundHalfEven(Difficulty(c) * 1000.0) as real / 1000.0,
         s.reasons, c.manualSessions, c.assistedSessions)
  }

  function MakeSlots(ss: seq<Scored>, mode: Mode): seq<Slot> {
    seq(|ss|, i requires 0 <= i < |ss| => MakeSlot(ss[i], mode))
  }

  function GroupOf(g: Groups, mode: Mode): seq<Scored> {
    if mode == Manual then g.manual else g.assisted
  }

  /** One group's picks over the given buckets, in bucket order. */
  function Picks(scored: seq<Scored>, targets: Targets, bs: seq<Bucket>, mode: Mode): seq<Scored> {
    if bs == [] then []
    else Picks(scored, targets, bs[..|bs| - 1], mode) + GroupOf(Picked(scored, targets, bs[|bs| - 1]), mode)
  }

  function Info(scored: seq<Scored>, targets: Targets, b: Bucket): BucketInfo {
    BucketInfo(|Pool(scored, b)|, 2 * Target(targets, b), Picked(scored, targets, b).Size())
  }

  function ShortBuckets(scored: seq<Scored>, targets: Targets, bs: seq<Bucket>): seq<Warning> {
    if bs == [] then []
    else
      var b := bs[|bs| - 1];
      var info := Info(scored, targets, b);
      ShortBuckets(scored, targets, bs[..|bs| - 1]) +
      if info.available < info.needed then [ShortBucket(b, info.needed, info.available)] else []
  }

  /** The plan built from the given buckets, before the final check. */
  function PlanFor(scored: seq<Scored>, targets: Targets, bs: seq<Bucket>): Plan {
    Plan(MakeSlots(Picks(scored, targets, bs, Manual), Manual),
         MakeSlots(Picks(scored, targets, bs, Assisted), Assisted),
         ShortBuckets(scored, targets, bs), map b | b in bs :: Info(scored, targets, b))
  }

  /** Adds the warning about unfilled slots. */
  function Checked(plan: Plan): Plan {
    var total := |plan.manual| + |plan.assisted|;
    plan.(warnings := plan.warnings + if total < 20 then [ShortPlan(total)] else [])
  }

  function PlanOf(scored: seq<Scored>, targets: Targets): Plan {
    Checked(PlanFor(scored, targets, ALL_BUCKETS))
  }

  // ----- The loops -------------------------------------------------------------------------------------

  method BucketPools(scored: seq<Scored>) returns (pools: map<Bucket, seq<Scored>>)
    ensures forall b :: b in ALL_BUCKETS ==> b in pools && pools[b] == Pool(scored, b)
  {
    pools := map b | b in ALL_BUCKETS :: [];
    var i := 0;
    while i < |scored|
      invariant 0 <= i <= |scored|
      invariant forall b :: b in ALL_BUCKETS ==> b in pools && pools[b] == Pool(scored[..i], b)
    {
      var s := scored[i];
      assert scored[..i + 1] == scored[..i] + [s];
      forall b | b in ALL_BUCKETS
        ensures Pool(scored[..i + 1], b) == Pool(scored[..i], b) + if s.bucket == b then [s] else []
      {
        SelectConcat(scored[..i], [s], InBucket(b));
        assert [s][1..] == [];
      }
      assert s.bucket in ALL_BUCKETS by { InAllBuckets(s.bucket); }
      pools := pools[s.bucket := pools[s.bucket] + [s]];
      i := i + 1;
    }
    assert scored[..i] == scored;
  }

  lemma InAllBuckets(b: Bucket)
    ensures b in ALL_BUCKETS
  {
    assert ALL_BUCKETS[0] == RetrievalRelated && ALL_BUCKETS[1] == GenerationIncomplete;
    assert ALL_BUCKETS[2] == MixedAmbiguous && ALL_BUCKETS[3] == EasyControl;
  }

  lemma MakeSlotsConcat(a: seq<Scored>, b: seq<Scored>, mode: Mode)
    ensures MakeSlots(a + b, mode) == MakeSlots(a, mode) + MakeSlots(b, mode)
  {
  }

  lemma MoreSlots(scored: seq<Scored>, targets: Targets, bs: seq<Bucket>, b: Bucket, mode: Mode)
    ensures MakeSlots(Picks(scored, targets, bs + [b], mode), mode) ==
            MakeSlots(Picks(scored, targets, bs, mode), mode) +
                MakeSlots(GroupOf(Picked(scored, targets, b), mode), mode)
  {
    assert (bs + [b])[..|bs|] == bs;
    MakeSlotsConcat(Picks(scored, targets, bs, mode), GroupOf(Picked(scored, targets, b), mode), mode);
  }

  lemma MoreWarnings(scored: seq<Scored>, targets: Targets, bs: seq<Bucket>, b: Bucket)
    ensures ShortBuckets(scored, targets, bs + [b]) ==
            ShortBuckets(scored, targets, bs) +
            if |Pool(scored, b)| < 2 * Target(targets, b)
                then [ShortBucket(b, 2 * Target(targets, b), |Pool(scored, b)|)] else []
  {
    assert (bs + [b])[..|bs|] == bs;
  }

  lemma MoreInfo(scored: seq<Scored>, targets: Targets, bs: seq<Bucket>, b: Bucket)
    ensures (map c | c in bs + [b] :: Info(scored, targets, c)) ==
            (map c | c in bs :: Info(scored, targets, c))[b := Info(scored, targets, b)]
  {
  }

  /** One turn of the loop over the buckets. */
  method AddBucket(plan: Plan, pool: seq<Scored>, b: Bucket, target: int,
                   ghost scored: seq<Scored>, ghost targets: Targets, ghost bs: seq<Bucket>) returns (next: Plan)
    requires plan == PlanFor(scored, targets, bs)
    requires pool == Pool(scored, b) && target == Target(targets, b)
    ensures next == PlanFor(scored, targets, bs + [b])
  {
    var warnings := plan.warnings;
    if |pool| < target * 2 {
      warnings := warnings + [ShortBucket(b, target * 2, |pool|)];
    }
    var g := AssignBucket(pool, target);
    next := Plan(plan.manual + MakeSlots(g.manual, Manual), plan.assisted + MakeSlots(g.assisted, Assisted), warnings,
                 plan.summary[b := BucketInfo(|pool|, target * 2, g.Size())]);
    MoreSlots(scored, targets, bs, b, Manual);
    MoreSlots(scored, targets, bs, b, Assisted);
    MoreWarnings(scored, targets, bs, b);
    MoreInfo(scored, targets, bs, b);
  }

  method BuildExperimentPlan(scored: seq<Scored>, targets: Targets) returns (plan: Plan)
    ensures plan == PlanOf(scored, targets)
  {
    var pools := BucketPools(scored);
    plan := Plan([], [], [], map[]);
    var i := 0;
    assert plan == PlanFor(scored, targets, []);
    while i < |ALL_BUCKETS|
      invariant 0 <= i <= |ALL_BUCKETS|
      invariant plan == PlanFor(scored, targets, ALL_BUCKETS[..i])
    {
      var b := ALL_BUCKETS[i];
      assert ALL_BUCKETS[..i + 1] == ALL_BUCKETS[..i] + [b];
      plan := AddBucket(plan, pools[b], b, Target(targets, b), scored, targets, ALL_BUCKETS[..i]);
      i := i + 1;
    }
    assert ALL_BUCKETS[..i] == ALL_BUCKETS;
    plan := Checked(plan);
  }

  function RowOf(s: Slot): ExportRow {
    ExportRow(s.runId, s.mode, s.bucket, s.failure, s.query, s.difficulty, s.rationale, s.manualSessions,
              s.assistedSessions)
  }

  function ExportRows(slots: seq<Slot>): seq<ExportRow> {
    seq(|slots|, i requires 0 <= i < |slots| => RowOf(slots[i]))
  }

  method PlanToExportRows(plan: Plan) returns (rows: seq<ExportRow>)
    ensures rows == ExportRows(plan.manual + plan.assisted)
  {
    var slots := plan.manual + plan.assisted;
    rows := [];
    var i := 0;
    while i < |slots|
      invariant 0 <= i <= |slots|
      invariant rows == ExportRows(slots[..i])
    {
      rows := rows + [RowOf(slots[i])];
      i := i + 1;
    }
    assert slots[..i] == slots;
  }

  // ----- Conservation ----------------------------------------------------------------------------------

  predicate ProperTargets(targets: Targets) {
    forall b :: b in targets ==> targets[b] >= 0
  }

  lemma {:induction false} PoolIsDistinct(scored: seq<Scored>, b: Bucket)
    requires DistinctIds(scored)
    ensures DistinctIds(Pool(scored, b))
  {
    if scored != [] {
      var rest := scored[1..];
      PoolIsDistinct(rest, b);
      forall s | s in Pool(rest, b)
        ensures s.candidate.runId != scored[0].candidate.runId
      {
        SelectMembers(rest, InBucket(b), s);
      }
    }
  }

  /** The optimal prefix: each bucket assigns `min(available, needed)` runs, its best-scoring ones. */
  lemma BucketIsOptimal(scored: seq<Scored>, targets: Targets, b: Bucket)
    requires DistinctIds(scored) && ProperTargets(targets)
    ensures var pool, g, info := Pool(scored, b), Picked(scored, targets, b), Info(scored, targets, b);
            && info.available == |pool| && info.needed == 2 * Target(targets, b)
            && info.taken == Min(info.available, info.needed)
            && TakesPrefix(pool, Target(targets, b), g)
            && (SortedBy(scored, ScoreOrder()) ==> SortedBy(pool, ScoreOrder()) && GroupsSorted(g))
  {
    PoolIsDistinct(scored, b);
    AssignTakesPrefix(Pool(scored, b), Target(targets, b));
    if SortedBy(scored, ScoreOrder()) {
      SelectKeepsOrder(scored, InBucket(b), ScoreOrder());
      AssignKeepsOrder(Pool(scored, b), Target(targets, b));
    }
  }

  lemma PoolHead(s: Scored, rest: seq<Scored>, b: Bucket)
    ensures multiset(Pool([s] + rest, b)) == multiset(Pool(rest, b)) + if s.bucket == b then multiset{s} else multiset{}
  {
    assert ([s] + rest)[1..] == rest;
  }

  ghost function PooledRuns(scored: seq<Scored>): multiset<Scored> {
    multiset(Pool(scored, RetrievalRelated)) + multiset(Pool(scored, GenerationIncomplete))
    + multiset(Pool(scored, MixedAmbiguous)) + multiset(Pool(scored, EasyControl))
  }

  lemma PooledHead(s: Scored, rest: seq<Scored>)
    ensures PooledRuns([s] + rest) == PooledRuns(rest) + multiset{s}
  {
    PoolHead(s, rest, RetrievalRelated);
    PoolHead(s, rest, GenerationIncomplete);
    PoolHead(s, rest, MixedAmbiguous);
    PoolHead(s, rest, EasyControl);
  }

  /** The pools split the scored runs between the buckets. */
  lemma {:induction false} PoolsPartition(scored: seq<Scored>)
    ensures PooledRuns(scored) == multiset(scored)
  {
    if scored != [] {
      var s, rest := scored[0], scored[1..];
      PoolsPartition(rest);
      assert scored == [s] + rest;
      PooledHead(s, rest);
    }
  }

  lemma PrefixWithin(pool: seq<Scored>, n: nat)
    requires n <= |pool|
    ensures multiset(pool[..n]) <= multiset(pool)
  {
    assert pool == pool[..n] + pool[n..];
  }

  lemma PickedWithinPool(scored: seq<Scored>, targets: Targets, b: Bucket)
    requires DistinctIds(scored) && ProperTargets(targets)
    ensures Picked(scored, targets, b).All() <= multiset(Pool(scored, b))
  {
    BucketIsOptimal(scored, targets, b);
    PrefixWithin(Pool(scored, b), Min(|Pool(scored, b)|, 2 * Target(targets, b)));
  }

  function BothGroups(scored: seq<Scored>, targets: Targets): seq<Scored> {
    Picks(scored, targets, ALL_BUCKETS, Manual) + Picks(scored, targets, ALL_BUCKETS, Assisted)
  }

  lemma PicksOfFour(scored: seq<Scored>, targets: Targets, a: Bucket, b: Bucket, c: Bucket, d: Bucket, mode: Mode)
    ensures Picks(scored, targets, [a, b, c, d], mode) ==
            GroupOf(Picked(scored, targets, a), mode) + GroupOf(Picked(scored, targets, b), mode)
            + GroupOf(Picked(scored, targets, c), mode) + GroupOf(Picked(scored, targets, d), mode)
  {
    assert [a, b, c, d][..3] == [a, b, c] && [a, b, c][..2] == [a, b] && [a, b][..1] == [a] && [a][..0] == [];
    var ga := GroupOf(Picked(scored, targets, a), mode);
    assert Picks(scored, targets, [a], mode) == [] + ga == ga;
    assert Picks(scored, targets, [a, b], mode) == ga + GroupOf(Picked(scored, targets, b), mode);
    assert Picks(scored, targets, [a, b, c], mode) ==
           Picks(scored, targets, [a, b], mode) + GroupOf(Picked(scored, targets, c), mode);
  }

  lemma PicksUnfold(scored: seq<Scored>, targets: Targets, mode: Mode)
    ensures Picks(scored, targets, ALL_BUCKETS, mode) ==
            GroupOf(Picked(scored, targets, RetrievalRelated), mode)
            + GroupOf(Picked(scored, targets, GenerationIncomplete), mode)
            + GroupOf(Picked(scored, targets, MixedAmbiguous), mode)
            + GroupOf(Picked(scored, targets, EasyControl), mode)
  {
    PicksOfFour(scored, targets, RetrievalRelated, GenerationIncomplete, MixedAmbiguous, EasyControl, mode);
  }

  /** No run appears twice in the exported plan. */
  lemma NoRunTwice(scored: seq<Scored>, targets: Targets)
    requires DistinctIds(scored) && ProperTargets(targets)
    ensures DistinctIds(BothGroups(scored, targets))
  {
    PicksUnfold(scored, targets, Manual);
    PicksUnfold(scored, targets, Assisted);
    PoolsPartition(scored);
    PickedWithinPool(scored, targets, RetrievalRelated);
    PickedWithinPool(scored, targets, GenerationIncomplete);
    PickedWithinPool(scored, targets, MixedAmbiguous);
    PickedWithinPool(scored, targets, EasyControl);
    assert multiset(BothGroups(scored, targets)) ==
           Picked(scored, targets, RetrievalRelated).All() + Picked(scored, targets, GenerationIncomplete).All()
           + Picked(scored, targets, MixedAmbiguous).All() + Picked(scored, targets, EasyControl).All();
    SameIds(scored, BothGroups(scored, targets));
  }

  /** The bucket summary's assigned counts, added up over the given buckets. */
  function TotalAssigned(summary: map<Bucket, BucketInfo>, bs: seq<Bucket>): nat {
    if bs == [] then 0
    else TotalAssigned(summary, bs[1..]) + if bs[0] in summary then summary[bs[0]].taken else 0
  }

  lemma TotalOfFour(summary: map<Bucket, BucketInfo>, a: Bucket, b: Bucket, c: Bucket, d: Bucket)
    requires a in summary && b in summary && c in summary && d in summary
    ensures TotalAssigned(summary, [a, b, c, d]) ==
            summary[a].taken + summary[b].taken + summary[c].taken + summary[d].taken
  {
    assert [a, b, c, d][1..] == [b, c, d] && [b, c, d][1..] == [c, d] && [c, d][1..] == [d] && [d][1..] == [];
    assert TotalAssigned(summary, [d]) == summary[d].taken;
    assert TotalAssigned(summary, [c, d]) == summary[d].taken + summary[c].taken;
  }

  lemma SummaryHolds(scored: seq<Scored>, targets: Targets, b: Bucket)
    ensures b in PlanOf(scored, targets).summary && PlanOf(scored, targets).summary[b] == Info(scored, targets, b)
  {
    InAllBuckets(b);
  }

  function PlanRows(plan: Plan): seq<ExportRow> {
    ExportRows(plan.manual + plan.assisted)
  }

  lemma RowsArePicks(scored: seq<Scored>, targets: Targets)
    ensures |PlanRows(PlanOf(scored, targets))| == |BothGroups(scored, targets)|
    ensures forall i :: 0 <= i < |BothGroups(scored, targets)| ==>
              PlanRows(PlanOf(scored, targets))[i].run_id == BothGroups(scored, targets)[i].candidate.runId
  {
  }

  /** The row tells its candidate's run, bucket, failure, query, difficulty to three places, rationale and
      session counts. */
  predicate Describes(row: ExportRow, s: Scored, mode: Mode) {
    && row.assigned_mode == mode
    && row.run_id == s.candidate.runId
    && row.bucket == s.bucket
    && row.failure_type == s.candidate.failure
    && row.query_text == s.candidate.query
    && -0.0005 <= row.difficulty_score - Difficulty(s.candidate) <= 0.0005
    && row.rationale == s.reasons
    && row.existing_manual_sessions == s.candidate.manualSessions
    && row.existing_assisted_sessions == s.candidate.assistedSessions
  }

  lemma SlotDescribes(s: Scored, mode: Mode)
    ensures Describes(RowOf(MakeSlot(s, mode)), s, mode)
  {
    var d := Difficulty(s.candidate);
    var n := Cost.RoundHalfEven(d * 1000.0);
    assert d == d * 1000.0 / 1000.0;
  }

  lemma RowOfSlot(manual: seq<Scored>, assisted: seq<Scored>, i: nat)
    requires i < |manual + assisted|
    ensures var rows := ExportRows(MakeSlots(manual, Manual) + MakeSlots(assisted, Assisted));
            && |rows| == |manual + assisted|
            && rows[i] == RowOf(MakeSlot((manual + assisted)[i], if i < |manual| then Manual else Assisted))
  {
  }

  /** The export describes the manual picks first, as manual, and then the assisted ones, as assisted. */
  lemma RowsDescribePicks(scored: seq<Scored>, targets: Targets, i: nat)
    requires i < |BothGroups(scored, targets)|
    ensures |PlanRows(PlanOf(scored, targets))| == |BothGroups(scored, targets)|
    ensures var mode := if i < |Picks(scored, targets, ALL_BUCKETS, Manual)| then Manual else Assisted;
            Describes(PlanRows(PlanOf(scored, targets))[i], BothGroups(scored, targets)[i], mode)
  {
    var manual := Picks(scored, targets, ALL_BUCKETS, Manual);
    var assisted := Picks(scored, targets, ALL_BUCKETS, Assisted);
    var plan := PlanOf(scored, targets);
    assert plan.manual == MakeSlots(manual, Manual) && plan.assisted == MakeSlots(assisted, Assisted);
    RowOfSlot(manual, assisted, i);
    SlotDescribes((manual + assisted)[i], if i < |manual| then Manual else Assisted);
  }

  /** The export has as many rows as the plan's own summary counts, and no run twice. */
  lemma ExportConserves(scored: seq<Scored>, targets: Targets)
    requires DistinctIds(scored) && ProperTargets(targets)
    ensures var plan := PlanOf(scored, targets);
            |PlanRows(plan)| == TotalAssigned(plan.summary, ALL_BUCKETS)
    ensures var rows := PlanRows(PlanOf(scored, targets));
            forall i, j :: 0 <= i < j < |rows| ==> rows[i].run_id != rows[j].run_id
  {
    BothGroupsSize(scored, targets);
    SummaryHolds(scored, targets, RetrievalRelated);
    SummaryHolds(scored, targets, GenerationIncomplete);
    SummaryHolds(scored, targets, MixedAmbiguous);
    SummaryHolds(scored, targets, EasyControl);
    TotalOfFour(PlanOf(scored, targets).summary, RetrievalRelated, GenerationIncomplete, MixedAmbiguous, EasyControl);
    RowsArePicks(scored, targets);
    RowsOnce(scored, targets);
  }

  lemma RowsOnce(scored: seq<Scored>, targets: Targets)
    requires DistinctIds(scored) && ProperTargets(targets)
    ensures var rows := PlanRows(PlanOf(scored, targets));
            forall i, j :: 0 <= i < j < |rows| ==> rows[i].run_id != rows[j].run_id
  {
    NoRunTwice(scored, targets);
    RowsArePicks(scored, targets);
    var picks := BothGroups(scored, targets);
    assert forall i, j :: 0 <= i < j < |picks| ==> picks[i].candidate.runId != picks[j].candidate.runId;
  }

  lemma BothGroupsSize(scored: seq<Scored>, targets: Targets)
    ensures |BothGroups(scored, targets)| ==
            Info(scored, targets, RetrievalRelated).taken + Info(scored, targets, GenerationIncomplete).taken
            + Info(scored, targets, MixedAmbiguous).taken + Info(scored, targets, EasyControl).taken
  {
    PicksUnfold(scored, targets, Manual);
    PicksUnfold(scored, targets, Assisted);
  }

  /** The default plan takes up to 8, 6, 4 and 2 runs of the four buckets. */
  lemma DefaultPlanCounts(scored: seq<Scored>)
    requires DistinctIds(scored)
    ensures Info(scored, GROUP_TARGETS, RetrievalRelated).taken == Min(|Pool(scored, RetrievalRelated)|, 8)
    ensures Info(scored, GROUP_TARGETS, GenerationIncomplete).taken == Min(|Pool(scored, GenerationIncomplete)|, 6)
    ensures Info(scored, GROUP_TARGETS, MixedAmbiguous).taken == Min(|Pool(scored, MixedAmbiguous)|, 4)
    ensures Info(scored, GROUP_TARGETS, EasyControl).taken == Min(|Pool(scored, EasyControl)|, 2)
  {
    BucketTakes(scored, GROUP_TARGETS, RetrievalRelated);
    BucketTakes(scored, GROUP_TARGETS, GenerationIncomplete);
    BucketTakes(scored, GROUP_TARGETS, MixedAmbiguous);
    BucketTakes(scored, GROUP_TARGETS, EasyControl);
  }

  lemma BucketTakes(scored: seq<Scored>, targets: Targets, b: Bucket)
    requires DistinctIds(scored) && ProperTargets(targets)
    ensures Info(scored, targets, b).taken == Min(|Pool(scored, b)|, 2 * Target(targets, b))
  {
    BucketIsOptimal(scored, targets, b);
  }

  lemma {:induction false} ShortBucketsMean(scored: seq<Scored>, targets: Targets, bs: seq<Bucket>, w: Warning)
    ensures w in ShortBuckets(scored, targets, bs) <==>
              && w.ShortBucket? && w.bucket in bs
              && w.needed == 2 * Target(targets, w.bucket) && w.available == |Pool(scored, w.bucket)|
              && w.available < w.needed
  {
    if bs != [] {
      ShortBucketsMean(scored, targets, bs[..|bs| - 1], w);
      assert forall b :: b in bs <==> b in bs[..|bs| - 1] || b == bs[|bs| - 1];
    }
  }

  /** The plan's warnings: the buckets with fewer runs than needed, with both numbers, and the total if it is
      below twenty. */
  lemma WarningsMean(scored: seq<Scored>, targets: Targets, w: Warning)
    ensures var plan := PlanOf(scored, targets);
            var total := |plan.manual| + |plan.assisted|;
            w in plan.warnings <==>
              if w.ShortPlan? then w.total == total < 20
              else w.needed == 2 * Target(targets, w.bucket) && w.available == |Pool(scored, w.bucket)|
                   && w.available < w.needed
  {
    ShortBucketsMean(scored, targets, ALL_BUCKETS, w);
    if w.ShortBucket? {
      InAllBuckets(w.bucket);
    }
  }

  predicate Enough(scored: seq<Scored>, b: Bucket) {
    |Pool(scored, b)| >= 2 * Target(GROUP_TARGETS, b)
  }

  lemma DefaultSizes(scored: seq<Scored>, b: Bucket)
    requires DistinctIds(scored)
    ensures var g := Picked(scored, GROUP_TARGETS, b);
            |g.manual| <= Target(GROUP_TARGETS, b) && |g.assisted| <= Target(GROUP_TARGETS, b)
            && (Enough(scored, b) <==>
                  |g.manual| == Target(GROUP_TARGETS, b) && |g.assisted| == Target(GROUP_TARGETS, b))
  {
    BucketIsOptimal(scored, GROUP_TARGETS, b);
  }

  lemma {:induction false} NoShortBucketIff(scored: seq<Scored>, targets: Targets, bs: seq<Bucket>)
    ensures ShortBuckets(scored, targets, bs) == [] <==>
            forall b :: b in bs ==> |Pool(scored, b)| >= 2 * Target(targets, b)
  {
    if bs != [] {
      NoShortBucketIff(scored, targets, bs[..|bs| - 1]);
      assert forall b :: b in bs <==> b in bs[..|bs| - 1] || b == bs[|bs| - 1];
    }
  }

  /** The default plan warns about nothing exactly when it is the balanced experiment of ten manual
      and ten assisted runs, which it is exactly when every bucket has enough runs. */
  lemma NoWarningIffBalanced(scored: seq<Scored>)
    requires DistinctIds(scored)
    ensures var plan := PlanOf(scored, GROUP_TARGETS);
            && |plan.manual| <= 10 && |plan.assisted| <= 10
            && (plan.warnings == [] <==> |plan.manual| == 10 && |plan.assisted| == 10)
            && (plan.warnings == [] <==> forall b :: b in ALL_BUCKETS ==> Enough(scored, b))
  {
    PicksUnfold(scored, GROUP_TARGETS, Manual);
    PicksUnfold(scored, GROUP_TARGETS, Assisted);
    DefaultSizes(scored, RetrievalRelated);
    DefaultSizes(scored, GenerationIncomplete);
    DefaultSizes(scored, MixedAmbiguous);
    DefaultSizes(scored, EasyControl);
    NoShortBucketIff(scored, GROUP_TARGETS, ALL_BUCKETS);
    InAllBuckets(RetrievalRelated);
    InAllBuckets(GenerationIncomplete);
    InAllBuckets(MixedAmbiguous);
    InAllBuckets(EasyControl);
  }
}
