/** How full the recursive splitter's pieces are. Between two parts too long for a chunk it cuts the parts
    at a separator into the fewest runs of consecutive parts that fit. */
module GreedyPacking {
  import opened Text
  import opened Splitter

  // ----- Cuts into runs ------------------------------------------------------------------------------------

  /** A run is some consecutive items; its text is the items one after the other. */
  type Run = seq<string>

  /** It fits the chunk size, or cannot be made shorter. */
  predicate Fits(run: Run, size: nat) {
    |run| == 1 || (run != [] && |Flatten(run)| <= size)
  }

  function AllItems(runs: seq<Run>): seq<string> {
    if runs == [] then [] else runs[0] + AllItems(runs[1..])
  }

  /** The items in order, cut into runs that fit. */
  ghost predicate IsCut(items: seq<string>, runs: seq<Run>, size: nat) {
    AllItems(runs) == items && forall i :: 0 <= i < |runs| ==> Fits(runs[i], size)
  }

  /** No run has room for the first item of the next one. */
  predicate Full(runs: seq<Run>, size: nat) {
    forall i, j :: 0 <= i && j == i + 1 < |runs| ==> NoRoom(runs[i], runs[j], size)
  }

  predicate NoRoom(run: Run, next: Run, size: nat) {
    next != [] && |Flatten(run)| + |next[0]| > size
  }

  // ----- Taking as many items as fit ----------------------------------------------------------------------

  /** The number of items in the first run, once it has `taken`. */
  function Extend(items: seq<string>, size: nat, taken: nat): (n: nat)
    requires taken <= |items|
    ensures taken <= n <= |items|
    decreases |items| - taken
  {
    if taken < |items| && |Flatten(items[..taken + 1])| <= size then Extend(items, size, taken + 1) else taken
  }

  function Runs(items: seq<string>, size: nat): seq<Run>
    decreases |items|
  {
    if items == [] then []
    else
      var n := Extend(items, size, 1);
      [items[..n]] + Runs(items[n..], size)
  }

  lemma {:induction false} FlattenTake(items: seq<string>, i: nat, j: nat)
    requires i <= j <= |items|
    ensures |Flatten(items[..i])| <= |Flatten(items[..j])|
  {
    assert items[..j] == items[..i] + items[i..j];
    FlattenConcat(items[..i], items[i..j]);
  }

  lemma FlattenMore(items: seq<string>, i: nat)
    requires i < |items|
    ensures Flatten(items[..i + 1]) == Flatten(items[..i]) + items[i]
  {
    assert items[..i + 1] == items[..i] + [items[i]];
    FlattenConcat(items[..i], [items[i]]);
    assert [items[i]][1..] == [];
    assert Flatten([items[i]]) == items[i] + "";
  }

  lemma {:induction false} ExtendFits(items: seq<string>, size: nat, taken: nat)
    requires 1 <= taken <= |items| && Fits(items[..taken], size)
    ensures Fits(items[..Extend(items, size, taken)], size)
    decreases |items| - taken
  {
    if taken < |items| && |Flatten(items[..taken + 1])| <= size {
      ExtendFits(items, size, taken + 1);
    }
  }

  /** The run ends at the end of the items, or before an item it has no room for. */
  lemma {:induction false} ExtendStops(items: seq<string>, size: nat, taken: nat)
    requires taken <= |items|
    ensures var n := Extend(items, size, taken); n < |items| ==> |Flatten(items[..n])| + |items[n]| > size
    decreases |items| - taken
  {
    if taken < |items| {
      FlattenMore(items, taken);
      if |Flatten(items[..taken + 1])| <= size {
        ExtendStops(items, size, taken + 1);
      }
    }
  }

  /** Every prefix that fits is at most as long. */
  lemma {:induction false} ExtendIsLongest(items: seq<string>, size: nat, taken: nat, k: nat)
    requires taken <= |items| && k <= |items| && |Flatten(items[..k])| <= size
    ensures k <= taken || k <= Extend(items, size, taken)
    decreases |items| - taken
  {
    if taken < k {
      FlattenTake(items, taken + 1, k);
      ExtendIsLongest(items, size, taken + 1, k);
    }
  }

  lemma {:induction false} RunsCut(items: seq<string>, size: nat)
    ensures IsCut(items, Runs(items, size), size)
    decreases |items|
  {
    if items != [] {
      var n := Extend(items, size, 1);
      ExtendFits(items, size, 1);
      RunsCut(items[n..], size);
      var runs := Runs(items, size);
      assert runs[1..] == Runs(items[n..], size);
      assert items == items[..n] + items[n..];
      assert forall i :: 1 <= i < |runs| ==> runs[i] == runs[1..][i - 1];
    }
  }

  lemma RunsHead(items: seq<string>, size: nat)
    requires items != []
    ensures Runs(items, size) != [] && Runs(items, size)[0] != [] && Runs(items, size)[0][0] == items[0]
  {
  }

  lemma {:induction false} RunsFull(items: seq<string>, size: nat)
    ensures Full(Runs(items, size), size)
    decreases |items|
  {
    if items != [] {
      var n := Extend(items, size, 1);
      var runs, rest := Runs(items, size), Runs(items[n..], size);
      RunsFull(items[n..], size);
      assert runs[1..] == rest;
      if n < |items| {
        ExtendStops(items, size, 1);
        RunsHead(items[n..], size);
        assert items[n..][0] == items[n];
      }
      forall i, j | 0 <= i && j == i + 1 < |runs|
        ensures NoRoom(runs[i], runs[j], size)
      {
        assert runs[j] == rest[i];
        if i > 0 {
          assert runs[i] == rest[i - 1] && NoRoom(rest[i - 1], rest[i], size);
        }
      }
    }
  }

  // ----- No cut has fewer runs ---------------------------------------------------------------------------

  lemma DropOfRun(run: Run, k: nat, size: nat)
    requires Fits(run, size) && k < |run|
    ensures Fits(run[k..], size)
  {
    assert run == run[..k] + run[k..];
    FlattenConcat(run[..k], run[k..]);
  }

  /** Dropping items from the front leaves a cut with no more runs, and with fewer if it drops a whole run. */
  lemma {:induction false} DropOfCut(items: seq<string>, cut: seq<Run>, size: nat, k: nat) returns (left: seq<Run>)
    requires IsCut(items, cut, size) && k <= |items|
    ensures IsCut(items[k..], left, size) && |left| <= |cut|
    ensures cut != [] && |cut[0]| <= k ==> |left| < |cut|
    decreases |cut|
  {
    if cut == [] {
      left := [];
    } else {
      var first, rest := cut[0], cut[1..];
      assert forall i :: 0 <= i < |rest| ==> rest[i] == cut[i + 1];
      assert items == first + AllItems(rest);
      if k < |first| {
        DropOfRun(first, k, size);
        left := [first[k..]] + rest;
        assert left[1..] == rest && items[k..] == first[k..] + AllItems(rest);
        assert forall i :: 1 <= i < |left| ==> left[i] == rest[i - 1];
      } else {
        left := DropOfCut(AllItems(rest), rest, size, k - |first|);
        assert items[k..] == AllItems(rest)[k - |first|..];
      }
    }
  }

  lemma FirstRunIsShorter(items: seq<string>, cut: seq<Run>, size: nat)
    requires items != [] && IsCut(items, cut, size)
    ensures cut != [] && 1 <= |cut[0]| <= Extend(items, size, 1)
  {
    var k := |cut[0]|;
    assert Fits(cut[0], size);
    assert items[..k] == cut[0];
    if k > 1 {
      ExtendIsLongest(items, size, 1, k);
    }
  }

  /** Taking as many items as fit gives the fewest runs. */
  lemma {:induction false} RunsAreFewest(items: seq<string>, size: nat, cut: seq<Run>)
    requires IsCut(items, cut, size)
    ensures |Runs(items, size)| <= |cut|
    decreases |items|
  {
    if items != [] {
      var n := Extend(items, size, 1);
      FirstRunIsShorter(items, cut, size);
      var left := DropOfCut(items, cut, size, n);
      RunsAreFewest(items[n..], size, left);
    }
  }

  /** A cut into full runs, and no cut has fewer. */
  ghost predicate FewestFullRuns(items: seq<string>, runs: seq<Run>, size: nat) {
    && IsCut(items, runs, size) && Full(runs, size)
    && forall cut :: IsCut(items, cut, size) ==> |runs| <= |cut|
  }

  lemma RunsAreFewestFull(items: seq<string>, size: nat)
    ensures FewestFullRuns(items, Runs(items, size), size)
  {
    RunsCut(items, size);
    RunsFull(items, size);
    forall cut | IsCut(items, cut, size)
      ensures |Runs(items, size)| <= |cut|
    {
      RunsAreFewest(items, size, cut);
    }
  }

  // ----- The merging loop takes as many parts as fit ------------------------------------------------------

  /** The parts with the separator each of them keeps. */
  function Items(parts: seq<string>, sep: string): (items: seq<string>)
    ensures |items| == |parts|
  {
    seq(|parts|, i requires 0 <= i < |parts| => parts[i] + Suffix(sep, i == |parts| - 1))
  }

  function EmitAll(runs: seq<Run>): seq<string> {
    if runs == [] then [] else Emit(Flatten(runs[0])) + EmitAll(runs[1..])
  }

  /** The next part too long for a chunk, from `i` on. */
  function NextLong(parts: seq<string>, size: nat, i: nat): (k: nat)
    requires i <= |parts|
    ensures i <= k <= |parts| && (k < |parts| ==> |parts[k]| > size)
    ensures forall j :: i <= j < k ==> |parts[j]| <= size
    decreases |parts| - i
  {
    if i == |parts| || |parts[i]| > size then i else NextLong(parts, size, i + 1)
  }

  /** What the loop does from a part too long on, or at the end. */
  function FromLong(parts: seq<string>, size: nat, seps: seq<string>, k: nat): seq<string>
    requires size > 0 && SeparatorList(seps) && seps[0] != "" && k <= |parts|
  {
    if k < |parts| && |parts[k]| > size then
      Pieces(parts[k], size, seps[1..]) + Pack(parts[k + 1..], size, seps, "")
    else Pack(parts[k..], size, seps, "")
  }

  lemma PackAt(parts: seq<string>, size: nat, seps: seq<string>, k: nat, current: string)
    requires size > 0 && SeparatorList(seps) && seps[0] != "" && k < |parts|
    ensures var item := Items(parts, seps[0])[k];
            && (|current + item| <= size ==>
                  Pack(parts[k..], size, seps, current) == Pack(parts[k + 1..], size, seps, current + item))
            && (|current + item| > size >= |parts[k]| ==>
                  Pack(parts[k..], size, seps, current) == Emit(current) + Pack(parts[k + 1..], size, seps, item))
            && (|parts[k]| > size ==>
                  Pack(parts[k..], size, seps, current) ==
                  Emit(current) + Pieces(parts[k], size, seps[1..]) + Pack(parts[k + 1..], size, seps, ""))
  {
    var rest := parts[k..];
    assert rest[0] == parts[k] && rest[1..] == parts[k + 1..];
    assert (|rest| == 1) == (k == |parts| - 1);
    var item := Items(parts, seps[0])[k];
    assert current + parts[k] + Suffix(seps[0], k == |parts| - 1) == current + item;
  }

  lemma EmitNothing()
    ensures Emit("") == []
  {
    StripParts("");
  }

  /** From an empty run the first part that is not too long is always taken. */
  lemma FirstTaken(parts: seq<string>, size: nat, seps: seq<string>, k: nat)
    requires size > 0 && SeparatorList(seps) && seps[0] != "" && k < |parts| && |parts[k]| <= size
    ensures Pack(parts[k..], size, seps, "") == Pack(parts[k + 1..], size, seps, Items(parts, seps[0])[k])
  {
    var item := Items(parts, seps[0])[k];
    PackAt(parts, size, seps, k, "");
    assert "" + item == item;
    EmitNothing();
    var rest := Pack(parts[k + 1..], size, seps, item);
    assert [] + rest == rest;
  }

  /** What the loop does behind a run of `n` items that starts at `i`; a part too long, or the end, is at `end`. */
  function Behind(parts: seq<string>, size: nat, seps: seq<string>, i: nat, n: nat, end: nat): seq<string>
    requires size > 0 && SeparatorList(seps) && seps[0] != "" && i + n <= end <= |parts|
  {
    if i + n < end then Pack(parts[i + n..], size, seps, "") else FromLong(parts, size, seps, end)
  }

  lemma RunStops(parts: seq<string>, size: nat, seps: seq<string>, k: nat, current: string)
    requires size > 0 && SeparatorList(seps) && seps[0] != "" && k < |parts| && |parts[k]| <= size
    requires |current + Items(parts, seps[0])[k]| > size
    ensures Pack(parts[k..], size, seps, current) == Emit(current) + Pack(parts[k..], size, seps, "")
  {
    PackAt(parts, size, seps, k, current);
    FirstTaken(parts, size, seps, k);
  }

  lemma RunGoesOn(parts: seq<string>, size: nat, seps: seq<string>, k: nat, current: string)
    requires size > 0 && SeparatorList(seps) && seps[0] != "" && k < |parts|
    requires |current + Items(parts, seps[0])[k]| <= size
    ensures Pack(parts[k..], size, seps, current) ==
            Pack(parts[k + 1..], size, seps, current + Items(parts, seps[0])[k])
  {
    PackAt(parts, size, seps, k, current);
  }

  /** Parts that all fit, with what they keep of the separator, up to a part too long or the end. */
  ghost predicate IsBlock(parts: seq<string>, size: nat, sep: string, i: nat, items: seq<string>) {
    && i + |items| <= |parts| && items == Items(parts, sep)[i..i + |items|]
    && (forall j :: i <= j < i + |items| ==> |parts[j]| <= size)
    && (i + |items| < |parts| ==> |parts[i + |items|]| > size)
  }

  /** A run that has taken `taken` items goes on as far as it fits, and is then emitted. */
  ghost predicate RunClaim(parts: seq<string>, size: nat, seps: seq<string>, i: nat, items: seq<string>, taken: nat)
    requires size > 0 && SeparatorList(seps) && seps[0] != ""
    requires i + |items| <= |parts| && taken <= |items|
  {
    var n := Extend(items, size, taken);
    Pack(parts[i + taken..], size, seps, Flatten(items[..taken])) ==
    Emit(Flatten(items[..n])) + Behind(parts, size, seps, i, n, i + |items|)
  }

  lemma ItemAt(parts: seq<string>, size: nat, sep: string, i: nat, items: seq<string>, t: nat)
    requires IsBlock(parts, size, sep, i, items) && t < |items|
    ensures i + t < |parts| && |parts[i + t]| <= size && items[t] == Items(parts, sep)[i + t]
  {
  }

  lemma FirstItem(items: seq<string>)
    requires items != []
    ensures Flatten(items[..1]) == items[0]
  {
    FlattenMore(items, 0);
    assert items[..0] == [] && "" + items[0] == items[0];
  }

  lemma RunTakesOne(parts: seq<string>, size: nat, seps: seq<string>, i: nat, items: seq<string>, taken: nat)
    requires size > 0 && SeparatorList(seps) && seps[0] != ""
    requires IsBlock(parts, size, seps[0], i, items) && taken < |items|
    requires |Flatten(items[..taken + 1])| <= size && RunClaim(parts, size, seps, i, items, taken + 1)
    ensures RunClaim(parts, size, seps, i, items, taken)
  {
    OneMore(parts, size, seps, i, items, taken);
    assert Extend(items, size, taken) == Extend(items, size, taken + 1);
  }

  lemma OneMore(parts: seq<string>, size: nat, seps: seq<string>, i: nat, items: seq<string>, taken: nat)
    requires size > 0 && SeparatorList(seps) && seps[0] != ""
    requires IsBlock(parts, size, seps[0], i, items) && taken < |items| && |Flatten(items[..taken + 1])| <= size
    ensures Pack(parts[i + taken..], size, seps, Flatten(items[..taken])) ==
            Pack(parts[i + (taken + 1)..], size, seps, Flatten(items[..taken + 1]))
  {
    FlattenMore(items, taken);
    ItemAt(parts, size, seps[0], i, items, taken);
    RunGoesOn(parts, size, seps, i + taken, Flatten(items[..taken]));
  }

  lemma RunTakesNone(parts: seq<string>, size: nat, seps: seq<string>, i: nat, items: seq<string>, taken: nat)
    requires size > 0 && SeparatorList(seps) && seps[0] != ""
    requires IsBlock(parts, size, seps[0], i, items) && taken < |items|
    requires |Flatten(items[..taken + 1])| > size
    ensures RunClaim(parts, size, seps, i, items, taken)
  {
    var current := Flatten(items[..taken]);
    FlattenMore(items, taken);
    ItemAt(parts, size, seps[0], i, items, taken);
    assert |current + Items(parts, seps[0])[i + taken]| > size;
    RunStops(parts, size, seps, i + taken, current);
    assert Extend(items, size, taken) == taken;
    assert Behind(parts, size, seps, i, taken, i + |items|) == Pack(parts[i + taken..], size, seps, "");
  }

  lemma RunTakesAll(parts: seq<string>, size: nat, seps: seq<string>, i: nat, items: seq<string>)
    requires size > 0 && SeparatorList(seps) && seps[0] != "" && IsBlock(parts, size, seps[0], i, items)
    ensures RunClaim(parts, size, seps, i, items, |items|)
  {
    RunAtEnd(parts, size, seps, i + |items|, Flatten(items[..|items|]));
  }

  lemma {:induction false} PackRun(parts: seq<string>, size: nat, seps: seq<string>, i: nat, items: seq<string>,
                                   taken: nat)
    requires size > 0 && SeparatorList(seps) && seps[0] != ""
    requires IsBlock(parts, size, seps[0], i, items) && taken <= |items|
    ensures RunClaim(parts, size, seps, i, items, taken)
    decreases |items| - taken
  {
    if taken == |items| {
      RunTakesAll(parts, size, seps, i, items);
    } else if |Flatten(items[..taken + 1])| <= size {
      PackRun(parts, size, seps, i, items, taken + 1);
      RunTakesOne(parts, size, seps, i, items, taken);
    } else {
      RunTakesNone(parts, size, seps, i, items, taken);
    }
  }

  lemma RunBeforeLong(parts: seq<string>, size: nat, seps: seq<string>, end: nat, current: string)
    requires size > 0 && SeparatorList(seps) && seps[0] != "" && end < |parts| && |parts[end]| > size
    ensures Pack(parts[end..], size, seps, current) == Emit(current) + FromLong(parts, size, seps, end)
  {
    PackAt(parts, size, seps, end, current);
    var inner, after := Pieces(parts[end], size, seps[1..]), Pack(parts[end + 1..], size, seps, "");
    assert FromLong(parts, size, seps, end) == inner + after;
    Glue(Emit(current), inner, after);
  }

  lemma RunAtEnd(parts: seq<string>, size: nat, seps: seq<string>, end: nat, current: string)
    requires size > 0 && SeparatorList(seps) && seps[0] != "" && end <= |parts|
    requires end < |parts| ==> |parts[end]| > size
    ensures Pack(parts[end..], size, seps, current) == Emit(current) + FromLong(parts, size, seps, end)
  {
    if end < |parts| {
      RunBeforeLong(parts, size, seps, end, current);
    } else {
      assert parts[end..] == [];
      assert FromLong(parts, size, seps, end) == Emit("");
      EmitNothing();
      assert Emit(current) + [] == Emit(current);
    }
  }

  lemma Glue(a: seq<string>, b: seq<string>, c: seq<string>)
    ensures a + (b + c) == a + b + c && [] + c == c
  {
  }

  lemma RunsStep(items: seq<string>, size: nat)
    requires items != []
    ensures var n := Extend(items, size, 1);
            EmitAll(Runs(items, size)) == Emit(Flatten(items[..n])) + EmitAll(Runs(items[n..], size))
  {
    var n := Extend(items, size, 1);
    assert Runs(items, size)[1..] == Runs(items[n..], size);
  }

  /** The first run of a block is emitted, and the loop goes on behind it. */
  lemma FirstRun(parts: seq<string>, size: nat, seps: seq<string>, i: nat, items: seq<string>)
    requires size > 0 && SeparatorList(seps) && seps[0] != ""
    requires IsBlock(parts, size, seps[0], i, items) && items != []
    ensures var n := Extend(items, size, 1);
            Pack(parts[i..], size, seps, "") ==
            Emit(Flatten(items[..n])) + Behind(parts, size, seps, i, n, i + |items|)
  {
    ItemAt(parts, size, seps[0], i, items, 0);
    FirstItem(items);
    assert Pack(parts[i..], size, seps, "") == Pack(parts[i + 1..], size, seps, Flatten(items[..1])) by {
      FirstTaken(parts, size, seps, i);
    }
    PackRun(parts, size, seps, i, items, 1);
    assert RunClaim(parts, size, seps, i, items, 1);
  }

  ghost predicate BlockClaim(parts: seq<string>, size: nat, seps: seq<string>, i: nat)
    requires size > 0 && SeparatorList(seps) && seps[0] != "" && i <= |parts|
  {
    var end := NextLong(parts, size, i);
    Pack(parts[i..], size, seps, "") ==
    EmitAll(Runs(Items(parts, seps[0])[i..end], size)) + FromLong(parts, size, seps, end)
  }

  lemma BlockEnds(parts: seq<string>, size: nat, seps: seq<string>, i: nat)
    requires size > 0 && SeparatorList(seps) && seps[0] != "" && i <= |parts| && NextLong(parts, size, i) == i
    ensures BlockClaim(parts, size, seps, i)
  {
    EmitNothing();
    RunAtEnd(parts, size, seps, i, "");
    Glue([], [], FromLong(parts, size, seps, i));
  }

  lemma CutAgain(items: seq<string>, i: nat, n: nat, end: nat)
    requires i + n <= end <= |items|
    ensures items[i..end][n..] == items[i + n..end]
  {
  }

  lemma BlockRest(parts: seq<string>, size: nat, seps: seq<string>, i: nat, n: nat, end: nat)
    requires size > 0 && SeparatorList(seps) && seps[0] != "" && i <= |parts|
    requires end == NextLong(parts, size, i) && 1 <= n <= end - i
    requires i + n < end ==> BlockClaim(parts, size, seps, i + n)
    ensures Behind(parts, size, seps, i, n, end) ==
            EmitAll(Runs(Items(parts, seps[0])[i..end][n..], size)) + FromLong(parts, size, seps, end)
  {
    var items := Items(parts, seps[0])[i..end];
    if i + n < end {
      NextLongFrom(parts, size, i, i + n);
      CutAgain(Items(parts, seps[0]), i, n, end);
    } else {
      assert items[n..] == [];
      Glue([], [], FromLong(parts, size, seps, end));
    }
  }

  lemma BlockStep(parts: seq<string>, size: nat, seps: seq<string>, i: nat)
    requires size > 0 && SeparatorList(seps) && seps[0] != "" && i <= |parts| && NextLong(parts, size, i) > i
    requires forall k :: i < k < NextLong(parts, size, i) ==> BlockClaim(parts, size, seps, k)
    ensures BlockClaim(parts, size, seps, i)
  {
    var end := NextLong(parts, size, i);
    var items := Items(parts, seps[0])[i..end];
    var n := Extend(items, size, 1);
    FirstRun(parts, size, seps, i, items);
    RunsStep(items, size);
    BlockRest(parts, size, seps, i, n, end);
    Glue(Emit(Flatten(items[..n])), EmitAll(Runs(items[n..], size)), FromLong(parts, size, seps, end));
  }

  /** From part `i` on the loop emits the runs of the parts before the next one that is too long, then the
      pieces of that part, and starts again behind it. */
  lemma {:induction false} PackBlock(parts: seq<string>, size: nat, seps: seq<string>, i: nat)
    requires size > 0 && SeparatorList(seps) && seps[0] != "" && i <= |parts|
    ensures BlockClaim(parts, size, seps, i)
    decreases |parts| - i
  {
    var end := NextLong(parts, size, i);
    if end == i {
      BlockEnds(parts, size, seps, i);
    } else {
      forall k | i < k < end
        ensures BlockClaim(parts, size, seps, k)
      {
        PackBlock(parts, size, seps, k);
      }
      BlockStep(parts, size, seps, i);
    }
  }

  lemma {:induction false} NextLongFrom(parts: seq<string>, size: nat, i: nat, j: nat)
    requires i <= |parts| && i <= j <= NextLong(parts, size, i)
    ensures NextLong(parts, size, j) == NextLong(parts, size, i)
    decreases j - i
  {
    if i < j {
      NextLongFrom(parts, size, i + 1, j);
    }
  }

  // ----- A whole text --------------------------------------------------------------------------------------

  /** At a separator that stays in the text the items, one after the other, are the text. */
  lemma {:induction false} ItemsOfJoin(parts: seq<string>, sep: string)
    requires parts != [] && sep in {"\n\n", "\n", ". "}
    ensures Flatten(Items(parts, sep)) == Join(parts, sep)
    decreases |parts|
  {
    var items := Items(parts, sep);
    if |parts| == 1 {
      assert Suffix(sep, true) == "" && parts[0] + "" == parts[0];
      assert items == [parts[0]] && items[1..] == [];
    } else {
      ItemsOfJoin(parts[1..], sep);
      assert items[1..] == Items(parts[1..], sep);
      assert Suffix(sep, false) == sep;
      assert items[0] == parts[0] + sep;
    }
  }

  lemma ItemsAreText(text: string, sep: string)
    requires sep in {"\n\n", "\n", ". "}
    ensures Flatten(Items(Split(text, sep), sep)) == text
  {
    ItemsOfJoin(Split(text, sep), sep);
    JoinSplit(text, sep);
  }

  lemma {:induction false} NoLongPart(parts: seq<string>, size: nat, i: nat)
    requires i <= |parts| && forall part :: part in parts ==> |part| <= size
    ensures NextLong(parts, size, i) == |parts|
    decreases |parts| - i
  {
    if i < |parts| {
      assert parts[i] in parts;
      NoLongPart(parts, size, i + 1);
    }
  }

  lemma NothingLeft(parts: seq<string>, size: nat, seps: seq<string>)
    requires size > 0 && SeparatorList(seps) && seps[0] != ""
    ensures FromLong(parts, size, seps, |parts|) == []
  {
    assert parts[|parts|..] == [];
    EmitNothing();
  }

  /** The pieces of a text whose parts at a separator all fit are the fewest full runs of consecutive parts. */
  lemma PiecesAreFullRuns(text: string, size: nat, seps: seq<string>) returns (runs: seq<Run>)
    requires size > 0 && SeparatorList(seps) && seps[0] != "" && |text| > size
    requires forall part :: part in Split(text, seps[0]) ==> |part| <= size
    ensures Pieces(text, size, seps) == EmitAll(runs)
    ensures FewestFullRuns(Items(Split(text, seps[0]), seps[0]), runs, size)
  {
    var parts := Split(text, seps[0]);
    var items := Items(parts, seps[0]);
    runs := Runs(items, size);
    RunsAreFewestFull(items, size);
    PackBlock(parts, size, seps, 0);
    NoLongPart(parts, size, 0);
    assert parts[0..] == parts && items[0..|parts|] == items;
    NothingLeft(parts, size, seps);
    assert EmitAll(runs) + [] == EmitAll(runs);
  }

  /** The same between parts that are too long: from any part on, the parts before the next one that is too
      long are cut into the fewest full runs, that part is split on its own, and the loop starts again. */
  lemma BlocksAreFullRuns(parts: seq<string>, size: nat, seps: seq<string>, i: nat) returns (runs: seq<Run>)
    requires size > 0 && SeparatorList(seps) && seps[0] != "" && i <= |parts|
    ensures Pack(parts[i..], size, seps, "") == EmitAll(runs) + FromLong(parts, size, seps, NextLong(parts, size, i))
    ensures FromLong(parts, size, seps, |parts|) == []
    ensures FewestFullRuns(Items(parts, seps[0])[i..NextLong(parts, size, i)], runs, size)
  {
    var items := Items(parts, seps[0])[i..NextLong(parts, size, i)];
    runs := Runs(items, size);
    RunsAreFewestFull(items, size);
    PackBlock(parts, size, seps, i);
    NothingLeft(parts, size, seps);
  }

  /** A separator that does not split a text too long is skipped. */
  lemma SeparatorSkipped(t: string, size: nat, seps: seq<string>)
    requires size > 0 && SeparatorList(seps) && |seps| > 1 && |t| > size && Split(t, seps[0]) == [t]
    ensures Pieces(t, size, seps) == Pieces(t, size, seps[1..])
  {
    var suffix := Suffix(seps[0], true);
    assert "" + t + suffix == t;
    assert [t][1..] == [];
    EmitNothing();
    assert Pack([], size, seps, "") == [];
    assert Pack([t], size, seps, "") == Emit("") + Pieces(t, size, seps[1..]) + [];
  }

  lemma {:induction false} SeparatorsSkipped(t: string, size: nat, n: nat)
    requires size > 0 && n < |SEPARATORS| && |t| > size
    requires forall k :: 0 <= k < n ==> Split(t, SEPARATORS[k]) == [t]
    ensures Pieces(t, size, SEPARATORS) == Pieces(t, size, SEPARATORS[n..])
    decreases n
  {
    if n == 0 {
      assert SEPARATORS[0..] == SEPARATORS;
    } else {
      SeparatorsSkipped(t, size, n - 1);
      assert SEPARATORS[n - 1..][1..] == SEPARATORS[n..] && SEPARATORS[n - 1..][0] == SEPARATORS[n - 1];
      SeparatorSkipped(t, size, SEPARATORS[n - 1..]);
    }
  }

  // ----- Texts without a separator ----------------------------------------------------------------------

  function EmitEach(slices: seq<string>): seq<string> {
    if slices == [] then [] else Emit(slices[0]) + EmitEach(slices[1..])
  }

  /** Without any separator left the text is cut into slices of exactly `size` characters and a shorter rest. */
  lemma {:induction false} HardSlicesAreFull(text: string, size: nat) returns (slices: seq<string>)
    requires size > 0
    ensures HardSlices(text, size) == EmitEach(slices) && Flatten(slices) == text
    ensures forall i :: 0 <= i < |slices| ==> 0 < |slices[i]| <= size && (i < |slices| - 1 ==> |slices[i]| == size)
    decreases |text|
  {
    if text == "" {
      slices := [];
    } else if |text| <= size {
      slices := [text];
      assert slices[1..] == [] && text + "" == text && Emit(text) + [] == Emit(text);
    } else {
      var rest := HardSlicesAreFull(text[size..], size);
      slices := [text[..size]] + rest;
      assert slices[1..] == rest && text == text[..size] + text[size..];
      assert forall i :: 1 <= i < |slices| ==> slices[i] == rest[i - 1];
    }
  }
}
