/** Selecting from and sorting sequences. */
module Lists {
  import opened Basics

  lemma SubsetSize<T>(a: set<T>, b: set<T>)
    requires a <= b
    ensures |a| <= |b| && (|a| == |b| <==> a == b)
  {
    assert b == a + (b - a);
    assert |b| == |a| + |b - a|;
    if |b - a| == 0 {
      assert b - a == {};
    }
  }

  function Select<T>(xs: seq<T>, keep: T -> bool): seq<T> {
    if xs == [] then [] else (if keep(xs[0]) then [xs[0]] else []) + Select(xs[1..], keep)
  }

  lemma {:induction false} SelectMembers<T>(xs: seq<T>, keep: T -> bool, x: T)
    ensures x in Select(xs, keep) <==> x in xs && keep(x)
  {
    if xs != [] {
      SelectMembers(xs[1..], keep, x);
    }
  }

  lemma Regroup<T>(a: seq<T>, b: seq<T>, c: seq<T>)
    ensures a + (b + c) == a + b + c
  {
  }

  lemma {:induction false} SelectConcat<T>(xs: seq<T>, ys: seq<T>, keep: T -> bool)
    ensures Select(xs + ys, keep) == Select(xs, keep) + Select(ys, keep)
  {
    if xs == [] {
      assert xs + ys == ys;
    } else {
      assert (xs + ys)[1..] == xs[1..] + ys && (xs + ys)[0] == xs[0];
      SelectConcat(xs[1..], ys, keep);
      Regroup(if keep(xs[0]) then [xs[0]] else [], Select(xs[1..], keep), Select(ys, keep));
    }
  }

  /** Without repetitions, in order of first occurrence. */
  function Dedup<T(==)>(xs: seq<T>): seq<T> {
    if xs == [] then []
    else
      var front := Dedup(xs[..|xs| - 1]);
      if xs[|xs| - 1] in front then front else front + [xs[|xs| - 1]]
  }

  predicate Distinct<T(==)>(xs: seq<T>) {
    forall i, j :: 0 <= i < j < |xs| ==> xs[i] != xs[j]
  }

  lemma {:induction false} DedupMeans<T>(xs: seq<T>)
    ensures Distinct(Dedup(xs))
    ensures forall x :: x in Dedup(xs) <==> x in xs
    ensures Dedup(xs) == [] <==> xs == []
  {
    if xs != [] {
      DedupMeans(xs[..|xs| - 1]);
      assert forall x :: x in xs <==> x in xs[..|xs| - 1] || x == xs[|xs| - 1];
    }
  }

  function Matches<A, B>(a: A, right: seq<B>, on: (A, B) -> bool): seq<B> {
    Select(right, b => on(a, b))
  }

  /** Each row of the left side with its matches, or once without any. */
  function LeftJoin<A, B>(left: seq<A>, right: seq<B>, on: (A, B) -> bool): seq<(A, Option<B>)> {
    if left == [] then [] else Paired(left[0], Matches(left[0], right, on)) + LeftJoin(left[1..], right, on)
  }

  function Paired<A, B>(a: A, matches: seq<B>): seq<(A, Option<B>)> {
    if matches == [] then [(a, None)] else seq(|matches|, i requires 0 <= i < |matches| => (a, Some(matches[i])))
  }

  ghost predicate TotalOrder<T(!new)>(le: (T, T) -> bool) {
    && (forall a, b :: le(a, b) || le(b, a))
    && (forall a, b, c :: le(a, b) && le(b, c) ==> le(a, c))
  }

  ghost predicate SortedBy<T>(xs: seq<T>, le: (T, T) -> bool) {
    forall i, j :: 0 <= i < j < |xs| ==> le(xs[i], xs[j])
  }

  function Insert<T>(x: T, xs: seq<T>, le: (T, T) -> bool): seq<T> {
    if xs == [] || le(x, xs[0]) then [x] + xs else [xs[0]] + Insert(x, xs[1..], le)
  }

  /** The stable sort. */
  function Sort<T>(xs: seq<T>, le: (T, T) -> bool): seq<T> {
    if xs == [] then [] else Insert(xs[0], Sort(xs[1..], le), le)
  }

  lemma {:induction false} InsertKeepsAll<T>(x: T, xs: seq<T>, le: (T, T) -> bool)
    ensures multiset(Insert(x, xs, le)) == multiset{x} + multiset(xs)
  {
    if xs != [] && !le(x, xs[0]) {
      InsertKeepsAll(x, xs[1..], le);
      assert xs == [xs[0]] + xs[1..];
    }
  }

  lemma {:induction false} InsertKeepsOrder<T(!new)>(x: T, xs: seq<T>, le: (T, T) -> bool)
    requires TotalOrder(le) && SortedBy(xs, le)
    ensures SortedBy(Insert(x, xs, le), le)
  {
    if xs == [] {
    } else if le(x, xs[0]) {
      assert forall i :: 0 <= i < |xs| ==> le(xs[0], xs[i]) by {
        assert le(xs[0], xs[0]);
      }
    } else {
      var rest := Insert(x, xs[1..], le);
      InsertKeepsOrder(x, xs[1..], le);
      InsertKeepsAll(x, xs[1..], le);
      forall j | 0 <= j < |rest|
        ensures le(xs[0], rest[j])
      {
        assert rest[j] in multiset(rest);
        assert rest[j] == x || rest[j] in xs[1..];
      }
    }
  }

  lemma {:induction false} InsertKeepsTies<T>(x: T, xs: seq<T>, le: (T, T) -> bool, tied: T -> bool)
    requires forall a, b :: a in [x] + xs && b in [x] + xs && tied(a) && tied(b) ==> le(a, b)
    ensures Select(Insert(x, xs, le), tied) == Select([x] + xs, tied)
  {
    assert ([x] + xs)[1..] == xs;
    if xs != [] && !le(x, xs[0]) {
      var rest := xs[1..];
      assert forall a :: a in [x] + rest ==> a in [x] + xs;
      InsertKeepsTies(x, rest, le, tied);
      assert ([x] + rest)[1..] == rest;
      assert Insert(x, xs, le)[1..] == Insert(x, rest, le);
      assert x in [x] + xs && xs[0] in [x] + xs;
    }
  }

  lemma {:induction false} SortKeepsAll<T>(xs: seq<T>, le: (T, T) -> bool)
    ensures multiset(Sort(xs, le)) == multiset(xs)
  {
    if xs != [] {
      SortKeepsAll(xs[1..], le);
      InsertKeepsAll(xs[0], Sort(xs[1..], le), le);
      assert xs == [xs[0]] + xs[1..];
    }
  }

  lemma {:induction false} SortSorts<T(!new)>(xs: seq<T>, le: (T, T) -> bool)
    requires TotalOrder(le)
    ensures SortedBy(Sort(xs, le), le)
  {
    if xs != [] {
      SortSorts(xs[1..], le);
      InsertKeepsOrder(xs[0], Sort(xs[1..], le), le);
    }
  }

  /** Elements that compare equal keep their order. */
  lemma {:induction false} SortKeepsTies<T>(xs: seq<T>, le: (T, T) -> bool, tied: T -> bool)
    requires forall a, b :: a in xs && b in xs && tied(a) && tied(b) ==> le(a, b)
    ensures Select(Sort(xs, le), tied) == Select(xs, tied)
  {
    if xs != [] {
      var sorted := Sort(xs[1..], le);
      SortKeepsAll(xs[1..], le);
      assert forall a :: a in sorted ==> a in multiset(sorted);
      assert forall a :: a in [xs[0]] + sorted ==> a in xs;
      SortKeepsTies(xs[1..], le, tied);
      InsertKeepsTies(xs[0], sorted, le, tied);
      assert ([xs[0]] + sorted)[1..] == sorted;
    }
  }

  lemma {:induction false} SelectKeepsOrder<T>(xs: seq<T>, keep: T -> bool, le: (T, T) -> bool)
    requires SortedBy(xs, le)
    ensures SortedBy(Select(xs, keep), le)
  {
    if xs != [] {
      var rest := Select(xs[1..], keep);
      SelectKeepsOrder(xs[1..], keep, le);
      forall j | 0 <= j < |rest|
        ensures le(xs[0], rest[j])
      {
        SelectMembers(xs[1..], keep, rest[j]);
      }
    }
  }
}
