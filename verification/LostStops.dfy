/** Exactly how much visible text recursive splitting loses: one full stop each time a part too long
    for a chunk is followed by another part at the `". "` separator. */
module LostStops {
  import opened Text
  import opened Splitter

  /** The full stops a caller can see will be lost, from the text and the chunk size alone. */
  function DroppedStops(text: string, size: nat, seps: seq<string>): nat
    requires size > 0 && SeparatorList(seps)
    decreases |seps|, 1, 0
  {
    if |text| <= size || seps[0] == "" then 0 else DroppedIn(Split(text, seps[0]), size, seps)
  }

  function DroppedIn(parts: seq<string>, size: nat, seps: seq<string>): nat
    requires size > 0 && SeparatorList(seps) && seps[0] != ""
    decreases |seps|, 0, |parts|
  {
    if parts == [] then 0
    else
      (if |parts[0]| <= size then 0
       else DroppedStops(parts[0], size, seps[1..]) + if seps[0] == ". " && |parts| > 1 then 1 else 0)
      + DroppedIn(parts[1..], size, seps)
  }

  lemma SuffixSize(sep: string, last: bool)
    requires sep in {"\n\n", "\n", ". ", " "}
    ensures |Dense(Suffix(sep, last))| == if sep == ". " && !last then 1 else 0
  {
    if sep == ". " && !last {
      assert ". "[1..] == " " && " "[1..] == "";
      assert !IsSpace('.') && IsSpace(' ');
      assert Dense(" ") == "";
    } else {
      SuffixBlank(sep, last);
    }
  }

  ghost predicate PackCounted(parts: seq<string>, size: nat, seps: seq<string>, current: string)
    requires size > 0 && SeparatorList(seps) && seps[0] != ""
  {
    |Kept(Pack(parts, size, seps, current))| + DroppedIn(parts, size, seps) == |Dense(Pending(parts, seps[0], current))|
  }

  ghost predicate PiecesCounted(text: string, size: nat, seps: seq<string>)
    requires size > 0 && SeparatorList(seps)
  {
    |Kept(Pieces(text, size, seps))| + DroppedStops(text, size, seps) == |Dense(text)|
  }

  lemma CountedWhenMerged(parts: seq<string>, size: nat, seps: seq<string>, current: string)
    requires size > 0 && SeparatorList(seps) && seps[0] != "" && parts != []
    requires var next := current + parts[0] + Suffix(seps[0], |parts| == 1);
             |next| <= size && PackCounted(parts[1..], size, seps, next)
    ensures PackCounted(parts, size, seps, current)
  {
    var suffix := Suffix(seps[0], |parts| == 1);
    DensePending(parts, seps[0], current);
    DenseFour(current, parts[0], suffix, Join(parts[1..], seps[0]));
  }

  lemma CountedWhenEmitted(parts: seq<string>, size: nat, seps: seq<string>, current: string)
    requires size > 0 && SeparatorList(seps) && seps[0] != "" && parts != []
    requires |current + parts[0] + Suffix(seps[0], |parts| == 1)| > size >= |parts[0]|
    requires PackCounted(parts[1..], size, seps, parts[0] + Suffix(seps[0], |parts| == 1))
    ensures PackCounted(parts, size, seps, current)
  {
    PendingWhenEmitted(parts, seps[0], current);
    KeptEmit(current);
    KeptConcat(Emit(current), Pack(parts[1..], size, seps, parts[0] + Suffix(seps[0], |parts| == 1)));
  }

  lemma CountedWhenSplit(parts: seq<string>, size: nat, seps: seq<string>, current: string)
    requires size > 0 && SeparatorList(seps) && seps[0] != "" && parts != [] && |parts[0]| > size
    requires PiecesCounted(parts[0], size, seps[1..]) && PackCounted(parts[1..], size, seps, "")
    ensures PackCounted(parts, size, seps, current)
  {
    DensePending(parts, seps[0], current);
    SuffixSize(seps[0], |parts| == 1);
    KeptWhenSplit(parts, size, seps, current);
    assert Pending(parts[1..], seps[0], "") == Join(parts[1..], seps[0]);
  }

  lemma {:induction false} PackLossCounted(parts: seq<string>, size: nat, seps: seq<string>, current: string)
    requires size > 0 && SeparatorList(seps) && seps[0] != ""
    ensures PackCounted(parts, size, seps, current)
    decreases |seps|, 0, |parts|
  {
    if parts == [] {
      KeptEmit(current);
      assert Pending(parts, seps[0], current) == current;
    } else {
      var part, rest := parts[0], parts[1..];
      var suffix := Suffix(seps[0], |parts| == 1);
      if |current + part + suffix| <= size {
        PackLossCounted(rest, size, seps, current + part + suffix);
        CountedWhenMerged(parts, size, seps, current);
      } else if |part| > size {
        LossCounted(part, size, seps[1..]);
        PackLossCounted(rest, size, seps, "");
        CountedWhenSplit(parts, size, seps, current);
      } else {
        PackLossCounted(rest, size, seps, part + suffix);
        CountedWhenEmitted(parts, size, seps, current);
      }
    }
  }

  lemma {:induction false} LossCounted(text: string, size: nat, seps: seq<string>)
    requires size > 0 && SeparatorList(seps)
    ensures PiecesCounted(text, size, seps)
    decreases |seps|, 1, 0
  {
    if |text| <= size {
      KeptEmit(text);
    } else if seps[0] == "" {
      KeptHardSlices(text, size);
    } else {
      PackLossCounted(Split(text, seps[0]), size, seps, "");
      JoinSplit(text, seps[0]);
      assert Pending(Split(text, seps[0]), seps[0], "") == text;
    }
  }

  /** The pieces keep the visible text in order; they keep all of it exactly when no full stop is
      dropped, and otherwise they miss exactly that many characters. */
  lemma NothingLostIff(text: string, size: nat, seps: seq<string>)
    requires size > 0 && SeparatorList(seps)
    ensures var kept := Kept(Pieces(text, size, seps));
            && IsSubsequence(kept, Dense(text))
            && |Dense(text)| - |kept| == DroppedStops(text, size, seps)
            && (kept == Dense(text) <==> DroppedStops(text, size, seps) == 0)
  {
    PiecesConserve(text, size, seps);
    LossCounted(text, size, seps);
    SubsequenceLength(Kept(Pieces(text, size, seps)), Dense(text));
  }

  /** A text that the first separator does not split loses what it loses at the next one. */
  lemma DroppedWhole(t: string, size: nat, seps: seq<string>)
    requires size > 0 && SeparatorList(seps) && |seps| > 1 && |t| > size && Split(t, seps[0]) == [t]
    ensures DroppedStops(t, size, seps) == DroppedStops(t, size, seps[1..])
  {
    assert [t][1..] == [];
    assert DroppedIn([], size, seps) == 0;
  }

  lemma OneStopDropped(a: string, b: string, size: nat)
    requires size > 0 && |a| > size >= |b| && {'\n', '.', ' '} !! set c | c in a + b
    ensures DroppedStops(a + ". " + b, size, SEPARATORS[2..]) == 1
  {
    var seps, tail := SEPARATORS[2..], SEPARATORS[3..];
    assert seps[0] == ". " && seps[1..] == tail && tail[0] == " " && tail[1..][0] == "";
    assert '.' !in a && '.' !in b && ' ' !in a by {
      assert forall c :: c in a ==> c in a + b;
      assert forall c :: c in b ==> c in a + b;
    }
    SplitFirst(a, ". ", b);
    SplitAbsent(b, ". ");
    SplitAbsent(a, " ");
    DroppedWhole(a, size, tail);
    assert [a, b][1..] == [b] && [b][1..] == [];
    assert DroppedIn([b], size, seps) == 0;
    assert [a] + [b] == [a, b];
    assert DroppedIn([a, b], size, seps) == 1;
  }

  /** A long sentence followed by another loses its full stop. */
  lemma LongSentenceLosesStop(a: string, b: string, size: nat)
    requires size > 0 && |a| > size >= |b| && {'\n', '.', ' '} !! set c | c in a + b
    ensures var t := a + ". " + b; |Kept(Pieces(t, size, SEPARATORS))| == |Dense(t)| - 1
  {
    var t := a + ". " + b;
    assert SEPARATORS[1..][1..] == SEPARATORS[2..] && SEPARATORS[1..][0] == "\n";
    assert '\n' !in t by {
      assert forall c :: c in t ==> c in a + b || c in ". ";
    }
    SplitAbsent(t, "\n\n");
    SplitAbsent(t, "\n");
    DroppedWhole(t, size, SEPARATORS);
    DroppedWhole(t, size, SEPARATORS[1..]);
    OneStopDropped(a, b, size);
    NothingLostIff(t, size, SEPARATORS);
  }

  lemma FullStopIsLost()
    ensures Kept(Pieces("aaaaa. b", 4, SEPARATORS)) != Dense("aaaaa. b")
  {
    assert "aaaaa" + ". " + "b" == "aaaaa. b";
    LongSentenceLosesStop("aaaaa", "b", 4);
  }
}
