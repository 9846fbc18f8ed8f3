/** The recursive separator splitter as a function, and what it does to a text. */
module Splitter {
  import opened Text

  const SEPARATORS: seq<string> := ["\n\n", "\n", ". ", " ", ""]

  /** What every suffix of `SEPARATORS` looks like: the empty separator last, the space before it. */
  predicate SeparatorList(seps: seq<string>) {
    && seps != []
    && (forall i :: 0 <= i < |seps| - 1 ==> seps[i] in {"\n\n", "\n", ". ", " "})
    && (forall i :: 0 <= i < |seps| - 1 && seps[i] == " " ==> i == |seps| - 2)
    && seps[|seps| - 1] == ""
  }

  /** What is appended for a finished run of characters: its stripped form, unless that is empty. */
  function Emit(s: string): seq<string> {
    if Strip(s) == "" then [] else [Strip(s)]
  }

  /** Windows of exactly `size` characters (the last may be shorter). */
  function HardSlices(text: string, size: nat): seq<string>
    requires size > 0
    decreases |text|
  {
    if text == "" then []
    else if |text| <= size then Emit(text)
    else Emit(text[..size]) + HardSlices(text[size..], size)
  }

  /** The separator goes back on every part but the last, except for a space. */
  function Suffix(sep: string, last: bool): string {
    if last || sep == " " || sep == "" then "" else sep
  }

  function Pieces(text: string, size: nat, seps: seq<string>): seq<string>
    requires size > 0 && SeparatorList(seps)
    decreases |seps|, 1, 0
  {
    if |text| <= size then Emit(text)
    else if seps[0] == "" then HardSlices(text, size)
    else Pack(Split(text, seps[0]), size, seps, "")
  }

  /** The merging loop: `parts` are still to come, `current` is the run being collected. */
  function Pack(parts: seq<string>, size: nat, seps: seq<string>, current: string): seq<string>
    requires size > 0 && SeparatorList(seps) && seps[0] != ""
    decreases |seps|, 0, |parts|
  {
    if parts == [] then Emit(current)
    else
      var part := parts[0];
      var candidate := current + part + Suffix(seps[0], |parts| == 1);
      if |candidate| <= size then Pack(parts[1..], size, seps, candidate)
      else if |part| > size then
        Emit(current) + Pieces(part, size, seps[1..]) + Pack(parts[1..], size, seps, "")
      else
        Emit(current) + Pack(parts[1..], size, seps, part + Suffix(seps[0], |parts| == 1))
  }

  // ----- Size of the pieces -----------------------------------------------------------------------

  /** Stripped, and at most `size` characters, or one more when the last one is a full stop. */
  predicate PieceOk(p: string, size: nat) {
    && Stripped(p)
    && |p| <= size + 1
    && (|p| > size ==> p[|p| - 1] == '.')
  }

  predicate AllOk(pieces: seq<string>, size: nat) {
    forall i :: 0 <= i < |pieces| ==> PieceOk(pieces[i], size)
  }

  /** A collected run: short enough, or a short part with its separator put back. */
  predicate RunOk(current: string, size: nat, sep: string) {
    || |current| <= size
    || (sep in {"\n\n", "\n", ". "} && |sep| <= |current| && |current| - |sep| <= size
        && current[|current| - |sep|..] == sep)
  }

  lemma EmitShort(s: string, size: nat)
    requires |s| <= size
    ensures AllOk(Emit(s), size)
  {
    StripParts(s);
  }

  lemma EmitOk(current: string, size: nat, sep: string)
    requires RunOk(current, size, sep)
    ensures AllOk(Emit(current), size)
  {
    if |current| <= size {
      EmitShort(current, size);
    } else {
      StripParts(current);
      var n := |current|;
      var hi := LeadingSpaces(current) + |Strip(current)|;
      assert forall k :: 0 <= k < |sep| ==> current[n - |sep| + k] == sep[k];
      if sep == ". " {
        assert current[n - 1] == ' ' && current[n - 2] == '.';
        EndsBefore(current, hi, n - 1);
        if |Strip(current)| > size {
          assert Strip(current)[|Strip(current)| - 1] == current[hi - 1];
        }
      } else {
        assert forall k :: n - |sep| <= k < n ==> current[k] == '\n';
        EndsBefore(current, hi, n - |sep|);
      }
    }
  }

  /** `strip` does not end inside trailing whitespace. */
  lemma EndsBefore(s: string, hi: nat, from: nat)
    requires hi == LeadingSpaces(s) + |Strip(s)| && from <= |s|
    requires forall k :: from <= k < |s| ==> IsSpace(s[k])
    ensures Strip(s) == "" || hi <= from
  {
    StripParts(s);
    if Strip(s) != "" {
      assert !IsSpace(Strip(s)[|Strip(s)| - 1]) && Strip(s)[|Strip(s)| - 1] == s[hi - 1];
    }
  }

  lemma {:induction false} HardSlicesOk(text: string, size: nat)
    requires size > 0
    ensures AllOk(HardSlices(text, size), size)
    decreases |text|
  {
    if |text| <= size {
      EmitShort(text, size);
    } else {
      EmitShort(text[..size], size);
      HardSlicesOk(text[size..], size);
    }
  }

  /** Every piece is non-empty, stripped and at most `size + 1` characters long, and it is longer
      than `size` only when it ends in a full stop. */
  lemma {:induction false} PiecesOk(text: string, size: nat, seps: seq<string>)
    requires size > 0 && SeparatorList(seps)
    ensures AllOk(Pieces(text, size, seps), size)
    decreases |seps|, 1, 0
  {
    if |text| <= size {
      EmitShort(text, size);
    } else if seps[0] == "" {
      HardSlicesOk(text, size);
    } else {
      PackOk(Split(text, seps[0]), size, seps, "");
    }
  }

  lemma {:induction false} PackOk(parts: seq<string>, size: nat, seps: seq<string>, current: string)
    requires size > 0 && SeparatorList(seps) && seps[0] != "" && RunOk(current, size, seps[0])
    ensures AllOk(Pack(parts, size, seps, current), size)
    decreases |seps|, 0, |parts|
  {
    EmitOk(current, size, seps[0]);
    if parts != [] {
      var part := parts[0];
      var suffix := Suffix(seps[0], |parts| == 1);
      var candidate := current + part + suffix;
      if |candidate| <= size {
        PackOk(parts[1..], size, seps, candidate);
      } else if |part| > size {
        PiecesOk(part, size, seps[1..]);
        PackOk(parts[1..], size, seps, "");
      } else {
        PackOk(parts[1..], size, seps, part + suffix);
      }
    }
  }

  // ----- Conservation -------------------------------------------------------------------------------

  function Flatten(pieces: seq<string>): string {
    if pieces == [] then "" else pieces[0] + Flatten(pieces[1..])
  }

  lemma {:induction false} FlattenConcat(a: seq<string>, b: seq<string>)
    ensures Flatten(a + b) == Flatten(a) + Flatten(b)
  {
    if a == [] {
      assert a + b == b;
    } else {
      assert (a + b)[1..] == a[1..] + b;
      FlattenConcat(a[1..], b);
    }
  }

  /** What the pieces keep, whitespace aside. */
  function Kept(pieces: seq<string>): string {
    Dense(Flatten(pieces))
  }

  lemma KeptConcat(a: seq<string>, b: seq<string>)
    ensures Kept(a + b) == Kept(a) + Kept(b)
  {
    FlattenConcat(a, b);
    DenseConcat(Flatten(a), Flatten(b));
  }

  lemma KeptEmit(s: string)
    ensures Kept(Emit(s)) == Dense(s)
  {
    DenseStrip(s);
    assert Flatten(Emit(s)) == Strip(s);
  }

  lemma {:induction false} KeptHardSlices(text: string, size: nat)
    requires size > 0
    ensures Kept(HardSlices(text, size)) == Dense(text)
    decreases |text|
  {
    if text == "" {
    } else if |text| <= size {
      KeptEmit(text);
    } else {
      KeptEmit(text[..size]);
      KeptHardSlices(text[size..], size);
      KeptConcat(Emit(text[..size]), HardSlices(text[size..], size));
      assert text == text[..size] + text[size..];
      DenseConcat(text[..size], text[size..]);
    }
  }

  /** Nothing is invented or reordered; and without `". "` in the text nothing visible is lost. */
  lemma {:induction false} PiecesConserve(text: string, size: nat, seps: seq<string>)
    requires size > 0 && SeparatorList(seps)
    ensures PiecesConserved(text, size, seps)
    decreases |seps|, 1, 0
  {
    if |text| <= size {
      KeptEmit(text);
      SubsequenceSelf(Dense(text));
    } else if seps[0] == "" {
      KeptHardSlices(text, size);
      SubsequenceSelf(Dense(text));
    } else {
      var parts := Split(text, seps[0]);
      JoinSplit(text, seps[0]);
      PackConserves(parts, size, seps, "");
      assert "" + Join(parts, seps[0]) == text;
      if Find(text, ". ", 0).None? {
        forall part | part in parts
          ensures Find(part, ". ", 0).None?
        {
          PartWithin(text, seps[0], part);
          AbsentWithin(part, text, ". ");
        }
      }
    }
  }

  lemma AbsentWithin(part: string, text: string, pat: string)
    requires Within(part, text) && Find(text, pat, 0).None?
    ensures Find(part, pat, 0).None?
  {
    var r := Find(part, pat, 0);
    if r.Some? {
      var lo: nat, hi: nat :| lo <= hi <= |text| && part == text[lo..hi];
      var i := r.value;
      OccursWithin(text, lo, hi, pat, i);
    }
  }

  lemma OccursWithin(text: string, lo: nat, hi: nat, pat: string, i: nat)
    requires lo <= hi <= |text| && OccursAt(text[lo..hi], pat, i)
    ensures OccursAt(text, pat, lo + i)
  {
    forall k | 0 <= k < |pat|
      ensures text[lo + i..lo + i + |pat|][k] == pat[k]
    {
      assert text[lo..hi][i..i + |pat|][k] == pat[k];
    }
  }

  /** The text still represented by a state of the merging loop. */
  function Pending(parts: seq<string>, sep: string, current: string): string {
    current + Join(parts, sep)
  }

  /** Full stops can only be lost between a too long part and the next one. */
  predicate Lossless(parts: seq<string>, sep: string) {
    && (forall part :: part in parts ==> Find(part, ". ", 0).None?)
    && (sep == ". " ==> |parts| <= 1)
  }

  ghost predicate PiecesConserved(text: string, size: nat, seps: seq<string>)
    requires size > 0 && SeparatorList(seps)
  {
    && IsSubsequence(Kept(Pieces(text, size, seps)), Dense(text))
    && (Find(text, ". ", 0).None? ==> Kept(Pieces(text, size, seps)) == Dense(text))
  }

  ghost predicate PackConserved(parts: seq<string>, size: nat, seps: seq<string>, current: string)
    requires size > 0 && SeparatorList(seps) && seps[0] != ""
  {
    && IsSubsequence(Kept(Pack(parts, size, seps, current)), Dense(Pending(parts, seps[0], current)))
    && (Lossless(parts, seps[0]) ==> Kept(Pack(parts, size, seps, current)) == Dense(Pending(parts, seps[0], current)))
  }

  lemma {:induction false} PackConserves(parts: seq<string>, size: nat, seps: seq<string>, current: string)
    requires size > 0 && SeparatorList(seps) && seps[0] != ""
    ensures PackConserved(parts, size, seps, current)
    decreases |seps|, 0, |parts|
  {
    if parts == [] {
      KeptEmit(current);
      assert Pending(parts, seps[0], current) == current;
      SubsequenceSelf(Dense(current));
    } else {
      var part, rest := parts[0], parts[1..];
      var suffix := Suffix(seps[0], |parts| == 1);
      if |current + part + suffix| <= size {
        PackConserves(rest, size, seps, current + part + suffix);
        ConservedWhenMerged(parts, size, seps, current);
      } else if |part| > size {
        PiecesConserve(part, size, seps[1..]);
        PackConserves(rest, size, seps, "");
        ConservedWhenSplit(parts, size, seps, current);
      } else {
        PackConserves(rest, size, seps, part + suffix);
        ConservedWhenEmitted(parts, size, seps, current);
      }
    }
  }

  lemma ConservedWhenMerged(parts: seq<string>, size: nat, seps: seq<string>, current: string)
    requires size > 0 && SeparatorList(seps) && seps[0] != "" && parts != []
    requires var next := current + parts[0] + Suffix(seps[0], |parts| == 1);
             |next| <= size && PackConserved(parts[1..], size, seps, next)
    ensures PackConserved(parts, size, seps, current)
  {
    var suffix := Suffix(seps[0], |parts| == 1);
    DensePending(parts, seps[0], current);
    LosslessRest(parts, seps[0]);
    DenseFour(current, parts[0], suffix, Join(parts[1..], seps[0]));
  }

  lemma PendingWhenEmitted(parts: seq<string>, sep: string, current: string)
    requires parts != [] && sep in {"\n\n", "\n", ". ", " "}
    ensures Dense(Pending(parts, sep, current)) ==
            Dense(current) + Dense(Pending(parts[1..], sep, parts[0] + Suffix(sep, |parts| == 1)))
  {
    var part, rest := parts[0], parts[1..];
    var suffix := Suffix(sep, |parts| == 1);
    DensePending(parts, sep, current);
    DenseFour("", part, suffix, Join(rest, sep));
    assert Pending(rest, sep, part + suffix) == "" + part + suffix + Join(rest, sep);
    FourTail(Dense(current), Dense(part), Dense(suffix), Dense(Join(rest, sep)));
  }

  lemma ConservedWhenEmitted(parts: seq<string>, size: nat, seps: seq<string>, current: string)
    requires size > 0 && SeparatorList(seps) && seps[0] != "" && parts != []
    requires |current + parts[0] + Suffix(seps[0], |parts| == 1)| > size >= |parts[0]|
    requires PackConserved(parts[1..], size, seps, parts[0] + Suffix(seps[0], |parts| == 1))
    ensures PackConserved(parts, size, seps, current)
  {
    var next := parts[0] + Suffix(seps[0], |parts| == 1);
    var tail := Pack(parts[1..], size, seps, next);
    PendingWhenEmitted(parts, seps[0], current);
    LosslessRest(parts, seps[0]);
    assert Kept(Pack(parts, size, seps, current)) == Dense(current) + Kept(tail) by {
      KeptEmit(current);
      KeptConcat(Emit(current), tail);
    }
    SubsequenceAfter(Dense(current), Kept(tail), Dense(Pending(parts[1..], seps[0], next)));
  }

  lemma KeptWhenSplit(parts: seq<string>, size: nat, seps: seq<string>, current: string)
    requires size > 0 && SeparatorList(seps) && seps[0] != "" && parts != [] && |parts[0]| > size
    ensures Kept(Pack(parts, size, seps, current)) ==
            Dense(current) + Kept(Pieces(parts[0], size, seps[1..])) + Kept(Pack(parts[1..], size, seps, ""))
  {
    var sub, tail := Pieces(parts[0], size, seps[1..]), Pack(parts[1..], size, seps, "");
    assert Pack(parts, size, seps, current) == Emit(current) + sub + tail;
    KeptEmit(current);
    KeptConcat(Emit(current), sub);
    KeptConcat(Emit(current) + sub, tail);
  }

  /** The case that drops the separator: a part too long for one piece. */
  lemma ConservedWhenSplit(parts: seq<string>, size: nat, seps: seq<string>, current: string)
    requires size > 0 && SeparatorList(seps) && seps[0] != "" && parts != [] && |parts[0]| > size
    requires PiecesConserved(parts[0], size, seps[1..]) && PackConserved(parts[1..], size, seps, "")
    ensures PackConserved(parts, size, seps, current)
  {
    var sep, part, rest := seps[0], parts[0], parts[1..];
    var sub, tail := Kept(Pieces(part, size, seps[1..])), Kept(Pack(rest, size, seps, ""));
    DensePending(parts, sep, current);
    LosslessRest(parts, sep);
    KeptWhenSplit(parts, size, seps, current);
    assert Pending(rest, sep, "") == Join(rest, sep);
    SubsequenceAround(Dense(current), sub, Dense(part), Dense(Suffix(sep, |parts| == 1)), tail, Dense(Join(rest, sep)));
    SplitLossless(parts, sep, current, sub, tail);
  }

  lemma LosslessRest(parts: seq<string>, sep: string)
    requires parts != []
    ensures Lossless(parts, sep) ==> Lossless(parts[1..], sep) && Find(parts[0], ". ", 0).None?
  {
    assert parts[0] in parts;
  }

  lemma SplitLossless(parts: seq<string>, sep: string, current: string, sub: string, tail: string)
    requires parts != [] && sep in {"\n\n", "\n", ". ", " "}
    requires Lossless(parts, sep) ==> sub == Dense(parts[0]) && tail == Dense(Join(parts[1..], sep))
    ensures Lossless(parts, sep) ==>
              Dense(current) + sub + tail ==
              Dense(current) + Dense(parts[0]) + Dense(Suffix(sep, |parts| == 1)) + Dense(Join(parts[1..], sep))
  {
    if Lossless(parts, sep) {
      SuffixBlank(sep, |parts| == 1);
      assert Dense(current) + sub + "" == Dense(current) + sub;
    }
  }

  /** Only the suffix of the full-stop separator is visible. */
  lemma SuffixBlank(sep: string, last: bool)
    requires sep in {"\n\n", "\n", ". ", " "} && (sep == ". " ==> last)
    ensures Dense(Suffix(sep, last)) == ""
  {
    DenseBlank(Suffix(sep, last));
  }

  lemma FourTail(a: string, b: string, c: string, d: string)
    ensures a + ("" + b + c + d) == a + b + c + d
  {
  }

  lemma DenseFour(a: string, b: string, c: string, d: string)
    ensures Dense(a + b + c + d) == Dense(a) + Dense(b) + Dense(c) + Dense(d)
  {
    DenseConcat(a + b + c, d);
    DenseConcat(a + b, c);
    DenseConcat(a, b);
  }

  /** Whitespace aside, the pending text is the run, the next part, its separator and the rest. */
  lemma DensePending(parts: seq<string>, sep: string, current: string)
    requires parts != [] && sep in {"\n\n", "\n", ". ", " "}
    ensures Dense(Pending(parts, sep, current)) ==
            Dense(current) + Dense(parts[0]) + Dense(Suffix(sep, |parts| == 1)) + Dense(Join(parts[1..], sep))
  {
    var part, rest := parts[0], parts[1..];
    if |parts| == 1 {
      assert Pending(parts, sep, current) == current + part + "" + "";
      DenseFour(current, part, "", "");
    } else {
      assert Pending(parts, sep, current) == current + part + sep + Join(rest, sep);
      DenseFour(current, part, sep, Join(rest, sep));
      if sep == " " {
        DenseBlank(sep);
      }
    }
  }
}
