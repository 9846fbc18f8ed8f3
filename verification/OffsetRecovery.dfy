/** Exactly when the recursive splitter's pieces sit side by side in the text, so that their
    offsets can be recovered. */
module OffsetRecovery {
  import opened Text
  import opened Splitter
  import opened Tiling

  // ----- The condition ----------------------------------------------------------------------------

  /** Merging words at the space separator never puts two visible words into one run. Only the
      lengths of the words and whether they are blank matter: `runLength` and `runVisible`
      describe the run collected so far. */
  predicate NoGluedWords(words: seq<string>, size: nat, runLength: nat, runVisible: bool) {
    if words == [] then true
    else
      var word, visible := words[0], !Blank(words[0]);
      if runLength + |word| <= size then
        !(runVisible && visible) && NoGluedWords(words[1..], size, runLength + |word|, runVisible || visible)
      else if |word| > size then NoGluedWords(words[1..], size, 0, false)
      else NoGluedWords(words[1..], size, |word|, visible)
  }

  /** A caller's test on the text alone: parts that fit need nothing; a part that does not fit
      must be recoverable by the next separators, must not lose a full stop, and at the space
      separator no two words may be merged. */
  predicate Recoverable(text: string, size: nat, seps: seq<string>)
    requires size > 0 && SeparatorList(seps)
    decreases |seps|, 1, 0
  {
    || |text| <= size
    || seps[0] == ""
    || (seps[0] == " " && NoGluedWords(Split(text, " "), size, 0, false))
    || (seps[0] != " " && PartsRecoverable(Split(text, seps[0]), size, seps))
  }

  predicate PartsRecoverable(parts: seq<string>, size: nat, seps: seq<string>)
    requires size > 0 && SeparatorList(seps) && seps[0] != ""
    decreases |seps|, 0, |parts|
  {
    parts == [] ||
    (&& (|parts[0]| > size ==> Recoverable(parts[0], size, seps[1..]) && (seps[0] == ". " ==> |parts| == 1))
     && PartsRecoverable(parts[1..], size, seps))
  }

  // ----- Separators that stay in the text -----------------------------------------------------------

  ghost predicate PackTiles(parts: seq<string>, size: nat, seps: seq<string>, current: string)
    requires size > 0 && SeparatorList(seps) && seps[0] != ""
  {
    Tiles(Pending(parts, seps[0], current), Pack(parts, size, seps, current))
  }

  lemma {:induction false} RecoverableIff(text: string, size: nat, seps: seq<string>)
    requires size > 0 && SeparatorList(seps)
    ensures Tiles(text, Pieces(text, size, seps)) <==> Recoverable(text, size, seps)
    decreases |seps|, 1, 0
  {
    if |text| <= size {
      TilesEmit(text);
    } else if seps[0] == "" {
      TilesHardSlices(text, size);
    } else if seps[0] == " " {
      WordsIff(text, size, seps);
    } else {
      PackIff(Split(text, seps[0]), size, seps, "");
      JoinSplit(text, seps[0]);
      assert Pending(Split(text, seps[0]), seps[0], "") == text;
    }
  }

  lemma {:induction false} PackIff(parts: seq<string>, size: nat, seps: seq<string>, current: string)
    requires size > 0 && SeparatorList(seps) && seps[0] !in {"", " "}
    ensures PackTiles(parts, size, seps, current) <==> PartsRecoverable(parts, size, seps)
    decreases |seps|, 0, |parts|
  {
    if parts == [] {
      TilesEmit(current);
      assert Pending(parts, seps[0], current) == current;
    } else {
      var part, rest := parts[0], parts[1..];
      var suffix := Suffix(seps[0], |parts| == 1);
      PendingNext(parts, seps[0], current);
      if |current + part + suffix| <= size {
        PackIff(rest, size, seps, current + part + suffix);
      } else if |part| > size {
        RecoverableIff(part, size, seps[1..]);
        PackIff(rest, size, seps, "");
        SplitTilesIff(parts, size, seps, current);
      } else {
        PackIff(rest, size, seps, part + suffix);
        EmitTilesIff(parts, size, seps, current);
      }
    }
  }

  /** The pending text after the first part has joined the run, or started a new one. */
  lemma PendingNext(parts: seq<string>, sep: string, current: string)
    requires parts != [] && sep !in {"", " "}
    ensures var suffix := Suffix(sep, |parts| == 1);
            && Pending(parts, sep, current) == Pending(parts[1..], sep, current + parts[0] + suffix)
            && Pending(parts, sep, current) == current + Pending(parts[1..], sep, parts[0] + suffix)
            && Pending(parts, sep, current) == current + (parts[0] + (suffix + Pending(parts[1..], sep, "")))
  {
    if |parts| == 1 {
      assert Join(parts[1..], sep) == "";
    }
  }

  lemma KeptEmitLength(s: string)
    ensures |Kept(Emit(s))| == |Dense(s)|
  {
    KeptEmit(s);
  }

  lemma EmitTilesIff(parts: seq<string>, size: nat, seps: seq<string>, current: string)
    requires size > 0 && SeparatorList(seps) && seps[0] !in {"", " "} && parts != []
    requires |current + parts[0] + Suffix(seps[0], |parts| == 1)| > size >= |parts[0]|
    ensures PackTiles(parts, size, seps, current) <==>
            PackTiles(parts[1..], size, seps, parts[0] + Suffix(seps[0], |parts| == 1))
  {
    var next := parts[0] + Suffix(seps[0], |parts| == 1);
    PendingNext(parts, seps[0], current);
    EmitThenIff(current, Pending(parts[1..], seps[0], next), Pack(parts[1..], size, seps, next));
  }

  /** Emitting a run and tiling what follows it are independent. */
  lemma EmitThenIff(run: string, text: string, pieces: seq<string>)
    ensures Tiles(run + text, Emit(run) + pieces) <==> Tiles(text, pieces)
  {
    TilesEmit(run);
    KeptEmitLength(run);
    if Tiles(text, pieces) {
      TilesConcat(run, Emit(run), text, pieces);
    }
    if Tiles(run + text, Emit(run) + pieces) {
      TilesSplit(run, Emit(run), text, pieces);
    }
  }

  /** A part that was split further, its separator, and the rest of the text. */
  lemma SplitTilesIff(parts: seq<string>, size: nat, seps: seq<string>, current: string)
    requires size > 0 && SeparatorList(seps) && seps[0] !in {"", " "} && parts != [] && |parts[0]| > size
    ensures PackTiles(parts, size, seps, current) <==>
              && Tiles(parts[0], Pieces(parts[0], size, seps[1..]))
              && (seps[0] == ". " ==> |parts| == 1)
              && PackTiles(parts[1..], size, seps, "")
  {
    var sep, part, rest := seps[0], parts[0], parts[1..];
    var suffix := Suffix(sep, |parts| == 1);
    var sub, tail := Pieces(part, size, seps[1..]), Pack(rest, size, seps, "");
    var after := Pending(rest, sep, "");
    PendingNext(parts, sep, current);
    assert Pack(parts, size, seps, current) == Emit(current) + (sub + tail);
    EmitThenIff(current, part + (suffix + after), sub + tail);
    PiecesConserve(part, size, seps[1..]);
    SubsequenceLength(Kept(sub), Dense(part));
    PackConserves(rest, size, seps, "");
    SubsequenceLength(Kept(tail), Dense(after));
    SuffixVisible(sep, |parts| == 1);
    PartThenIff(part, sub, suffix, after, tail);
  }

  lemma SuffixVisible(sep: string, last: bool)
    requires sep in {"\n\n", "\n", ". "}
    ensures Blank(Suffix(sep, last)) <==> (sep == ". " ==> last)
  {
    BlankMeans(Suffix(sep, last));
    assert ". "[0] == '.';
  }

  lemma PartThenIff(part: string, sub: seq<string>, suffix: string, after: string, tail: seq<string>)
    requires |Kept(sub)| <= |Dense(part)| && |Kept(tail)| <= |Dense(after)|
    ensures Tiles(part + (suffix + after), sub + tail) <==> Tiles(part, sub) && Blank(suffix) && Tiles(after, tail)
  {
    var text := part + (suffix + after);
    if Tiles(part, sub) && Blank(suffix) && Tiles(after, tail) {
      TilesLead(suffix, after, tail);
      TilesConcat(part, sub, suffix + after, tail);
    }
    if Tiles(text, sub + tail) {
      TilesKept(text, sub + tail);
      KeptConcat(sub, tail);
      DenseConcat(part, suffix + after);
      DenseConcat(suffix, after);
      DenseBlank(suffix);
      TilesSplit(part, sub, suffix + after, tail);
      TilesLead(suffix, after, tail);
    }
  }

  // ----- The space separator, which is lost ---------------------------------------------------------

  /** The words with the space each of them had after it in the text. */
  function Spaced(words: seq<string>): string {
    if words == [] then "" else words[0] + " " + Spaced(words[1..])
  }

  lemma {:induction false} SpacedIsJoin(words: seq<string>)
    requires words != []
    ensures Spaced(words) == Join(words, " ") + " "
  {
    if |words| > 1 {
      SpacedIsJoin(words[1..]);
    }
  }

  predicate NoSpaceChar(s: string) {
    forall i :: 0 <= i < |s| ==> s[i] != ' '
  }

  lemma {:induction false} WordsHaveNoSpace(text: string)
    ensures forall w :: w in Split(text, " ") ==> NoSpaceChar(w)
    decreases |text|
  {
    var at := Find(text, " ", 0);
    var n := if at.Some? then at.value else |text|;
    forall i | 0 <= i < n
      ensures text[i] != ' '
    {
      if text[i] == ' ' {
        assert text[i..i + 1] == " ";
        assert OccursAt(text, " ", i);
      }
    }
    assert NoSpaceChar(text[..n]);
    if at.Some? {
      WordsHaveNoSpace(text[n + 1..]);
    } else {
      assert text[..n] == text;
    }
  }

  /** The end of a string after its stripped part. */
  function After(s: string): string {
    StripParts(s);
    s[LeadingSpaces(s) + |Strip(s)|..]
  }

  /** `current` is what the loop collected for the stretch `raw` of the text: the same visible
      word, if any, which the text separates from what follows by a space. */
  ghost predicate Run(raw: string, current: string) {
    && NoSpaceChar(current)
    && Strip(raw) == Strip(current)
    && (Strip(current) != "" ==> ' ' in After(raw))
  }

  lemma Regroup(a: string, p: string, m: string, q: string)
    ensures a + (p + m + q) == (a + p) + m + q
    ensures p + m + q + a == p + m + (q + a)
    ensures a + p + m + q == a + (p + (m + q))
  {
  }

  lemma StripAfterBlank(a: string, b: string)
    requires Blank(a)
    ensures Strip(a + b) == Strip(b)
  {
    StripParts(b);
    var lo := LeadingSpaces(b);
    var hi := lo + |Strip(b)|;
    CutMiddle(b, lo, hi);
    BlankConcat(a, b[..lo]);
    Regroup(a, b[..lo], Strip(b), b[hi..]);
    StripIs(a + b, a + b[..lo], Strip(b), b[hi..]);
  }

  lemma StripBeforeBlank(a: string, b: string)
    requires Blank(b)
    ensures Strip(a + b) == Strip(a)
  {
    StripParts(a);
    var lo := LeadingSpaces(a);
    var hi := lo + |Strip(a)|;
    CutMiddle(a, lo, hi);
    BlankConcat(a[hi..], b);
    Regroup(b, a[..lo], Strip(a), a[hi..]);
    StripIs(a + b, a[..lo], Strip(a), a[hi..] + b);
  }

  lemma StripOfAppend(a: string, b: string)
    ensures Blank(a) ==> Strip(a + b) == Strip(b)
    ensures Blank(b) ==> Strip(a + b) == Strip(a)
  {
    if Blank(a) { StripAfterBlank(a, b); }
    if Blank(b) { StripBeforeBlank(a, b); }
  }

  /** `strip` keeps every visible character. */
  lemma VisibleKept(s: string, i: nat)
    requires i < |s| && !IsSpace(s[i])
    ensures LeadingSpaces(s) <= i < LeadingSpaces(s) + |Strip(s)|
  {
    StripParts(s);
    LeadingSpacesAre(s);
    var hi := LeadingSpaces(s) + |Strip(s)|;
    BlankMeans(s[hi..]);
    assert forall k :: hi <= k < |s| ==> s[k] == s[hi..][k - hi];
  }

  /** Appending to a string with a visible word only extends its stripped form. */
  lemma StripLonger(a: string, b: string)
    requires !Blank(a)
    ensures LeadingSpaces(a + b) == LeadingSpaces(a) && |Strip(a)| <= |Strip(a + b)|
  {
    LeadingOfConcat(a, b);
    StripParts(a);
    var last := LeadingSpaces(a) + |Strip(a)| - 1;
    assert (a + b)[last] == a[last] == Strip(a)[|Strip(a)| - 1];
    VisibleKept(a + b, last);
  }

  lemma StripGrows(a: string, b: string)
    requires !Blank(a)
    ensures Strip(a) <= Strip(a + b)
    ensures Strip(a) == Strip(a + b) ==> After(a + b) == After(a) + b
  {
    StripLonger(a, b);
    StripParts(a);
    StripParts(a + b);
    var lo := LeadingSpaces(a);
    var n := |Strip(a)|;
    SliceLeft(a, b, lo, lo + n);
    PrefixOfSlice(a + b, lo, lo + n, lo + |Strip(a + b)|);
  }

  lemma PrefixOfSlice(s: string, i: nat, j: nat, k: nat)
    requires i <= j <= k <= |s|
    ensures s[i..j] <= s[i..k]
  {
  }

  /** A run goes on being a run while it holds at most one visible word. */
  lemma RunGrows(raw: string, current: string, word: string)
    requires Run(raw, current) && NoSpaceChar(word)
    requires Blank(current) || Blank(word)
    ensures Run(raw + word + " ", current + word)
  {
    SpaceIsBlank();
    StripParts(raw);
    StripParts(current);
    StripOfAppend(current, word);
    var tail := word + " ";
    assert raw + word + " " == raw + tail;
    StripOfAppend(raw, tail);
    StripOfAppend(word, " ");
    if Blank(current) {
      if Strip(word) != "" {
        StripParts(word);
        StripGrows(word, " ");
        assert After(tail)[|After(tail)| - 1] == ' ';
        AfterBlank(raw, tail);
      }
    } else {
      BlankConcat(word, " ");
      StripGrows(raw, tail);
      var k :| 0 <= k < |After(raw)| && After(raw)[k] == ' ';
      assert After(raw + tail)[k] == ' ';
    }
  }

  lemma SpaceIsBlank()
    ensures Blank(" ")
  {
    BlankMeans(" ");
  }

  lemma AfterBlank(a: string, b: string)
    requires Blank(a)
    ensures After(a + b) == After(b)
  {
    LeadingOfConcat(a, b);
    StripOfAppend(a, b);
    StripParts(b);
    SliceRight(a, b, LeadingSpaces(b), LeadingSpaces(b) + |Strip(b)|);
  }

  lemma FreshRun(word: string)
    requires NoSpaceChar(word)
    ensures Run(word + " ", word)
  {
    assert Strip("") == "";
    RunGrows("", "", word);
    assert "" + word + " " == word + " " && "" + word == word;
  }

  /** The first piece still to come starts with the visible part of the current run. */
  lemma {:induction false} PackFirst(words: seq<string>, size: nat, seps: seq<string>, current: string)
    requires size > 0 && SeparatorList(seps) && seps[0] == " " && !Blank(current)
    ensures var p := Pack(words, size, seps, current); p != [] && Strip(current) <= p[0]
  {
    StripParts(current);
    if words != [] {
      var candidate := current + words[0] + Suffix(" ", |words| == 1);
      assert candidate == current + words[0];
      if |candidate| <= size {
        StripGrows(current, words[0]);
        BlankConcat(current, words[0]);
        PackFirst(words[1..], size, seps, candidate);
      }
    }
  }

  /** In the glued run the second visible word comes after blanks that are no spaces. */
  lemma GluedShape(current: string, word: string) returns (m: nat)
    requires NoSpaceChar(current) && NoSpaceChar(word) && !Blank(current) && !Blank(word)
    ensures var s := Strip(current + word);
            && |Strip(current)| <= m < |s| && !IsSpace(s[m])
            && NoSpaceChar(s)
  {
    StripParts(current);
    StripParts(current + word);
    LeadingOfConcat(current, word);
    LeadingSpacesAre(word);
    var s := Strip(current + word);
    var lo := LeadingSpaces(current);
    var at := |current| + LeadingSpaces(word);
    assert (current + word)[at] == word[LeadingSpaces(word)];
    m := at - lo;
    VisibleKept(current + word, at);
    assert forall i :: 0 <= i < |current| ==> (current + word)[i] == current[i];
    assert forall i :: 0 <= i < |word| ==> (current + word)[|current| + i] == word[i];
    assert forall i :: 0 <= i < |s| ==> s[i] == (current + word)[lo + i];
  }

  /** Where the text's first word is followed by a space, the glued run is not. */
  lemma GluedMismatch(raw: string, current: string, word: string) returns (at: nat)
    requires Run(raw, current) && NoSpaceChar(word) && !Blank(current) && !Blank(word)
    ensures at < |Strip(current + word)| && LeadingSpaces(raw) + at < |raw|
    ensures raw[LeadingSpaces(raw) + at] != Strip(current + word)[at]
  {
    StripParts(raw);
    StripParts(current);
    var core, rest := Strip(raw), After(raw);
    var m := GluedShape(current, word);
    var k :| 0 <= k < |rest| && rest[k] == ' ';
    BlankMeans(rest);
    at := if |core| + k < m then |core| + k else m;
    AfterAt(raw, at);
  }

  lemma AfterAt(s: string, at: nat)
    requires |Strip(s)| <= at < |Strip(s)| + |After(s)|
    ensures LeadingSpaces(s) + at < |s| && s[LeadingSpaces(s) + at] == After(s)[at - |Strip(s)|]
  {
    StripParts(s);
  }

  /** A piece that starts with two glued words does not occur where the first word does. */
  lemma GluedDoesNotTile(raw: string, current: string, word: string, more: string, pieces: seq<string>)
    requires Run(raw, current) && NoSpaceChar(word) && !Blank(current) && !Blank(word)
    requires pieces != [] && Strip(current + word) <= pieces[0]
    ensures !Tiles(raw + more, pieces)
  {
    var at := GluedMismatch(raw, current, word);
    StripParts(raw);
    StripParts(current);
    LeadingOfConcat(raw, more);
    var g := LeadingSpaces(raw);
    assert (raw + more)[g + at] == raw[g + at];
    assert pieces[0][at] == Strip(current + word)[at];
    MismatchDoesNotOccur(raw + more, pieces[0], g, at);
  }

  ghost predicate GlueClaim(words: seq<string>, size: nat, seps: seq<string>, raw: string, current: string)
    requires size > 0 && SeparatorList(seps) && seps[0] == " "
  {
    Tiles(raw + Spaced(words), Pack(words, size, seps, current)) <==>
    NoGluedWords(words, size, |current|, Strip(current) != "")
  }

  lemma {:induction false} GlueIff(words: seq<string>, size: nat, seps: seq<string>, raw: string, current: string)
    requires size > 0 && SeparatorList(seps) && seps[0] == " "
    requires Run(raw, current) && forall w :: w in words ==> NoSpaceChar(w)
    ensures GlueClaim(words, size, seps, raw, current)
    decreases |words|
  {
    if words == [] {
      TilesEmit(raw);
      assert raw + Spaced(words) == raw;
    } else {
      var word, rest := words[0], words[1..];
      assert word in words && forall w :: w in rest ==> w in words;
      if |current + word| <= size {
        if Blank(current) || Blank(word) {
          RunGrows(raw, current, word);
          GlueIff(rest, size, seps, raw + word + " ", current + word);
        }
        GlueWhenMerged(words, size, seps, raw, current);
      } else if |word| > size {
        FreshRun("");
        assert "" + " " == " ";
        GlueIff(rest, size, seps, " ", "");
        GlueWhenSplit(words, size, seps, raw, current);
      } else {
        FreshRun(word);
        GlueIff(rest, size, seps, word + " ", word);
        GlueWhenEmitted(words, size, seps, raw, current);
      }
    }
  }

  lemma SpacedNext(words: seq<string>, raw: string)
    requires words != []
    ensures raw + Spaced(words) == raw + words[0] + " " + Spaced(words[1..])
    ensures raw + Spaced(words) == raw + (words[0] + (" " + Spaced(words[1..])))
  {
    Regroup(raw, words[0], " ", Spaced(words[1..]));
  }

  lemma PackMerged(words: seq<string>, size: nat, seps: seq<string>, current: string)
    requires size > 0 && SeparatorList(seps) && seps[0] == " " && words != []
    requires |current + words[0]| <= size
    ensures Pack(words, size, seps, current) == Pack(words[1..], size, seps, current + words[0])
  {
    assert current + words[0] + Suffix(" ", |words| == 1) == current + words[0];
  }

  lemma PackSplit(words: seq<string>, size: nat, seps: seq<string>, current: string)
    requires size > 0 && SeparatorList(seps) && seps[0] == " " && words != []
    requires |words[0]| > size
    ensures Pack(words, size, seps, current) ==
            Emit(current) + HardSlices(words[0], size) + Pack(words[1..], size, seps, "")
  {
    assert Pieces(words[0], size, seps[1..]) == HardSlices(words[0], size);
  }

  lemma GlueWhenMerged(words: seq<string>, size: nat, seps: seq<string>, raw: string, current: string)
    requires size > 0 && SeparatorList(seps) && seps[0] == " " && words != []
    requires Run(raw, current) && NoSpaceChar(words[0]) && |current + words[0]| <= size
    requires Blank(current) || Blank(words[0]) ==>
             GlueClaim(words[1..], size, seps, raw + words[0] + " ", current + words[0])
    ensures GlueClaim(words, size, seps, raw, current)
  {
    PackMerged(words, size, seps, current);
    StripParts(current);
    if !Blank(current) && !Blank(words[0]) {
      BlankConcat(current, words[0]);
      PackFirst(words[1..], size, seps, current + words[0]);
      GluedDoesNotTile(raw, current, words[0], Spaced(words), Pack(words[1..], size, seps, current + words[0]));
    } else {
      GlueStepKept(words, size, raw, current);
    }
  }

  lemma VisibleAfter(current: string, word: string)
    requires Blank(current) || Blank(word)
    ensures Strip(current + word) != "" <==> Strip(current) != "" || !Blank(word)
  {
    StripParts(current);
    StripParts(word);
    StripOfAppend(current, word);
  }

  lemma GlueStepKept(words: seq<string>, size: nat, raw: string, current: string)
    requires words != [] && |current + words[0]| <= size && (Blank(current) || Blank(words[0]))
    ensures raw + Spaced(words) == raw + words[0] + " " + Spaced(words[1..])
    ensures NoGluedWords(words, size, |current|, Strip(current) != "") <==>
            NoGluedWords(words[1..], size, |current + words[0]|, Strip(current + words[0]) != "")
  {
    SpacedNext(words, raw);
    VisibleAfter(current, words[0]);
    assert Blank(current) ==> Strip(current) == "" by { StripParts(current); }
  }

  lemma GlueWhenSplit(words: seq<string>, size: nat, seps: seq<string>, raw: string, current: string)
    requires size > 0 && SeparatorList(seps) && seps[0] == " " && words != []
    requires Run(raw, current) && |words[0]| > size
    requires GlueClaim(words[1..], size, seps, " ", "")
    ensures GlueClaim(words, size, seps, raw, current)
  {
    PackSplit(words, size, seps, current);
    SpacedNext(words, raw);
    assert Strip("") == "";
    HardThenIff(raw, current, words[0], size, " " + Spaced(words[1..]), Pack(words[1..], size, seps, ""));
  }

  lemma GlueWhenEmitted(words: seq<string>, size: nat, seps: seq<string>, raw: string, current: string)
    requires size > 0 && SeparatorList(seps) && seps[0] == " " && words != []
    requires Run(raw, current) && |words[0]| <= size < |current + words[0]|
    requires GlueClaim(words[1..], size, seps, words[0] + " ", words[0])
    ensures GlueClaim(words, size, seps, raw, current)
  {
    var word, rest := words[0], words[1..];
    assert current + word + Suffix(" ", |words| == 1) == current + word;
    assert word + Suffix(" ", |words| == 1) == word;
    StripParts(word);
    EmitThenIff(raw, (word + " ") + Spaced(rest), Pack(rest, size, seps, word));
    assert raw + Spaced(words) == raw + ((word + " ") + Spaced(rest));
    assert Emit(current) == Emit(raw);
  }

  lemma HardThenIff(raw: string, current: string, word: string, size: nat, text: string, tail: seq<string>)
    requires size > 0 && Run(raw, current)
    ensures Tiles(raw + (word + text), Emit(current) + HardSlices(word, size) + tail) <==> Tiles(text, tail)
  {
    var slices := HardSlices(word, size);
    assert Emit(current) + slices + tail == Emit(raw) + (slices + tail);
    EmitThenIff(raw, word + text, slices + tail);
    TilesHardSlices(word, size);
    KeptHardSlices(word, size);
    if Tiles(text, tail) {
      TilesConcat(word, slices, text, tail);
    }
    if Tiles(word + text, slices + tail) {
      TilesSplit(word, slices, text, tail);
    }
  }

  lemma WordsIff(text: string, size: nat, seps: seq<string>)
    requires size > 0 && SeparatorList(seps) && seps[0] == " " && |text| > size
    ensures Tiles(text, Pieces(text, size, seps)) <==> NoGluedWords(Split(text, " "), size, 0, false)
  {
    var words := Split(text, " ");
    WordsHaveNoSpace(text);
    assert Strip("") == "";
    GlueIff(words, size, seps, "", "");
    SpacedIsJoin(words);
    JoinSplit(text, " ");
    assert "" + Spaced(words) == text + " ";
    SpaceIsBlank();
    TilesTrail(text, " ", Pack(words, size, seps, ""));
  }

  // ----- Texts whose segments fit -------------------------------------------------------------------

  /** Every segment left after splitting on each of `seps` in turn has at most `size` characters. */
  predicate SegmentsFit(text: string, size: nat, seps: seq<string>)
    requires forall i :: 0 <= i < |seps| ==> seps[i] != ""
    decreases |seps|
  {
    if seps == [] then |text| <= size
    else forall part :: part in Split(text, seps[0]) ==> SegmentsFit(part, size, seps[1..])
  }

  lemma {:induction false} FitIsRecoverable(text: string, size: nat, n: nat)
    requires size > 0 && n <= 3 && SegmentsFit(text, size, SEPARATORS[n..3])
    ensures Recoverable(text, size, SEPARATORS[n..])
    decreases 3 - n
  {
    if n < 3 && |text| > size {
      var seps := SEPARATORS[n..];
      assert SEPARATORS[n..3][1..] == SEPARATORS[n + 1..3] && seps[1..] == SEPARATORS[n + 1..];
      assert SEPARATORS[n..3][0] == seps[0];
      var parts := Split(text, seps[0]);
      FitPartsRecoverable(parts, size, n);
    }
  }

  lemma {:induction false} FitPartsRecoverable(parts: seq<string>, size: nat, n: nat)
    requires size > 0 && n < 3
    requires forall part :: part in parts ==> SegmentsFit(part, size, SEPARATORS[n + 1..3])
    ensures PartsRecoverable(parts, size, SEPARATORS[n..])
    decreases 3 - n, 0, |parts|
  {
    if parts != [] {
      var seps := SEPARATORS[n..];
      assert seps[1..] == SEPARATORS[n + 1..];
      assert parts[0] in parts && forall part :: part in parts[1..] ==> part in parts;
      if n == 2 {
        assert SEPARATORS[n + 1..3] == [];
      }
      FitIsRecoverable(parts[0], size, n + 1);
      FitPartsRecoverable(parts[1..], size, n);
    }
  }
}
