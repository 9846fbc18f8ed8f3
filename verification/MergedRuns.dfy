/** Which pieces the offset search can fail on: only words merged at the space separator. */
module MergedRuns {
  import opened Text
  import opened Splitter
  import opened OffsetRecovery
  import opened OffsetSearch

  // ----- The search fails exactly on a piece that is nowhere in the text ------------------------------

  ghost predicate Absent(full: string, p: string) {
    Find(full, p, 0).None?
  }

  lemma PlaceFails(full: string, p: string, from: nat)
    ensures Place(full, p, from).None? <==> Absent(full, p)
  {
    var later := Find(full, p, from);
    if later.Some? {
      assert OccursAt(full, p, later.value);
    }
  }

  lemma {:induction false} SearchFailsIff(full: string, contents: seq<string>, index: nat, from: nat, m: Metadata)
    requires NoneEmpty(contents)
    ensures PlaceFrom(full, contents, index, from, m).Err? <==> exists p :: p in contents && Absent(full, p)
    decreases |contents|
  {
    if contents != [] {
      PlaceFails(full, contents[0], from);
      assert NoneEmpty(contents[1..]);
      assert forall p :: p in contents <==> p == contents[0] || p in contents[1..];
      var at := Place(full, contents[0], from);
      if at.Some? {
        SearchFailsIff(full, contents[1..], index + 1, at.value + |contents[0]|, m);
      }
    }
  }

  lemma WithinIsFound(full: string, p: string)
    requires Within(p, full)
    ensures !Absent(full, p)
  {
    var lo: nat, hi: nat :| lo <= hi <= |full| && p == full[lo..hi];
    assert OccursAt(full, p, lo);
  }

  // ----- The merged runs -------------------------------------------------------------------------------

  function Flushed(current: string, visible: nat): seq<string> {
    if visible >= 2 then [Strip(current)] else []
  }

  function Count(word: string): nat {
    if Blank(word) then 0 else 1
  }

  /** The runs of two or more visible words the splitter emits at the space separator, joined without
      the space; `current` is the run being collected and `visible` counts its visible words. */
  function MergedWords(words: seq<string>, size: nat, current: string, visible: nat): seq<string> {
    if words == [] then Flushed(current, visible)
    else
      var word, rest := words[0], words[1..];
      if |current + word| <= size then MergedWords(rest, size, current + word, visible + Count(word))
      else if |word| > size then Flushed(current, visible) + MergedWords(rest, size, "", 0)
      else Flushed(current, visible) + MergedWords(rest, size, word, Count(word))
  }

  function MergedRuns(text: string, size: nat, seps: seq<string>): seq<string>
    requires size > 0 && SeparatorList(seps)
    decreases |seps|, 1, 0
  {
    if |text| <= size || seps[0] == "" then []
    else if seps[0] == " " then MergedWords(Split(text, " "), size, "", 0)
    else MergedIn(Split(text, seps[0]), size, seps)
  }

  function MergedIn(parts: seq<string>, size: nat, seps: seq<string>): seq<string>
    requires size > 0 && SeparatorList(seps) && seps[0] != ""
    decreases |seps|, 0, |parts|
  {
    if parts == [] then []
    else (if |parts[0]| > size then MergedRuns(parts[0], size, seps[1..]) else []) + MergedIn(parts[1..], size, seps)
  }

  // ----- Every other piece is a stretch of the text ------------------------------------------------------

  lemma WithinSlice(text: string, lo: nat, hi: nat)
    requires lo <= hi <= |text|
    ensures Within(text[lo..hi], text)
  {
  }

  lemma SliceOfSlice(s: string, k: nat, l: nat, i: nat, j: nat)
    requires k <= l <= |s| && i <= j <= l - k
    ensures s[k..l][i..j] == s[k + i..k + j]
  {
    var a, b := s[k..l][i..j], s[k + i..k + j];
    assert |a| == |b| && forall x :: 0 <= x < |a| ==> a[x] == b[x];
  }

  lemma WithinTrans(a: string, b: string, c: string)
    requires Within(a, b) && Within(b, c)
    ensures Within(a, c)
  {
    var i: nat, j: nat :| i <= j <= |b| && a == b[i..j];
    var k: nat, l: nat :| k <= l <= |c| && b == c[k..l];
    SliceOfSlice(c, k, l, i, j);
    WithinSlice(c, k + i, k + j);
  }

  lemma WithinMiddle(a: string, b: string, c: string)
    ensures Within(b, a + b + c)
  {
    var all := a + b + c;
    assert all[|a|..|a| + |b|] == b;
    WithinSlice(all, |a|, |a| + |b|);
  }

  lemma StripWithin(s: string)
    ensures Within(Strip(s), s)
  {
    StripParts(s);
    WithinSlice(s, LeadingSpaces(s), LeadingSpaces(s) + |Strip(s)|);
  }

  lemma EmitWithin(s: string, p: string)
    requires p in Emit(s)
    ensures p == Strip(s) && Within(p, s)
  {
    StripWithin(s);
  }

  lemma {:induction false} HardSlicesWithin(text: string, size: nat, p: string)
    requires size > 0 && p in HardSlices(text, size)
    ensures Within(p, text)
    decreases |text|
  {
    if |text| <= size {
      EmitWithin(text, p);
    } else if p in Emit(text[..size]) {
      EmitWithin(text[..size], p);
      WithinPrefix(text, size);
      WithinTrans(p, text[..size], text);
    } else {
      HardSlicesWithin(text[size..], size, p);
      WithinSuffix(p, text, size);
    }
  }

  /** What `visible` says of the run collected at the space separator. */
  ghost predicate RunOf(text: string, current: string, visible: nat) {
    && (visible == 0 ==> Blank(current))
    && (visible == 1 ==> Within(Strip(current), text))
  }

  lemma RunOfMore(text: string, current: string, visible: nat, word: string)
    requires RunOf(text, current, visible) && Within(word, text)
    ensures RunOf(text, current + word, visible + Count(word))
  {
    BlankConcat(current, word);
    StripOfAppend(current, word);
    StripWithin(word);
    WithinTrans(Strip(word), word, text);
  }

  lemma RunOfNone(text: string)
    ensures RunOf(text, "", 0)
  {
  }

  lemma EmitOfRun(text: string, current: string, visible: nat, p: string)
    requires RunOf(text, current, visible) && p in Emit(current)
    ensures Within(p, text) || p in Flushed(current, visible)
  {
    EmitWithin(current, p);
    StripParts(current);
  }

  lemma {:induction false} WordPieces(text: string, words: seq<string>, size: nat, seps: seq<string>,
                                      current: string, visible: nat, p: string)
    requires size > 0 && SeparatorList(seps) && seps[0] == " "
    requires (forall w :: w in words ==> Within(w, text)) && RunOf(text, current, visible)
    requires p in Pack(words, size, seps, current)
    ensures Within(p, text) || p in MergedWords(words, size, current, visible)
    decreases |words|
  {
    if words == [] {
      EmitOfRun(text, current, visible, p);
    } else {
      var word, rest := words[0], words[1..];
      assert word in words && forall w :: w in rest ==> w in words;
      if |current + word| <= size {
        PackMerged(words, size, seps, current);
        RunOfMore(text, current, visible, word);
        WordPieces(text, rest, size, seps, current + word, visible + Count(word), p);
      } else if p in Emit(current) {
        EmitOfRun(text, current, visible, p);
      } else if |word| > size {
        LongWordPieces(text, words, size, seps, current, p);
        if p in Pack(rest, size, seps, "") {
          RunOfNone(text);
          WordPieces(text, rest, size, seps, "", 0, p);
        }
      } else {
        assert word + Suffix(" ", |words| == 1) == word;
        RunOfNone(text);
        RunOfMore(text, "", 0, word);
        assert "" + word == word;
        WordPieces(text, rest, size, seps, word, Count(word), p);
      }
    }
  }

  lemma LongWordPieces(text: string, words: seq<string>, size: nat, seps: seq<string>, current: string, p: string)
    requires size > 0 && SeparatorList(seps) && seps[0] == " " && words != []
    requires Within(words[0], text) && |words[0]| > size
    requires p in Pack(words, size, seps, current) && p !in Emit(current)
    ensures Within(p, text) || p in Pack(words[1..], size, seps, "")
  {
    PackSplit(words, size, seps, current);
    if p in HardSlices(words[0], size) {
      HardSlicesWithin(words[0], size, p);
      WithinTrans(p, words[0], text);
    }
  }

  lemma {:induction false} PiecesWithin(text: string, size: nat, seps: seq<string>, p: string)
    requires size > 0 && SeparatorList(seps) && p in Pieces(text, size, seps)
    ensures Within(p, text) || p in MergedRuns(text, size, seps)
    decreases |seps|, 1, 0
  {
    if |text| <= size {
      EmitWithin(text, p);
    } else if seps[0] == "" {
      HardSlicesWithin(text, size, p);
    } else if seps[0] == " " {
      forall w | w in Split(text, " ")
        ensures Within(w, text)
      {
        PartWithin(text, " ", w);
      }
      RunOfNone(text);
      WordPieces(text, Split(text, " "), size, seps, "", 0, p);
    } else {
      PackWithin(Split(text, seps[0]), size, seps, "", p);
      JoinSplit(text, seps[0]);
      assert Pending(Split(text, seps[0]), seps[0], "") == text;
    }
  }

  lemma {:induction false} PackWithin(parts: seq<string>, size: nat, seps: seq<string>, current: string, p: string)
    requires size > 0 && SeparatorList(seps) && seps[0] !in {"", " "}
    requires p in Pack(parts, size, seps, current)
    ensures Within(p, Pending(parts, seps[0], current)) || p in MergedIn(parts, size, seps)
    decreases |seps|, 0, |parts|
  {
    if parts == [] {
      EmitWithin(current, p);
      assert Pending(parts, seps[0], current) == current;
    } else {
      var part, rest := parts[0], parts[1..];
      var suffix := Suffix(seps[0], |parts| == 1);
      PendingNext(parts, seps[0], current);
      if |current + part + suffix| <= size {
        PackWithin(rest, size, seps, current + part + suffix, p);
      } else if p in Emit(current) {
        EmitWithin(current, p);
        InFirst(p, current, Pending(rest, seps[0], part + suffix));
      } else if |part| > size {
        SplitPieces(parts, size, seps, current, p);
        if p in Pieces(part, size, seps[1..]) {
          PiecesWithin(part, size, seps[1..], p);
          if Within(p, part) {
            InSecond(p, current, part, suffix + Pending(rest, seps[0], ""));
          }
        } else {
          PackWithin(rest, size, seps, "", p);
          if Within(p, Pending(rest, seps[0], "")) {
            InFourth(p, current, part, suffix, Pending(rest, seps[0], ""));
          }
        }
      } else {
        PackWithin(rest, size, seps, part + suffix, p);
        if Within(p, Pending(rest, seps[0], part + suffix)) {
          InLast(p, current, Pending(rest, seps[0], part + suffix));
        }
      }
    }
  }

  lemma SplitPieces(parts: seq<string>, size: nat, seps: seq<string>, current: string, p: string)
    requires size > 0 && SeparatorList(seps) && seps[0] != "" && parts != [] && |parts[0]| > size
    requires p in Pack(parts, size, seps, current) && p !in Emit(current)
    ensures p in Pieces(parts[0], size, seps[1..]) || p in Pack(parts[1..], size, seps, "")
  {
    assert Pack(parts, size, seps, current) ==
           Emit(current) + Pieces(parts[0], size, seps[1..]) + Pack(parts[1..], size, seps, "");
  }

  lemma InFirst(p: string, a: string, b: string)
    requires Within(p, a)
    ensures Within(p, a + b)
  {
    assert a + b == "" + a + b;
    WithinMiddle("", a, b);
    WithinTrans(p, a, a + b);
  }

  lemma InLast(p: string, a: string, b: string)
    requires Within(p, b)
    ensures Within(p, a + b)
  {
    assert a + b == a + b + "";
    WithinMiddle(a, b, "");
    WithinTrans(p, b, a + b);
  }

  lemma InSecond(p: string, a: string, b: string, c: string)
    requires Within(p, b)
    ensures Within(p, a + (b + c))
  {
    InFirst(p, b, c);
    InLast(p, a, b + c);
  }

  lemma InFourth(p: string, a: string, b: string, c: string, d: string)
    requires Within(p, d)
    ensures Within(p, a + (b + (c + d)))
  {
    InLast(p, c, d);
    InLast(p, b, c + d);
    InLast(p, a, b + (c + d));
  }

  // ----- Every merged run is a piece -------------------------------------------------------------------

  /** A run with a visible word is emitted. */
  ghost predicate RunVisible(current: string, visible: nat) {
    visible > 0 ==> !Blank(current)
  }

  lemma RunVisibleMore(current: string, visible: nat, word: string)
    requires RunVisible(current, visible)
    ensures RunVisible(current + word, visible + Count(word))
  {
    BlankConcat(current, word);
  }

  lemma FlushedIsEmitted(current: string, visible: nat, p: string)
    requires RunVisible(current, visible) && p in Flushed(current, visible)
    ensures p in Emit(current)
  {
    StripParts(current);
  }

  lemma {:induction false} MergedWordIsPiece(words: seq<string>, size: nat, seps: seq<string>,
                                             current: string, visible: nat, p: string)
    requires size > 0 && SeparatorList(seps) && seps[0] == " " && RunVisible(current, visible)
    requires p in MergedWords(words, size, current, visible)
    ensures p in Pack(words, size, seps, current)
    decreases |words|
  {
    if words == [] {
      FlushedIsEmitted(current, visible, p);
    } else {
      var word, rest := words[0], words[1..];
      if |current + word| <= size {
        PackMerged(words, size, seps, current);
        RunVisibleMore(current, visible, word);
        MergedWordIsPiece(rest, size, seps, current + word, visible + Count(word), p);
      } else if p in Flushed(current, visible) {
        FlushedIsEmitted(current, visible, p);
      } else if |word| > size {
        MergedWordIsPiece(rest, size, seps, "", 0, p);
      } else {
        assert word + Suffix(" ", |words| == 1) == word;
        MergedWordIsPiece(rest, size, seps, word, Count(word), p);
      }
    }
  }

  lemma {:induction false} MergedRunIsPiece(text: string, size: nat, seps: seq<string>, p: string)
    requires size > 0 && SeparatorList(seps) && p in MergedRuns(text, size, seps)
    ensures p in Pieces(text, size, seps)
    decreases |seps|, 1, 0
  {
    if seps[0] == " " {
      MergedWordIsPiece(Split(text, " "), size, seps, "", 0, p);
    } else {
      MergedInIsPiece(Split(text, seps[0]), size, seps, "", p);
    }
  }

  lemma {:induction false} MergedInIsPiece(parts: seq<string>, size: nat, seps: seq<string>, current: string, p: string)
    requires size > 0 && SeparatorList(seps) && seps[0] !in {"", " "} && p in MergedIn(parts, size, seps)
    ensures p in Pack(parts, size, seps, current)
    decreases |seps|, 0, |parts|
  {
    var part, rest := parts[0], parts[1..];
    var suffix := Suffix(seps[0], |parts| == 1);
    if |part| > size && p in MergedRuns(part, size, seps[1..]) {
      MergedRunIsPiece(part, size, seps[1..], p);
    } else if |current + part + suffix| <= size {
      MergedInIsPiece(rest, size, seps, current + part + suffix, p);
    } else if |part| > size {
      MergedInIsPiece(rest, size, seps, "", p);
    } else {
      MergedInIsPiece(rest, size, seps, part + suffix, p);
    }
  }

  // ----- Exactly when chunking raises --------------------------------------------------------------------

  /** Some merged run of words occurs nowhere in the text. */
  ghost predicate MergedRunAbsent(text: string, size: nat)
    requires size > 0
  {
    exists p :: p in MergedRuns(text, size, SEPARATORS) && Absent(text, p)
  }

  lemma PiecesAreStripped(text: string, size: nat)
    requires size > 0
    ensures AllStripped(Pieces(text, size, SEPARATORS)) && NoneEmpty(Pieces(text, size, SEPARATORS))
  {
    var pieces := Pieces(text, size, SEPARATORS);
    PiecesOk(text, size, SEPARATORS);
    forall i | 0 <= i < |pieces|
      ensures Stripped(pieces[i])
    {
      assert PieceOk(pieces[i], size);
    }
  }

  /** The search over the pieces of a text fails exactly when a merged run is not in the text. */
  lemma SearchFailsOnMergedRun(text: string, size: nat, m: Metadata)
    requires size > 0
    ensures BuildChunks(text, Pieces(text, size, SEPARATORS), m).Err? <==> MergedRunAbsent(text, size)
  {
    var pieces := Pieces(text, size, SEPARATORS);
    PiecesAreStripped(text, size);
    BuildOfStripped(text, pieces, m);
    SearchFailsIff(text, pieces, 0, 0, m);
    if p :| p in pieces && Absent(text, p) {
      PiecesWithin(text, size, SEPARATORS, p);
      if Within(p, text) {
        WithinIsFound(text, p);
      }
    }
    if p :| p in MergedRuns(text, size, SEPARATORS) && Absent(text, p) {
      MergedRunIsPiece(text, size, SEPARATORS, p);
    }
  }
}
