/** The three outcomes of recursive chunking: an error, wrong offsets, or exact offsets; each with a
    text that has it. */
module OffsetOutcomes {
  import opened Basics
  import opened Text
  import opened Splitter
  import opened OffsetRecovery
  import opened OffsetSearch
  import opened ExactOffsets
  import opened MergedRuns
  import opened GreedyPacking

  /** Dense indices, and the parameters on every chunk. */
  predicate Labelled(chunks: seq<Chunk>, m: Metadata) {
    forall i :: 0 <= i < |chunks| ==> chunks[i].index == i && chunks[i].metadata == m
  }

  /** Chunking raises exactly when a merged run of words is nowhere in the text; otherwise its offsets
      are exact for the recoverable texts and wrong, without an error, for all others. */
  lemma ChunkingOutcome(text: string, size: nat, overlap: nat)
    requires size > 0
    ensures var r := ChunkRecursive(text, size, overlap);
            && (r.Err? <==> MergedRunAbsent(text, size))
            && (r.Err? ==> r.error == CannotMapChunk && !TextRecoverable(text, size))
            && (r.Ok? ==> (ExactCover(text, r.value) <==> TextRecoverable(text, size)))
            && (r.Ok? ==> Labelled(r.value, Metadata(Recursive, size, overlap)))
  {
    var pieces, m := Pieces(text, size, SEPARATORS), Metadata(Recursive, size, overlap);
    SearchFailsOnMergedRun(text, size, m);
    OnlyMappingFails(text, Trimmed(pieces), 0, 0, m);
    RecursiveExactIff(text, size, overlap);
    CoverIsIndexed(text, size, overlap);
  }

  lemma {:induction false} OnlyMappingFails(full: string, contents: seq<string>, index: nat, from: nat, m: Metadata)
    ensures PlaceFrom(full, contents, index, from, m).Err? ==>
              PlaceFrom(full, contents, index, from, m).error == CannotMapChunk
    decreases |contents|
  {
    if contents != [] {
      var at := Place(full, contents[0], from);
      if contents[0] == "" {
        OnlyMappingFails(full, contents[1..], index + 1, from, m);
      } else if at.Some? {
        OnlyMappingFails(full, contents[1..], index + 1, at.value + |contents[0]|, m);
      }
    }
  }

  lemma {:induction false} PlacedIndices(full: string, pieces: seq<string>, index: nat, from: nat, m: Metadata,
                                         chunks: seq<Chunk>)
    requires NoneEmpty(pieces) && PlaceFrom(full, pieces, index, from, m) == Ok(chunks)
    ensures forall i :: 0 <= i < |chunks| ==> chunks[i].index == index + i && chunks[i].metadata == m
    decreases |pieces|
  {
    if pieces != [] {
      assert NoneEmpty(pieces[1..]);
      FirstOfPlaced(full, pieces, index, from, m, chunks);
      assert chunks[0].index == index;
      PlacedIndices(full, pieces[1..], index + 1, chunks[0].end, m, chunks[1..]);
      assert forall i :: 1 <= i < |chunks| ==> chunks[i] == chunks[1..][i - 1];
    }
  }

  /** Indices are dense whenever chunking returns, so exactness is a matter of the spans. */
  lemma CoverIsIndexed(text: string, size: nat, overlap: nat)
    requires size > 0
    ensures var r := ChunkRecursive(text, size, overlap);
            && (RecursiveExact(text, size, overlap) <==> r.Ok? && ExactCover(text, r.value))
            && (r.Ok? ==> Labelled(r.value, Metadata(Recursive, size, overlap)))
  {
    var pieces, m := Pieces(text, size, SEPARATORS), Metadata(Recursive, size, overlap);
    var r := ChunkRecursive(text, size, overlap);
    if r.Ok? {
      PiecesAreStripped(text, size);
      BuildOfStripped(text, pieces, m);
      PlacedIndices(text, pieces, 0, 0, m, r.value);
    }
  }

  // ----- Texts of words only ---------------------------------------------------------------------------

  predicate WordsOnly(t: string) {
    '\n' !in t && '.' !in t
  }

  lemma PiecesOfWords(t: string, size: nat)
    requires size > 0 && WordsOnly(t) && |t| > size
    ensures Pieces(t, size, SEPARATORS) == Pack(Split(t, " "), size, SEPARATORS[3..], "")
  {
    SplitAbsent(t, "\n\n");
    SplitAbsent(t, "\n");
    SplitAbsent(t, ". ");
    SeparatorsSkipped(t, size, 3);
    assert SEPARATORS[3..][0] == " ";
  }

  lemma AabbStripped()
    ensures Stripped("aabb")
  {
    assert !IsSpace('a') && !IsSpace('b');
  }

  lemma MergeTwo(a: string, b: string, rest: seq<string>, size: nat)
    requires size > 0 && |a| + |b| <= size
    ensures Pack([a, b] + rest, size, SEPARATORS[3..], "") == Pack(rest, size, SEPARATORS[3..], a + b)
  {
    var seps := SEPARATORS[3..];
    assert seps[0] == " " && SeparatorList(seps);
    var words := [a, b] + rest;
    assert words[1..] == [b] + rest && ([b] + rest)[1..] == rest && "" + a == a;
    PackMerged(words, size, seps, "");
    PackMerged([b] + rest, size, seps, a);
  }

  // ----- An error ----------------------------------------------------------------------------------------

  /** Two words that fit into one chunk together. */
  lemma MergedPiece(a: string, b: string, t: string, size: nat)
    requires t == a + " " + b && WordsOnly(t) && ' ' !in a && ' ' !in b
    requires Stripped(a + b) && |a + b| <= size < |t|
    ensures Pieces(t, size, SEPARATORS) == [a + b]
  {
    PiecesOfWords(t, size);
    SplitFirst(a, " ", b);
    SplitAbsent(b, " ");
    assert [a] + [b] == [a, b] + [];
    MergeTwo(a, b, [], size);
    StripOfStripped(a + b);
  }

  lemma MergedWordAbsent()
    ensures Absent("aa bb", "aabb")
  {
    var t := "aa bb";
    assert t[0..4] != "aabb" by { assert t[0..4][2] == ' '; }
    assert t[1..5] != "aabb" by { assert t[1..5][1] == ' '; }
  }

  /** The two words of "aa bb" are merged into "aabb" when the chunk size is 4, which occurs nowhere in
      the text: chunking raises. */
  lemma MergedWordsCannotBeMapped(overlap: nat)
    ensures ChunkRecursive("aa bb", 4, overlap) == Err(CannotMapChunk)
  {
    AabbStripped();
    assert "aa" + "bb" == "aabb" && "aa" + " " + "bb" == "aa bb";
    MergedPiece("aa", "bb", "aa bb", 4);
    BuildOfStripped("aa bb", ["aabb"], Metadata(Recursive, 4, overlap));
    MergedWordAbsent();
  }

  // ----- Wrong offsets ------------------------------------------------------------------------------------

  lemma SplitThree(a: string, b: string, c: string)
    requires ' ' !in a && ' ' !in b && ' ' !in c
    ensures Split(a + " " + (b + " " + c), " ") == [a, b, c]
  {
    SplitFirst(a, " ", b + " " + c);
    SplitFirst(b, " ", c);
    SplitAbsent(c, " ");
    assert [a] + ([b] + [c]) == [a, b, c];
  }

  /** Two words that together are the third one. */
  lemma TwicePieces(a: string, b: string, t: string, size: nat)
    requires t == a + " " + (b + " " + (a + b)) && WordsOnly(t) && ' ' !in a && ' ' !in b
    requires Stripped(a + b) && |a + b| <= size < 2 * |a + b|
    ensures Pieces(t, size, SEPARATORS) == [a + b, a + b]
  {
    PiecesOfWords(t, size);
    SplitThree(a, b, a + b);
    assert [a, b, a + b] == [a, b] + [a + b];
    MergeTwo(a, b, [a + b], size);
    EmitAndEnd(a + b, size);
  }

  lemma EmitAndEnd(w: string, size: nat)
    requires Stripped(w) && |w| <= size < 2 * |w|
    ensures Pack([w], size, SEPARATORS[3..], w) == [w, w]
  {
    var seps := SEPARATORS[3..];
    assert seps[0] == " " && SeparatorList(seps) && [w][1..] == [];
    assert w + Suffix(" ", true) == w;
    StripOfStripped(w);
    assert Pack([w], size, seps, w) == Emit(w) + Pack([], size, seps, w);
  }

  /** The search for a piece that comes twice but occurs once starts again from the beginning. */
  lemma TwiceAt(t: string, w: string, at: nat, m: Metadata)
    requires Stripped(w) && Find(t, w, 0) == Some(at) && Find(t, w, at + |w|).None?
    ensures BuildChunks(t, [w, w], m) == Ok([Chunk(w, 0, at, at + |w|, m), Chunk(w, 1, at, at + |w|, m)])
  {
    var first, second := Chunk(w, 0, at, at + |w|, m), Chunk(w, 1, at, at + |w|, m);
    BuildOfStripped(t, [w, w], m);
    assert [w, w][1..] == [w] && [w][1..] == [];
    assert [second] + [] == [second] && [first] + [second] == [first, second];
    assert PlaceFrom(t, [w], 1, at + |w|, m) == Ok([second]) by {
      FirstPlaced(t, [w], 1, at + |w|, m, at, []);
    }
    FirstPlaced(t, [w, w], 0, 0, m, at, [second]);
  }

  lemma SameSpanTwice(t: string, c: Chunk, d: Chunk)
    requires c.start < c.end && d.start == c.start
    ensures !ExactCover(t, [c, d])
  {
    assert [c, d][0] == c && [c, d][1] == d;
  }

  lemma FoundLate()
    ensures Find("aa bb aabb", "aabb", 0) == Some(6) && Find("aa bb aabb", "aabb", 10).None?
  {
    var t := "aa bb aabb";
    assert t[6..10] == "aabb";
    forall i: nat | i < 6
      ensures !OccursAt(t, "aabb", i)
    {
      assert t[i..i + 4][0] == t[i] && t[i..i + 4][1] == t[i + 1] && t[i..i + 4][2] == t[i + 2];
    }
  }

  /** In "aa bb aabb", with chunk size 4, the merged words are found inside the third word, and so is
      the third word itself, after the search starts again: both chunks get the same span, the first
      five characters are covered by none, and nothing is raised. */
  lemma MergedWordsMappedWrongly(overlap: nat)
    ensures var m := Metadata(Recursive, 4, overlap);
            var r := ChunkRecursive("aa bb aabb", 4, overlap);
            && r == Ok([Chunk("aabb", 0, 6, 10, m), Chunk("aabb", 1, 6, 10, m)])
            && !ExactCover("aa bb aabb", r.value)
            && !TextRecoverable("aa bb aabb", 4)
  {
    var t, w, m := "aa bb aabb", "aabb", Metadata(Recursive, 4, overlap);
    AabbStripped();
    assert "aa" + "bb" == w && "aa" + " " + ("bb" + " " + w) == t;
    TwicePieces("aa", "bb", t, 4);
    FoundLate();
    TwiceAt(t, w, 6, m);
    SameSpanTwice(t, Chunk(w, 0, 6, 10, m), Chunk(w, 1, 6, 10, m));
    ChunkingOutcome(t, 4, overlap);
  }
}
