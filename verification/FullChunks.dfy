/** How full the chunks of the recursive strategy are, from the text and the chunk size alone. */
module FullChunks {
  import opened Basics
  import opened Text
  import opened Splitter
  import opened OffsetSearch
  import opened ExactOffsets
  import opened MergedRuns
  import opened GreedyPacking

  /** The chunks' contents are the pieces. */
  lemma ChunksArePieces(text: string, size: nat, overlap: nat)
    requires size > 0 && ChunkRecursive(text, size, overlap).Ok?
    ensures Contents(ChunkRecursive(text, size, overlap).value) == Pieces(text, size, SEPARATORS)
  {
    var pieces, m := Pieces(text, size, SEPARATORS), Metadata(Recursive, size, overlap);
    PiecesAreStripped(text, size);
    BuildOfStripped(text, pieces, m);
    PlacedContents(text, pieces, 0, 0, m, ChunkRecursive(text, size, overlap).value);
  }

  /** A text that fits is one chunk. */
  lemma FittingTextIsOneChunk(text: string, size: nat, overlap: nat)
    requires size > 0 && Stripped(text) && |text| <= size
    ensures ChunkRecursive(text, size, overlap) == Ok([Chunk(text, 0, 0, |text|, Metadata(Recursive, size, overlap))])
  {
    var m := Metadata(Recursive, size, overlap);
    StripOfStripped(text);
    BuildOfStripped(text, [text], m);
    assert text[0..0 + |text|] == text;
    assert OccursAt(text, text, 0);
    assert [text][1..] == [];
    FirstPlaced(text, [text], 0, 0, m, 0, []);
    var c := Chunk(text, 0, 0, |text|, m);
    assert [c] + [] == [c];
  }

  lemma SeparatorsFrom(n: nat) returns (seps: seq<string>)
    requires n < 4
    ensures seps == SEPARATORS[n..] && SeparatorList(seps) && seps[0] == SEPARATORS[n] != ""
  {
    seps := SEPARATORS[n..];
    assert SEPARATORS[n] != "";
  }

  lemma PiecesAtSeparator(text: string, size: nat, n: nat, sep: string) returns (runs: seq<Run>)
    requires size > 0 && |text| > size && n < 4 && sep == SEPARATORS[n]
    requires forall k :: 0 <= k < n ==> Split(text, SEPARATORS[k]) == [text]
    requires sep != "" && forall part :: part in Split(text, sep) ==> |part| <= size
    ensures Pieces(text, size, SEPARATORS) == EmitAll(runs)
    ensures FewestFullRuns(Items(Split(text, sep), sep), runs, size)
  {
    var seps := SeparatorsFrom(n);
    SeparatorsSkipped(text, size, n);
    runs := PiecesAreFullRuns(text, size, seps);
  }

  /** Let separator number `n` be the first that splits a text too long for one chunk, and let all parts at
      it fit. Then the chunks are the fewest full runs of consecutive parts: no chunk has room for the next
      part, and no cut of the parts into runs that fit has fewer runs. */
  lemma ChunksAreFullRuns(text: string, size: nat, overlap: nat, n: nat) returns (runs: seq<Run>)
    requires size > 0 && |text| > size && n < 4
    requires forall k :: 0 <= k < n ==> Split(text, SEPARATORS[k]) == [text]
    requires forall part :: part in Split(text, SEPARATORS[n]) ==> |part| <= size
    requires ChunkRecursive(text, size, overlap).Ok?
    ensures Contents(ChunkRecursive(text, size, overlap).value) == EmitAll(runs)
    ensures FewestFullRuns(Items(Split(text, SEPARATORS[n]), SEPARATORS[n]), runs, size)
    ensures n < 3 ==> Flatten(AllItems(runs)) == text
  {
    ChunksArePieces(text, size, overlap);
    runs := PiecesAtSeparator(text, size, n, SEPARATORS[n]);
    if n < 3 {
      ItemsAreText(text, SEPARATORS[n]);
    }
  }

  /** A long text without any separator is cut into slices of exactly the chunk size, and a shorter rest. */
  lemma UnseparatedChunksAreFull(text: string, size: nat, overlap: nat) returns (slices: seq<string>)
    requires size > 0 && |text| > size && '\n' !in text && ' ' !in text && '.' !in text
    requires ChunkRecursive(text, size, overlap).Ok?
    ensures Contents(ChunkRecursive(text, size, overlap).value) == EmitEach(slices) && Flatten(slices) == text
    ensures forall i :: 0 <= i < |slices| ==> 0 < |slices[i]| <= size && (i < |slices| - 1 ==> |slices[i]| == size)
  {
    SplitAbsent(text, "\n\n");
    SplitAbsent(text, "\n");
    SplitAbsent(text, ". ");
    SplitAbsent(text, " ");
    ChunksArePieces(text, size, overlap);
    SeparatorsSkipped(text, size, 4);
    slices := HardSlicesAreFull(text, size);
  }
}
