/** When the searched offsets are exact: spans that cover the text up to whitespace. */
module ExactOffsets {
  import opened Basics
  import opened Text
  import opened Splitter
  import opened Tiling
  import opened OffsetRecovery
  import opened OffsetSearch
  import opened LostStops

  predicate SpanOk(full: string, from: nat, c: Chunk) {
    from <= c.start < c.end <= |full| && full[c.start..c.end] == c.content
  }

  predicate InSomeSpan(chunks: seq<Chunk>, pos: nat) {
    exists i :: 0 <= i < |chunks| && chunks[i].start <= pos < chunks[i].end
  }

  /** From `from` on: faithful spans, in order and disjoint, and only whitespace outside them. */
  ghost predicate ExactCoverFrom(full: string, from: nat, chunks: seq<Chunk>) {
    && (forall i :: 0 <= i < |chunks| ==> SpanOk(full, from, chunks[i]))
    && (forall i, j :: 0 <= i < j < |chunks| ==> chunks[i].end <= chunks[j].start)
    && (forall pos: nat :: from <= pos < |full| && !IsSpace(full[pos]) ==> InSomeSpan(chunks, pos))
  }

  ghost predicate ExactCover(full: string, chunks: seq<Chunk>) {
    ExactCoverFrom(full, 0, chunks)
  }

  lemma FindAfterBlanks(full: string, from: nat, p: string)
    requires from <= |full| && Stripped(p)
    requires var g := LeadingSpaces(full[from..]); OccursAt(full[from..], p, g)
    ensures Find(full, p, from) == Some(from + LeadingSpaces(full[from..]))
    ensures OccursAt(full, p, from + LeadingSpaces(full[from..]))
  {
    var rest := full[from..];
    var g := LeadingSpaces(rest);
    OccursShift(full, from, p, g);
    forall i: nat | from <= i < from + g
      ensures !OccursAt(full, p, i)
    {
      LeadingSpacesAre(rest);
      assert rest[i - from] == full[i];
      if i + |p| <= |full| {
        assert full[i..i + |p|][0] == full[i];
      }
    }
  }

  lemma OccursShift(full: string, from: nat, p: string, g: nat)
    requires from <= |full| && OccursAt(full[from..], p, g)
    ensures OccursAt(full, p, from + g)
  {
    DropDrop(full, from, g);
    assert full[from..][g..g + |p|] == full[from + g..from + g + |p|];
  }

  lemma BlankStretch(full: string, from: nat, pos: nat)
    requires from <= pos < |full| && pos < from + LeadingSpaces(full[from..])
    ensures IsSpace(full[pos])
  {
    LeadingSpacesAre(full[from..]);
    assert full[from..][pos - from] == full[pos];
  }

  /** Cover by a first span right after the blanks and a cover of the rest. */
  lemma CoverCons(full: string, from: nat, c: Chunk, rest: seq<Chunk>)
    requires from <= |full| && SpanOk(full, from, c) && c.start == from + LeadingSpaces(full[from..])
    requires ExactCoverFrom(full, c.end, rest)
    ensures ExactCoverFrom(full, from, [c] + rest)
  {
    var all := [c] + rest;
    assert all[0] == c;
    assert forall i :: 1 <= i < |all| ==> all[i] == rest[i - 1];
    forall pos: nat | from <= pos < |full| && !IsSpace(full[pos])
      ensures InSomeSpan(all, pos)
    {
      if pos < c.end {
        if pos < c.start {
          BlankStretch(full, from, pos);
        }
      } else {
        var i :| 0 <= i < |rest| && rest[i].start <= pos < rest[i].end;
        assert all[i + 1] == rest[i];
      }
    }
  }

  ghost predicate ExactFrom(full: string, from: nat, pieces: seq<string>, index: nat, chunks: seq<Chunk>) {
    && Contents(chunks) == pieces
    && ExactCoverFrom(full, from, chunks)
    && (forall i :: 0 <= i < |chunks| ==> chunks[i].index == index + i)
  }

  /** A tiling's first piece is what the search finds first. */
  lemma TilingNext(full: string, from: nat, pieces: seq<string>) returns (start: nat)
    requires from <= |full| && pieces != [] && Tiles(full[from..], pieces)
    ensures start == from + LeadingSpaces(full[from..])
    ensures Stripped(pieces[0]) && Place(full, pieces[0], from) == Some(start)
    ensures OccursAt(full, pieces[0], start) && Tiles(full[start + |pieces[0]|..], pieces[1..])
  {
    start := from + LeadingSpaces(full[from..]);
    FindAfterBlanks(full, from, pieces[0]);
    DropDrop(full, from, LeadingSpaces(full[from..]) + |pieces[0]|);
  }

  lemma {:induction false} PlaceOfTiling(full: string, from: nat, pieces: seq<string>, index: nat, m: Metadata)
    returns (chunks: seq<Chunk>)
    requires from <= |full| && Tiles(full[from..], pieces)
    ensures PlaceFrom(full, pieces, index, from, m) == Ok(chunks)
    ensures ExactFrom(full, from, pieces, index, chunks)
    decreases |pieces|
  {
    if pieces == [] {
      BlankCover(full, from);
      chunks := [];
    } else {
      var start := TilingNext(full, from, pieces);
      var end := start + |pieces[0]|;
      var rest := PlaceOfTiling(full, end, pieces[1..], index + 1, m);
      var c := Chunk(pieces[0], index, start, end, m);
      chunks := [c] + rest;
      assert SpanOk(full, from, c);
      FirstPlaced(full, pieces, index, from, m, start, rest);
      ExactCons(full, from, pieces, c, rest);
    }
  }

  lemma ExactCons(full: string, from: nat, pieces: seq<string>, c: Chunk, rest: seq<Chunk>)
    requires from <= |full| && pieces != [] && c.content == pieces[0]
    requires SpanOk(full, from, c) && c.start == from + LeadingSpaces(full[from..])
    requires ExactFrom(full, c.end, pieces[1..], c.index + 1, rest)
    ensures ExactFrom(full, from, pieces, c.index, [c] + rest)
  {
    CoverCons(full, from, c, rest);
    ContentsCons(c, rest);
    IndexCons(c, rest, c.index);
  }

  lemma IndexCons(c: Chunk, rest: seq<Chunk>, index: nat)
    requires c.index == index && forall i :: 0 <= i < |rest| ==> rest[i].index == index + 1 + i
    ensures forall i :: 0 <= i < |[c] + rest| ==> ([c] + rest)[i].index == index + i
  {
  }

  lemma BlankCover(full: string, from: nat)
    requires from <= |full| && Blank(full[from..])
    ensures ExactCoverFrom(full, from, [])
  {
    forall pos: nat | from <= pos < |full|
      ensures IsSpace(full[pos])
    {
      BlankStretch(full, from, pos);
    }
  }

  lemma ContentsCons(c: Chunk, rest: seq<Chunk>)
    ensures Contents([c] + rest) == [c.content] + Contents(rest)
  {
    assert ([c] + rest)[1..] == rest;
  }

  lemma CoverTail(full: string, from: nat, chunks: seq<Chunk>)
    requires chunks != [] && ExactCoverFrom(full, from, chunks)
    ensures ExactCoverFrom(full, chunks[0].end, chunks[1..])
  {
    var rest := chunks[1..];
    assert SpanOk(full, from, chunks[0]);
    forall i | 0 <= i < |rest|
      ensures SpanOk(full, chunks[0].end, rest[i])
    {
      assert rest[i] == chunks[i + 1] && SpanOk(full, from, chunks[i + 1]);
    }
    forall pos: nat | chunks[0].end <= pos < |full| && !IsSpace(full[pos])
      ensures InSomeSpan(rest, pos)
    {
      var i :| 0 <= i < |chunks| && chunks[i].start <= pos < chunks[i].end;
      assert rest[i - 1] == chunks[i];
    }
  }

  lemma NothingBeforeFirst(full: string, from: nat, chunks: seq<Chunk>, pos: nat)
    requires chunks != [] && ExactCoverFrom(full, from, chunks) && pos < chunks[0].start
    ensures !InSomeSpan(chunks, pos)
  {
    forall i | 0 <= i < |chunks|
      ensures chunks[0].start <= chunks[i].start
    {
      assert SpanOk(full, from, chunks[0]);
      assert i > 0 ==> chunks[0].end <= chunks[i].start;
    }
  }

  /** The first span of a cover starts at the first visible character. */
  lemma CoverHead(full: string, from: nat, chunks: seq<Chunk>)
    requires from <= |full| && chunks != [] && ExactCoverFrom(full, from, chunks) && Stripped(chunks[0].content)
    ensures chunks[0].start == from + LeadingSpaces(full[from..])
  {
    var c := chunks[0];
    assert SpanOk(full, from, c);
    assert full[c.start] == c.content[0];
    forall k | 0 <= k < c.start - from
      ensures IsSpace(full[from..][k])
    {
      NothingBeforeFirst(full, from, chunks, from + k);
      assert full[from..][k] == full[from + k];
    }
    LeadingSpacesIs(full[from..], c.start - from);
  }

  lemma NoSpansBlank(full: string, from: nat)
    requires from <= |full| && ExactCoverFrom(full, from, [])
    ensures Blank(full[from..])
  {
    forall k | 0 <= k < |full[from..]|
      ensures IsSpace(full[from..][k])
    {
      assert full[from..][k] == full[from + k];
      assert !InSomeSpan([], from + k);
    }
    BlankMeans(full[from..]);
  }

  lemma OccursUnshift(full: string, from: nat, c: Chunk)
    requires from <= c.start && SpanOk(full, from, c)
    ensures OccursAt(full[from..], c.content, c.start - from)
    ensures full[from..][c.start - from + |c.content|..] == full[c.end..]
  {
    var g := c.start - from;
    assert full[from..][g..g + |c.content|] == full[c.start..c.end];
    DropDrop(full, from, g + |c.content|);
  }

  lemma StrippedRest(c: Chunk, rest: seq<Chunk>)
    requires AllStripped(Contents([c] + rest))
    ensures Stripped(c.content) && AllStripped(Contents(rest))
  {
    var all := Contents([c] + rest);
    assert ([c] + rest)[1..] == rest;
    assert all == [c.content] + Contents(rest);
    assert all[0] == c.content;
    assert forall i :: 0 <= i < |Contents(rest)| ==> Contents(rest)[i] == all[i + 1];
  }

  /** After its leading whitespace `text` goes on with `p` and then `after`. */
  predicate Leads(text: string, p: string, after: string) {
    OccursAt(text, p, LeadingSpaces(text)) && text[LeadingSpaces(text) + |p|..] == after
  }

  lemma TilesAfter(text: string, p: string, after: string, rest: seq<string>)
    requires Stripped(p) && Leads(text, p, after) && Tiles(after, rest)
    ensures Tiles(text, [p] + rest)
  {
    assert ([p] + rest)[1..] == rest;
  }

  lemma CoverStep(full: string, from: nat, c: Chunk, rest: seq<Chunk>)
    requires from <= |full| && ExactCoverFrom(full, from, [c] + rest) && Stripped(c.content)
    ensures c.end <= |full| && ExactCoverFrom(full, c.end, rest)
    ensures Leads(full[from..], c.content, full[c.end..])
  {
    var chunks := [c] + rest;
    assert chunks[0] == c && chunks[1..] == rest;
    assert SpanOk(full, from, c);
    CoverHead(full, from, chunks);
    CoverTail(full, from, chunks);
    OccursUnshift(full, from, c);
  }

  lemma ContentsHead(c: Chunk, rest: seq<Chunk>)
    ensures Contents([c] + rest) == [c.content] + Contents(rest)
  {
    assert ([c] + rest)[1..] == rest;
  }

  lemma {:induction false} TilingOfCover(full: string, from: nat, chunks: seq<Chunk>)
    requires from <= |full| && ExactCoverFrom(full, from, chunks) && AllStripped(Contents(chunks))
    ensures Tiles(full[from..], Contents(chunks))
    decreases |chunks|, 0
  {
    if chunks == [] {
      NoSpansBlank(full, from);
    } else {
      assert chunks == [chunks[0]] + chunks[1..];
      TilingOfCons(full, from, chunks[0], chunks[1..]);
    }
  }

  lemma {:induction false} TilingOfCons(full: string, from: nat, c: Chunk, rest: seq<Chunk>)
    requires from <= |full| && ExactCoverFrom(full, from, [c] + rest) && AllStripped(Contents([c] + rest))
    ensures Tiles(full[from..], Contents([c] + rest))
    decreases |rest|, 1
  {
    StrippedRest(c, rest);
    ContentsHead(c, rest);
    assert c.end <= |full| && ExactCoverFrom(full, c.end, rest) && Leads(full[from..], c.content, full[c.end..]) by {
      CoverStep(full, from, c, rest);
    }
    TilingOfCover(full, c.end, rest);
    TilesAfter(full[from..], c.content, full[c.end..], Contents(rest));
  }

  lemma {:induction false} PlacedContents(full: string, pieces: seq<string>, index: nat, from: nat, m: Metadata,
                                          chunks: seq<Chunk>)
    requires NoneEmpty(pieces) && PlaceFrom(full, pieces, index, from, m) == Ok(chunks)
    ensures Contents(chunks) == pieces
    decreases |pieces|
  {
    if pieces != [] {
      assert NoneEmpty(pieces[1..]);
      FirstOfPlaced(full, pieces, index, from, m, chunks);
      PlacedContents(full, pieces[1..], index + 1, chunks[0].end, m, chunks[1..]);
    }
  }

  // ----- The recursive strategy ------------------------------------------------------------------------

  function ChunkRecursive(text: string, size: nat, overlap: nat): Result<seq<Chunk>, ChunkError>
    requires size > 0
  {
    BuildChunks(text, Pieces(text, size, SEPARATORS), Metadata(Recursive, size, overlap))
  }

  /** Splitting drops no full stop, and merging never joins two visible words of the text without the
      space between them. */
  predicate TextRecoverable(text: string, size: nat)
    requires size > 0
  {
    Recoverable(text, size, SEPARATORS)
  }

  ghost predicate RecursiveExact(text: string, size: nat, overlap: nat)
    requires size > 0
  {
    var r := ChunkRecursive(text, size, overlap);
    && r.Ok?
    && ExactCover(text, r.value)
    && forall i :: 0 <= i < |r.value| ==> r.value[i].index == i
  }

  /** Recursive chunking reports the true source offsets (faithful, ordered, disjoint spans with
      only whitespace outside them) exactly for the recoverable texts. */
  lemma RecursiveExactIff(text: string, size: nat, overlap: nat)
    requires size > 0
    ensures RecursiveExact(text, size, overlap) <==> TextRecoverable(text, size)
  {
    var pieces := Pieces(text, size, SEPARATORS);
    var m := Metadata(Recursive, size, overlap);
    RecoverableIff(text, size, SEPARATORS);
    PiecesOk(text, size, SEPARATORS);
    assert AllStripped(pieces) by {
      assert forall i :: 0 <= i < |pieces| ==> PieceOk(pieces[i], size);
    }
    assert text[0..] == text;
    BuildOfStripped(text, pieces, m);
    if Tiles(text, pieces) {
      var _ := PlaceOfTiling(text, 0, pieces, 0, m);
    }
    var r := ChunkRecursive(text, size, overlap);
    if r.Ok? && ExactCover(text, r.value) {
      PlacedContents(text, pieces, 0, 0, m, r.value);
      TilingOfCover(text, 0, r.value);
    }
  }

  /** In particular when every segment left after splitting on the first three separators fits. */
  lemma FittingSegmentsExact(text: string, size: nat, overlap: nat)
    requires size > 0 && SegmentsFit(text, size, ["\n\n", "\n", ". "])
    ensures RecursiveExact(text, size, overlap)
  {
    assert SEPARATORS[0..3] == ["\n\n", "\n", ". "] && SEPARATORS[0..] == SEPARATORS;
    FitIsRecoverable(text, size, 0);
    RecursiveExactIff(text, size, overlap);
  }

  /** Every chunk is stripped, fits (but for one full stop), and nothing visible is invented. What is
      lost is exactly the counted full stops: nothing when no full stop is followed by a space. */
  lemma RecursiveChunksOk(text: string, size: nat, overlap: nat)
    requires size > 0 && ChunkRecursive(text, size, overlap).Ok?
    ensures var kept := Contents(ChunkRecursive(text, size, overlap).value);
            && AllOk(kept, size)
            && IsSubsequence(Kept(kept), Dense(text))
            && |Dense(text)| - |Kept(kept)| == DroppedStops(text, size, SEPARATORS)
            && (Kept(kept) == Dense(text) <==> DroppedStops(text, size, SEPARATORS) == 0)
            && (Find(text, ". ", 0).None? ==> Kept(kept) == Dense(text))
  {
    var pieces := Pieces(text, size, SEPARATORS);
    PiecesOk(text, size, SEPARATORS);
    PiecesConserve(text, size, SEPARATORS);
    NothingLostIff(text, size, SEPARATORS);
    assert AllStripped(pieces) by {
      assert forall i :: 0 <= i < |pieces| ==> PieceOk(pieces[i], size);
    }
    BuildOfStripped(text, pieces, Metadata(Recursive, size, overlap));
    PlacedContents(text, pieces, 0, 0, Metadata(Recursive, size, overlap), ChunkRecursive(text, size, overlap).value);
  }
}
