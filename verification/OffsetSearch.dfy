/** Source offsets recovered by searching for each piece: the search loop and its completeness. */
module OffsetSearch {
  import opened Basics
  import opened Text

  datatype Strategy = Fixed | Recursive

  datatype Metadata = Metadata(strategy: Strategy, chunkSize: nat, overlap: nat)

  datatype Chunk = Chunk(content: string, index: nat, start: nat, end: nat, metadata: Metadata)

  datatype ChunkError = SizeNotPositive | OverlapNegative | OverlapTooLarge | CannotMapChunk

  function Contents(chunks: seq<Chunk>): seq<string> {
    if chunks == [] then [] else [chunks[0].content] + Contents(chunks[1..])
  }

  // ----- Offsets by search ---------------------------------------------------------------------------

  /** Leftmost occurrence at or after `from`, else leftmost occurrence anywhere. */
  function Place(full: string, content: string, from: nat): Option<nat> {
    if Find(full, content, from).Some? then Find(full, content, from) else Find(full, content, 0)
  }

  /** The search loop from piece number `index` on, over the pieces' stripped texts. */
  function PlaceFrom(full: string, contents: seq<string>, index: nat, from: nat, m: Metadata)
      : Result<seq<Chunk>, ChunkError>
    decreases |contents|
  {
    if contents == [] then Ok([])
    else
      var content := contents[0];
      if content == "" then PlaceFrom(full, contents[1..], index + 1, from, m)
      else
        match Place(full, content, from)
        case None => Err(CannotMapChunk)
        case Some(start) =>
          Prepend([Chunk(content, index, start, start + |content|, m)],
                  PlaceFrom(full, contents[1..], index + 1, start + |content|, m))
  }

  function Trimmed(pieces: seq<string>): seq<string> {
    seq(|pieces|, i requires 0 <= i < |pieces| => Strip(pieces[i]))
  }

  /** `_build_chunks_from_pieces` */
  function BuildChunks(full: string, pieces: seq<string>, m: Metadata): Result<seq<Chunk>, ChunkError> {
    PlaceFrom(full, Trimmed(pieces), 0, 0, m)
  }

  function Prepend(chunks: seq<Chunk>, r: Result<seq<Chunk>, ChunkError>): Result<seq<Chunk>, ChunkError> {
    match r case Err(e) => Err(e) case Ok(rest) => Ok(chunks + rest)
  }

  lemma PrependNone(r: Result<seq<Chunk>, ChunkError>)
    ensures Prepend([], r) == r
  {
    if r.Ok? {
      assert [] + r.value == r.value;
    }
  }

  lemma PrependMore(chunks: seq<Chunk>, c: Chunk, r: Result<seq<Chunk>, ChunkError>)
    ensures Prepend(chunks, Prepend([c], r)) == Prepend(chunks + [c], r)
  {
    if r.Ok? {
      assert chunks + ([c] + r.value) == chunks + [c] + r.value;
    }
  }

  lemma PlaceTurn(full: string, contents: seq<string>, i: nat, from: nat, m: Metadata)
    requires i < |contents|
    ensures var content, at := contents[i], Place(full, contents[i], from);
            && (content == "" ==>
                  PlaceFrom(full, contents[i..], i, from, m) == PlaceFrom(full, contents[i + 1..], i + 1, from, m))
            && (content != "" && at.None? ==> PlaceFrom(full, contents[i..], i, from, m) == Err(CannotMapChunk))
            && (content != "" && at.Some? ==>
                  PlaceFrom(full, contents[i..], i, from, m) ==
                  Prepend([Chunk(content, i, at.value, at.value + |content|, m)],
                          PlaceFrom(full, contents[i + 1..], i + 1, at.value + |content|, m)))
  {
    assert contents[i..][0] == contents[i] && contents[i..][1..] == contents[i + 1..];
  }

  lemma PlaceAfter(full: string, contents: seq<string>, i: nat, from: nat, m: Metadata, chunks: seq<Chunk>)
    requires i < |contents|
    ensures var content, at := contents[i], Place(full, contents[i], from);
            var all := Prepend(chunks, PlaceFrom(full, contents[i..], i, from, m));
            && (content == "" ==> all == Prepend(chunks, PlaceFrom(full, contents[i + 1..], i + 1, from, m)))
            && (content != "" && at.None? ==> all == Err(CannotMapChunk))
            && (content != "" && at.Some? ==>
                  all == Prepend(chunks + [Chunk(content, i, at.value, at.value + |content|, m)],
                                 PlaceFrom(full, contents[i + 1..], i + 1, at.value + |content|, m)))
  {
    PlaceTurn(full, contents, i, from, m);
    var content, at := contents[i], Place(full, contents[i], from);
    if content != "" && at.Some? {
      PrependMore(chunks, Chunk(content, i, at.value, at.value + |content|, m),
                  PlaceFrom(full, contents[i + 1..], i + 1, at.value + |content|, m));
    }
  }

  lemma PlaceStart(full: string, contents: seq<string>, m: Metadata)
    ensures Prepend([], PlaceFrom(full, contents[0..], 0, 0, m)) == PlaceFrom(full, contents, 0, 0, m)
  {
    assert contents[0..] == contents;
    PrependNone(PlaceFrom(full, contents, 0, 0, m));
  }

  lemma PlaceEnd(full: string, contents: seq<string>, from: nat, m: Metadata, chunks: seq<Chunk>)
    ensures Prepend(chunks, PlaceFrom(full, contents[|contents|..], |contents|, from, m)) == Ok(chunks)
  {
    assert contents[|contents|..] == [] && chunks + [] == chunks;
  }

  /** The search goes on behind the last piece, and starts again from the beginning when that fails. */
  method Locate(full: string, content: string, from: nat) returns (at: Option<nat>)
    ensures at == Place(full, content, from)
  {
    at := Find(full, content, from);
    if at.None? {
      at := Find(full, content, 0);
    }
  }

  method BuildChunksFromPieces(full: string, pieces: seq<string>, m: Metadata)
      returns (r: Result<seq<Chunk>, ChunkError>)
    ensures r == BuildChunks(full, pieces, m)
  {
    var chunks: seq<Chunk> := [];
    var searchStart: nat := 0;
    var i := 0;
    var contents := Trimmed(pieces);
    ghost var all := PlaceFrom(full, contents, 0, 0, m);
    PlaceStart(full, contents, m);
    while i < |contents|
      invariant 0 <= i <= |contents|
      invariant all == Prepend(chunks, PlaceFrom(full, contents[i..], i, searchStart, m))
    {
      PlaceAfter(full, contents, i, searchStart, m, chunks);
      var content := contents[i];
      if content != "" {
        var at := Locate(full, content, searchStart);
        if at.None? {
          return Err(CannotMapChunk);
        }
        searchStart := at.value + |content|;
        chunks := chunks + [Chunk(content, i, at.value, searchStart, m)];
      }
      i := i + 1;
    }
    PlaceEnd(full, contents, searchStart, m, chunks);
    r := Ok(chunks);
  }

  // ----- Completeness of the leftmost search -----------------------------------------------------------

  /** The pieces occur in order, without overlapping, at these starts. */
  ghost predicate Embeds(full: string, from: nat, pieces: seq<string>, starts: seq<nat>)
    decreases |pieces|
  {
    && |starts| == |pieces|
    && (pieces != [] ==>
          && from <= starts[0]
          && OccursAt(full, pieces[0], starts[0])
          && Embeds(full, starts[0] + |pieces[0]|, pieces[1..], starts[1..]))
  }

  /** Leftmost search without the restart. */
  function Leftmost(full: string, pieces: seq<string>, from: nat): Option<seq<nat>>
    decreases |pieces|
  {
    if pieces == [] then Some([])
    else
      match Find(full, pieces[0], from)
      case None => None
      case Some(start) =>
        match Leftmost(full, pieces[1..], start + |pieces[0]|)
        case None => None
        case Some(rest) => Some([start] + rest)
  }

  /** Wherever the pieces occur in order, the leftmost search finds them, no later. */
  lemma {:induction false} LeftmostFindsEmbedding(full: string, pieces: seq<string>, from: nat, after: nat,
                                                  starts: seq<nat>)
    requires Embeds(full, after, pieces, starts) && from <= after
    ensures var r := Leftmost(full, pieces, from);
            r.Some? && |r.value| == |pieces| && forall i :: 0 <= i < |pieces| ==> r.value[i] <= starts[i]
    decreases |pieces|
  {
    if pieces != [] {
      var at := Find(full, pieces[0], from);
      assert OccursAt(full, pieces[0], starts[0]);
      LeftmostFindsEmbedding(full, pieces[1..], at.value + |pieces[0]|, starts[0] + |pieces[0]|, starts[1..]);
    }
  }

  lemma {:induction false} LeftmostIsEmbedding(full: string, pieces: seq<string>, from: nat)
    requires Leftmost(full, pieces, from).Some?
    ensures Embeds(full, from, pieces, Leftmost(full, pieces, from).value)
    decreases |pieces|
  {
    if pieces != [] {
      var start := Find(full, pieces[0], from).value;
      LeftmostIsEmbedding(full, pieces[1..], start + |pieces[0]|);
      assert Leftmost(full, pieces, from).value[1..] == Leftmost(full, pieces[1..], start + |pieces[0]|).value;
    }
  }

  /** Chunks placed at given starts. */
  function ChunksAt(pieces: seq<string>, starts: seq<nat>, index: nat, m: Metadata): seq<Chunk>
    requires |starts| == |pieces|
  {
    if pieces == [] then []
    else
      [Chunk(pieces[0], index, starts[0], starts[0] + |pieces[0]|, m)] +
      ChunksAt(pieces[1..], starts[1..], index + 1, m)
  }

  predicate AllStripped(pieces: seq<string>) {
    forall i :: 0 <= i < |pieces| ==> Stripped(pieces[i])
  }

  /** Stripping pieces that are stripped changes nothing. */
  lemma BuildOfStripped(full: string, pieces: seq<string>, m: Metadata)
    requires AllStripped(pieces)
    ensures BuildChunks(full, pieces, m) == PlaceFrom(full, pieces, 0, 0, m)
  {
    forall i | 0 <= i < |pieces|
      ensures Strip(pieces[i]) == pieces[i]
    {
      StripOfStripped(pieces[i]);
    }
    assert Trimmed(pieces) == pieces;
  }

  lemma FirstPlaced(full: string, pieces: seq<string>, index: nat, from: nat, m: Metadata, start: nat, rest: seq<Chunk>)
    requires pieces != [] && pieces[0] != "" && Place(full, pieces[0], from) == Some(start)
    requires PlaceFrom(full, pieces[1..], index + 1, start + |pieces[0]|, m) == Ok(rest)
    ensures PlaceFrom(full, pieces, index, from, m) ==
            Ok([Chunk(pieces[0], index, start, start + |pieces[0]|, m)] + rest)
  {
  }

  lemma FirstOfPlaced(full: string, pieces: seq<string>, index: nat, from: nat, m: Metadata, chunks: seq<Chunk>)
    requires pieces != [] && pieces[0] != "" && PlaceFrom(full, pieces, index, from, m) == Ok(chunks)
    ensures chunks != [] && chunks[0].content == pieces[0]
    ensures PlaceFrom(full, pieces[1..], index + 1, chunks[0].end, m) == Ok(chunks[1..])
  {
  }

  predicate NoneEmpty(pieces: seq<string>) {
    forall i :: 0 <= i < |pieces| ==> pieces[i] != ""
  }

  lemma {:induction false} PlaceIsLeftmost(full: string, pieces: seq<string>, index: nat, from: nat, m: Metadata,
                                           starts: seq<nat>)
    requires NoneEmpty(pieces) && Leftmost(full, pieces, from) == Some(starts)
    ensures |starts| == |pieces| && PlaceFrom(full, pieces, index, from, m) == Ok(ChunksAt(pieces, starts, index, m))
    decreases |pieces|
  {
    if pieces != [] {
      LeftmostNext(full, pieces, from, starts);
      NoneEmptyNext(pieces);
      PlaceIsLeftmost(full, pieces[1..], index + 1, starts[0] + |pieces[0]|, m, starts[1..]);
      PlacedNext(full, pieces, index, from, m, starts);
    }
  }

  lemma NoneEmptyNext(pieces: seq<string>)
    requires NoneEmpty(pieces) && pieces != []
    ensures NoneEmpty(pieces[1..]) && pieces[0] != ""
  {
  }

  lemma PlacedNext(full: string, pieces: seq<string>, index: nat, from: nat, m: Metadata, starts: seq<nat>)
    requires pieces != [] && pieces[0] != "" && |starts| == |pieces|
    requires Place(full, pieces[0], from) == Some(starts[0])
    requires PlaceFrom(full, pieces[1..], index + 1, starts[0] + |pieces[0]|, m) ==
             Ok(ChunksAt(pieces[1..], starts[1..], index + 1, m))
    ensures PlaceFrom(full, pieces, index, from, m) == Ok(ChunksAt(pieces, starts, index, m))
  {
    FirstPlaced(full, pieces, index, from, m, starts[0], ChunksAt(pieces[1..], starts[1..], index + 1, m));
  }

  lemma LeftmostNext(full: string, pieces: seq<string>, from: nat, starts: seq<nat>)
    requires pieces != [] && Leftmost(full, pieces, from) == Some(starts)
    ensures starts != [] && Place(full, pieces[0], from) == Some(starts[0])
    ensures Leftmost(full, pieces[1..], starts[0] + |pieces[0]|) == Some(starts[1..])
  {
    var rest := Leftmost(full, pieces[1..], Find(full, pieces[0], from).value + |pieces[0]|).value;
    assert starts == [Find(full, pieces[0], from).value] + rest;
  }

  /** The offset search is complete: if the pieces occur in order at some disjoint positions, the
      search succeeds without the restart, and reports ordered, disjoint, faithful spans, each
      starting no later than in that embedding. */
  lemma SearchIsComplete(full: string, pieces: seq<string>, m: Metadata, starts: seq<nat>)
    requires AllStripped(pieces) && Embeds(full, 0, pieces, starts)
    ensures var found := Leftmost(full, pieces, 0);
            && found.Some? && |found.value| == |pieces|
            && Embeds(full, 0, pieces, found.value)
            && (forall i :: 0 <= i < |pieces| ==> found.value[i] <= starts[i])
            && BuildChunks(full, pieces, m) == Ok(ChunksAt(pieces, found.value, 0, m))
  {
    LeftmostFindsEmbedding(full, pieces, 0, 0, starts);
    LeftmostIsEmbedding(full, pieces, 0);
    BuildOfStripped(full, pieces, m);
    PlaceIsLeftmost(full, pieces, 0, 0, m, Leftmost(full, pieces, 0).value);
  }
}
