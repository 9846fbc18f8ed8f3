/** `chunk_text` and the loops of the recursive strategy. */
module Chunker {
  import opened Basics
  import opened Text
  import opened Lists
  import opened Splitter
  import opened OffsetSearch
  import opened ExactOffsets
  import opened MergedRuns
  import opened FixedWindows

  // ----- The splitting loop ------------------------------------------------------------------------------

  /** One turn of the merging loop: the pieces it appends, and the run it goes on with. */
  function Turn(part: string, last: bool, size: nat, seps: seq<string>, current: string): (seq<string>, string)
    requires size > 0 && SeparatorList(seps) && seps[0] != ""
  {
    var suffix := Suffix(seps[0], last);
    if |current + part + suffix| <= size then ([], current + part + suffix)
    else if |part| > size then (Emit(current) + Pieces(part, size, seps[1..]), "")
    else (Emit(current), part + suffix)
  }

  lemma PackTurn(parts: seq<string>, i: nat, size: nat, seps: seq<string>, current: string)
    requires size > 0 && SeparatorList(seps) && seps[0] != "" && i < |parts|
    ensures var turn := Turn(parts[i], i == |parts| - 1, size, seps, current);
            Pack(parts[i..], size, seps, current) == turn.0 + Pack(parts[i + 1..], size, seps, turn.1)
  {
    assert parts[i..][1..] == parts[i + 1..] && parts[i..][0] == parts[i];
    var turn := Turn(parts[i], i == |parts| - 1, size, seps, current);
    var rest := Pack(parts[i + 1..], size, seps, turn.1);
    assert [] + rest == rest;
  }

  method SplitRecursive(text: string, size: nat, seps: seq<string>) returns (chunks: seq<string>)
    requires size > 0 && SeparatorList(seps)
    ensures chunks == Pieces(text, size, seps)
    decreases |seps|, 2
  {
    if |text| <= size {
      return Emit(text);
    }
    var separator := seps[0];
    if separator == "" {
      chunks := SliceHard(text, size);
      return;
    }
    var parts := Split(text, separator);
    chunks := PackLoop(parts, size, seps);
  }

  method PackLoop(parts: seq<string>, size: nat, seps: seq<string>) returns (chunks: seq<string>)
    requires size > 0 && SeparatorList(seps) && seps[0] != ""
    ensures chunks == Pack(parts, size, seps, "")
    decreases |seps|, 1
  {
    chunks := [];
    var current, i := "", 0;
    ghost var all := Pack(parts, size, seps, "");
    ghost var todo := all;
    assert parts[0..] == parts;
    while i < |parts|
      invariant 0 <= i <= |parts|
      invariant all == chunks + todo
      invariant todo == Pack(parts[i..], size, seps, current)
    {
      PackTurn(parts, i, size, seps, current);
      ghost var before := chunks;
      var added, next := MergePart(parts[i], i == |parts| - 1, size, seps, current);
      chunks, current := chunks + added, next;
      todo := Pack(parts[i + 1..], size, seps, current);
      Regroup(before, added, todo);
      i := i + 1;
    }
    assert parts[i..] == [];
    chunks := chunks + Emit(current);
  }

  /** The body of the loop: what it appends to the chunks, and the new run. */
  method MergePart(part: string, last: bool, size: nat, seps: seq<string>, current: string)
      returns (added: seq<string>, next: string)
    requires size > 0 && SeparatorList(seps) && seps[0] != ""
    ensures (added, next) == Turn(part, last, size, seps, current)
    decreases |seps|, 0
  {
    var separator := seps[0];
    var suffix := if !last && separator != " " && separator != "" then separator else "";
    var candidate := if current != "" then current + part + suffix else part + suffix;
    assert candidate == current + part + suffix;
    if |candidate| <= size {
      return [], candidate;
    }
    added := Emit(current);
    if |part| > size && |seps| > 1 {
      var sub := SplitRecursive(part, size, seps[1..]);
      added, next := added + sub, "";
    } else {
      next := part + suffix;
    }
  }

  function Rest(text: string, i: nat): string {
    if i < |text| then text[i..] else ""
  }

  lemma HardTurn(text: string, i: nat, size: nat)
    requires size > 0 && i < |text|
    ensures HardSlices(text[i..], size) == Emit(text[i..Min(i + size, |text|)]) + HardSlices(Rest(text, i + size), size)
  {
    if i + size >= |text| {
      assert text[i..|text|] == text[i..];
      assert Emit(text[i..]) + [] == Emit(text[i..]);
    } else {
      DropDrop(text, i, size);
    }
  }

  method SliceHard(text: string, size: nat) returns (chunks: seq<string>)
    requires size > 0
    ensures chunks == HardSlices(text, size)
  {
    chunks := [];
    var i: nat := 0;
    ghost var all := HardSlices(text, size);
    ghost var todo := all;
    assert text[0..] == text;
    while i < |text|
      invariant all == chunks + todo
      invariant todo == HardSlices(Rest(text, i), size)
      decreases |text| - i
    {
      HardTurn(text, i, size);
      var slice := text[i..Min(i + size, |text|)];
      todo := HardSlices(Rest(text, i + size), size);
      Regroup(chunks, Emit(slice), todo);
      chunks := chunks + Emit(slice);
      i := i + size;
    }
  }

  // ----- chunk_text ----------------------------------------------------------------------------------------

  function Validate(size: int, overlap: int): Option<ChunkError> {
    if size <= 0 then Some(SizeNotPositive)
    else if overlap < 0 then Some(OverlapNegative)
    else if overlap >= size then Some(OverlapTooLarge)
    else None
  }

  /** An all-blank text gives no chunks before the parameters are even looked at. */
  method ChunkText(text: string, strategy: Strategy, size: int, overlap: int)
      returns (r: Result<seq<Chunk>, ChunkError>)
    ensures Blank(text) ==> r == Ok([])
    ensures !Blank(text) && Validate(size, overlap).Some? ==> r == Err(Validate(size, overlap).value)
    ensures !Blank(text) ==>
              && (size <= 0 ==> r == Err(SizeNotPositive))
              && (size > 0 && overlap < 0 ==> r == Err(OverlapNegative))
              && (size > 0 && overlap >= size ==> r == Err(OverlapTooLarge))
              && (0 <= overlap < size ==> Validate(size, overlap).None?)
    ensures !Blank(text) && Validate(size, overlap).None? ==>
              && Stripped(Strip(text))
              && r == match strategy
                      case Fixed => Ok(ChunkFixed(Strip(text), size, overlap))
                      case Recursive => ChunkRecursive(Strip(text), size, overlap)
    ensures !Blank(text) && Validate(size, overlap).None? ==>
              (r.Err? <==> strategy == Recursive && MergedRunAbsent(Strip(text), size))
  {
    var cleaned := Strip(text);
    StripParts(text);
    if cleaned == "" {
      return Ok([]);
    }
    var bad := Validate(size, overlap);
    if bad.Some? {
      return Err(bad.value);
    }
    match strategy {
      case Fixed =>
        var chunks := ChunkFixedLoop(cleaned, size, overlap);
        return Ok(chunks);
      case Recursive =>
        var pieces := SplitRecursive(cleaned, size, SEPARATORS);
        r := BuildChunksFromPieces(cleaned, pieces, Metadata(Recursive, size, overlap));
        SearchFailsOnMergedRun(cleaned, size, Metadata(Recursive, size, overlap));
    }
  }
}
