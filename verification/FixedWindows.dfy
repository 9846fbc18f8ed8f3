/** The fixed-size sliding window with overlap. */
module FixedWindows {
  import opened Basics
  import opened Text
  import opened Lists
  import opened OffsetSearch

  datatype Window = Window(start: nat, end: nat) {
    predicate Within(text: string) {
      start <= end <= |text|
    }

    /** The window's text, without surrounding whitespace. */
    function Value(text: string): string {
      if Within(text) then Strip(text[start..end]) else ""
    }

    predicate Covers(pos: nat) {
      start <= pos < end
    }
  }

  /** The windows the loop visits from `start` on: it stops at the first one that reaches the end. */
  function Visited(n: nat, size: nat, overlap: nat, start: nat): (ws: seq<Window>)
    requires overlap < size
    decreases n - start
  {
    if start >= n then []
    else if start + size >= n then [Window(start, n)]
    else [Window(start, start + size)] + Visited(n, size, overlap, start + (size - overlap))
  }

  /** A window with its stripped text. */
  datatype Slot = Slot(window: Window, value: string)

  function SlotChunk(slot: Slot, index: nat, m: Metadata): Chunk {
    Chunk(slot.value, index, slot.window.start, slot.window.end, m)
  }

  /** The window at `start`, cut off at the end of a text of `n` characters. */
  function WindowAt(n: nat, size: nat, start: nat): Window {
    Window(start, Min(start + size, n))
  }

  /** `_chunk_fixed` from `start` on, for a text of `n` characters whose windows have the stripped
      texts `value`. A blank window is skipped, without the end-of-text test. */
  function FixedFrom(n: nat, value: Window -> string, size: nat, overlap: nat, start: nat, index: nat): seq<Chunk>
    requires overlap < size
    decreases n - start
  {
    if start >= n then []
    else
      var w := WindowAt(n, size, start);
      var next := start + (size - overlap);
      if value(w) == "" then FixedFrom(n, value, size, overlap, next, index)
      else
        [SlotChunk(Slot(w, value(w)), index, Metadata(Fixed, size, overlap))] +
        if w.end >= n then [] else FixedFrom(n, value, size, overlap, next, index + 1)
  }

  function Values(text: string): Window -> string {
    (w: Window) => w.Value(text)
  }

  function ChunkFixed(text: string, size: nat, overlap: nat): seq<Chunk>
    requires overlap < size
  {
    FixedFrom(|text|, Values(text), size, overlap, 0, 0)
  }

  /** One turn of the loop: what it appends, and what is left to do. */
  lemma FixedTurn(n: nat, value: Window -> string, size: nat, overlap: nat, start: nat, index: nat)
    requires overlap < size && start < n
    ensures var w := WindowAt(n, size, start);
            var next := start + (size - overlap);
            var c := SlotChunk(Slot(w, value(w)), index, Metadata(Fixed, size, overlap));
            && (value(w) == "" ==>
                  FixedFrom(n, value, size, overlap, start, index) == FixedFrom(n, value, size, overlap, next, index))
            && (value(w) != "" && w.end >= n ==> FixedFrom(n, value, size, overlap, start, index) == [c])
            && (value(w) != "" && w.end < n ==>
                  FixedFrom(n, value, size, overlap, start, index) ==
                      [c] + FixedFrom(n, value, size, overlap, next, index + 1))
  {
  }

  /** The loop over a text of `n` characters whose windows have the stripped texts `value`. */
  method WindowLoop(n: nat, value: Window -> string, size: nat, overlap: nat) returns (chunks: seq<Chunk>)
    requires overlap < size
    ensures chunks == FixedFrom(n, value, size, overlap, 0, 0)
  {
    chunks := [];
    var index: nat := 0;
    var start: nat := 0;
    ghost var all := FixedFrom(n, value, size, overlap, 0, 0);
    ghost var todo := all;
    while start < n
      invariant all == chunks + todo
      invariant todo == FixedFrom(n, value, size, overlap, start, index)
      decreases n - start
    {
      FixedTurn(n, value, size, overlap, start, index);
      var w := WindowAt(n, size, start);
      if value(w) != "" {
        var c := Chunk(value(w), index, w.start, w.end, Metadata(Fixed, size, overlap));
        index := index + 1;
        if w.end >= n {
          return chunks + [c];
        }
        todo := FixedFrom(n, value, size, overlap, start + (size - overlap), index);
        Regroup(chunks, [c], todo);
        chunks := chunks + [c];
      }
      start := start + (size - overlap);
    }
  }

  method ChunkFixedLoop(text: string, size: nat, overlap: nat) returns (chunks: seq<Chunk>)
    requires overlap < size
    ensures chunks == ChunkFixed(text, size, overlap)
  {
    chunks := WindowLoop(|text|, Values(text), size, overlap);
  }

  // ----- The visited windows ---------------------------------------------------------------------------

  predicate WindowOk(w: Window, n: nat, size: nat) {
    w.start < w.end <= n && w.end <= w.start + size
  }

  lemma {:induction false} VisitedOk(n: nat, size: nat, overlap: nat, start: nat)
    requires overlap < size && start < n
    ensures var ws := Visited(n, size, overlap, start);
            && ws != [] && ws[0].start == start
            && forall i :: 0 <= i < |ws| ==> WindowOk(ws[i], n, size)
    decreases n - start
  {
    if start + size < n {
      VisitedOk(n, size, overlap, start + (size - overlap));
    }
  }

  /** Exactly the last visited window reaches the end of the text. */
  lemma {:induction false} VisitedEnd(n: nat, size: nat, overlap: nat, start: nat)
    requires overlap < size && start < n
    ensures var ws := Visited(n, size, overlap, start);
            ws != [] && forall i :: 0 <= i < |ws| ==> (ws[i].end == n <==> i == |ws| - 1)
    decreases n - start
  {
    if start + size < n {
      VisitedEnd(n, size, overlap, start + (size - overlap));
    }
  }

  lemma {:induction false} WindowOf(n: nat, size: nat, overlap: nat, start: nat, pos: nat) returns (k: nat)
    requires overlap < size && start <= pos < n
    ensures var ws := Visited(n, size, overlap, start); k < |ws| && ws[k].Covers(pos)
    decreases n - start
  {
    if start + size >= n || pos < start + size {
      k := 0;
    } else {
      var j := WindowOf(n, size, overlap, start + (size - overlap), pos);
      k := j + 1;
    }
  }

  /** Quotient rounded up. */
  function CeilDiv(a: nat, b: nat): (k: nat)
    requires b > 0
  {
    if a == 0 then 0 else if a <= b then 1 else 1 + CeilDiv(a - b, b)
  }

  lemma {:induction false} CeilDivIsCeiling(a: nat, b: nat)
    requires b > 0
    ensures var k := CeilDiv(a, b); k * b >= a && (a > 0 ==> (k - 1) * b < a)
  {
    if a > b {
      CeilDivIsCeiling(a - b, b);
      var k := CeilDiv(a - b, b);
      assert (k + 1) * b == k * b + b && k * b == (k - 1) * b + b;
    }
  }

  function WindowCount(n: nat, size: nat, overlap: nat): nat
    requires overlap < size
  {
    1 + CeilDiv(if n > size then n - size else 0, size - overlap)
  }

  lemma {:induction false} VisitedCount(n: nat, size: nat, overlap: nat, start: nat)
    requires overlap < size && start < n
    ensures |Visited(n, size, overlap, start)| == WindowCount(n - start, size, overlap)
    decreases n - start
  {
    if start + size < n {
      VisitedCount(n, size, overlap, start + (size - overlap));
    }
  }

  // ----- The chunks are the visible windows ------------------------------------------------------------

  function Slots(value: Window -> string, ws: seq<Window>): (slots: seq<Slot>)
    ensures |slots| == |ws|
    ensures forall i :: 0 <= i < |ws| ==> slots[i].window == ws[i] && slots[i].value == value(ws[i])
  {
    seq(|ws|, i requires 0 <= i < |ws| => Slot(ws[i], value(ws[i])))
  }

  /** One chunk for each slot that is not blank, with dense indices. */
  function ChunksOf(slots: seq<Slot>, index: nat, m: Metadata): seq<Chunk> {
    if slots == [] then []
    else if slots[0].value == "" then ChunksOf(slots[1..], index, m)
    else [SlotChunk(slots[0], index, m)] + ChunksOf(slots[1..], index + 1, m)
  }

  /** A window that holds the last character of a stripped text is visible. */
  lemma LastWindowVisible(text: string, w: Window)
    requires Stripped(text) && w.start < w.end == |text|
    ensures w.Value(text) != ""
  {
    var s := text[w.start..w.end];
    assert s[|s| - 1] == text[|text| - 1];
    BlankMeans(s);
    StripParts(s);
  }

  lemma {:induction false} FixedIsChunksOf(n: nat, value: Window -> string, size: nat, overlap: nat, start: nat,
                                           index: nat)
    requires overlap < size && start < n
    requires forall w: Window :: w.start < w.end == n ==> value(w) != ""
    ensures FixedFrom(n, value, size, overlap, start, index) ==
            ChunksOf(Slots(value, Visited(n, size, overlap, start)), index, Metadata(Fixed, size, overlap))
    decreases n - start
  {
    var w := WindowAt(n, size, start);
    var ws := Visited(n, size, overlap, start);
    var slots := Slots(value, ws);
    assert slots[0] == Slot(w, value(w));
    if start + size >= n {
      assert slots[1..] == [];
    } else {
      assert slots[1..] == Slots(value, ws[1..]);
      FixedIsChunksOf(n, value, size, overlap, start + (size - overlap), if value(w) == "" then index else index + 1);
    }
  }

  lemma ChunksAreVisible(text: string, size: nat, overlap: nat)
    requires Stripped(text) && overlap < size
    ensures ChunkFixed(text, size, overlap) ==
            ChunksOf(Slots(Values(text), Visited(|text|, size, overlap, 0)), 0, Metadata(Fixed, size, overlap))
  {
    forall w: Window | w.start < w.end == |text|
      ensures Values(text)(w) != ""
    {
      LastWindowVisible(text, w);
    }
    FixedIsChunksOf(|text|, Values(text), size, overlap, 0, 0);
  }

  predicate NoneBlank(slots: seq<Slot>) {
    forall i :: 0 <= i < |slots| ==> slots[i].value != ""
  }

  lemma {:induction false} ChunksOfCount(slots: seq<Slot>, index: nat, m: Metadata)
    ensures |ChunksOf(slots, index, m)| <= |slots|
    ensures |ChunksOf(slots, index, m)| == |slots| <==> NoneBlank(slots)
  {
    if slots != [] {
      var rest := slots[1..];
      ChunksOfCount(rest, if slots[0].value == "" then index else index + 1, m);
      assert NoneBlank(slots) <==> slots[0].value != "" && NoneBlank(rest) by {
        assert forall i :: 0 <= i < |rest| ==> rest[i] == slots[i + 1];
        assert forall i :: 1 <= i < |slots| ==> slots[i] == rest[i - 1];
      }
    }
  }

  /** Chunk number `i` is one of the slots, and only the last chunk can be the last slot. */
  lemma {:induction false} ChunkIsSlot(slots: seq<Slot>, index: nat, m: Metadata, i: nat) returns (k: nat)
    requires i < |ChunksOf(slots, index, m)|
    ensures k < |slots| && ChunksOf(slots, index, m)[i] == SlotChunk(slots[k], index + i, m)
    ensures k == |slots| - 1 ==> i == |ChunksOf(slots, index, m)| - 1
  {
    var rest := slots[1..];
    if slots[0].value == "" {
      var j := ChunkIsSlot(rest, index, m, i);
      k := j + 1;
    } else if i == 0 {
      k := 0;
    } else {
      var j := ChunkIsSlot(rest, index + 1, m, i - 1);
      k := j + 1;
    }
  }

  lemma {:induction false} VisibleLast(slots: seq<Slot>, index: nat, m: Metadata)
    requires slots != [] && slots[|slots| - 1].value != ""
    ensures var cs := ChunksOf(slots, index, m);
            cs != [] && cs[|cs| - 1].end == slots[|slots| - 1].window.end
  {
    if |slots| > 1 {
      VisibleLast(slots[1..], if slots[0].value == "" then index else index + 1, m);
    }
  }

  /** Every visible slot has its chunk. */
  lemma {:induction false} SlotHasChunk(slots: seq<Slot>, index: nat, m: Metadata, k: nat) returns (i: nat)
    requires k < |slots| && slots[k].value != ""
    ensures i < |ChunksOf(slots, index, m)|
    ensures ChunksOf(slots, index, m)[i] == SlotChunk(slots[k], index + i, m)
  {
    if k == 0 {
      i := 0;
    } else if slots[0].value == "" {
      i := SlotHasChunk(slots[1..], index, m, k - 1);
    } else {
      var j := SlotHasChunk(slots[1..], index + 1, m, k - 1);
      i := j + 1;
    }
  }

  // ----- Main results ------------------------------------------------------------------------------------

  predicate FixedChunkOk(text: string, size: nat, overlap: nat, cs: seq<Chunk>, i: nat)
    requires i < |cs|
  {
    && cs[i].index == i && cs[i].metadata == Metadata(Fixed, size, overlap)
    && cs[i].start < cs[i].end <= |text| && cs[i].end <= cs[i].start + size
    && cs[i].content == Strip(text[cs[i].start..cs[i].end])
    && (cs[i].end == |text| <==> i == |cs| - 1)
  }

  /** Indices are dense, every chunk is a stripped window of at most `size` characters, and exactly
      the last one ends where the text ends. */
  lemma FixedChunksShape(text: string, size: nat, overlap: nat)
    requires Stripped(text) && overlap < size
    ensures var cs := ChunkFixed(text, size, overlap);
            cs != [] && forall i :: 0 <= i < |cs| ==> FixedChunkOk(text, size, overlap, cs, i)
  {
    var ws := Visited(|text|, size, overlap, 0);
    var slots := Slots(Values(text), ws);
    var m := Metadata(Fixed, size, overlap);
    var cs := ChunkFixed(text, size, overlap);
    ChunksAreVisible(text, size, overlap);
    VisitedOk(|text|, size, overlap, 0);
    VisitedEnd(|text|, size, overlap, 0);
    assert WindowOk(ws[|ws| - 1], |text|, size);
    LastWindowVisible(text, ws[|ws| - 1]);
    VisibleLast(slots, 0, m);
    forall i | 0 <= i < |cs|
      ensures FixedChunkOk(text, size, overlap, cs, i)
    {
      var k := ChunkIsSlot(slots, 0, m, i);
      assert WindowOk(ws[k], |text|, size);
    }
  }

  /** Every visible character lies in some chunk's span. */
  lemma FixedChunksCover(text: string, size: nat, overlap: nat, pos: nat)
    requires Stripped(text) && overlap < size && pos < |text| && !IsSpace(text[pos])
    ensures InChunk(ChunkFixed(text, size, overlap), pos)
  {
    var ws := Visited(|text|, size, overlap, 0);
    var k := WindowOf(|text|, size, overlap, 0, pos);
    VisitedOk(|text|, size, overlap, 0);
    assert WindowOk(ws[k], |text|, size);
    VisibleWindow(text, ws[k], pos);
    ChunksAreVisible(text, size, overlap);
    var i := SlotHasChunk(Slots(Values(text), ws), 0, Metadata(Fixed, size, overlap), k);
    assert ChunkFixed(text, size, overlap)[i].start <= pos;
  }

  predicate InChunk(cs: seq<Chunk>, pos: nat) {
    exists i :: 0 <= i < |cs| && cs[i].start <= pos < cs[i].end
  }

  lemma VisibleWindow(text: string, w: Window, pos: nat)
    requires w.Within(text) && w.Covers(pos) && !IsSpace(text[pos])
    ensures w.Value(text) != ""
  {
    var s := text[w.start..w.end];
    assert s[pos - w.start] == text[pos];
    BlankMeans(s);
    StripParts(s);
  }

  /** The number of chunks: at most `1 + ceil(max(0, len - size) / (size - overlap))`, and exactly
      that many when no visited window is blank. */
  lemma FixedChunksCount(text: string, size: nat, overlap: nat)
    requires Stripped(text) && overlap < size
    ensures var chunks, bound := |ChunkFixed(text, size, overlap)|, WindowCount(|text|, size, overlap);
            && chunks <= bound
            && (chunks == bound <==> NoneBlank(Slots(Values(text), Visited(|text|, size, overlap, 0))))
  {
    var ws := Visited(|text|, size, overlap, 0);
    var cs := ChunkFixed(text, size, overlap);
    var bound := WindowCount(|text|, size, overlap);
    assert |ws| == bound by {
      VisitedCount(|text|, size, overlap, 0);
    }
    assert cs == ChunksOf(Slots(Values(text), ws), 0, Metadata(Fixed, size, overlap)) by {
      ChunksAreVisible(text, size, overlap);
    }
    ChunksOfCount(Slots(Values(text), ws), 0, Metadata(Fixed, size, overlap));
  }

  /** The windows one after the other, each without its first `drop` characters. */
  function Reading(text: string, ws: seq<Window>, drop: nat): string {
    if ws == [] then ""
    else (if ws[0].start + drop <= ws[0].end <= |text| then text[ws[0].start + drop..ws[0].end] else "") +
         Reading(text, ws[1..], drop)
  }

  lemma {:induction false} ReadingFrom(text: string, size: nat, overlap: nat, start: nat)
    requires overlap < size && start + overlap < |text|
    ensures Reading(text, Visited(|text|, size, overlap, start), overlap) == text[start + overlap..]
    decreases |text| - start
  {
    var ws := Visited(|text|, size, overlap, start);
    if start + size < |text| {
      var next := start + (size - overlap);
      ReadingFrom(text, size, overlap, next);
      assert ws[1..] == Visited(|text|, size, overlap, next);
      assert text[start + overlap..start + size] + text[start + size..] == text[start + overlap..];
    } else {
      assert ws[1..] == [];
    }
  }

  lemma ReadingOne(text: string, w: Window)
    requires w.start <= w.end <= |text|
    ensures Reading(text, [w], 0) == text[w.start..w.end]
  {
    assert [w][1..] == [];
    assert text[w.start + 0..w.end] + "" == text[w.start..w.end];
  }

  /** Read one after the other, the first in full and the others without the repeated overlap, the
      visited windows are the text. */
  lemma WindowsRebuildText(text: string, size: nat, overlap: nat)
    requires text != "" && overlap < size
    ensures var ws := Visited(|text|, size, overlap, 0);
            ws != [] && Reading(text, ws[..1], 0) + Reading(text, ws[1..], overlap) == text
  {
    var ws := Visited(|text|, size, overlap, 0);
    var end := Min(size, |text|);
    assert ws[0] == Window(0, end) && ws[..1] == [ws[0]];
    ReadingOne(text, ws[0]);
    assert Reading(text, ws[1..], overlap) == text[end..] by {
      if size < |text| {
        ReadingFrom(text, size, overlap, size - overlap);
        assert ws[1..] == Visited(|text|, size, overlap, size - overlap);
      } else {
        assert ws[1..] == [];
      }
    }
    assert text[..end] + text[end..] == text;
  }
}
