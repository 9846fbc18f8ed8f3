/** Pieces that lie side by side in a text with nothing but whitespace around them. */
module Tiling {
  import opened Text
  import opened Splitter

  /** Each piece, in turn, is the stripped text right after the leading whitespace of what is left. */
  predicate Tiles(text: string, pieces: seq<string>)
    decreases |pieces|
  {
    if pieces == [] then Blank(text)
    else
      var g := LeadingSpaces(text);
      var p := pieces[0];
      Stripped(p) && OccursAt(text, p, g) && Tiles(text[g + |p|..], pieces[1..])
  }

  lemma SliceRight(w: string, t: string, i: nat, j: nat)
    requires i <= j <= |t|
    ensures (w + t)[|w| + i..|w| + j] == t[i..j]
    ensures (w + t)[|w| + j..] == t[j..]
  {
  }

  lemma SliceLeft(t: string, w: string, i: nat, j: nat)
    requires i <= j <= |t|
    ensures (t + w)[i..j] == t[i..j]
    ensures (t + w)[j..] == t[j..] + w
  {
  }

  /** Leading whitespace is irrelevant. */
  lemma TilesLead(w: string, t: string, pieces: seq<string>)
    requires Blank(w)
    ensures Tiles(w + t, pieces) <==> Tiles(t, pieces)
  {
    BlankConcat(w, t);
    if pieces != [] {
      LeadingOfConcat(w, t);
      var g := LeadingSpaces(t);
      var n := |pieces[0]|;
      if g + n <= |t| {
        SliceRight(w, t, g, g + n);
      }
    }
  }

  /** A stripped string does not reach into trailing whitespace. */
  lemma OccursBeforeBlank(t: string, w: string, p: string, g: nat)
    requires Blank(w) && Stripped(p) && OccursAt(t + w, p, g)
    ensures OccursAt(t, p, g)
  {
    BlankMeans(w);
    var last := g + |p| - 1;
    assert (t + w)[last] == p[|p| - 1];
    assert forall k :: |t| <= k < |t + w| ==> (t + w)[k] == w[k - |t|];
    assert last < |t|;
    SliceLeft(t, w, g, g + |p|);
  }

  /** Trailing whitespace is irrelevant. */
  lemma {:induction false} TilesTrail(t: string, w: string, pieces: seq<string>)
    requires Blank(w)
    ensures Tiles(t + w, pieces) <==> Tiles(t, pieces)
    decreases |pieces|
  {
    BlankConcat(t, w);
    if pieces != [] && Stripped(pieces[0]) {
      LeadingOfConcat(t, w);
      var p := pieces[0];
      var g := LeadingSpaces(t);
      if OccursAt(t + w, p, LeadingSpaces(t + w)) {
        OccursBeforeBlank(t, w, p, LeadingSpaces(t + w));
      }
      if OccursAt(t, p, g) {
        assert t[g] == p[0];
        SliceLeft(t, w, g, g + |p|);
        TilesTrail(t[g + |p|..], w, pieces[1..]);
      }
    }
  }

  /** The first step of a tiling, as a cut of the text. */
  lemma TilesHead(t: string, pieces: seq<string>)
    requires pieces != [] && Tiles(t, pieces)
    ensures var g := LeadingSpaces(t);
            && t == t[..g] + pieces[0] + t[g + |pieces[0]|..] && Blank(t[..g])
            && Dense(t) == Dense(pieces[0]) + Dense(t[g + |pieces[0]|..])
            && !Blank(t)
  {
    var g, p := LeadingSpaces(t), pieces[0];
    CutMiddle(t, g, g + |p|);
    BlankPrefix(t);
    DenseHead(t[..g], p, t[g + |p|..]);
  }

  lemma DenseHead(a: string, p: string, rest: string)
    requires Blank(a)
    ensures Dense(a + p + rest) == Dense(p) + Dense(rest)
  {
    DenseConcat(a + p, rest);
    DenseConcat(a, p);
    DenseBlank(a);
  }

  lemma KeptHead(pieces: seq<string>)
    requires pieces != []
    ensures Kept(pieces) == Dense(pieces[0]) + Kept(pieces[1..])
  {
    DenseConcat(pieces[0], Flatten(pieces[1..]));
  }

  lemma {:induction false} TilesKept(t: string, pieces: seq<string>)
    requires Tiles(t, pieces)
    ensures Kept(pieces) == Dense(t)
    decreases |pieces|
  {
    if pieces == [] {
      DenseBlank(t);
    } else {
      TilesHead(t, pieces);
      TilesKept(t[LeadingSpaces(t) + |pieces[0]|..], pieces[1..]);
      KeptHead(pieces);
    }
  }

  /** One step of `Tiles` survives text added at the end. */
  lemma TilesExtend(a: string, p: string, b: string, q: seq<string>)
    requires Stripped(p) && OccursAt(a, p, LeadingSpaces(a))
    requires Tiles(a[LeadingSpaces(a) + |p|..] + b, q)
    ensures Tiles(a + b, [p] + q)
  {
    var g := LeadingSpaces(a);
    LeadingOfConcat(a, b);
    SliceLeft(a, b, g, g + |p|);
    assert ([p] + q)[1..] == q;
  }

  lemma PiecesHead(p: seq<string>, q: seq<string>)
    requires p != []
    ensures p + q == [p[0]] + (p[1..] + q)
  {
  }

  lemma {:induction false} TilesConcat(a: string, p: seq<string>, b: string, q: seq<string>)
    requires Tiles(a, p) && Tiles(b, q)
    ensures Tiles(a + b, p + q)
    decreases |p|
  {
    if p == [] {
      assert p + q == q;
      TilesLead(a, b, q);
    } else {
      var rest := a[LeadingSpaces(a) + |p[0]|..];
      TilesConcat(rest, p[1..], b, q);
      TilesExtend(a, p[0], b, p[1..] + q);
      PiecesHead(p, q);
    }
  }

  lemma DensePositive(s: string)
    requires Stripped(s)
    ensures |Dense(s)| >= 1
  {
    LeadingSpacesAre(s);
    DenseBlank(s);
  }

  lemma DenseSuffix(s: string)
    ensures Dense(s) == Dense(s[LeadingSpaces(s)..])
  {
    var g := LeadingSpaces(s);
    BlankPrefix(s);
    assert s == s[..g] + "" + s[g..];
    DenseHead(s[..g], "", s[g..]);
  }

  /** Dropping visible characters from the end shortens the dense form. */
  lemma DenseShorter(p: string, k: nat)
    requires Stripped(p) && k < |p|
    ensures |Dense(p[..k])| < |Dense(p)|
  {
    var tail := p[k..];
    assert p == p[..k] + tail;
    DenseConcat(p[..k], tail);
    assert tail[|tail| - 1] == p[|p| - 1];
    BlankMeans(tail);
    DenseBlank(tail);
  }

  lemma PrefixAtEnd(a: string, b: string, p: string, g: nat)
    requires OccursAt(a + b, p, g) && g <= |a| < g + |p|
    ensures p[..|a| - g] == a[g..]
  {
    var x := (a + b)[g..g + |p|];
    assert forall k :: 0 <= k < |a| - g ==> x[k] == a[g + k];
  }

  /** A first piece that keeps no more than `a` holds lies inside `a`. */
  lemma FirstInside(a: string, b: string, p: string)
    requires Stripped(p) && OccursAt(a + b, p, LeadingSpaces(a + b)) && |Dense(p)| <= |Dense(a)|
    ensures !Blank(a) && LeadingSpaces(a + b) == LeadingSpaces(a) && OccursAt(a, p, LeadingSpaces(a))
  {
    DensePositive(p);
    DenseBlank(a);
    LeadingOfConcat(a, b);
    FirstFits(a, b, p, LeadingSpaces(a));
    SliceLeft(a, b, LeadingSpaces(a), LeadingSpaces(a) + |p|);
  }

  lemma FirstFits(a: string, b: string, p: string, g: nat)
    requires Stripped(p) && OccursAt(a + b, p, g) && |Dense(p)| <= |Dense(a)| && g == LeadingSpaces(a)
    ensures g + |p| <= |a|
  {
    if g + |p| > |a| {
      PrefixAtEnd(a, b, p, g);
      DenseShorter(p, |a| - g);
      DenseSuffix(a);
    }
  }

  lemma AfterFirst(a: string, b: string, first: string)
    requires OccursAt(a, first, LeadingSpaces(a))
    ensures var rest := a[LeadingSpaces(a) + |first|..];
            && (a + b)[LeadingSpaces(a) + |first|..] == rest + b
            && |Dense(a)| == |Dense(first)| + |Dense(rest)|
  {
    var g := LeadingSpaces(a);
    SliceLeft(a, b, g, g + |first|);
    CutMiddle(a, g, g + |first|);
    BlankPrefix(a);
    DenseHead(a[..g], first, a[g + |first|..]);
  }

  /** A tiling of a concatenation splits where the visible characters add up. */
  lemma {:induction false} TilesSplit(a: string, p: seq<string>, b: string, q: seq<string>)
    requires Tiles(a + b, p + q) && |Kept(p)| == |Dense(a)|
    ensures Tiles(a, p) && Tiles(b, q)
    decreases |p|
  {
    if p == [] {
      assert p + q == q;
      DenseBlank(a);
      TilesLead(a, b, q);
    } else {
      var first := p[0];
      PiecesHead(p, q);
      KeptHead(p);
      FirstInside(a, b, first);
      AfterFirst(a, b, first);
      TilesSplit(a[LeadingSpaces(a) + |first|..], p[1..], b, q);
    }
  }

  lemma TilesEmit(s: string)
    ensures Tiles(s, Emit(s))
  {
    StripParts(s);
    if Strip(s) != "" {
      var g := LeadingSpaces(s);
      var p := Strip(s);
      assert s[g..g + |p|] == p;
      assert Emit(s)[1..] == [];
      assert Tiles(s[g + |p|..], []);
    }
  }

  lemma {:induction false} TilesHardSlices(text: string, size: nat)
    requires size > 0
    ensures Tiles(text, HardSlices(text, size))
    decreases |text|
  {
    if text == "" {
    } else if |text| <= size {
      TilesEmit(text);
    } else {
      TilesEmit(text[..size]);
      TilesHardSlices(text[size..], size);
      TilesConcat(text[..size], Emit(text[..size]), text[size..], HardSlices(text[size..], size));
      assert text == text[..size] + text[size..];
    }
  }
}
