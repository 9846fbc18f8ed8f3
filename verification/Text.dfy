/** The Python string operations the chunker relies on: whitespace, `strip`, `find` and `split`. */
module Text {
  import opened Basics

  /** Characters removed by `str.strip()`. */
  predicate IsSpace(c: char) {
    var k := c as int;
    || 0x09 <= k <= 0x0D || 0x1C <= k <= 0x20 || k == 0x85 || k == 0xA0 || k == 0x1680
    || 0x2000 <= k <= 0x200A || k == 0x2028 || k == 0x2029 || k == 0x202F || k == 0x205F || k == 0x3000
  }

  /** Length of the longest whitespace-only prefix. */
  function LeadingSpaces(s: string): (n: nat)
    ensures n <= |s|
  {
    if s == "" || !IsSpace(s[0]) then 0 else LeadingSpaces(s[1..]) + 1
  }

  /** Start of the longest whitespace-only suffix. */
  function TrailingStart(s: string): (n: nat)
    ensures n <= |s|
  {
    if s == "" || !IsSpace(s[|s| - 1]) then |s| else TrailingStart(s[..|s| - 1])
  }

  /** `s.strip()` */
  function Strip(s: string): string {
    var left := s[LeadingSpaces(s)..];
    left[..TrailingStart(left)]
  }

  predicate Blank(s: string) {
    LeadingSpaces(s) == |s|
  }

  /** Non-empty, with no whitespace at either end. */
  predicate Stripped(s: string) {
    s != "" && !IsSpace(s[0]) && !IsSpace(s[|s| - 1])
  }

  lemma {:induction false} LeadingSpacesAre(s: string)
    ensures forall i :: 0 <= i < LeadingSpaces(s) ==> IsSpace(s[i])
    ensures LeadingSpaces(s) < |s| ==> !IsSpace(s[LeadingSpaces(s)])
  {
    if s != "" && IsSpace(s[0]) {
      LeadingSpacesAre(s[1..]);
      assert forall i :: 1 <= i < |s| ==> s[i] == s[1..][i - 1];
    }
  }

  lemma LeadingSpacesIs(s: string, n: nat)
    requires n <= |s| && (forall i :: 0 <= i < n ==> IsSpace(s[i])) && (n < |s| ==> !IsSpace(s[n]))
    ensures LeadingSpaces(s) == n
  {
    LeadingSpacesAre(s);
  }

  lemma {:induction false} TrailingStartIs(s: string, n: nat)
    requires n <= |s| && (forall i :: n <= i < |s| ==> IsSpace(s[i])) && (n > 0 ==> !IsSpace(s[n - 1]))
    ensures TrailingStart(s) == n
  {
    if n < |s| {
      TrailingStartIs(s[..|s| - 1], n);
    }
  }

  lemma {:induction false} TrailingStartAre(s: string)
    ensures forall i :: TrailingStart(s) <= i < |s| ==> IsSpace(s[i])
    ensures TrailingStart(s) > 0 ==> !IsSpace(s[TrailingStart(s) - 1])
  {
    if s != "" && IsSpace(s[|s| - 1]) {
      TrailingStartAre(s[..|s| - 1]);
      assert forall i :: 0 <= i < |s| - 1 ==> s[i] == s[..|s| - 1][i];
    }
  }

  lemma BlankMeans(s: string)
    ensures Blank(s) <==> forall i :: 0 <= i < |s| ==> IsSpace(s[i])
  {
    LeadingSpacesAre(s);
  }

  lemma BlankConcat(a: string, b: string)
    ensures Blank(a + b) <==> Blank(a) && Blank(b)
  {
    BlankMeans(a);
    BlankMeans(b);
    BlankMeans(a + b);
    assert forall i :: 0 <= i < |a| ==> (a + b)[i] == a[i];
    assert forall i :: 0 <= i < |b| ==> (a + b)[|a| + i] == b[i];
  }

  lemma LeadingOfConcat(a: string, b: string)
    ensures Blank(a) ==> LeadingSpaces(a + b) == |a| + LeadingSpaces(b)
    ensures !Blank(a) ==> LeadingSpaces(a + b) == LeadingSpaces(a) < |a|
  {
    LeadingSpacesAre(a);
    LeadingSpacesAre(b);
    assert forall i :: 0 <= i < |a| ==> (a + b)[i] == a[i];
    assert forall i :: 0 <= i < |b| ==> (a + b)[|a| + i] == b[i];
    if Blank(a) {
      LeadingSpacesIs(a + b, |a| + LeadingSpaces(b));
    } else {
      LeadingSpacesIs(a + b, LeadingSpaces(a));
    }
  }

  lemma BlankPrefix(s: string)
    ensures Blank(s[..LeadingSpaces(s)])
  {
    LeadingSpacesAre(s);
    BlankMeans(s[..LeadingSpaces(s)]);
  }

  lemma BlankSuffix(s: string)
    ensures Blank(s[TrailingStart(s)..])
  {
    TrailingStartAre(s);
    BlankMeans(s[TrailingStart(s)..]);
  }

  lemma DropDrop(s: string, i: nat, j: nat)
    requires i + j <= |s|
    ensures s[i..][j..] == s[i + j..] && s[i..][..j] == s[i..i + j]
  {
  }

  lemma CutTwice(s: string, lo: nat, kept: nat)
    requires lo + kept <= |s|
    ensures var middle := s[lo..][..kept];
            && |middle| == kept && middle == s[lo..lo + kept] && s[lo + kept..] == s[lo..][kept..]
  {
    DropDrop(s, lo, kept);
  }

  lemma StripCut(s: string)
    ensures var lo := LeadingSpaces(s);
            var hi := lo + |Strip(s)|;
            hi <= |s| && Strip(s) == s[lo..hi] && s[hi..] == s[lo..][TrailingStart(s[lo..])..]
  {
    var lo := LeadingSpaces(s);
    CutTwice(s, lo, TrailingStart(s[lo..]));
  }

  /** Where `Strip` cuts: blank, kept, blank. */
  lemma StripParts(s: string)
    ensures var lo := LeadingSpaces(s);
            var hi := lo + |Strip(s)|;
            && hi <= |s| && Strip(s) == s[lo..hi] && Blank(s[..lo]) && Blank(s[hi..])
    ensures Strip(s) == "" <==> Blank(s)
    ensures Strip(s) != "" ==> Stripped(Strip(s))
  {
    StripCut(s);
    BlankPrefix(s);
    BlankSuffix(s[LeadingSpaces(s)..]);
    StripEnds(s);
  }

  lemma StripEnds(s: string)
    ensures Strip(s) == "" <==> Blank(s)
    ensures Strip(s) != "" ==> Stripped(Strip(s))
  {
    var left := s[LeadingSpaces(s)..];
    LeadingSpacesAre(s);
    TrailingStartAre(left);
    if left != "" {
      assert left[0] == s[LeadingSpaces(s)];
    }
  }

  /** Cutting a string anywhere inside the blanks around its stripped part gives that part. */
  lemma StripIs(s: string, a: string, core: string, b: string)
    requires s == a + core + b && Blank(a) && Blank(b) && (core == "" || Stripped(core))
    ensures Strip(s) == core
  {
    if core == "" {
      assert s == a + b;
      BlankConcat(a, b);
      StripParts(s);
    } else {
      BlankMeans(a);
      BlankMeans(b);
      var left := core + b;
      assert s == a + left;
      assert left[0] == core[0];
      LeadingSpacesIs(left, 0);
      LeadingOfConcat(a, left);
      assert s[|a|..] == left;
      assert forall i :: 0 <= i < |b| ==> left[|core| + i] == b[i];
      assert left[|core| - 1] == core[|core| - 1];
      TrailingStartIs(left, |core|);
      assert left[..|core|] == core;
    }
  }

  lemma StripOfStripped(s: string)
    requires Stripped(s)
    ensures Strip(s) == s
  {
    assert s == "" + s + "";
    StripIs(s, "", s, "");
  }

  // ----- find -----------------------------------------------------------------------------------

  predicate OccursAt(text: string, pat: string, i: nat) {
    i + |pat| <= |text| && text[i..i + |pat|] == pat
  }

  /** `text.find(pat, from)` with `None` for -1. */
  function Find(text: string, pat: string, from: nat): (r: Option<nat>)
    ensures r.Some? ==> from <= r.value && OccursAt(text, pat, r.value)
    ensures r.Some? ==> forall i: nat :: from <= i < r.value ==> !OccursAt(text, pat, i)
    ensures r.None? ==> forall i: nat :: from <= i ==> !OccursAt(text, pat, i)
    decreases |text| - from
  {
    if from + |pat| > |text| then None
    else if OccursAt(text, pat, from) then Some(from)
    else Find(text, pat, from + 1)
  }

  // ----- split ----------------------------------------------------------------------------------

  /** `text.split(sep)` for a non-empty separator. */
  function Split(text: string, sep: string): (parts: seq<string>)
    requires sep != ""
    ensures |parts| >= 1
    ensures |parts| == 1 <==> Find(text, sep, 0).None?
    decreases |text|
  {
    match Find(text, sep, 0)
    case None => [text]
    case Some(i) => [text[..i]] + Split(text[i + |sep|..], sep)
  }

  /** `sep.join(parts)` */
  function Join(parts: seq<string>, sep: string): string {
    if parts == [] then ""
    else if |parts| == 1 then parts[0]
    else parts[0] + sep + Join(parts[1..], sep)
  }

  lemma CutAt(text: string, sep: string, i: nat)
    requires OccursAt(text, sep, i)
    ensures text == text[..i] + sep + text[i + |sep|..]
  {
  }

  lemma {:induction false} JoinSplit(text: string, sep: string)
    requires sep != ""
    ensures Join(Split(text, sep), sep) == text
    decreases |text|
  {
    var at := Find(text, sep, 0);
    if at.Some? {
      var rest := text[at.value + |sep|..];
      JoinSplit(rest, sep);
      CutAt(text, sep, at.value);
      var parts := Split(text, sep);
      assert parts[0] == text[..at.value] && parts[1..] == Split(rest, sep);
    }
  }

  lemma MismatchDoesNotOccur(text: string, p: string, g: nat, at: nat)
    requires at < |p| && g + at < |text| && text[g + at] != p[at]
    ensures !OccursAt(text, p, g)
  {
    if g + |p| <= |text| {
      assert text[g..g + |p|][at] == text[g + at];
    }
  }

  /** A text without the separator's first character is one part. */
  lemma SplitAbsent(t: string, sep: string)
    requires sep != "" && sep[0] !in t
    ensures Split(t, sep) == [t]
  {
    forall i: nat
      ensures !OccursAt(t, sep, i)
    {
      if i < |t| {
        MismatchDoesNotOccur(t, sep, i, 0);
      }
    }
  }

  /** The first part ends at the first separator. */
  lemma SplitFirst(a: string, sep: string, b: string)
    requires sep != "" && sep[0] !in a
    ensures Split(a + sep + b, sep) == [a] + Split(b, sep)
  {
    var t := a + sep + b;
    assert t[|a|..|a| + |sep|] == sep;
    forall i: nat | i < |a|
      ensures !OccursAt(t, sep, i)
    {
      assert t[i] == a[i];
      MismatchDoesNotOccur(t, sep, i, 0);
    }
    assert OccursAt(t, sep, |a|);
    assert Find(t, sep, 0) == Some(|a|);
    assert t[..|a|] == a && t[|a| + |sep|..] == b;
  }

  ghost predicate Within(part: string, text: string) {
    exists lo: nat, hi: nat :: lo <= hi <= |text| && part == text[lo..hi]
  }

  lemma WithinSuffix(part: string, text: string, k: nat)
    requires k <= |text| && Within(part, text[k..])
    ensures Within(part, text)
  {
    var lo: nat, hi: nat :| lo <= hi <= |text[k..]| && part == text[k..][lo..hi];
    assert part == text[k + lo..k + hi];
  }

  lemma WithinPrefix(text: string, k: nat)
    requires k <= |text|
    ensures Within(text[..k], text)
  {
    assert text[..k] == text[0..k];
  }

  lemma SplitMember(text: string, sep: string, i: nat, part: string)
    requires sep != "" && Find(text, sep, 0) == Some(i) && part in Split(text, sep)
    ensures part == text[..i] || part in Split(text[i + |sep|..], sep)
  {
    var rest := Split(text[i + |sep|..], sep);
    assert Split(text, sep) == [text[..i]] + rest;
  }

  /** Every part is a substring. */
  lemma {:induction false} PartWithin(text: string, sep: string, part: string)
    requires sep != "" && part in Split(text, sep)
    ensures Within(part, text)
    decreases |text|
  {
    match Find(text, sep, 0)
    case None =>
      assert text[..|text|] == text;
      WithinPrefix(text, |text|);
    case Some(i) =>
      SplitMember(text, sep, i, part);
      WithinPrefix(text, i);
      if part != text[..i] {
        PartWithin(text[i + |sep|..], sep, part);
        WithinSuffix(part, text, i + |sep|);
      }
  }

  // ----- text with its whitespace removed ---------------------------------------------------------

  /** The non-whitespace characters, in order. */
  function Dense(s: string): string {
    if s == "" then "" else (if IsSpace(s[0]) then "" else [s[0]]) + Dense(s[1..])
  }

  lemma {:induction false} DenseConcat(a: string, b: string)
    ensures Dense(a + b) == Dense(a) + Dense(b)
  {
    if a == "" {
      assert a + b == b;
    } else {
      assert (a + b)[1..] == a[1..] + b;
      DenseConcat(a[1..], b);
    }
  }

  lemma {:induction false} DenseBlank(s: string)
    ensures Blank(s) <==> Dense(s) == ""
  {
    if s != "" {
      DenseBlank(s[1..]);
    }
  }

  lemma DensePadded(a: string, m: string, b: string)
    requires Blank(a) && Blank(b)
    ensures Dense(a + m + b) == Dense(m)
  {
    DenseConcat(a + m, b);
    DenseConcat(a, m);
    DenseBlank(a);
    DenseBlank(b);
  }

  lemma DenseStrip(s: string)
    ensures Dense(Strip(s)) == Dense(s)
  {
    StripParts(s);
    var lo := LeadingSpaces(s);
    var hi := lo + |Strip(s)|;
    DensePadded(s[..lo], Strip(s), s[hi..]);
    CutMiddle(s, lo, hi);
  }

  lemma CutMiddle(s: string, lo: nat, hi: nat)
    requires lo <= hi <= |s|
    ensures s == s[..lo] + s[lo..hi] + s[hi..]
  {
  }

  /** `a` can be obtained from `b` by deleting characters. */
  predicate IsSubsequence(a: string, b: string) {
    || a == ""
    || (b != "" && ((a[0] == b[0] && IsSubsequence(a[1..], b[1..])) || IsSubsequence(a, b[1..])))
  }

  lemma {:induction false} SubsequenceSelf(a: string)
    ensures IsSubsequence(a, a)
  {
    if a != "" { SubsequenceSelf(a[1..]); }
  }

  lemma {:induction false} SubsequenceConcat(a: string, b: string, c: string, d: string)
    requires IsSubsequence(a, b) && IsSubsequence(c, d)
    ensures IsSubsequence(a + c, b + d)
    decreases |b|
  {
    if b == "" {
      assert a + c == c && b + d == d;
    } else {
      assert (b + d)[1..] == b[1..] + d;
      if a != "" && a[0] == b[0] && IsSubsequence(a[1..], b[1..]) {
        SubsequenceConcat(a[1..], b[1..], c, d);
        assert (a + c)[1..] == a[1..] + c;
      } else {
        SubsequenceConcat(a, b[1..], c, d);
      }
    }
  }

  lemma SubsequenceAfter(a: string, k: string, t: string)
    requires IsSubsequence(k, t)
    ensures IsSubsequence(a + k, a + t)
  {
    SubsequenceSelf(a);
    SubsequenceConcat(a, a, k, t);
  }

  lemma {:induction false} SubsequenceLength(a: string, b: string)
    requires IsSubsequence(a, b)
    ensures |a| <= |b| && (|a| == |b| ==> a == b)
    decreases |b|
  {
    if a != "" {
      if a[0] == b[0] && IsSubsequence(a[1..], b[1..]) {
        SubsequenceLength(a[1..], b[1..]);
      } else {
        SubsequenceLength(a, b[1..]);
      }
    }
  }

  /** Two kept stretches, with something dropped between them. */
  lemma SubsequenceAround(a: string, k: string, b: string, dropped: string, l: string, c: string)
    requires IsSubsequence(k, b) && IsSubsequence(l, c)
    ensures IsSubsequence(a + k + l, a + b + dropped + c)
  {
    SubsequenceAfter(a, k, b);
    assert IsSubsequence("", dropped);
    SubsequenceConcat("", dropped, l, c);
    assert "" + l == l;
    SubsequenceConcat(a + k, a + b, l, dropped + c);
    assert a + b + (dropped + c) == a + b + dropped + c;
  }
}
