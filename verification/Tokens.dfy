/** The lexical tokens of a text: maximal runs of letters and digits, at least two long, lowercased. */
module Tokens {
  import opened Text

  /** Characters matched by the case-insensitive class of ASCII letters and digits. Ignoring case
      adds four characters whose other case is an ASCII letter. */
  predicate IsWord(c: char) {
    '0' <= c <= '9' || 'a' <= c <= 'z' || 'A' <= c <= 'Z' || c in {'\U{0130}', '\U{0131}', '\U{017F}', '\U{212A}'}
  }

  /** `str.lower()` on a character that can occur in a token. */
  function LowerChar(c: char): string {
    if 'A' <= c <= 'Z' then [(c as int + 32) as char]
    else if c == '\U{0130}' then ['i', '\U{0307}']
    else if c == '\U{212A}' then "k"
    else [c]
  }

  function Lower(s: string): string {
    if s == "" then "" else LowerChar(s[0]) + Lower(s[1..])
  }

  function Flush(current: string): seq<string> {
    if current == "" then [] else [current]
  }

  /** The matches of the pattern in `current + text`, where `current` is the match being read. */
  function Runs(text: string, current: string): seq<string> {
    if text == "" then Flush(current)
    else if IsWord(text[0]) then Runs(text[1..], current + [text[0]])
    else Flush(current) + Runs(text[1..], "")
  }

  function SignificantTokens(text: string): set<string> {
    set r | r in Runs(text, "") && |r| >= 2 :: Lower(r)
  }

  // ----- What the runs are ------------------------------------------------------------------------------

  predicate AllWord(s: string) {
    forall i :: 0 <= i < |s| ==> IsWord(s[i])
  }

  predicate MaximalRun(text: string, lo: nat, hi: nat) {
    && lo < hi <= |text|
    && AllWord(text[lo..hi])
    && (lo == 0 || !IsWord(text[lo - 1]))
    && (hi == |text| || !IsWord(text[hi]))
  }

  ghost predicate IsRun(text: string, r: string) {
    exists lo: nat, hi: nat :: MaximalRun(text, lo, hi) && r == text[lo..hi]
  }

  lemma OnlyRun(text: string, lo: nat, hi: nat)
    requires AllWord(text) && MaximalRun(text, lo, hi)
    ensures lo == 0 && hi == |text|
  {
  }

  lemma WholeRun(text: string, r: string)
    requires AllWord(text)
    ensures IsRun(text, r) <==> text != "" && r == text
  {
    assert text[0..|text|] == text;
    if text != "" {
      assert MaximalRun(text, 0, |text|);
    }
    if IsRun(text, r) {
      var lo: nat, hi: nat :| MaximalRun(text, lo, hi) && r == text[lo..hi];
      OnlyRun(text, lo, hi);
    }
  }

  /** No run crosses a character that is not part of words. */
  lemma RunSide(a: string, c: char, b: string, lo: nat, hi: nat)
    requires !IsWord(c) && MaximalRun(a + [c] + b, lo, hi)
    ensures hi <= |a| || lo > |a|
  {
    var text := a + [c] + b;
    assert text[|a|] == c;
    forall i | lo <= i < hi
      ensures IsWord(text[i])
    {
      assert text[i] == text[lo..hi][i - lo];
    }
  }

  lemma RunLeft(a: string, c: char, b: string, lo: nat, hi: nat)
    requires !IsWord(c) && hi <= |a|
    ensures MaximalRun(a + [c] + b, lo, hi) <==> MaximalRun(a, lo, hi)
    ensures lo <= hi ==> (a + [c] + b)[lo..hi] == a[lo..hi]
  {
    var text := a + [c] + b;
    if lo <= hi {
      assert text[lo..hi] == a[lo..hi];
    }
    assert text[|a|] == c;
  }

  lemma RunRight(a: string, c: char, b: string, lo: nat, hi: nat)
    requires !IsWord(c)
    ensures MaximalRun(a + [c] + b, |a| + 1 + lo, |a| + 1 + hi) <==> MaximalRun(b, lo, hi)
    ensures lo <= hi <= |b| ==> (a + [c] + b)[|a| + 1 + lo..|a| + 1 + hi] == b[lo..hi]
  {
    var text, n := a + [c] + b, |a| + 1;
    if lo <= hi <= |b| {
      assert text[n + lo..n + hi] == b[lo..hi];
    }
    assert text[|a|] == c;
    assert hi < |b| ==> text[n + hi] == b[hi];
    assert 0 < lo <= |b| ==> text[n + lo - 1] == b[lo - 1];
  }

  lemma RunsAround(a: string, c: char, b: string, r: string)
    requires !IsWord(c)
    ensures IsRun(a + [c] + b, r) <==> IsRun(a, r) || IsRun(b, r)
  {
    var text := a + [c] + b;
    if IsRun(text, r) {
      var lo: nat, hi: nat :| MaximalRun(text, lo, hi) && r == text[lo..hi];
      RunSide(a, c, b, lo, hi);
      if hi <= |a| {
        RunLeft(a, c, b, lo, hi);
      } else {
        RunRight(a, c, b, lo - |a| - 1, hi - |a| - 1);
      }
    }
    if IsRun(a, r) {
      var lo: nat, hi: nat :| MaximalRun(a, lo, hi) && r == a[lo..hi];
      RunLeft(a, c, b, lo, hi);
    }
    if IsRun(b, r) {
      var lo: nat, hi: nat :| MaximalRun(b, lo, hi) && r == b[lo..hi];
      RunRight(a, c, b, lo, hi);
    }
  }

  /** The scan finds exactly the maximal runs. */
  lemma {:induction false} RunsAreMaximal(text: string, current: string, r: string)
    requires AllWord(current)
    ensures r in Runs(text, current) <==> IsRun(current + text, r)
    decreases |text|
  {
    if text == "" {
      assert current + text == current;
      WholeRun(current, r);
    } else if IsWord(text[0]) {
      RunsAreMaximal(text[1..], current + [text[0]], r);
      assert current + [text[0]] + text[1..] == current + text;
    } else {
      RunsAreMaximal(text[1..], "", r);
      assert "" + text[1..] == text[1..];
      RunsAround(current, text[0], text[1..], r);
      assert current + [text[0]] + text[1..] == current + text;
      WholeRun(current, r);
    }
  }

  ghost predicate IsToken(text: string, t: string) {
    exists lo: nat, hi: nat :: MaximalRun(text, lo, hi) && hi - lo >= 2 && t == Lower(text[lo..hi])
  }

  lemma TokensAre(text: string, t: string)
    ensures t in SignificantTokens(text) <==> IsToken(text, t)
  {
    if t in SignificantTokens(text) {
      var r :| r in Runs(text, "") && |r| >= 2 && Lower(r) == t;
      RunsAreMaximal(text, "", r);
      assert "" + text == text;
    }
    if IsToken(text, t) {
      var lo: nat, hi: nat :| MaximalRun(text, lo, hi) && hi - lo >= 2 && t == Lower(text[lo..hi]);
      RunsAreMaximal(text, "", text[lo..hi]);
      assert "" + text == text;
    }
  }

  // ----- Case ----------------------------------------------------------------------------------------------

  /** The ASCII capital of a small letter. */
  function Capital(c: char): char {
    if 'a' <= c <= 'z' then (c as int - 32) as char else c
  }

  function Capitals(s: string): string {
    seq(|s|, i requires 0 <= i < |s| => Capital(s[i]))
  }

  lemma CapitalsOfConcat(a: string, b: string)
    ensures Capitals(a + b) == Capitals(a) + Capitals(b)
  {
  }

  lemma {:induction false} LowerOfCapitals(s: string)
    ensures Lower(Capitals(s)) == Lower(s)
  {
    if s != "" {
      LowerOfCapitals(s[1..]);
      assert Capitals(s)[1..] == Capitals(s[1..]);
      assert LowerChar(Capital(s[0])) == LowerChar(s[0]);
    }
  }

  function AllCapitals(runs: seq<string>): seq<string> {
    seq(|runs|, i requires 0 <= i < |runs| => Capitals(runs[i]))
  }

  lemma {:induction false} RunsOfCapitals(text: string, current: string)
    ensures Runs(Capitals(text), Capitals(current)) == AllCapitals(Runs(text, current))
    decreases |text|
  {
    assert Capitals("") == "";
    if text != "" {
      var c := text[0];
      assert Capitals(text)[0] == Capital(c) && Capitals(text)[1..] == Capitals(text[1..]);
      assert IsWord(Capital(c)) == IsWord(c);
      CapitalsOfConcat(current, [c]);
      assert Capitals([c]) == [Capital(c)];
      RunsOfCapitals(text[1..], current + [c]);
      RunsOfCapitals(text[1..], "");
      assert AllCapitals(Flush(current) + Runs(text[1..], "")) ==
             AllCapitals(Flush(current)) + AllCapitals(Runs(text[1..], ""));
      assert Flush(Capitals(current)) == AllCapitals(Flush(current));
    } else {
      assert Flush(Capitals(current)) == AllCapitals(Flush(current));
    }
  }

  /** One and the same lowercased runs, whether or not the text is in capitals. */
  lemma RunsPair(text: string, i: nat)
    requires i < |Runs(text, "")|
    ensures i < |Runs(Capitals(text), "")|
    ensures var r, c := Runs(text, "")[i], Runs(Capitals(text), "")[i]; |r| == |c| && Lower(r) == Lower(c)
  {
    assert Capitals("") == "";
    RunsOfCapitals(text, "");
    LowerOfCapitals(Runs(text, "")[i]);
  }

  lemma SameRunCount(text: string)
    ensures |Runs(Capitals(text), "")| == |Runs(text, "")|
  {
    assert Capitals("") == "";
    RunsOfCapitals(text, "");
  }

  lemma TokenOfRun(text: string, i: nat)
    requires i < |Runs(text, "")| && |Runs(text, "")[i]| >= 2
    ensures Lower(Runs(text, "")[i]) in SignificantTokens(text)
  {
    assert Runs(text, "")[i] in Runs(text, "");
  }

  lemma RunOfToken(text: string, t: string) returns (i: nat)
    requires t in SignificantTokens(text)
    ensures i < |Runs(text, "")| && |Runs(text, "")[i]| >= 2 && Lower(Runs(text, "")[i]) == t
  {
    var r :| r in Runs(text, "") && |r| >= 2 && Lower(r) == t;
    i :| 0 <= i < |Runs(text, "")| && Runs(text, "")[i] == r;
  }

  /** Case does not matter: a text in capitals has the same tokens. */
  lemma TokensIgnoreCase(text: string)
    ensures SignificantTokens(Capitals(text)) == SignificantTokens(text)
  {
    SameRunCount(text);
    forall t | t in SignificantTokens(text)
      ensures t in SignificantTokens(Capitals(text))
    {
      var i := RunOfToken(text, t);
      RunsPair(text, i);
      TokenOfRun(Capitals(text), i);
    }
    forall t | t in SignificantTokens(Capitals(text))
      ensures t in SignificantTokens(text)
    {
      var i := RunOfToken(Capitals(text), t);
      RunsPair(text, i);
      TokenOfRun(text, i);
    }
  }

  /** Tokens in small letters and digits are kept as they are. */
  lemma {:induction false} LowerOfLower(s: string)
    requires forall i :: 0 <= i < |s| ==> 'a' <= s[i] <= 'z' || '0' <= s[i] <= '9'
    ensures Lower(s) == s
  {
    if s != "" {
      LowerOfLower(s[1..]);
    }
  }

  // ----- Tokens of joined texts --------------------------------------------------------------------------

  lemma SameRuns(text: string, r: string)
    ensures r in Runs(text, "") <==> IsRun(text, r)
  {
    RunsAreMaximal(text, "", r);
    assert "" + text == text;
  }

  /** A separator that starts and ends outside words keeps the tokens of both sides apart. */
  lemma TokensOfTwo(a: string, b: string)
    ensures SignificantTokens(a + "\n\n" + b) == SignificantTokens(a) + SignificantTokens(b)
  {
    var text := a + "\n\n" + b;
    assert text == a + ['\n'] + ("\n" + b);
    assert "\n" + b == "" + ['\n'] + b;
    forall r
      ensures r in Runs(text, "") <==> r in Runs(a, "") || r in Runs(b, "")
    {
      RunsAround(a, '\n', "\n" + b, r);
      RunsAround("", '\n', b, r);
      WholeRun("", r);
      SameRuns(text, r);
      SameRuns(a, r);
      SameRuns(b, r);
    }
  }

  function TokensOfAll(texts: seq<string>): set<string> {
    if texts == [] then {} else SignificantTokens(texts[0]) + TokensOfAll(texts[1..])
  }

  /** The tokens of the joined chunk texts are those of the chunks. */
  lemma {:induction false} TokensOfJoin(texts: seq<string>)
    ensures SignificantTokens(Join(texts, "\n\n")) == TokensOfAll(texts)
  {
    if |texts| == 1 {
      assert TokensOfAll(texts[1..]) == {};
    } else if |texts| > 1 {
      TokensOfJoin(texts[1..]);
      TokensOfTwo(texts[0], Join(texts[1..], "\n\n"));
    }
  }

  lemma {:induction false} TokensOfPrefix(texts: seq<string>, k: nat)
    requires k <= |texts|
    ensures TokensOfAll(texts[..k]) <= TokensOfAll(texts)
  {
    if k > 0 {
      assert texts[..k][1..] == texts[1..][..k - 1];
      TokensOfPrefix(texts[1..], k - 1);
    }
  }
}
