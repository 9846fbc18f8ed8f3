/** Comma-separated values as the export writes them, and an independent reader for the quoting
    rules of section 2 of RFC 4180, with a line feed between records. */
module Csv {
  import opened Basics
  import opened Text

  /** `null` and `undefined` are both `None`. */
  type Cell = Option<string>
  type Row = seq<Cell>

  // ----- Writing -----------------------------------------------------------------------------------

  function Shown(c: Cell): string {
    c.GetOr("")
  }

  predicate NeedsQuotes(s: string) {
    '"' in s || ',' in s || '\r' in s || '\n' in s
  }

  /** `s.replace(/"/g, '""')` */
  function Doubled(s: string): string {
    if s == "" then "" else (if s[0] == '"' then "\"\"" else [s[0]]) + Doubled(s[1..])
  }

  function EscapeCell(c: Cell): string {
    if c.None? then ""
    else if NeedsQuotes(c.value) then "\"" + Doubled(c.value) + "\""
    else c.value
  }

  function Escaped(cells: Row): seq<string> {
    seq(|cells|, i requires 0 <= i < |cells| => EscapeCell(cells[i]))
  }

  function JoinRow(cells: Row): string {
    Join(Escaped(cells), ",")
  }

  function Lines(rows: seq<Row>): seq<string> {
    seq(|rows|, i requires 0 <= i < |rows| => JoinRow(rows[i]))
  }

  function Document(rows: seq<Row>): string {
    Join(Lines(rows), "\n")
  }

  // ----- Reading -----------------------------------------------------------------------------------

  datatype State = CellStart | Plain | InQuotes | AfterQuote

  /** Reads the rest of a document; `cell`, `row` and `rows` are what has been read so far. */
  function Read(text: string, st: State, cell: string, row: seq<string>,
                rows: seq<seq<string>>): Option<seq<seq<string>>> {
    if text == "" then
      if st == InQuotes then None else Some(rows + [row + [cell]])
    else
      var c, rest := text[0], text[1..];
      if st == InQuotes then
        if c == '"' then Read(rest, AfterQuote, cell, row, rows)
        else Read(rest, InQuotes, cell + [c], row, rows)
      else if c == ',' then Read(rest, CellStart, "", row + [cell], rows)
      else if c == '\n' then Read(rest, CellStart, "", [], rows + [row + [cell]])
      else if c == '"' then
        match st
        case CellStart => Read(rest, InQuotes, cell, row, rows)
        case AfterQuote => Read(rest, InQuotes, cell + [c], row, rows)
        case _ => None
      else if c == '\r' || st == AfterQuote then None
      else Read(rest, Plain, cell + [c], row, rows)
  }

  function Parse(document: string): Option<seq<seq<string>>> {
    Read(document, CellStart, "", [], [])
  }

  /** A cell is written as it is exactly when it holds no quote, comma or line break; otherwise it is longer
      by two quotes and one more for every quote it holds. */
  lemma WrittenAsIsIff(c: Cell)
    ensures EscapeCell(c) == Shown(c) <==>
              '"' !in Shown(c) && ',' !in Shown(c) && '\r' !in Shown(c) && '\n' !in Shown(c)
    ensures EscapeCell(c) != Shown(c) ==> |EscapeCell(c)| == |Shown(c)| + 2 + QuotesIn(Shown(c))
  {
    DoubledLength(Shown(c));
  }

  function QuotesIn(s: string): nat {
    if s == "" then 0 else (if s[0] == '"' then 1 else 0) + QuotesIn(s[1..])
  }

  lemma {:induction false} DoubledLength(s: string)
    ensures |Doubled(s)| == |s| + QuotesIn(s)
  {
    if s != "" {
      DoubledLength(s[1..]);
    }
  }

  // ----- Round trip --------------------------------------------------------------------------------

  function Texts(cells: Row): seq<string> {
    seq(|cells|, i requires 0 <= i < |cells| => Shown(cells[i]))
  }

  function Table(rows: seq<Row>): seq<seq<string>> {
    seq(|rows|, i requires 0 <= i < |rows| => Texts(rows[i]))
  }

  predicate NoEmptyRow(rows: seq<Row>) {
    forall i :: 0 <= i < |rows| ==> rows[i] != []
  }

  lemma {:induction false} ReadPlain(s: string, rest: string, st: State, cell: string, row: seq<string>,
                                     rows: seq<seq<string>>)
    requires !NeedsQuotes(s) && (st == CellStart || st == Plain)
    ensures Read(s + rest, st, cell, row, rows) == Read(rest, if s == "" then st else Plain, cell + s, row, rows)
    decreases |s|
  {
    if s == "" {
      assert s + rest == rest && cell + s == cell;
    } else {
      assert (s + rest)[1..] == s[1..] + rest && (s + rest)[0] == s[0];
      ReadPlain(s[1..], rest, Plain, cell + [s[0]], row, rows);
      assert cell + [s[0]] + s[1..] == cell + s;
    }
  }

  lemma {:induction false} ReadQuoted(s: string, rest: string, cell: string, row: seq<string>, rows: seq<seq<string>>)
    ensures Read(Doubled(s) + "\"" + rest, InQuotes, cell, row, rows) == Read(rest, AfterQuote, cell + s, row, rows)
    decreases |s|
  {
    var text := Doubled(s) + "\"" + rest;
    if s == "" {
      assert text[0] == '"' && text[1..] == rest && cell + s == cell;
    } else {
      var tail := Doubled(s[1..]) + "\"" + rest;
      ReadQuoted(s[1..], rest, cell + [s[0]], row, rows);
      assert cell + [s[0]] + s[1..] == cell + s;
      if s[0] == '"' {
        assert text[0] == '"' && text[1..][0] == '"' && text[1..][1..] == tail;
      } else {
        assert text[0] == s[0] && text[1..] == tail;
      }
    }
  }

  lemma ReadCell(c: Cell, rest: string, row: seq<string>, rows: seq<seq<string>>) returns (st: State)
    ensures st != InQuotes
    ensures Read(EscapeCell(c) + rest, CellStart, "", row, rows) == Read(rest, st, Shown(c), row, rows)
  {
    var s := Shown(c);
    assert "" + s == s;
    if c.Some? && NeedsQuotes(s) {
      st := AfterQuote;
      var text := EscapeCell(c) + rest;
      assert text[0] == '"' && text[1..] == Doubled(s) + "\"" + rest;
      ReadQuoted(s, rest, "", row, rows);
    } else {
      st := if s == "" then CellStart else Plain;
      assert EscapeCell(c) == s;
      ReadPlain(s, rest, CellStart, "", row, rows);
    }
  }

  lemma JoinRowStep(cells: Row)
    requires |cells| > 1
    ensures JoinRow(cells) == EscapeCell(cells[0]) + "," + JoinRow(cells[1..])
    ensures Texts(cells) == [Shown(cells[0])] + Texts(cells[1..])
  {
    assert Escaped(cells)[1..] == Escaped(cells[1..]);
  }

  /** Reading a whole row leaves its last cell open, for the separator that follows. */
  lemma {:induction false} ReadRow(cells: Row, rest: string, row: seq<string>, rows: seq<seq<string>>)
      returns (st: State, last: string, done: seq<string>)
    requires cells != []
    ensures st != InQuotes && done + [last] == row + Texts(cells)
    ensures Read(JoinRow(cells) + rest, CellStart, "", row, rows) == Read(rest, st, last, done, rows)
    decreases |cells|
  {
    if |cells| == 1 {
      last, done := Shown(cells[0]), row;
      st := ReadCell(cells[0], rest, row, rows);
      assert Texts(cells) == [last];
    } else {
      JoinRowStep(cells);
      var tail := JoinRow(cells[1..]) + rest;
      assert JoinRow(cells) + rest == EscapeCell(cells[0]) + ("," + tail);
      var mid := ReadCell(cells[0], "," + tail, row, rows);
      assert ("," + tail)[1..] == tail;
      st, last, done := ReadRow(cells[1..], rest, row + [Shown(cells[0])], rows);
    }
  }

  lemma DocumentStep(rows: seq<Row>)
    requires |rows| > 1
    ensures Document(rows) == JoinRow(rows[0]) + "\n" + Document(rows[1..])
    ensures Table(rows) == [Texts(rows[0])] + Table(rows[1..])
  {
    assert Lines(rows)[1..] == Lines(rows[1..]);
  }

  lemma {:induction false} ReadRows(rows: seq<Row>, done: seq<seq<string>>)
    requires rows != [] && NoEmptyRow(rows)
    ensures Read(Document(rows), CellStart, "", [], done) == Some(done + Table(rows))
    decreases |rows|
  {
    if |rows| == 1 {
      var st, last, cells := ReadRow(rows[0], "", [], done);
      assert JoinRow(rows[0]) + "" == Document(rows);
      assert [] + Texts(rows[0]) == Texts(rows[0]);
      assert Table(rows) == [Texts(rows[0])];
    } else {
      DocumentStep(rows);
      var tail := Document(rows[1..]);
      assert Document(rows) == JoinRow(rows[0]) + ("\n" + tail);
      var st, last, cells := ReadRow(rows[0], "\n" + tail, [], done);
      assert [] + Texts(rows[0]) == Texts(rows[0]);
      assert ("\n" + tail)[1..] == tail;
      ReadRows(rows[1..], done + [Texts(rows[0])]);
      assert done + [Texts(rows[0])] + Table(rows[1..]) == done + Table(rows);
    }
  }

  /** Reading back what was written gives exactly the rows of texts, whatever characters they hold. */
  lemma RoundTrip(rows: seq<Row>)
    requires rows != [] && NoEmptyRow(rows)
    ensures Parse(Document(rows)) == Some(Table(rows))
  {
    ReadRows(rows, []);
    assert [] + Table(rows) == Table(rows);
  }

  /** Two tables that differ in any cell's text are never written the same way. */
  lemma DocumentsDiffer(a: seq<Row>, b: seq<Row>)
    requires a != [] && b != [] && NoEmptyRow(a) && NoEmptyRow(b)
    ensures Document(a) == Document(b) <==> Table(a) == Table(b)
  {
    RoundTrip(a);
    RoundTrip(b);
    if Table(a) == Table(b) {
      SameLines(a, b);
    }
  }

  lemma SameLines(a: seq<Row>, b: seq<Row>)
    requires Table(a) == Table(b)
    ensures Lines(a) == Lines(b)
  {
    assert |a| == |Table(a)| == |b|;
    forall i | 0 <= i < |a|
      ensures Lines(a)[i] == Lines(b)[i]
    {
      assert Table(a)[i] == Table(b)[i];
      SameRow(a[i], b[i]);
    }
  }

  lemma SameRow(a: Row, b: Row)
    requires Texts(a) == Texts(b)
    ensures JoinRow(a) == JoinRow(b)
  {
    assert |a| == |Texts(a)| == |b|;
    forall i | 0 <= i < |a|
      ensures Escaped(a)[i] == Escaped(b)[i]
    {
      assert Texts(a)[i] == Texts(b)[i];
      assert EscapeCell(None) == EscapeCell(Some(""));
    }
    assert Escaped(a) == Escaped(b);
  }

  // ----- Documents made of sections ------------------------------------------------------------------

  type Section = seq<Row>

  /** The line that ends a section. */
  const BLANK: Row := [Some("")]

  function SectionRows(sections: seq<Section>): seq<Row> {
    if sections == [] then [] else sections[0] + [BLANK] + SectionRows(sections[1..])
  }

  /** A row that cannot be mistaken for a blank line. */
  predicate Visible(r: Row) {
    |r| >= 2
  }

  predicate VisibleSections(sections: seq<Section>) {
    forall i, j :: 0 <= i < |sections| && 0 <= j < |sections[i]| ==> Visible(sections[i][j])
  }

  /** Cuts rows at the blank lines. */
  function CutSections(rows: seq<seq<string>>, current: seq<seq<string>>): seq<seq<seq<string>>> {
    if rows == [] then (if current == [] then [] else [current])
    else if rows[0] == [""] then [current] + CutSections(rows[1..], [])
    else CutSections(rows[1..], current + [rows[0]])
  }

  function Tables(sections: seq<Section>): seq<seq<seq<string>>> {
    seq(|sections|, i requires 0 <= i < |sections| => Table(sections[i]))
  }

  lemma {:induction false} CutRows(rows: seq<seq<string>>, rest: seq<seq<string>>, current: seq<seq<string>>)
    requires forall j :: 0 <= j < |rows| ==> |rows[j]| >= 2
    ensures CutSections(rows + [[""]] + rest, current) == [current + rows] + CutSections(rest, [])
    decreases |rows|
  {
    var all := rows + [[""]] + rest;
    if rows == [] {
      assert all[0] == [""] && all[1..] == rest && current + rows == current;
    } else {
      assert all[0] == rows[0] && all[1..] == rows[1..] + [[""]] + rest;
      CutRows(rows[1..], rest, current + [rows[0]]);
      assert current + [rows[0]] + rows[1..] == current + rows;
    }
  }

  lemma {:induction false} CutTables(sections: seq<Section>)
    requires VisibleSections(sections)
    ensures CutSections(Table(SectionRows(sections)), []) == Tables(sections)
    decreases |sections|
  {
    if sections != [] {
      var rest := sections[1..];
      assert VisibleSections(rest) by {
        assert forall i :: 0 <= i < |rest| ==> rest[i] == sections[i + 1];
      }
      CutTables(rest);
      assert Texts(BLANK) == [""];
      assert Table(SectionRows(sections)) == Table(sections[0]) + [[""]] + Table(SectionRows(rest));
      CutRows(Table(sections[0]), Table(SectionRows(rest)), []);
      assert [] + Table(sections[0]) == Table(sections[0]);
      assert Tables(sections) == [Table(sections[0])] + Tables(rest);
    }
  }

  lemma {:induction false} SectionRowsAreRows(sections: seq<Section>)
    requires VisibleSections(sections)
    ensures NoEmptyRow(SectionRows(sections)) && (sections != [] ==> SectionRows(sections) != [])
    decreases |sections|
  {
    if sections != [] {
      var rest := sections[1..];
      assert VisibleSections(rest) by {
        assert forall i :: 0 <= i < |rest| ==> rest[i] == sections[i + 1];
      }
      SectionRowsAreRows(rest);
      assert forall j :: 0 <= j < |sections[0]| ==> Visible(sections[0][j]);
    }
  }

  /** The sections come back from the written document, in order and row by row. */
  lemma SectionsRoundTrip(sections: seq<Section>)
    requires sections != [] && VisibleSections(sections)
    ensures var parsed := Parse(Document(SectionRows(sections)));
            parsed.Some? && CutSections(parsed.value, []) == Tables(sections)
  {
    SectionRowsAreRows(sections);
    RoundTrip(SectionRows(sections));
    CutTables(sections);
  }
}
