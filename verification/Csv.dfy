/** The CSV dialect both ends share: RFC 4180 section 2 quoting, written by the seller and split by the loader. */
module Csv {
  import opened Canonical

  const NEWLINE := '\n' as int

  // ------------------------------------------------------------------ splitting a line

  /** What is still to be split, given the field so far and whether a quote is open. */
  function SplitFrom(line: Text, field: Text, inQuotes: bool): (r: seq<Text>)
    ensures r != []
    decreases |line|
  {
    if line == [] then [field]
    else if inQuotes then
      if line[0] == QUOTE then
        if |line| > 1 && line[1] == QUOTE then SplitFrom(line[2..], field + [QUOTE], true)
        else SplitFrom(line[1..], field, false)
      else SplitFrom(line[1..], field + [line[0]], true)
    else if line[0] == QUOTE then SplitFrom(line[1..], field, true)
    else if line[0] == COMMA then [field] + SplitFrom(line[1..], [], false)
    else SplitFrom(line[1..], field + [line[0]], false)
  }

  function Split(line: Text): seq<Text> { SplitFrom(line, [], false) }

  method SplitCsvLine(line: Text) returns (out: seq<Text>)
    ensures out == Split(line)
  {
    out := [];
    var field: Text := [];
    var inQuotes := false;
    var i := 0;
    while i < |line|
      invariant 0 <= i <= |line|
      invariant Split(line) == out + SplitFrom(line[i..], field, inQuotes)
    {
      var ch := line[i];
      ghost var rest := line[i..];
      assert rest[1..] == line[i + 1..];
      if inQuotes {
        if ch == QUOTE {
          if i + 1 < |line| && line[i + 1] == QUOTE {
            assert rest[2..] == line[i + 2..];
            field := field + [QUOTE];
            i := i + 1;
          } else {
            inQuotes := false;
          }
        } else {
          field := field + [ch];
        }
      } else if ch == QUOTE {
        inQuotes := true;
      } else if ch == COMMA {
        out := out + [field];
        field := [];
      } else {
        field := field + [ch];
      }
      i := i + 1;
    }
    assert line[i..] == [];
    out := out + [field];
  }

  // ------------------------------------------------------------------ writing a row

  /** A cell is written as it stands, or between quotes with every quote doubled. */
  datatype Cell = Plain(value: Text) | Quoted(value: Text)

  function Doubled(s: Text): Text {
    if s == [] then [] else (if s[0] == QUOTE then [QUOTE, QUOTE] else [s[0]]) + Doubled(s[1..])
  }

  function CellText(c: Cell): Text {
    match c
    case Plain(s) => s
    case Quoted(s) => [QUOTE] + (Doubled(s) + [QUOTE])
  }

  function RowText(cells: seq<Cell>): Text
    requires cells != []
  {
    if |cells| == 1 then CellText(cells[0]) else CellText(cells[0]) + ([COMMA] + RowText(cells[1..]))
  }

  function Values(cells: seq<Cell>): seq<Text> {
    seq(|cells|, i requires 0 <= i < |cells| => cells[i].value)
  }

  /** Free of the two characters the splitter treats specially. */
  ghost predicate Bare(s: Text) { forall i :: 0 <= i < |s| ==> s[i] != QUOTE && s[i] != COMMA }

  ghost predicate Writable(cells: seq<Cell>) {
    forall i :: 0 <= i < |cells| && cells[i].Plain? ==> Bare(cells[i].value)
  }

  lemma {:induction false} SplitsBare(s: Text, field: Text, rest: Text)
    requires Bare(s)
    ensures SplitFrom(s + rest, field, false) == SplitFrom(rest, field + s, false)
  {
    if s == [] {
      assert s + rest == rest && field + s == field;
    } else {
      assert (s + rest)[1..] == s[1..] + rest;
      SplitsBare(s[1..], field + [s[0]], rest);
      assert field + [s[0]] + s[1..] == field + s;
    }
  }

  lemma {:induction false} SplitsDoubled(s: Text, field: Text, rest: Text)
    requires rest == [] || rest[0] != QUOTE
    ensures SplitFrom(Doubled(s) + ([QUOTE] + rest), field, true) == SplitFrom(rest, field + s, false)
  {
    var tail := [QUOTE] + rest;
    if s == [] {
      assert Doubled(s) + tail == tail && field + s == field;
      assert tail[1..] == rest;
    } else {
      var text := Doubled(s) + tail;
      var next := Doubled(s[1..]) + tail;
      SplitsDoubled(s[1..], field + [s[0]], rest);
      assert field + [s[0]] + s[1..] == field + s;
      if s[0] == QUOTE {
        assert text == [QUOTE, QUOTE] + next;
        assert text[2..] == next;
      } else {
        assert text == [s[0]] + next;
        assert text[1..] == next;
      }
    }
  }

  lemma SplitsCell(c: Cell, rest: Text)
    requires c.Plain? ==> Bare(c.value)
    requires rest == [] || rest[0] == COMMA
    ensures SplitFrom(CellText(c) + rest, [], false) == SplitFrom(rest, c.value, false)
  {
    match c
    case Plain(s) =>
      SplitsBare(s, [], rest);
      assert [] + s == s;
    case Quoted(s) =>
      assert CellText(c) + rest == [QUOTE] + (Doubled(s) + ([QUOTE] + rest));
      assert (CellText(c) + rest)[1..] == Doubled(s) + ([QUOTE] + rest);
      SplitsDoubled(s, [], rest);
      assert [] + s == s;
  }

  // ------------------------------------------------------------------ when a row reads back

  /** What has been gathered of a field stays at its front. */
  lemma {:induction false} FieldGrows(line: Text, field: Text, inQuotes: bool)
    ensures field <= SplitFrom(line, field, inQuotes)[0]
    decreases |line|
  {
    if line != [] {
      if inQuotes {
        if line[0] == QUOTE {
          if |line| > 1 && line[1] == QUOTE { FieldGrows(line[2..], field + [QUOTE], true); }
          else { FieldGrows(line[1..], field, false); }
        } else {
          FieldGrows(line[1..], field + [line[0]], true);
        }
      } else if line[0] == QUOTE {
        FieldGrows(line[1..], field, true);
      } else if line[0] != COMMA {
        FieldGrows(line[1..], field + [line[0]], false);
      }
    }
  }

  /** The splitter owes the field a quote it has swallowed, and never pays it back. */
  lemma {:induction false} QuoteSwallowed(s: Text, rest: Text, field: Text, owed: Text)
    requires owed != [] && forall i :: 0 <= i < |owed| ==> owed[i] == QUOTE
    requires rest == [] || rest[0] == COMMA
    ensures SplitFrom(s + rest, field, true)[0] != field + owed + s
    decreases |s|
  {
    var line, target := s + rest, field + owed + s;
    assert target[|field|] == QUOTE;
    if s != [] && s[0] == QUOTE {
      assert line[1..] == s[1..] + rest;
      if |s| > 1 && s[1] == QUOTE {
        var owed' := owed[1..] + [QUOTE, QUOTE];
        QuoteSwallowed(s[2..], rest, field + [QUOTE], owed');
        assert line[2..] == s[2..] + rest;
        assert owed + s == [QUOTE] + owed' + s[2..];
        assert target == field + [QUOTE] + owed' + s[2..];
      } else if |line| > 1 && line[1] != COMMA {
        FieldGrows(line[2..], field + [line[1]], false);
        assert line[1..][1..] == line[2..];
      }
    } else if line != [] {
      FieldGrows(line[1..], field + [line[0]], true);
    }
  }

  lemma {:induction false} FirstSpecial(s: Text) returns (k: nat)
    requires !Bare(s)
    ensures k < |s| && (s[k] == QUOTE || s[k] == COMMA) && Bare(s[..k])
  {
    if s[0] == QUOTE || s[0] == COMMA {
      k := 0;
    } else {
      k := FirstSpecial(s[1..]);
      k := k + 1;
      assert forall i :: 1 <= i < k ==> s[i] == s[1..][..k - 1][i - 1];
    }
  }

  /** An unquoted cell that holds a quote or a comma is not the first field read. */
  lemma SpecialIsLost(s: Text, rest: Text)
    requires !Bare(s) && (rest == [] || rest[0] == COMMA)
    ensures Split(s + rest)[0] != s
  {
    var k := FirstSpecial(s);
    var p, tail := s[..k], s[k + 1..] + rest;
    assert s + rest == p + ([s[k]] + tail);
    SplitsBare(p, [], [s[k]] + tail);
    assert [] + p == p && ([s[k]] + tail)[1..] == tail;
    if s[k] == QUOTE {
      QuoteSwallowed(s[k + 1..], rest, p, [QUOTE]);
      assert s == p + [QUOTE] + s[k + 1..];
    }
  }

  /**
   Splitting a written row recovers its values exactly when no unquoted cell holds a quote or a comma; inside a
   quoted cell both survive.
   */
  lemma {:induction false} RowReadsBackIff(cells: seq<Cell>)
    requires cells != []
    ensures Split(RowText(cells)) == Values(cells) <==> Writable(cells)
  {
    var c := cells[0];
    var rest := if |cells| == 1 then [] else [COMMA] + RowText(cells[1..]);
    assert RowText(cells) == CellText(c) + rest;
    assert Values(cells) == [c.value] + Values(cells[1..]);
    if c.Plain? && !Bare(c.value) {
      SpecialIsLost(c.value, rest);
    } else {
      SplitsCell(c, rest);
      if |cells| > 1 {
        assert rest[1..] == RowText(cells[1..]);
        RowReadsBackIff(cells[1..]);
        assert cells == [c] + cells[1..];
        assert Split(RowText(cells))[1..] == Split(RowText(cells[1..])) && Values(cells)[1..] == Values(cells[1..]);
      }
    }
  }

  // ------------------------------------------------------------------ files of rows

  ghost predicate OneLine(s: Text) { forall i :: 0 <= i < |s| ==> s[i] != NEWLINE }

  /** Every line ends in a line feed, the last included: `rows.join("\n")` and one more. */
  function FileText(lines: seq<Text>): Text {
    if lines == [] then [] else lines[0] + ([NEWLINE] + FileText(lines[1..]))
  }

  function LinesFrom(text: Text, line: Text): seq<Text>
    decreases |text|
  {
    if text == [] then (if line == [] then [] else [line])
    else if text[0] == NEWLINE then [line] + LinesFrom(text[1..], [])
    else LinesFrom(text[1..], line + [text[0]])
  }

  function Lines(text: Text): seq<Text> { LinesFrom(text, []) }

  lemma {:induction false} ReadsLine(s: Text, line: Text, rest: Text)
    requires OneLine(s)
    ensures LinesFrom(s + rest, line) == LinesFrom(rest, line + s)
  {
    if s == [] {
      assert s + rest == rest && line + s == line;
    } else {
      assert (s + rest)[1..] == s[1..] + rest;
      ReadsLine(s[1..], line + [s[0]], rest);
      assert line + [s[0]] + s[1..] == line + s;
    }
  }

  lemma {:induction false} ReadsLines(lines: seq<Text>)
    requires forall i :: 0 <= i < |lines| ==> OneLine(lines[i])
    ensures Lines(FileText(lines)) == lines
  {
    if lines != [] {
      var rest := [NEWLINE] + FileText(lines[1..]);
      ReadsLine(lines[0], [], rest);
      ReadsLines(lines[1..]);
      assert [] + lines[0] == lines[0] && rest[1..] == FileText(lines[1..]);
      assert lines == [lines[0]] + lines[1..];
    }
  }

  function TextOf(rows: seq<seq<Cell>>): Text
    requires forall i :: 0 <= i < |rows| ==> rows[i] != []
  {
    FileText(seq(|rows|, i requires 0 <= i < |rows| => RowText(rows[i])))
  }

  /** Reading a file back: its lines, each split into fields. */
  function Read(text: Text): seq<seq<Text>> {
    var lines := Lines(text);
    seq(|lines|, i requires 0 <= i < |lines| => Split(lines[i]))
  }

  lemma {:induction false} DoubledOneLine(s: Text)
    ensures OneLine(Doubled(s)) <==> OneLine(s)
  {
    if s != [] {
      DoubledOneLine(s[1..]);
      Both((if s[0] == QUOTE then [QUOTE, QUOTE] else [s[0]]), Doubled(s[1..]));
      Both([s[0]], s[1..]);
      assert s == [s[0]] + s[1..];
    }
  }

  lemma Both(a: Text, b: Text)
    ensures OneLine(a + b) <==> OneLine(a) && OneLine(b)
  {
    if OneLine(a + b) {
      forall i | 0 <= i < |a| ensures a[i] != NEWLINE { assert (a + b)[i] == a[i]; }
      forall i | 0 <= i < |b| ensures b[i] != NEWLINE { assert (a + b)[|a| + i] == b[i]; }
    }
  }

  lemma CellOneLine(c: Cell)
    ensures OneLine(CellText(c)) <==> OneLine(c.value)
  {
    if c.Quoted? {
      DoubledOneLine(c.value);
      Both([QUOTE], Doubled(c.value) + [QUOTE]);
      Both(Doubled(c.value), [QUOTE]);
    }
  }

  ghost predicate Unbroken(cells: seq<Cell>) { forall i :: 0 <= i < |cells| ==> OneLine(cells[i].value) }

  lemma {:induction false} RowOneLine(cells: seq<Cell>)
    requires cells != []
    ensures OneLine(RowText(cells)) <==> Unbroken(cells)
  {
    CellOneLine(cells[0]);
    if |cells| > 1 {
      RowOneLine(cells[1..]);
      Both(CellText(cells[0]), [COMMA] + RowText(cells[1..]));
      Both([COMMA], RowText(cells[1..]));
      assert cells == [cells[0]] + cells[1..];
    }
  }

  /** A line break inside a line makes one line more. */
  lemma {:induction false} BrokenLine(s: Text, line: Text, rest: Text)
    ensures var n := |LinesFrom(s + ([NEWLINE] + rest), line)|;
      n >= |Lines(rest)| + 1 && (!OneLine(s) ==> n >= |Lines(rest)| + 2)
  {
    var text := s + ([NEWLINE] + rest);
    if s == [] {
      assert text[1..] == rest;
    } else {
      assert text[1..] == s[1..] + ([NEWLINE] + rest);
      BrokenLine(s[1..], if s[0] == NEWLINE then [] else line + [s[0]], rest);
      assert s == [s[0]] + s[1..];
    }
  }

  lemma {:induction false} BrokenLines(lines: seq<Text>)
    ensures |Lines(FileText(lines))| >= |lines|
    ensures |Lines(FileText(lines))| == |lines| ==> forall i :: 0 <= i < |lines| ==> OneLine(lines[i])
  {
    if lines != [] {
      BrokenLine(lines[0], [], FileText(lines[1..]));
      BrokenLines(lines[1..]);
      assert lines == [lines[0]] + lines[1..];
    }
  }

  ghost predicate Filable(rows: seq<seq<Cell>>) {
    forall i :: 0 <= i < |rows| ==> rows[i] != [] && Writable(rows[i]) && Unbroken(rows[i])
  }

  ghost predicate ReadsBack(rows: seq<seq<Cell>>)
    requires forall i :: 0 <= i < |rows| ==> rows[i] != []
  {
    && |Read(TextOf(rows))| == |rows|
    && forall i :: 0 <= i < |rows| ==> Read(TextOf(rows))[i] == Values(rows[i])
  }

  /**
   A written file reads back value for value exactly when no unquoted cell holds a quote or a comma and no cell a
   line break: the writer escapes neither.
   */
  lemma FileReadsBackIff(rows: seq<seq<Cell>>)
    requires forall i :: 0 <= i < |rows| ==> rows[i] != []
    ensures ReadsBack(rows) <==> Filable(rows)
  {
    var lines := seq(|rows|, i requires 0 <= i < |rows| => RowText(rows[i]));
    forall i | 0 <= i < |rows|
      ensures Split(lines[i]) == Values(rows[i]) <==> Writable(rows[i])
      ensures OneLine(lines[i]) <==> Unbroken(rows[i])
    {
      RowReadsBackIff(rows[i]);
      RowOneLine(rows[i]);
    }
    hide Split, Values, Writable, Unbroken, OneLine, RowText;
    BrokenLines(lines);
    if forall i :: 0 <= i < |lines| ==> OneLine(lines[i]) { ReadsLines(lines); }
  }
}
