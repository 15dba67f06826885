/** The report writer and the import parser of comma-separated values (section 2 of RFC 4180). */
module Csv {
  import opened Prelude

  // ---- Writing ---------------------------------------------------------------------------------

  predicate IsSpecial(c: char) {
    c == '"' || c == ',' || c == '\r' || c == '\n'
  }

  function Doubled(f: string): string {
    if |f| == 0 then "" else (if f[0] == '"' then "\"\"" else [f[0]]) + Doubled(f[1..])
  }

  /** Quotes a field that contains a quote, comma or line break, doubling its quotes. */
  function EscapeField(f: string): string {
    if exists i :: 0 <= i < |f| && IsSpecial(f[i]) then "\"" + Doubled(f) + "\"" else f
  }

  function Join(parts: seq<string>, separator: string): string {
    if |parts| == 0 then "" else if |parts| == 1 then parts[0] else parts[0] + separator + Join(parts[1..], separator)
  }

  function EscapeAll(row: seq<string>): seq<string> {
    seq(|row|, i requires 0 <= i < |row| => EscapeField(row[i]))
  }

  function RowText(row: seq<string>): string {
    Join(EscapeAll(row), ",")
  }

  function RowTexts(rows: seq<seq<string>>): seq<string> {
    seq(|rows|, i requires 0 <= i < |rows| => RowText(rows[i]))
  }

  function ToCsv(header: seq<string>, rows: seq<seq<string>>): string {
    Join(RowTexts([header] + rows), "\r\n") + "\r\n"
  }

  // ---- Parsing -----------------------------------------------------------------------------------

  datatype State = State(rows: seq<seq<string>>, row: seq<string>, field: string, inQuotes: bool)

  /** The parser's state after the rest of the text, one character (or a two-character pair) at a time. */
  function Consume(text: string, st: State): State
    decreases |text|
  {
    if |text| == 0 then st else
      var c := text[0];
      if st.inQuotes then
        if c != '"' then Consume(text[1..], st.(field := st.field + [c]))
        else if |text| > 1 && text[1] == '"' then Consume(text[2..], st.(field := st.field + "\""))
        else Consume(text[1..], st.(inQuotes := false))
      else if c == '"' then Consume(text[1..], st.(inQuotes := true))
      else if c == ',' then Consume(text[1..], st.(row := st.row + [st.field], field := ""))
      else if c == '\n' || c == '\r' then
        var rest := if c == '\r' && |text| > 1 && text[1] == '\n' then text[2..] else text[1..];
        Consume(rest, State(st.rows + [st.row + [st.field]], [], "", false))
      else Consume(text[1..], st.(field := st.field + [c]))
  }

  function Finish(st: State): seq<seq<string>> {
    if |st.field| > 0 || |st.row| > 0 then st.rows + [st.row + [st.field]] else st.rows
  }

  /** The characters String.prototype.trim removes. */
  predicate IsSpace(c: char) {
    var n := c as int;
    9 <= n <= 13 || n == 32 || n == 0xa0 || n == 0x1680 || 0x2000 <= n <= 0x200a || n == 0x2028 || n == 0x2029 || n == 0x202f || n == 0x205f || n == 0x3000 || n == 0xfeff
  }

  predicate HasText(cell: string) {
    exists i :: 0 <= i < |cell| && !IsSpace(cell[i])
  }

  predicate NotBlank(row: seq<string>) {
    exists i :: 0 <= i < |row| && HasText(row[i])
  }

  const START := State([], [], "", false)

  function ParseCsv(text: string): seq<seq<string>> {
    Filter(Finish(Consume(text, START)), NotBlank)
  }

  // ---- The parsing loop ----------------------------------------------------------------------------

  method Parse(text: string) returns (rows: seq<seq<string>>)
    ensures rows == ParseCsv(text)
  {
    rows := [];
    var row: seq<string>, field, inQuotes := [], "", false;
    var i := 0;
    while i < |text|
      invariant 0 <= i <= |text|
      invariant Consume(text[i..], State(rows, row, field, inQuotes)) == Consume(text, START)
    {
      var c := text[i];
      assert text[i..][1..] == text[i + 1..];
      assert i + 1 < |text| ==> text[i..][2..] == text[i + 2..] && text[i..][1] == text[i + 1];
      if inQuotes {
        if c == '"' {
          if i + 1 < |text| && text[i + 1] == '"' {
            field := field + "\"";
            i := i + 1;
          } else {
            inQuotes := false;
          }
        } else {
          field := field + [c];
        }
      } else if c == '"' {
        inQuotes := true;
      } else if c == ',' {
        row := row + [field];
        field := "";
      } else if c == '\n' || c == '\r' {
        if c == '\r' && i + 1 < |text| && text[i + 1] == '\n' {
          i := i + 1;
        }
        rows := rows + [row + [field]];
        row, field := [], "";
      } else {
        field := field + [c];
      }
      i := i + 1;
    }
    assert text[i..] == "";
    if |field| > 0 || |row| > 0 {
      rows := rows + [row + [field]];
    }
    rows := Filter(rows, NotBlank);
  }

  // ---- Reading back what was written -----------------------------------------------------------------

  lemma {:induction false} ConsumePlain(f: string, tail: string, st: State)
    requires forall i :: 0 <= i < |f| ==> !IsSpecial(f[i])
    requires !st.inQuotes
    ensures Consume(f + tail, st) == Consume(tail, st.(field := st.field + f))
    decreases |f|
  {
    if |f| == 0 {
      assert f + tail == tail && st.field + f == st.field;
    } else {
      assert (f + tail)[1..] == f[1..] + tail;
      assert !IsSpecial(f[0]);
      ConsumePlain(f[1..], tail, st.(field := st.field + [f[0]]));
      assert st.field + [f[0]] + f[1..] == st.field + f;
    }
  }

  lemma {:induction false} ConsumePair(rest: string, st: State)
    requires st.inQuotes
    ensures Consume("\"\"" + rest, st) == Consume(rest, st.(field := st.field + "\""))
  {
    assert ("\"\"" + rest)[2..] == rest;
  }

  lemma {:induction false} ConsumeInside(c: char, rest: string, st: State)
    requires st.inQuotes && c != '"'
    ensures Consume([c] + rest, st) == Consume(rest, st.(field := st.field + [c]))
  {
    assert ([c] + rest)[1..] == rest;
  }

  lemma {:induction false} ConsumeClose(tail: string, st: State)
    requires st.inQuotes && (|tail| == 0 || tail[0] != '"')
    ensures Consume("\"" + tail, st) == Consume(tail, st.(inQuotes := false))
  {
    assert ("\"" + tail)[1..] == tail;
  }

  lemma {:induction false} ConsumeQuoted(f: string, tail: string, st: State)
    requires st.inQuotes && (|tail| == 0 || tail[0] != '"')
    ensures Consume(Doubled(f) + ("\"" + tail), st) == Consume(tail, st.(field := st.field + f, inQuotes := false))
    decreases |f|
  {
    if |f| == 0 {
      assert Doubled(f) + ("\"" + tail) == "\"" + tail;
      assert st.field + f == st.field;
      ConsumeClose(tail, st);
    } else {
      ConsumeQuoted(f[1..], tail, st.(field := st.field + [f[0]]));
      assert st.field + [f[0]] + f[1..] == st.field + f;
      QuotedStep(f, tail, st);
    }
  }

  lemma {:induction false} QuotedStep(f: string, tail: string, st: State)
    requires |f| > 0 && st.inQuotes
    ensures Consume(Doubled(f) + ("\"" + tail), st) == Consume(Doubled(f[1..]) + ("\"" + tail), st.(field := st.field + [f[0]]))
  {
    var rest := Doubled(f[1..]) + ("\"" + tail);
    if f[0] == '"' {
      assert Doubled(f) + ("\"" + tail) == "\"\"" + rest;
      ConsumePair(rest, st);
    } else {
      assert Doubled(f) + ("\"" + tail) == [f[0]] + rest;
      ConsumeInside(f[0], rest, st);
    }
  }

  /** A written field is read back whole, up to the separator that follows it. */
  lemma {:induction false} ConsumeField(f: string, tail: string, st: State)
    requires !st.inQuotes && st.field == "" && (|tail| == 0 || tail[0] != '"')
    ensures Consume(EscapeField(f) + tail, st) == Consume(tail, st.(field := f))
  {
    if exists i :: 0 <= i < |f| && IsSpecial(f[i]) {
      var text := EscapeField(f) + tail;
      assert text == "\"" + (Doubled(f) + ("\"" + tail));
      assert text[1..] == Doubled(f) + ("\"" + tail);
      ConsumeQuoted(f, tail, st.(inQuotes := true));
    } else {
      ConsumePlain(f, tail, st);
    }
    assert "" + f == f;
  }

  lemma {:induction false} ConsumeRow(row: seq<string>, tail: string, st: State)
    requires |row| > 0 && !st.inQuotes && st.field == ""
    ensures Consume(RowText(row) + ("\r\n" + tail), st) == Consume(tail, State(st.rows + [st.row + row], [], "", false))
    decreases |row|
  {
    if |row| == 1 {
      assert EscapeAll(row)[0] == EscapeField(row[0]);
      ConsumeField(row[0], "\r\n" + tail, st);
      ConsumeBreak(tail, st.(field := row[0]));
      assert [row[0]] == row;
    } else {
      var rest := row[1..];
      assert EscapeAll(row)[1..] == EscapeAll(rest);
      var after := RowText(rest) + ("\r\n" + tail);
      assert RowText(row) + ("\r\n" + tail) == EscapeField(row[0]) + ("," + after);
      ConsumeField(row[0], "," + after, st);
      assert ("," + after)[1..] == after;
      ConsumeRow(rest, tail, st.(row := st.row + [row[0]], field := ""));
      assert st.row + [row[0]] + rest == st.row + row;
    }
  }

  lemma {:induction false} ConsumeBreak(tail: string, st: State)
    requires !st.inQuotes
    ensures Consume("\r\n" + tail, st) == Consume(tail, State(st.rows + [st.row + [st.field]], [], "", false))
  {
    assert ("\r\n" + tail)[2..] == tail;
  }

  /** A row without cells is written as an empty line, which reads back as one empty cell. */
  function ReadBack(row: seq<string>): seq<string> {
    if |row| == 0 then [""] else row
  }

  function AllReadBack(rows: seq<seq<string>>): seq<seq<string>> {
    seq(|rows|, i requires 0 <= i < |rows| => ReadBack(rows[i]))
  }

  /** The written text is its first row, a line break and the other rows' text. */
  lemma {:induction false} FirstRow(rows: seq<seq<string>>, tail: string)
    requires |rows| > 0
    requires tail == if |rows| == 1 then "" else Join(RowTexts(rows[1..]), "\r\n") + "\r\n"
    ensures Join(RowTexts(rows), "\r\n") + "\r\n" == RowText(rows[0]) + ("\r\n" + tail)
  {
    assert RowTexts(rows)[1..] == RowTexts(rows[1..]);
  }

  lemma {:induction false} ConsumeFirst(row: seq<string>, tail: string, st: State)
    requires !st.inQuotes && st.field == "" && st.row == []
    ensures Consume(RowText(row) + ("\r\n" + tail), st) == Consume(tail, State(st.rows + [ReadBack(row)], [], "", false))
  {
    if |row| == 0 {
      assert RowText(row) + ("\r\n" + tail) == "\r\n" + tail;
      ConsumeBreak(tail, st);
      assert st.row + [st.field] == [""];
    } else {
      ConsumeRow(row, tail, st);
      assert st.row + row == row;
    }
  }

  lemma {:induction false} ConsumeRows(rows: seq<seq<string>>, st: State)
    requires |rows| > 0 && !st.inQuotes && st.field == "" && st.row == []
    ensures Consume(Join(RowTexts(rows), "\r\n") + "\r\n", st) == State(st.rows + AllReadBack(rows), [], "", false)
    decreases |rows|
  {
    var tail := if |rows| == 1 then "" else Join(RowTexts(rows[1..]), "\r\n") + "\r\n";
    FirstRow(rows, tail);
    ConsumeFirst(rows[0], tail, st);
    var st' := State(st.rows + [ReadBack(rows[0])], [], "", false);
    if |rows| == 1 {
      assert AllReadBack(rows) == [ReadBack(rows[0])];
    } else {
      ConsumeRows(rows[1..], st');
      assert [ReadBack(rows[0])] + AllReadBack(rows[1..]) == AllReadBack(rows);
      assert st.rows + [ReadBack(rows[0])] + AllReadBack(rows[1..]) == st.rows + AllReadBack(rows);
    }
  }

  lemma {:induction false} BlankRowsDrop(rows: seq<seq<string>>)
    ensures Filter(AllReadBack(rows), NotBlank) == Filter(rows, NotBlank)
  {
    if |rows| > 0 {
      var front, last := rows[..|rows| - 1], rows[|rows| - 1];
      BlankRowsDrop(front);
      assert AllReadBack(rows)[..|rows| - 1] == AllReadBack(front);
      if |last| == 0 {
        assert !NotBlank(last) && !HasText([""][0]);
        assert !NotBlank([""]);
      }
    }
  }

  /** Parsing what the writer prints gives back the header and every row that is not wholly blank, cell for cell. */
  lemma {:induction false} RoundTrip(header: seq<string>, rows: seq<seq<string>>)
    ensures ParseCsv(ToCsv(header, rows)) == Filter([header] + rows, NotBlank)
  {
    var all := [header] + rows;
    ConsumeRows(all, START);
    BlankRowsDrop(all);
    assert [] + AllReadBack(all) == AllReadBack(all);
  }

  // ---- Other line breaks ---------------------------------------------------------------------------

  predicate IsBreak(b: string) {
    b == "\n" || b == "\r" || b == "\r\n"
  }

  /** Rows as text, each with its own line break behind it; the last may have none. */
  function TextOf(rows: seq<seq<string>>, breaks: seq<string>): string
    requires |breaks| == |rows|
  {
    if |rows| == 0 then "" else RowText(rows[0]) + (breaks[0] + TextOf(rows[1..], breaks[1..]))
  }

  /** Every row is on its own line: a break behind each but possibly the last, and no row without text. */
  ghost predicate OwnLines(rows: seq<seq<string>>, breaks: seq<string>) {
    && |breaks| == |rows|
    && (forall i :: 0 <= i < |rows| ==> |rows[i]| > 0 && RowText(rows[i]) != "")
    && (forall i :: 0 <= i < |rows| ==> IsBreak(breaks[i]) || (breaks[i] == "" && i == |rows| - 1))
  }

  /** Any of the three breaks ends a row, unless a lone CR stands before an LF. */
  lemma {:induction false} ConsumeAnyBreak(b: string, tail: string, st: State)
    requires !st.inQuotes && IsBreak(b) && (b == "\r" ==> |tail| == 0 || tail[0] != '\n')
    ensures Consume(b + tail, st) == Consume(tail, State(st.rows + [st.row + [st.field]], [], "", false))
  {
    if b == "\r\n" {
      ConsumeBreak(tail, st);
    } else {
      assert (b + tail)[1..] == tail;
      assert |tail| > 0 ==> (b + tail)[1] == tail[0];
    }
  }

  /** A written row is read up to its last cell, which stays open. */
  lemma {:induction false} ConsumeCells(row: seq<string>, tail: string, st: State)
    requires |row| > 0 && !st.inQuotes && st.field == "" && (|tail| == 0 || tail[0] != '"')
    ensures Consume(RowText(row) + tail, st) == Consume(tail, st.(row := st.row + row[..|row| - 1], field := row[|row| - 1]))
    decreases |row|
  {
    if |row| == 1 {
      assert EscapeAll(row)[0] == EscapeField(row[0]);
      ConsumeField(row[0], tail, st);
      assert st.row + row[..0] == st.row;
    } else {
      var rest := row[1..];
      assert EscapeAll(row)[1..] == EscapeAll(rest);
      var after := RowText(rest) + tail;
      assert RowText(row) + tail == EscapeField(row[0]) + ("," + after);
      ConsumeField(row[0], "," + after, st);
      assert ("," + after)[1..] == after;
      ConsumeCells(rest, tail, st.(row := st.row + [row[0]], field := ""));
      assert st.row + [row[0]] + rest[..|rest| - 1] == st.row + row[..|row| - 1];
    }
  }

  lemma {:induction false} RowStart(row: seq<string>)
    requires |row| > 0 && RowText(row) != ""
    ensures RowText(row)[0] != '\n'
  {
    var f := row[0];
    assert EscapeAll(row)[0] == EscapeField(f);
    if |f| > 0 && f[0] == '\n' {
      assert IsSpecial(f[0]);
      assert EscapeField(f)[0] == '"';
    }
  }

  lemma {:induction false} ConsumeLines(rows: seq<seq<string>>, breaks: seq<string>, st: State)
    requires OwnLines(rows, breaks) && !st.inQuotes && st.field == "" && st.row == []
    ensures Finish(Consume(TextOf(rows, breaks), st)) == st.rows + rows
    decreases |rows|
  {
    if |rows| > 0 {
      var row, b := rows[0], breaks[0];
      var rest := TextOf(rows[1..], breaks[1..]);
      assert forall i :: 0 <= i < |rows[1..]| ==> rows[1..][i] == rows[i + 1] && breaks[1..][i] == breaks[i + 1];
      if b == "" {
        assert rest == "" && rows == [row];
        ConsumeLast(row, st);
        assert RowText(row) + (b + rest) == RowText(row);
      } else {
        if |rows| > 1 {
          RowStart(rows[1]);
          assert rest[0] == RowText(rows[1])[0];
        }
        ConsumeLine(row, b, rest, st);
        ConsumeLines(rows[1..], breaks[1..], State(st.rows + [row], [], "", false));
        assert st.rows + [row] + rows[1..] == st.rows + rows;
      }
    }
  }

  lemma {:induction false} ConsumeLine(row: seq<string>, b: string, rest: string, st: State)
    requires |row| > 0 && !st.inQuotes && st.field == "" && st.row == []
    requires IsBreak(b) && (b == "\r" ==> |rest| == 0 || rest[0] != '\n')
    ensures Consume(RowText(row) + (b + rest), st) == Consume(rest, State(st.rows + [row], [], "", false))
  {
    var mid := st.(row := st.row + row[..|row| - 1], field := row[|row| - 1]);
    ConsumeCells(row, b + rest, st);
    assert mid.row + [mid.field] == row;
    ConsumeAnyBreak(b, rest, mid);
  }

  lemma {:induction false} ConsumeLast(row: seq<string>, st: State)
    requires |row| > 0 && RowText(row) != "" && !st.inQuotes && st.field == "" && st.row == []
    ensures Finish(Consume(RowText(row), st)) == st.rows + [row]
  {
    assert RowText(row) + "" == RowText(row);
    ConsumeCells(row, "", st);
    assert st.row + row[..|row| - 1] + [row[|row| - 1]] == row;
    LastCellHasText(row);
  }

  /** A row with text has an open cell or cells before it when the text ends. */
  lemma {:induction false} LastCellHasText(row: seq<string>)
    requires |row| > 0 && RowText(row) != ""
    ensures |row| > 1 || row[0] != ""
  {
    assert |row| == 1 ==> EscapeAll(row) == [EscapeField(row[0])];
  }

  /** LF, CR and CRLF all end a row, mixed as they come, and a last row without a break is kept. */
  lemma {:induction false} AnyBreakEndsARow(rows: seq<seq<string>>, breaks: seq<string>)
    requires OwnLines(rows, breaks)
    ensures ParseCsv(TextOf(rows, breaks)) == Filter(rows, NotBlank)
  {
    ConsumeLines(rows, breaks, START);
    assert [] + rows == rows;
  }

  /** A row with a printable character anywhere is kept, and one of empty cells and blanks only is dropped. */
  lemma {:induction false} BlankRowsOnly(row: seq<string>)
    ensures (exists i, j :: 0 <= i < |row| && 0 <= j < |row[i]| && 33 <= row[i][j] as int <= 126) ==> NotBlank(row)
    ensures (forall i, j :: 0 <= i < |row| && 0 <= j < |row[i]| ==> row[i][j] == ' ' || row[i][j] == '\t' || row[i][j] == '\r' || row[i][j] == '\n') ==> !NotBlank(row)
  {
    if i, j :| 0 <= i < |row| && 0 <= j < |row[i]| && 33 <= row[i][j] as int <= 126 {
      assert HasText(row[i]);
    }
  }
}
