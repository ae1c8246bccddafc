/**
 * The plan's CSV dialect: the reader (tools/waves.ts) and the printer (tools/ledger.ts), and exactly what a
 * printed table reads back as (section 2 of RFC 4180, with carriage returns outside quotes dropped).
 */
module Csv {

  type Row = seq<string>

  // --- Reading ------------------------------------------------------------------------------------------------------

  // `raw` keeps carriage returns outside quotes; the program's reader drops them.
  function Scan(text: string, row: Row, field: string, quoted: bool, raw: bool): seq<Row>
    decreases |text|
  {
    if text == "" then (if field != "" || row != [] then [row + [field]] else [])
    else
      var ch, rest := text[0], text[1..];
      if quoted then
        if ch != '"' then Scan(rest, row, field + [ch], true, raw)
        else if rest != "" && rest[0] == '"' then Scan(rest[1..], row, field + "\"", true, raw)
        else Scan(rest, row, field, false, raw)
      else if ch == '"' then Scan(rest, row, field, true, raw)
      else if ch == ',' then Scan(rest, row + [field], "", false, raw)
      else if ch == '\n' then [row + [field]] + Scan(rest, [], "", false, raw)
      else if ch == '\r' && !raw then Scan(rest, row, field, false, raw)
      else Scan(rest, row, field + [ch], false, raw)
  }

  // A blank line is not a row.
  predicate Kept(row: Row) {
    |row| > 1 || (|row| == 1 && row[0] != "")
  }

  function Filter(rows: seq<Row>): seq<Row> {
    if rows == [] then []
    else if Kept(rows[0]) then [rows[0]] + Filter(rows[1..]) else Filter(rows[1..])
  }

  function ParseCsv(text: string): seq<Row> {
    Filter(Scan(text, [], "", false, false))
  }

  method FilterRows(rows: seq<Row>) returns (kept: seq<Row>)
    ensures kept == Filter(rows)
  {
    kept := [];
    for i := 0 to |rows|
      invariant kept + Filter(rows[i..]) == Filter(rows)
    {
      assert rows[i..][1..] == rows[i + 1..];
      if Kept(rows[i]) { kept := kept + [rows[i]]; }
    }
  }

  method ReadCsv(text: string) returns (rows: seq<Row>)
    ensures rows == ParseCsv(text)
  {
    rows := [];
    var row: Row, field, quoted := [], "", false;
    var i := 0;
    while i < |text|
      invariant 0 <= i <= |text|
      invariant rows + Scan(text[i..], row, field, quoted, false) == Scan(text, [], "", false, false)
    {
      var ch := text[i];
      assert text[i..][1..] == text[i + 1..];
      if quoted {
        if ch == '"' {
          if i + 1 < |text| && text[i + 1] == '"' {
            assert text[i..][2..] == text[i + 2..];
            field := field + "\"";
            i := i + 1;
          } else {
            quoted := false;
          }
        } else {
          field := field + [ch];
        }
      } else if ch == '"' {
        quoted := true;
      } else if ch == ',' {
        row := row + [field];
        field := "";
      } else if ch == '\n' {
        rows := rows + [row + [field]];
        row, field := [], "";
      } else if ch != '\r' {
        field := field + [ch];
      }
      i := i + 1;
    }
    assert text[i..] == "";
    if field != "" || |row| > 0 { rows := rows + [row + [field]]; }
    assert rows == Scan(text, [], "", false, false);
    rows := FilterRows(rows);
  }

  // --- Printing -----------------------------------------------------------------------------------------------------

  predicate NeedsQuotes(cell: string) {
    ',' in cell || '"' in cell || '\n' in cell
  }

  function Doubled(cell: string): string {
    if cell == "" then "" else (if cell[0] == '"' then "\"\"" else [cell[0]]) + Doubled(cell[1..])
  }

  function Quote(cell: string): string {
    if NeedsQuotes(cell) then "\"" + Doubled(cell) + "\"" else cell
  }

  function Line(row: Row): string {
    if row == [] then ""
    else if |row| == 1 then Quote(row[0])
    else Quote(row[0]) + "," + Line(row[1..])
  }

  function PrintRows(rows: seq<Row>): string {
    if rows == [] then "" else Line(rows[0]) + "\n" + PrintRows(rows[1..])
  }

  // --- What a printed table reads back as ---------------------------------------------------------------------------

  function Strip(cell: string): string {
    if cell == "" then "" else (if cell[0] == '\r' then "" else [cell[0]]) + Strip(cell[1..])
  }

  function Reread(cell: string, raw: bool): string {
    if NeedsQuotes(cell) || raw then cell else Strip(cell)
  }

  function RereadRow(row: Row, raw: bool): Row {
    if row == [] then [""] else seq(|row|, i requires 0 <= i < |row| => Reread(row[i], raw))
  }

  function RereadRows(rows: seq<Row>, raw: bool): seq<Row> {
    seq(|rows|, i requires 0 <= i < |rows| => RereadRow(rows[i], raw))
  }

  // A cell that reads back as itself.
  predicate Faithful(cell: string) {
    '\r' in cell ==> NeedsQuotes(cell)
  }

  lemma {:induction false} StripIsFaithful(cell: string)
    ensures Strip(cell) == cell <==> '\r' !in cell
    ensures |Strip(cell)| <= |cell| && '\r' !in Strip(cell)
  {
    if cell == "" {
    } else {
      StripIsFaithful(cell[1..]);
      assert cell == [cell[0]] + cell[1..];
    }
  }

  lemma FaithfulReread(cell: string)
    ensures Reread(cell, false) == cell <==> Faithful(cell)
  {
    StripIsFaithful(cell);
  }

  predicate EndsCell(tail: string) {
    tail == "" || tail[0] == ',' || tail[0] == '\n'
  }

  lemma {:induction false} ScanDoubled(cell: string, tail: string, row: Row, field: string, raw: bool)
    requires EndsCell(tail)
    ensures Scan(Doubled(cell) + "\"" + tail, row, field, true, raw) == Scan(tail, row, field + cell, false, raw)
  {
    var text := Doubled(cell) + "\"" + tail;
    if cell == "" {
      assert text == ['"'] + tail && text[1..] == tail;
      assert field + cell == field;
    } else {
      var rest := Doubled(cell[1..]) + "\"" + tail;
      assert field + cell == (field + [cell[0]]) + cell[1..];
      if cell[0] == '"' {
        assert text == ['"', '"'] + rest;
        assert text[1..][1..] == rest;
      } else {
        assert text == [cell[0]] + rest;
        assert text[1..] == rest;
      }
      ScanDoubled(cell[1..], tail, row, field + [cell[0]], raw);
    }
  }

  lemma {:induction false} ScanPlain(cell: string, tail: string, row: Row, field: string, raw: bool)
    requires !NeedsQuotes(cell)
    ensures Scan(cell + tail, row, field, false, raw) == Scan(tail, row, field + Reread(cell, raw), false, raw)
  {
    if cell == "" {
      assert cell + tail == tail && field + Reread(cell, raw) == field;
    } else {
      assert (cell + tail)[0] == cell[0] && (cell + tail)[1..] == cell[1..] + tail;
      var next := if cell[0] == '\r' && !raw then field else field + [cell[0]];
      PlainRest(cell, raw);
      ScanPlain(cell[1..], tail, row, next, raw);
      var rest := Reread(cell[1..], raw);
      hide Reread;
      if cell[0] == '\r' && !raw {
        assert [] + rest == rest;
      } else {
        Assoc(field, [cell[0]], rest);
      }
    }
  }

  lemma PlainRest(cell: string, raw: bool)
    requires cell != "" && !NeedsQuotes(cell)
    ensures !NeedsQuotes(cell[1..]) && cell[0] != '"' && cell[0] != ',' && cell[0] != '\n'
    ensures Reread(cell, raw) == (if cell[0] == '\r' && !raw then [] else [cell[0]]) + Reread(cell[1..], raw)
  {
    assert cell == [cell[0]] + cell[1..];
  }

  lemma ScanCell(cell: string, tail: string, row: Row, raw: bool)
    requires EndsCell(tail)
    ensures Scan(Quote(cell) + tail, row, "", false, raw) == Scan(tail, row, Reread(cell, raw), false, raw)
  {
    if NeedsQuotes(cell) {
      var text := Quote(cell) + tail;
      assert text[0] == '"' && text[1..] == Doubled(cell) + "\"" + tail;
      ScanDoubled(cell, tail, row, "", raw);
      assert "" + cell == cell;
    } else {
      ScanPlain(cell, tail, row, "", raw);
      assert "" + Reread(cell, raw) == Reread(cell, raw);
    }
  }

  lemma RereadSplit(cells: Row, raw: bool)
    requires |cells| > 1
    ensures RereadRow(cells, raw) == [Reread(cells[0], raw)] + RereadRow(cells[1..], raw)
  {
  }

  lemma Assoc(a: string, b: string, c: string)
    ensures a + b + c == a + (b + c)
  {
  }

  lemma LineSplit(cells: Row, tail: string)
    requires |cells| > 1
    ensures Line(cells) + "\n" + tail == Quote(cells[0]) + ("," + (Line(cells[1..]) + "\n" + tail))
  {
    hide Quote;
    var q, l := Quote(cells[0]), Line(cells[1..]);
    Assoc(q, ",", l);
    Assoc(q, "," + l, "\n");
    Assoc(q, "," + l + "\n", tail);
    Assoc(",", l, "\n");
    Assoc(",", l + "\n", tail);
  }

  lemma ScanSeparator(tail: string, row: Row, field: string, raw: bool)
    ensures Scan("," + tail, row, field, false, raw) == Scan(tail, row + [field], "", false, raw)
    ensures Scan("\n" + tail, row, field, false, raw) == [row + [field]] + Scan(tail, [], "", false, raw)
  {
    assert ("," + tail)[1..] == tail && ("\n" + tail)[1..] == tail;
  }

  lemma {:induction false} ScanLine(cells: Row, tail: string, row: Row, raw: bool)
    requires cells != []
    ensures Scan(Line(cells) + "\n" + tail, row, "", false, raw)
         == [row + RereadRow(cells, raw)] + Scan(tail, [], "", false, raw)
  {
    var first := Reread(cells[0], raw);
    if |cells| == 1 {
      assert Line(cells) == Quote(cells[0]) && RereadRow(cells, raw) == [first];
      hide Quote, Reread, Line, RereadRow, Scan;
      Assoc(Quote(cells[0]), "\n", tail);
      ScanCell(cells[0], "\n" + tail, row, raw);
      ScanSeparator(tail, row, first, raw);
    } else {
      hide Quote, Reread, Line, RereadRow, Scan;
      var after := Line(cells[1..]) + "\n" + tail;
      LineSplit(cells, tail);
      ScanCell(cells[0], "," + after, row, raw);
      ScanSeparator(after, row, first, raw);
      ScanLine(cells[1..], tail, row + [first], raw);
      RereadSplit(cells, raw);
      assert row + ([first] + RereadRow(cells[1..], raw)) == row + [first] + RereadRow(cells[1..], raw);
    }
  }

  lemma ScanPrintedRow(row: Row, tail: string, raw: bool)
    ensures Scan(Line(row) + "\n" + tail, [], "", false, raw) == [RereadRow(row, raw)] + Scan(tail, [], "", false, raw)
  {
    if row == [] {
      assert Line(row) + "\n" + tail == "\n" + tail && [] + [""] == [""];
      ScanSeparator(tail, [], "", raw);
    } else {
      ScanLine(row, tail, [], raw);
      assert [] + RereadRow(row, raw) == RereadRow(row, raw);
    }
  }

  lemma {:induction false} ScanPrinted(rows: seq<Row>, raw: bool)
    ensures Scan(PrintRows(rows), [], "", false, raw) == RereadRows(rows, raw)
  {
    if rows == [] {
    } else {
      ScanPrinted(rows[1..], raw);
      ScanPrintedRow(rows[0], PrintRows(rows[1..]), raw);
      hide Scan, RereadRow, Line;
      assert RereadRows(rows, raw) == [RereadRow(rows[0], raw)] + RereadRows(rows[1..], raw);
    }
  }

  /** A printed table reads back with the lone carriage returns of its cells gone, and then its blank rows. */
  lemma PrintedReadsBack(rows: seq<Row>)
    ensures ParseCsv(PrintRows(rows)) == Filter(RereadRows(rows, false))
  {
    ScanPrinted(rows, false);
  }

  lemma {:induction false} FilterKeeps(rows: seq<Row>)
    ensures |Filter(rows)| <= |rows|
    ensures |Filter(rows)| == |rows| <==> AllKept(rows)
    ensures |Filter(rows)| == |rows| ==> Filter(rows) == rows
    ensures AllKept(Filter(rows))
  {
    if rows == [] {
    } else {
      var rest := rows[1..];
      FilterKeeps(rest);
      assert rows == [rows[0]] + rest;
      KeptFirst(rows[0], rest);
      KeptFirst(rows[0], Filter(rest));
      hide Kept, AllKept;
    }
  }

  predicate AllKept(rows: seq<Row>) {
    forall i :: 0 <= i < |rows| ==> Kept(rows[i])
  }

  lemma KeptFirst(row: Row, rows: seq<Row>)
    ensures AllKept([row] + rows) <==> Kept(row) && AllKept(rows)
  {
    hide Kept;
    var all := [row] + rows;
    assert all[0] == row && forall i :: 0 <= i < |rows| ==> rows[i] == all[i + 1];
    assert forall i :: 1 <= i < |all| ==> all[i] == rows[i - 1];
  }

  predicate RowSurvives(row: Row) {
    Kept(row) && forall cell :: cell in row ==> Faithful(cell)
  }

  lemma FaithfulRow(row: Row)
    requires row != []
    ensures RereadRow(row, false) == row <==> forall k :: 0 <= k < |row| ==> Faithful(row[k])
  {
    var back := RereadRow(row, false);
    forall k | 0 <= k < |row| ensures back[k] == row[k] <==> Faithful(row[k]) { FaithfulReread(row[k]); }
    if back == row {
      forall k | 0 <= k < |row| ensures Faithful(row[k]) { assert back[k] == row[k]; }
    }
  }

  lemma SurvivesIff(row: Row)
    ensures RowSurvives(row) <==> Kept(row) && RereadRow(row, false) == row
  {
    if row != [] {
      FaithfulRow(row);
      assert (forall cell :: cell in row ==> Faithful(cell)) <==> (forall k :: 0 <= k < |row| ==> Faithful(row[k]));
    }
  }

  /**
   * The round trip: a table reads back as itself exactly when no row is blank and every cell that holds a carriage
   * return also holds a comma, a quote or a newline.
   */
  lemma RoundTrip(rows: seq<Row>)
    ensures ParseCsv(PrintRows(rows)) == rows <==> forall i :: 0 <= i < |rows| ==> RowSurvives(rows[i])
  {
    PrintedReadsBack(rows);
    var back := RereadRows(rows, false);
    FilterKeeps(back);
    forall i | 0 <= i < |rows|
      ensures RowSurvives(rows[i]) <==> Kept(rows[i]) && back[i] == rows[i]
    {
      SurvivesIff(rows[i]);
    }
    hide RowSurvives, Kept, Filter, RereadRow;
    if forall i :: 0 <= i < |rows| ==> RowSurvives(rows[i]) {
      assert back == rows;
      assert AllKept(rows);
    }
  }

  lemma FilterAll(rows: seq<Row>)
    requires AllKept(rows)
    ensures Filter(rows) == rows
  {
    FilterKeeps(rows);
  }

  /** Two tables without blank rows print alike only if they are the same. */
  lemma PrintIsInjective(a: seq<Row>, b: seq<Row>)
    requires AllKept(a)
    requires AllKept(b)
    requires PrintRows(a) == PrintRows(b)
    ensures a == b
  {
    ScanPrinted(a, true);
    ScanPrinted(b, true);
    RawRereads(a);
    RawRereads(b);
  }

  lemma RawRereads(rows: seq<Row>)
    requires AllKept(rows)
    ensures RereadRows(rows, true) == rows
  {
    forall i | 0 <= i < |rows| ensures RereadRow(rows[i], true) == rows[i] {
      assert Kept(rows[i]);
    }
  }
}
