/**
 * What the reconciled plan reads back as, for any header: the header is printed unquoted (tools/ledger.ts), so one
 * with a separator or a quote in it never reads back.
 */
module LedgerReadsBack {
  import opened Csv
  import opened Ledger

  // --- Text is neither lost nor made, but for carriage returns, blank rows and a quote left open ---------------------

  // The characters that are not quotes.
  function Ink(text: string): nat {
    if text == "" then 0 else (if text[0] == '"' then 0 else 1) + Ink(text[1..])
  }

  // Those of a row's cells, and the separator after each.
  function RowInk(row: Row): nat {
    if row == [] then 0 else Ink(row[0]) + 1 + RowInk(row[1..])
  }

  function RowsInk(rows: seq<Row>): nat {
    if rows == [] then 0 else RowInk(rows[0]) + RowsInk(rows[1..])
  }

  // Whether the scan ends inside quotes.
  predicate Open(text: string, quoted: bool) {
    if text == "" then quoted else Open(text[1..], if text[0] == '"' then !quoted else quoted)
  }

  lemma {:induction false} InkOfBoth(a: string, b: string)
    ensures Ink(a + b) == Ink(a) + Ink(b)
  {
    if a == "" {
      assert a + b == b;
    } else {
      assert (a + b)[1..] == a[1..] + b;
      InkOfBoth(a[1..], b);
    }
  }

  lemma {:induction false} RowInkSnoc(row: Row, cell: string)
    ensures RowInk(row + [cell]) == RowInk(row) + Ink(cell) + 1
  {
    if row == [] {
      assert row + [cell] == [cell];
    } else {
      assert (row + [cell])[1..] == row[1..] + [cell];
      RowInkSnoc(row[1..], cell);
    }
  }

  predicate EndsLine(text: string) {
    text != "" && text[|text| - 1] == '\n'
  }

  lemma {:induction false} ScanInk(text: string, row: Row, field: string, quoted: bool)
    requires !Open(text, quoted)
    requires EndsLine(text) || (text == "" && row == [] && field == "")
    ensures RowsInk(Scan(text, row, field, quoted, false)) <= Ink(text) + RowInk(row) + Ink(field)
    decreases |text|
  {
    if text == "" {
    } else {
      var ch, rest := text[0], text[1..];
      assert rest != "" ==> rest[|rest| - 1] == text[|text| - 1];
      InkOfBoth(field, [ch]);
      assert Ink([ch]) == if ch == '"' then 0 else 1;
      if quoted && ch == '"' && rest != "" && rest[0] == '"' {
        ScanInk(rest[1..], row, field + "\"", true);
      } else if quoted && ch == '"' {
        ScanInk(rest, row, field, false);
      } else if quoted {
        ScanInk(rest, row, field + [ch], true);
      } else if ch == '"' {
        ScanInk(rest, row, field, true);
      } else if ch == ',' {
        RowInkSnoc(row, field);
        ScanInk(rest, row + [field], "", false);
      } else if ch == '\n' {
        RowInkSnoc(row, field);
        ScanInk(rest, [], "", false);
        var more := Scan(rest, [], "", false, false);
        assert ([row + [field]] + more)[1..] == more;
      } else if ch == '\r' {
        ScanInk(rest, row, field, false);
      } else {
        ScanInk(rest, row, field + [ch], false);
      }
    }
  }

  lemma {:induction false} ScannedRows(text: string, row: Row, field: string, quoted: bool, raw: bool)
    ensures forall i :: 0 <= i < |Scan(text, row, field, quoted, raw)| ==> Scan(text, row, field, quoted, raw)[i] != []
    decreases |text|
  {
    if text == "" {
    } else {
      var ch, rest := text[0], text[1..];
      if quoted && ch == '"' && rest != "" && rest[0] == '"' {
        ScannedRows(rest[1..], row, field + "\"", true, raw);
      } else if quoted {
        if ch == '"' {
          ScannedRows(rest, row, field, false, raw);
        } else {
          ScannedRows(rest, row, field + [ch], true, raw);
        }
      } else if ch == '"' {
        ScannedRows(rest, row, field, true, raw);
      } else if ch == ',' {
        ScannedRows(rest, row + [field], "", false, raw);
      } else if ch == '\n' {
        ScannedRows(rest, [], "", false, raw);
      } else {
        ScannedRows(rest, row, if ch == '\r' && !raw then field else field + [ch], false, raw);
      }
    }
  }

  lemma {:induction false} FilterInk(rows: seq<Row>)
    requires forall i :: 0 <= i < |rows| ==> rows[i] != []
    ensures RowsInk(Filter(rows)) <= RowsInk(rows)
    ensures RowsInk(Filter(rows)) == RowsInk(rows) ==> Filter(rows) == rows
  {
    if rows == [] {
    } else {
      FilterInk(rows[1..]);
      assert RowInk(rows[0]) > 0;
    }
  }

  lemma {:induction false} DoubledInk(cell: string)
    ensures Ink(Doubled(cell)) == Ink(cell)
  {
    if cell == "" {
    } else {
      DoubledInk(cell[1..]);
      InkOfBoth(if cell[0] == '"' then "\"\"" else [cell[0]], Doubled(cell[1..]));
    }
  }

  lemma QuoteInk(cell: string)
    ensures Ink(Quote(cell)) == Ink(cell)
  {
    DoubledInk(cell);
    InkOfBoth("\"", Doubled(cell));
    InkOfBoth("\"" + Doubled(cell), "\"");
  }

  lemma {:induction false} LineInk(row: Row)
    requires row != []
    ensures Ink(Line(row)) + 1 == RowInk(row) && Ink(Raw(row)) + 1 == RowInk(row)
  {
    QuoteInk(row[0]);
    if |row| == 1 {
    } else {
      LineInk(row[1..]);
      InkOfBoth(Quote(row[0]), ",");
      InkOfBoth(Quote(row[0]) + ",", Line(row[1..]));
      InkOfBoth(row[0], ",");
      InkOfBoth(row[0] + ",", Raw(row[1..]));
    }
  }

  lemma {:induction false} PrintInk(rows: seq<Row>)
    requires forall i :: 0 <= i < |rows| ==> rows[i] != []
    ensures Ink(PrintRows(rows)) == RowsInk(rows)
  {
    if rows == [] {
    } else {
      LineInk(rows[0]);
      PrintInk(rows[1..]);
      InkOfBoth(Line(rows[0]), "\n");
      InkOfBoth(Line(rows[0]) + "\n", PrintRows(rows[1..]));
    }
  }

  // --- A header that reads back is plain ----------------------------------------------------------------------------

  // The first row scanned begins with the cells there are, and its next cell with the field there is.
  lemma {:induction false} FirstRowExtends(text: string, row: Row, field: string, quoted: bool)
    ensures var s := Scan(text, row, field, quoted, false);
      && (row != [] || field != "" ==> s != [])
      && (s != [] ==> |s[0]| > |row| && row <= s[0] && field <= s[0][|row|])
    decreases |text|
  {
    if text == "" {
    } else {
      var ch, rest := text[0], text[1..];
      if quoted && ch == '"' && rest != "" && rest[0] == '"' {
        FirstRowExtends(rest[1..], row, field + "\"", true);
      } else if quoted {
        if ch == '"' {
          FirstRowExtends(rest, row, field, false);
        } else {
          FirstRowExtends(rest, row, field + [ch], true);
        }
      } else if ch == '"' {
        FirstRowExtends(rest, row, field, true);
      } else if ch == ',' {
        FirstRowExtends(rest, row + [field], "", false);
      } else if ch == '\n' {
      } else {
        FirstRowExtends(rest, row, if ch == '\r' then field else field + [ch], false);
      }
    }
  }

  predicate QuoteOrReturn(ch: char) {
    ch == '"' || ch == '\r'
  }

  // `more` of the cell is not scanned yet; what was and is not in `field`, is quotes and carriage returns.
  predicate Behind(more: string, field: string, cell: string) {
    && |field| + |more| < |cell| && field <= cell && cell[|cell| - |more|..] == more
    && forall i :: |field| <= i < |cell| - |more| ==> QuoteOrReturn(cell[i])
  }

  lemma BehindMoves(more: string, field: string, cell: string, used: nat, made: string)
    requires Behind(more, field, cell) && 1 <= used <= |more| && |made| < |cell| - |field| && |made| <= used
    requires field + made <= cell && forall i :: 0 <= i < used ==> QuoteOrReturn(more[i])
    ensures Behind(more[used..], field + made, cell)
  {
    var k := |cell| - |more|;
    assert cell[k..][used..] == cell[k + used..];
    assert forall i :: k <= i < k + used ==> cell[i] == cell[k..][i - k];
  }

  // The scan of such a cell, where it may still go on: what it goes on with.
  lemma CatchUpStep(more: string, tail: string, row: Row, field: string, quoted: bool, cell: string)
      returns (used: nat, made: string, inside: bool)
    requires EndsCell(tail) && tail != "" && Behind(more, field, cell)
    ensures used <= |more| && (used > 0 ==> Behind(more[used..], field + made, cell))
    ensures var s := Scan(more + tail, row, field, quoted, false);
      if used == 0 then s != [] ==> |s[0]| > |row| && s[0][|row|] != cell
      else s == Scan(more[used..] + tail, row, field + made, inside, false)
  {
    var text := more + tail;
    var ch, rest := text[0], text[1..];
    used, made, inside := 0, "", quoted;
    assert QuoteOrReturn(cell[|field|]);
    if quoted && ch == '"' && rest[0] == '"' {
      used, made := 2, "\"";
      assert rest[1..] == more[2..] + tail;
    } else if ch == '"' || (!quoted && ch == '\r') {
      used, inside := 1, if ch == '"' then !quoted else false;
      assert rest == more[1..] + tail && field + "" == field;
    } else if ch == ',' && !quoted {
      FirstRowExtends(rest, row + [field], "", false);
    } else if quoted || ch != '\n' {
      if more != "" && ch == cell[|field|] {
        used, made := 1, [ch];
        assert rest == more[1..] + tail;
      } else {
        FirstRowExtends(rest, row, field + [ch], quoted);
      }
    }
    if used > 0 {
      if field + made <= cell {
        BehindMoves(more, field, cell, used, made);
      } else {
        FirstRowExtends(more[used..] + tail, row, field + made, inside);
        used := 0;
      }
    }
  }

  // Once the scan has left out a quote or a carriage return of a cell printed as it is, it never catches up.
  lemma {:induction false} NeverCatchesUp(more: string, tail: string, row: Row, field: string, quoted: bool,
                                          cell: string)
    requires EndsCell(tail) && tail != "" && Behind(more, field, cell)
    ensures var s := Scan(more + tail, row, field, quoted, false); s != [] ==> |s[0]| > |row| && s[0][|row|] != cell
    decreases |more|
  {
    var used, made, inside := CatchUpStep(more, tail, row, field, quoted, cell);
    if used == 0 {
    } else {
      NeverCatchesUp(more[used..], tail, row, field + made, inside, cell);
    }
  }

  // A cell that reads back from its unquoted text is plain.
  lemma {:induction false} UnquotedCell(more: string, tail: string, row: Row, field: string)
    requires EndsCell(tail) && tail != ""
    requires var s := Scan(more + tail, row, field, false, false);
      s != [] && |s[0]| > |row| && s[0][|row|] == field + more
    ensures !NeedsQuotes(more) && '\r' !in more
  {
    if more == "" {
    } else {
      var ch, rest := more[0], more[1..];
      assert (more + tail)[0] == ch && (more + tail)[1..] == rest + tail;
      assert more == [ch] + rest;
      assert field + more == (field + [ch]) + rest;
      if ch == ',' {
        FirstRowExtends(rest + tail, row + [field], "", false);
        assert false;
      } else if ch == '\n' {
        assert false;
      } else if QuoteOrReturn(ch) {
        assert (field + more)[|field| + 1..] == rest;
        NeverCatchesUp(rest, tail, row, field, ch == '"', field + more);
        assert false;
      } else {
        UnquotedCell(rest, tail, row, field + [ch]);
      }
    }
  }

  predicate PlainCells(row: Row) {
    forall cell :: cell in row ==> !NeedsQuotes(cell) && '\r' !in cell
  }

  lemma {:induction false} UnquotedRow(cells: Row, tail: string, row: Row)
    requires cells != []
    requires var s := Scan(Raw(cells) + "\n" + tail, row, "", false, false); s != [] && s[0] == row + cells
    ensures PlainCells(cells)
  {
    var cell := cells[0];
    var after := if |cells| == 1 then "\n" + tail else "," + (Raw(cells[1..]) + "\n" + tail);
    assert Raw(cells) + "\n" + tail == cell + after;
    assert "" + cell == cell;
    assert (row + cells)[|row|] == cell;
    UnquotedCell(cell, after, row, "");
    if |cells| == 1 {
      assert forall c :: c in cells ==> c == cell;
    } else {
      ScanPlain(cell, after, row, "", false);
      FaithfulReread(cell);
      assert after[1..] == Raw(cells[1..]) + "\n" + tail;
      assert row + cells == row + [cell] + cells[1..];
      UnquotedRow(cells[1..], tail, row + [cell]);
      assert forall c :: c in cells ==> c == cell || c in cells[1..];
    }
  }

  // --- A plan that reads back leaves no quote open -------------------------------------------------------------------

  function Last(rows: seq<Row>): Row
    requires rows != []
  {
    rows[|rows| - 1]
  }

  predicate EndsIn(row: Row, end: string) {
    row != [] && |row[|row| - 1]| >= |end| && row[|row| - 1][|row[|row| - 1]| - |end|..] == end
  }

  predicate Newlines(text: string) {
    forall i :: 0 <= i < |text| ==> text[i] == '\n'
  }

  lemma {:induction false} OpenOver(a: string, b: string, quoted: bool)
    ensures Open(a + b, quoted) == Open(b, Open(a, quoted))
  {
    if a == "" {
      assert a + b == b;
    } else {
      assert (a + b)[1..] == a[1..] + b;
      OpenOver(a[1..], b, if a[0] == '"' then !quoted else quoted);
    }
  }

  lemma {:induction false} NewlinesInQuotes(end: string, row: Row, field: string)
    requires Newlines(end)
    ensures Open(end, true) && !Open(end, false)
    ensures field + end != "" || row != [] ==> Scan(end, row, field, true, false) == [row + [field + end]]
  {
    if end == "" {
      assert field + end == field;
    } else {
      NewlinesInQuotes(end[1..], row, field + [end[0]]);
      assert field + [end[0]] + end[1..] == field + end;
    }
  }

  // A text that leaves a quote open has its last newlines in the last cell.
  lemma {:induction false} OpenTakesTheEnd(text: string, end: string, row: Row, field: string, quoted: bool)
    requires end != "" && Newlines(end)
    requires Open(text + end, quoted)
    ensures var s := Scan(text + end, row, field, quoted, false); s != [] && EndsIn(Last(s), end)
    decreases |text|
  {
    NewlinesInQuotes(end, row, field);
    if text == "" {
      assert text + end == end;
    } else {
      var ch, rest := text[0], text[1..];
      assert (text + end)[0] == ch && (text + end)[1..] == rest + end;
      if quoted && ch == '"' && rest != "" && rest[0] == '"' {
        assert (rest + end)[1..] == rest[1..] + end;
        OpenTakesTheEnd(rest[1..], end, row, field + "\"", true);
      } else if quoted {
        if ch == '"' { OpenTakesTheEnd(rest, end, row, field, false); }
        else { OpenTakesTheEnd(rest, end, row, field + [ch], true); }
      } else if ch == '"' {
        OpenTakesTheEnd(rest, end, row, field, true);
      } else if ch == ',' {
        OpenTakesTheEnd(rest, end, row + [field], "", false);
      } else if ch == '\n' {
        OpenTakesTheEnd(rest, end, [], "", false);
      } else {
        OpenTakesTheEnd(rest, end, row, if ch == '\r' then field else field + [ch], false);
      }
    }
  }

  const NEWLINE_ROW: Row := ["\n"]

  const QUOTED_NEWLINE: string := "\"\n"

  lemma ScanQuotedNewline(quoted: bool)
    ensures Scan(QUOTED_NEWLINE, [], "", false, false) == [NEWLINE_ROW]
    ensures Open(QUOTED_NEWLINE, quoted) == !quoted
  {
    assert QUOTED_NEWLINE[1..] == "\n" && "\n"[1..] == "";
    assert "" + "\n" == "\n" && [] + ["\n"] == NEWLINE_ROW;
    assert Scan("\n", [], "", true, false) == [NEWLINE_ROW];
  }

  // A quote that opens after a newline outside quotes begins a row of its own.
  lemma {:induction false} OpenAfterNewline(text: string, row: Row, field: string, quoted: bool)
    requires !Open(text, quoted)
    ensures var s := Scan(text + ("\n" + QUOTED_NEWLINE), row, field, quoted, false); s != [] && Last(s) == NEWLINE_ROW
    decreases |text|
  {
    var end := "\n" + QUOTED_NEWLINE;
    if text == "" {
      assert text + end == end && end[1..] == QUOTED_NEWLINE;
      ScanQuotedNewline(false);
    } else {
      var ch, rest := text[0], text[1..];
      assert (text + end)[0] == ch && (text + end)[1..] == rest + end;
      if quoted && ch == '"' && rest != "" && rest[0] == '"' {
        assert (rest + end)[1..] == rest[1..] + end;
        OpenAfterNewline(rest[1..], row, field + "\"", true);
      } else if quoted {
        if ch == '"' {
          OpenAfterNewline(rest, row, field, false);
        } else {
          OpenAfterNewline(rest, row, field + [ch], true);
        }
      } else if ch == '"' {
        OpenAfterNewline(rest, row, field, true);
      } else if ch == ',' {
        OpenAfterNewline(rest, row + [field], "", false);
      } else if ch == '\n' {
        OpenAfterNewline(rest, [], "", false);
      } else {
        OpenAfterNewline(rest, row, if ch == '\r' then field else field + [ch], false);
      }
    }
  }

  // A row of a newline, after an open quote, closes it and opens another.
  lemma {:induction false} NewlineRowCloses(text: string, row: Row, field: string, quoted: bool)
    requires Open(text, quoted) && (if text == "" then field != "" else EndsLine(text))
    ensures Scan(text + ("\"\n" + QUOTED_NEWLINE), row, field, quoted, false)
        == Scan(text, row, field, quoted, false) + [NEWLINE_ROW]
    decreases |text|
  {
    var end := "\"\n" + QUOTED_NEWLINE;
    if text == "" {
      assert text + end == end && end[1..] == "\n" + QUOTED_NEWLINE && end[1..][1..] == QUOTED_NEWLINE;
      ScanQuotedNewline(false);
    } else {
      var ch, rest := text[0], text[1..];
      assert (text + end)[0] == ch && (text + end)[1..] == rest + end;
      assert rest != "" ==> rest[|rest| - 1] == '\n';
      if quoted && ch == '"' && rest[0] == '"' {
        assert (rest + end)[1..] == rest[1..] + end;
        NewlineRowCloses(rest[1..], row, field + "\"", true);
      } else if quoted {
        if ch == '"' {
          NewlineRowCloses(rest, row, field, false);
        } else {
          NewlineRowCloses(rest, row, field + [ch], true);
        }
      } else if ch == '"' {
        NewlineRowCloses(rest, row, field, true);
      } else if ch == ',' {
        NewlineRowCloses(rest, row + [field], "", false);
      } else if ch == '\n' {
        NewlineRowCloses(rest, [], "", false);
      } else {
        NewlineRowCloses(rest, row, if ch == '\r' then field else field + [ch], false);
      }
    }
  }

  lemma {:induction false} FilterSnoc(rows: seq<Row>, row: Row)
    requires Kept(row)
    ensures Filter(rows + [row]) == Filter(rows) + [row]
  {
    if rows == [] {
      assert rows + [row] == [row];
    } else {
      FilterSnoc(rows[1..], row);
      assert (rows + [row])[1..] == rows[1..] + [row];
    }
  }

  lemma LastIsKept(rows: seq<Row>)
    requires rows != [] && Kept(Last(rows))
    ensures Filter(rows) != [] && Last(Filter(rows)) == Last(rows)
  {
    assert rows == rows[..|rows| - 1] + [Last(rows)];
    FilterSnoc(rows[..|rows| - 1], Last(rows));
  }

  // The last cell of a printed line, and what comes before it.
  lemma {:induction false} LineEnds(row: Row) returns (before: string)
    requires row != []
    ensures Line(row) == before + Quote(row[|row| - 1])
  {
    if |row| == 1 {
      before := "";
    } else {
      var more := LineEnds(row[1..]);
      hide Quote;
      before := Quote(row[0]) + "," + more;
      assert row[1..][|row| - 2] == row[|row| - 1];
      Assoc(Quote(row[0]) + ",", more, Quote(row[|row| - 1]));
    }
  }

  lemma {:induction false} RawEnds(row: Row) returns (before: string)
    requires row != []
    ensures Raw(row) == before + row[|row| - 1]
  {
    if |row| == 1 {
      before := "";
    } else {
      var more := RawEnds(row[1..]);
      before := row[0] + "," + more;
      assert row[1..][|row| - 2] == row[|row| - 1];
      Assoc(row[0] + ",", more, row[|row| - 1]);
    }
  }

  lemma {:induction false} DoubledEndsLine(cell: string)
    requires EndsLine(cell)
    ensures EndsLine(Doubled(cell))
  {
    if |cell| == 1 {
    } else {
      DoubledEndsLine(cell[1..]);
    }
  }

  // The newlines a cell ends with.
  lemma {:induction false} TrailingNewlines(cell: string) returns (front: string, end: string)
    ensures cell == front + end && Newlines(end) && !EndsLine(front)
  {
    if EndsLine(cell) {
      front, end := TrailingNewlines(cell[..|cell| - 1]);
      end := end + "\n";
    } else {
      front, end := cell, "";
    }
  }

  lemma NoMoreNewlines(front: string, end: string)
    requires Newlines(end) && !EndsLine(front)
    ensures |end| < |front + end| ==> (front + end)[|front| - 1..] != end + "\n"
  {
    if front != "" {
      assert (front + end)[|front| - 1..][0] == front[|front| - 1];
      assert (end + "\n")[0] == '\n';
    }
  }

  lemma HeaderAloneIsClosed(header: Row)
    requires Kept(header)
    requires Filter(Scan(Raw(header) + "\n", [], "", false, false)) == [header]
    ensures !Open(Raw(header) + "\n", false)
  {
    if Open(Raw(header) + "\n", false) {
      var cell := header[|header| - 1];
      var before := RawEnds(header);
      var front, end := TrailingNewlines(cell);
      var more := end + "\n";
      assert Raw(header) + "\n" == before + front + more;
      OpenTakesTheEnd(before + front, more, [], "", false);
      var rows := Scan(Raw(header) + "\n", [], "", false, false);
      LastIsKept(rows);
      assert EndsIn(header, more);
      NoMoreNewlines(front, end);
      assert false;
    }
  }

  function Printed(header: Row, rows: seq<Row>): string {
    Raw(header) + "\n" + PrintRows(rows)
  }

  lemma PrintedSnoc(header: Row, rows: seq<Row>, row: Row)
    ensures Printed(header, rows + [row]) == Printed(header, rows) + (Line(row) + "\n")
  {
    PrintSnoc(rows, row);
    hide PrintRows, Line, Raw;
    Assoc(PrintRows(rows), Line(row), "\n");
    Assoc(Raw(header) + "\n", PrintRows(rows), Line(row) + "\n");
  }

  lemma PrintedEndsLine(header: Row, rows: seq<Row>)
    ensures EndsLine(Printed(header, rows))
  {
    if rows == [] {
    } else {
      var front, row := rows[..|rows| - 1], Last(rows);
      assert rows == front + [row];
      PrintedSnoc(header, front, row);
    }
  }

  lemma OpenEndsInCell(header: Row, rows: seq<Row>, row: Row)
    requires Kept(row) && Open(Printed(header, rows + [row]), false)
    requires var s := Scan(Printed(header, rows + [row]), [], "", false, false);
        Filter(s) != [] && Last(Filter(s)) == row
    ensures EndsLine(row[|row| - 1])
  {
    PrintedSnoc(header, rows, row);
    var front := Printed(header, rows) + Line(row);
    hide Printed, Line;
    assert Printed(header, rows + [row]) == front + "\n";
    OpenTakesTheEnd(front, "\n", [], "", false);
    var s := Scan(front + "\n", [], "", false, false);
    hide Scan;
    var cell := Last(s)[|Last(s)| - 1];
    assert cell[|cell| - 1..][0] == '\n';
    LastIsKept(s);
  }

  lemma QuotedEndsLine(cell: string) returns (before: string)
    requires EndsLine(cell)
    ensures Quote(cell) + "\n" == before + ("\n" + QUOTED_NEWLINE)
  {
    assert cell[|cell| - 1] in cell;
    DoubledEndsLine(cell);
    var d := Doubled(cell);
    assert d == d[..|d| - 1] + "\n";
    before := "\"" + d[..|d| - 1];
  }

  // If a quote is left open, the last row is a newline.
  lemma OpenEndsInNewline(header: Row, rows: seq<Row>, row: Row)
    requires Kept(row) && Open(Printed(header, rows + [row]), false)
    requires var s := Scan(Printed(header, rows + [row]), [], "", false, false);
        Filter(s) != [] && Last(Filter(s)) == row
    ensures row == NEWLINE_ROW
  {
    var text := Printed(header, rows + [row]);
    OpenEndsInCell(header, rows, row);
    PrintedSnoc(header, rows, row);
    var before := LineEnds(row);
    var quote := QuotedEndsLine(row[|row| - 1]);
    hide *;
    var all := Printed(header, rows) + (before + quote);
    var last := Quote(row[|row| - 1]);
    assert Line(row) + "\n" == before + (last + "\n") by { Assoc(before, last, "\n"); }
    Assoc(before, quote, "\n" + QUOTED_NEWLINE);
    Assoc(Printed(header, rows), before + quote, "\n" + QUOTED_NEWLINE);
    assert text == all + ("\n" + QUOTED_NEWLINE);
    OpenOverNewline(all);
    OpenAfterNewline(all, [], "", false);
    LastIsKept(Scan(text, [], "", false, false));
  }

  lemma OpenOverNewline(text: string)
    ensures Open(text + ("\n" + QUOTED_NEWLINE), false) == !Open(text, false)
  {
    OpenOver(text, "\n" + QUOTED_NEWLINE, false);
    assert ("\n" + QUOTED_NEWLINE)[1..] == QUOTED_NEWLINE;
    ScanQuotedNewline(Open(text, false));
  }

  lemma {:induction false} ReadsBackIsClosed(header: Row, rows: seq<Row>)
    requires Kept(header) && AllKept(rows)
    requires ParseCsv(Printed(header, rows)) == [header] + rows
    ensures !Open(Printed(header, rows), false)
  {
    if rows == [] {
      assert Printed(header, rows) == Raw(header) + "\n";
      HeaderAloneIsClosed(header);
    } else if Open(Printed(header, rows), false) {
      var front, row := rows[..|rows| - 1], Last(rows);
      assert rows == front + [row];
      OpenEndsInNewline(header, front, row);
      PrintedSnoc(header, front, row);
      PrintedEndsLine(header, front);
      NewlineRowPrints();
      var text := Printed(header, front);
      var end := "\"\n" + QUOTED_NEWLINE;
      assert Printed(header, rows) == text + end;
      OpenOver(text, end, false);
      assert end[1..] == "\n" + QUOTED_NEWLINE && end[1..][1..] == QUOTED_NEWLINE;
      ScanQuotedNewline(!Open(text, false));
      NewlineRowCloses(text, [], "", false);
      FilterSnoc(Scan(text, [], "", false, false), NEWLINE_ROW);
      SameFront(ParseCsv(text), [header] + front, row);
      ReadsBackIsClosed(header, front);
      assert false;
    }
  }

  lemma SameFront(a: seq<Row>, b: seq<Row>, row: Row)
    requires a + [row] == b + [row]
    ensures a == b
  {
    assert a == (a + [row])[..|a|] && b == (b + [row])[..|b|];
  }

  lemma NewlineRowPrints()
    ensures Line(NEWLINE_ROW) + "\n" == "\"\n" + QUOTED_NEWLINE
  {
    assert '\n' in "\n" by { assert "\n"[0] == '\n'; }
    assert Doubled("\n") == "\n" by { assert "\n"[1..] == ""; }
  }

  lemma HeaderOfReadBack(header: Row, rows: seq<Row>)
    requires Kept(header) && AllKept(rows)
    requires ParseCsv(Printed(header, rows)) == [header] + rows
    ensures PlainCells(header)
  {
    var text := Printed(header, rows);
    var s := Scan(text, [], "", false, false);
    ReadsBackIsClosed(header, rows);
    PrintedEndsLine(header, rows);
    ScanInk(text, [], "", false);
    ScannedRows(text, [], "", false, false);
    FilterInk(s);
    LineInk(header);
    InkOfBoth(Raw(header), "\n");
    InkOfBoth(Raw(header) + "\n", PrintRows(rows));
    assert forall i :: 0 <= i < |rows| ==> Kept(rows[i]) ==> rows[i] != [];
    PrintInk(rows);
    assert ([header] + rows)[1..] == rows;
    assert Filter(s) == s;
    assert [] + header == header;
    UnquotedRow(header, PrintRows(rows), []);
  }

  lemma PrintedReadsBackExactly(header: Row, rows: seq<Row>)
    requires Kept(header) && AllKept(rows)
    ensures ParseCsv(Printed(header, rows)) == [header] + rows
        <==> PlainHeader([header] + rows) && AllFaithful([header] + rows)
  {
    var plan := [header] + rows;
    if ParseCsv(Printed(header, rows)) == plan { HeaderOfReadBack(header, rows); }
    if PlainHeader(plan) {
      UnquotedPrints(header);
      ReadsBackUnquoted(plan);
      assert plan[1..] == rows;
    }
  }

  predicate AllFaithful(rows: seq<Row>) {
    forall i :: 0 <= i < |rows| ==> forall cell :: cell in rows[i] ==> Faithful(cell)
  }

  // The first row needs no quotes.
  predicate PlainHeader(rows: seq<Row>) {
    rows != [] ==> forall cell :: cell in rows[0] ==> !NeedsQuotes(cell)
  }

  /**
   * Reading the reconciled plan gives the plan with its rows folded, exactly when the header holds no comma, quote or
   * newline and no cell holds a carriage return without a comma, a quote or a newline beside it.
   */
  lemma ReconciledReadsBack(csvText: string, latest: map<string, Artifact>)
    ensures var plan := Plan(csvText, latest);
      ParseCsv(Reconcile(csvText, latest)) == plan <==> PlainHeader(plan) && AllFaithful(plan)
  {
    var rows := ParseCsv(csvText);
    if rows == [] {
      EmptyReadsBack();
    } else {
      FilterKeeps(Scan(csvText, [], "", false, false));
      FoldedAreKept(rows[1..], latest);
      PrintedReadsBackExactly(rows[0], FoldAll(rows[1..], latest));
    }
  }

  lemma ReadsBackUnquoted(plan: seq<Row>)
    requires AllKept(plan)
    ensures ParseCsv(PrintRows(plan)) == plan <==> AllFaithful(plan)
  {
    RoundTrip(plan);
    if AllFaithful(plan) {
      forall i | 0 <= i < |plan| ensures RowSurvives(plan[i]) { assert Kept(plan[i]); }
    }
    if forall i :: 0 <= i < |plan| ==> RowSurvives(plan[i]) {
      forall i | 0 <= i < |plan|
        ensures forall cell :: cell in plan[i] ==> Faithful(cell)
      {
        assert RowSurvives(plan[i]);
      }
    }
  }
}
