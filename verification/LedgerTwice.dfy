/**
 * Reconciling twice: exactly when the second time changes nothing (tools/ledger.ts).
 */
module LedgerTwice {
  import opened Csv
  import opened Ledger
  import opened LedgerReadsBack

  // Each cell that will be printed reads back as itself, but for what the second fold writes again.
  predicate Settled(row: Row, latest: map<string, Artifact>) {
    forall k :: 0 <= k < |Fold(row, latest)| ==>
      || Faithful(Fold(row, latest)[k])
      || (Folds(row, latest) && (k == EVIDENCE || (k == RUN_ID && Strip(Fold(row, latest)[k]) == "")))
  }

  lemma FoldedFolds(row: Row, latest: map<string, Artifact>)
    requires row != [] && Folds(row, latest)
    ensures Folds(Fold(row, latest), latest)
  {
    FoldedCells(row, latest);
  }

  // A row that did not fold, and reads back otherwise, cannot be put right by folding it later.
  lemma UnfoldedRow(row: Row, latest: map<string, Artifact>)
    requires row != [] && !Folds(row, latest)
    ensures Fold(RereadRow(row, false), latest) == row <==> Settled(row, latest)
  {
    var back := RereadRow(row, false);
    FaithfulRow(row);
    if Folds(back, latest) { FoldedFolds(back, latest); }
    assert Fold(row, latest) == row;
    hide Folds, RereadRow, Faithful;
    assert Settled(row, latest) <==> forall k :: 0 <= k < |row| ==> Faithful(row[k]);
  }

  lemma FoldedCells(row: Row, latest: map<string, Artifact>)
    requires row != [] && Folds(row, latest)
    ensures var f := Fold(row, latest);
      && |f| >= COLUMNS && f[0] == row[0] && f[STATUS] == latest[row[0]].status && f[RUN_ID] == latest[row[0]].runId
      && f[EVIDENCE] == latest[row[0]].evidence && Faithful(f[STATUS])
  {
    assert At(Padded(row), 0) == At(row, 0);
  }

  lemma FoldedRow(row: Row, latest: map<string, Artifact>)
    requires row != [] && Folds(row, latest)
    ensures Fold(RereadRow(Fold(row, latest), false), latest) == Fold(row, latest) <==> Settled(row, latest)
  {
    FoldedCells(row, latest);
    var f := Fold(row, latest);
    var back := RereadRow(f, false);
    assert |back| == |f|;
    forall k | 0 <= k < |f|
      ensures back[k] == Reread(f[k], false) && (back[k] == f[k] <==> Faithful(f[k]))
    {
      FaithfulReread(f[k]);
    }
    var again := Fold(back, latest);
    if again == f {
      if Folds(back, latest) {
        forall k | 0 <= k < |f| && k != STATUS && k != RUN_ID && k != EVIDENCE ensures Faithful(f[k]) {
          assert again[k] == back[k];
        }
        assert back[0] == f[0] by { assert again[0] == back[0]; }
      }
    }
    if Settled(row, latest) {
      assert Faithful(f[0]);
      assert back[RUN_ID] == f[RUN_ID] || back[RUN_ID] == "";
      assert Folds(back, latest);
      forall k | 0 <= k < |f| ensures again[k] == f[k] {
        if k != STATUS && k != RUN_ID && k != EVIDENCE { assert Faithful(f[k]); }
      }
      assert again == f;
    }
  }

  lemma RowTwice(row: Row, latest: map<string, Artifact>)
    requires row != []
    ensures Fold(RereadRow(Fold(row, latest), false), latest) == Fold(row, latest) <==> Settled(row, latest)
  {
    if Folds(row, latest) { FoldedRow(row, latest); } else { UnfoldedRow(row, latest); }
  }

  lemma SettledIsKept(row: Row, latest: map<string, Artifact>)
    requires Kept(row) && Settled(row, latest)
    ensures Kept(RereadRow(Fold(row, latest), false))
  {
    var f := Fold(row, latest);
    if |f| == 1 { FaithfulReread(f[0]); }
  }

  // --- The header ----------------------------------------------------------------------------------------------------

  // The cells of a line without quotes, carriage returns included.
  function Fields(line: string): (row: Row)
    ensures row != [] && (line != "" ==> |row| > 1 || row[0] != "")
  {
    if line == "" then [""]
    else
      var more := Fields(line[1..]);
      if line[0] == ',' then [""] + more else [[line[0]] + more[0]] + more[1..]
  }

  // The header goes out on one line, and not as a quote.
  predicate OneLine(header: string) {
    '"' !in header && '\n' !in header
  }

  lemma {:induction false} FieldsPrint(line: string)
    requires OneLine(line)
    ensures Raw(Fields(line)) == line
    ensures forall k :: 0 <= k < |Fields(line)|
             ==> !NeedsQuotes(Fields(line)[k]) && ('\r' in Fields(line)[k] ==> '\r' in line)
  {
    if line == "" {
    } else {
      var row, more := Fields(line), Fields(line[1..]);
      assert OneLine(line[1..]) && line == [line[0]] + line[1..];
      FieldsPrint(line[1..]);
      assert !NeedsQuotes(more[0]);
      if line[0] == ',' {
        assert row[1..] == more;
      } else {
        RawFirst(row, more, line[0]);
      }
    }
  }

  lemma RawFirst(row: Row, more: Row, ch: char)
    requires more != [] && row == [[ch] + more[0]] + more[1..]
    ensures Raw(row) == [ch] + Raw(more)
  {
    if |more| > 1 {
      assert row[1..] == more[1..];
      Assoc([ch], more[0], ",");
      Assoc([ch], more[0] + ",", Raw(more[1..]));
    }
  }

  lemma ReparsePrinted(header: Row, rows: seq<Row>)
    requires Kept(RereadRow(header, false)) && header != []
    ensures ParseCsv(Line(header) + "\n" + PrintRows(rows))
        == [RereadRow(header, false)] + Filter(RereadRows(rows, false))
  {
    var all := [header] + rows;
    assert all[1..] == rows;
    PrintedReadsBack(all);
    RereadFirst(header, rows);
  }

  lemma RereadFirst(row: Row, rows: seq<Row>)
    requires Kept(RereadRow(row, false))
    ensures Filter(RereadRows([row] + rows, false)) == [RereadRow(row, false)] + Filter(RereadRows(rows, false))
  {
    var all := [row] + rows;
    hide RereadRow;
    assert RereadRows(all, false)[0] == RereadRow(row, false);
    assert RereadRows(all, false)[1..] == RereadRows(rows, false);
  }

  lemma PrintFirst(row: Row, rows: seq<Row>)
    ensures PrintRows([row] + rows) == Line(row) + "\n" + PrintRows(rows)
  {
    assert ([row] + rows)[1..] == rows;
  }

  // --- Texts that reconciling leaves alone ---------------------------------------------------------------------------

  // A row that is folded already, and that the second fold puts right if it reads back otherwise.
  predicate Stays(row: Row, latest: map<string, Artifact>) {
    Kept(row) && Fold(row, latest) == row && Settled(row, latest)
  }

  // The text is the print of its own rows, the first of them plain, and the others stay.
  predicate Canonical(text: string, latest: map<string, Artifact>) {
    var all := Scan(text, [], "", false, true);
    && all != [] && text == PrintRows(all)
    && Kept(all[0]) && PlainCells(all[0])
    && forall i :: 1 <= i < |all| ==> Stays(all[i], latest)
  }

  lemma FoldedStays(row: Row, latest: map<string, Artifact>)
    requires row != []
    ensures Fold(Fold(row, latest), latest) == Fold(row, latest)
  {
    if Folds(row, latest) { FoldedCells(row, latest); }
  }

  lemma PlainRereads(row: Row)
    requires row != [] && PlainCells(row)
    ensures RereadRow(row, false) == row && Raw(row) == Line(row)
  {
    FaithfulRow(row);
    UnquotedPrints(row);
  }

  // What reconciling makes of a plain header and what is printed below it.
  lemma ReconcilePrinted(header: Row, rows: seq<Row>, latest: map<string, Artifact>)
    requires Kept(header) && PlainCells(header)
    ensures var text := Line(header) + "\n" + PrintRows(rows);
      && ParseCsv(text) == [header] + Filter(RereadRows(rows, false))
      && Reconcile(text, latest) == Line(header) + "\n" + PrintRows(FoldAll(Filter(RereadRows(rows, false)), latest))
  {
    PlainRereads(header);
    ReparsePrinted(header, rows);
    var back := Filter(RereadRows(rows, false));
    assert ([header] + back)[1..] == back;
  }

  lemma StayingRows(rows: seq<Row>, latest: map<string, Artifact>)
    requires forall i :: 0 <= i < |rows| ==> Stays(rows[i], latest)
    ensures FoldAll(Filter(RereadRows(rows, false)), latest) == rows
  {
    var back := RereadRows(rows, false);
    forall i | 0 <= i < |rows| ensures Kept(back[i]) && Fold(back[i], latest) == rows[i] {
      assert Stays(rows[i], latest);
      SettledIsKept(rows[i], latest);
      RowTwice(rows[i], latest);
    }
    FilterAll(back);
  }

  lemma RowsThatStay(rows: seq<Row>, latest: map<string, Artifact>)
    requires forall i :: 0 <= i < |rows| ==> Kept(rows[i]) && Fold(rows[i], latest) == rows[i]
    requires FoldAll(Filter(RereadRows(rows, false)), latest) == rows
    ensures forall i :: 0 <= i < |rows| ==> Stays(rows[i], latest)
  {
    var back := RereadRows(rows, false);
    FilterKeeps(back);
    assert Filter(back) == back;
    forall i | 0 <= i < |rows| ensures Stays(rows[i], latest) {
      assert FoldAll(back, latest)[i] == Fold(back[i], latest);
      RowTwice(rows[i], latest);
    }
  }

  lemma CanonicalIsFixed(text: string, latest: map<string, Artifact>)
    requires Canonical(text, latest)
    ensures Reconcile(text, latest) == text
  {
    var all := Scan(text, [], "", false, true);
    ReconcilePrinted(all[0], all[1..], latest);
    StayingRows(all[1..], latest);
  }

  lemma FixedIsCanonical(text: string, latest: map<string, Artifact>)
    requires var s := Scan(text, [], "", false, false); s != [] && Kept(s[0])
    requires Reconcile(text, latest) == text
    ensures Canonical(text, latest)
  {
    var s, rows := Scan(text, [], "", false, false), ParseCsv(text);
    FilterKeeps(s);
    var header, below := rows[0], FoldAll(rows[1..], latest);
    assert [] + header == header == s[0];
    UnquotedRow(header, PrintRows(below), []);
    PlainRereads(header);
    FoldedAreKept(rows[1..], latest);
    forall i | 0 <= i < |below| ensures Fold(below[i], latest) == below[i] { FoldedStays(rows[i + 1], latest); }
    ReconcilePrinted(header, below, latest);
    assert rows[1..] == Filter(RereadRows(below, false));
    RowsThatStay(below, latest);
    PrintFirst(header, below);
    ScanPrinted([header] + below, true);
    RawRereads([header] + below);
  }

  // --- A text that begins with a blank row is never left alone ------------------------------------------------------

  // The characters before the first comma, quotes apart.
  function Lead(text: string): nat {
    if text == "" || text[0] == ',' then 0 else (if text[0] == '"' then 0 else 1) + Lead(text[1..])
  }

  // Those of a table: a comma ends every cell but the last of a row, a newline that one.
  function LeadRows(rows: seq<Row>): nat {
    if rows == [] then 0
    else if rows[0] == [] then 1 + LeadRows(rows[1..])
    else if |rows[0]| > 1 || ',' in rows[0][0] then Lead(rows[0][0])
    else Lead(rows[0][0]) + 1 + LeadRows(rows[1..])
  }

  lemma {:induction false} LeadOver(a: string, b: string)
    ensures Lead(a + b) == if ',' in a then Lead(a) else Lead(a) + Lead(b)
  {
    if a == "" {
      assert a + b == b;
    } else {
      assert (a + b)[1..] == a[1..] + b;
      LeadOver(a[1..], b);
    }
  }

  lemma {:induction false} DoubledLead(cell: string)
    ensures Lead(Doubled(cell)) == Lead(cell) && (',' in Doubled(cell) <==> ',' in cell)
  {
    if cell == "" {
    } else {
      DoubledLead(cell[1..]);
      LeadOver(if cell[0] == '"' then "\"\"" else [cell[0]], Doubled(cell[1..]));
    }
  }

  lemma QuoteLead(cell: string)
    ensures Lead(Quote(cell)) == Lead(cell) && (',' in Quote(cell) <==> ',' in cell)
  {
    DoubledLead(cell);
    LeadOver("\"", Doubled(cell));
    LeadOver("\"" + Doubled(cell), "\"");
  }

  lemma FirstCellLead(cell: string, more: string, after: string)
    requires after != "" && (after[0] == ',' || after[0] == '\n') && (more == cell || more == Quote(cell))
    ensures Lead(more + after)
         == if ',' in cell || after[0] == ',' then Lead(cell) else Lead(cell) + 1 + Lead(after[1..])
  {
    QuoteLead(cell);
    LeadOver(more, after);
  }

  lemma {:induction false} PrintedLead(rows: seq<Row>)
    ensures Lead(PrintRows(rows)) == LeadRows(rows)
  {
    if rows == [] {
    } else {
      PrintedLead(rows[1..]);
      LineLead(rows[0], Line(rows[0]), rows[1..]);
    }
  }

  // A row printed quoted or not.
  lemma LineLead(row: Row, line: string, rows: seq<Row>)
    requires line == Line(row) || line == Raw(row)
    requires Lead(PrintRows(rows)) == LeadRows(rows)
    ensures Lead(line + "\n" + PrintRows(rows)) == LeadRows([row] + rows)
  {
    var tail := "\n" + PrintRows(rows);
    assert tail[1..] == PrintRows(rows) && ([row] + rows)[1..] == rows;
    assert line + "\n" + PrintRows(rows) == line + tail;
    if row == [] {
      assert line + tail == tail;
    } else {
      RestOfLine(row, line, tail);
    }
  }

  lemma RestOfLine(row: Row, line: string, tail: string)
    requires row != [] && (line == Line(row) || line == Raw(row)) && tail != "" && tail[0] == '\n'
    ensures Lead(line + tail)
         == if ',' in row[0] || |row| > 1 then Lead(row[0]) else Lead(row[0]) + 1 + Lead(tail[1..])
  {
    if |row| == 1 {
      FirstCellLead(row[0], line, tail);
    } else {
      var cell := if line == Line(row) then Quote(row[0]) else row[0];
      var more := if line == Line(row) then Line(row[1..]) else Raw(row[1..]);
      hide Quote, Line, Raw, Lead;
      Assoc(cell, ",", more);
      Assoc(cell, "," + more, tail);
      FirstCellLead(row[0], cell, "," + more + tail);
    }
  }

  // A table whose first row begins with this field, and has more cells or a comma in it.
  lemma LeadOfFirst(s: seq<Row>, field: string)
    requires s != [] && |s[0]| > 0 && field <= s[0][0]
    requires ',' in field || (|s[0]| > 1 && s[0][0] == field)
    ensures LeadRows(s) == Lead(field)
  {
    var cell := s[0][0];
    assert cell == field + cell[|field|..];
    LeadOver(field, cell[|field|..]);
  }

  // A scan never makes the lead longer.
  lemma {:induction false} ScanLead(text: string, field: string, quoted: bool)
    requires ',' !in field && ',' in text
    ensures LeadRows(Scan(text, [], field, quoted, false)) <= Lead(field) + Lead(text)
    decreases |text|
  {
    var ch, rest := text[0], text[1..];
    LeadOver(field, [ch]);
    assert Lead([ch]) == if ch == ',' || ch == '"' then 0 else 1;
    if ch == ',' && quoted {
      FirstRowExtends(rest, [], field + [ch], true);
      LeadOfFirst(Scan(rest, [], field + [ch], true, false), field + [ch]);
    } else if ch == ',' {
      assert [] + [field] == [field];
      FirstRowExtends(rest, [field], "", false);
      LeadOfFirst(Scan(rest, [field], "", false, false), field);
    } else if quoted && ch == '"' && rest[0] == '"' {
      LeadOver(field, "\"");
      ScanLead(rest[1..], field + "\"", true);
    } else if ch == '"' {
      ScanLead(rest, field, !quoted);
    } else if quoted || (ch != '\n' && ch != '\r') {
      ScanLead(rest, field + [ch], quoted);
    } else if ch == '\n' {
      ScanLead(rest, "", false);
      var more := Scan(rest, [], "", false, false);
      assert [] + [field] == [field] && ([[field]] + more)[1..] == more;
    } else {
      ScanLead(rest, field, false);
    }
  }

  lemma {:induction false} FilterLead(rows: seq<Row>)
    ensures LeadRows(Filter(rows)) <= LeadRows(rows)
    ensures rows != [] && !Kept(rows[0]) ==> LeadRows(Filter(rows)) < LeadRows(rows)
  {
    if rows == [] {
    } else {
      FilterLead(rows[1..]);
      var kept := Filter(rows[1..]);
      assert ([rows[0]] + kept)[1..] == kept;
    }
  }

  // Folding gives a row no new first cell, and no fewer commas.
  lemma {:induction false} FoldedLead(rows: seq<Row>, latest: map<string, Artifact>)
    requires AllKept(rows)
    ensures LeadRows(FoldAll(rows, latest)) <= LeadRows(rows)
  {
    if rows == [] {
    } else {
      var folded, row := FoldAll(rows, latest), rows[0];
      assert Kept(row);
      FoldedLead(rows[1..], latest);
      assert folded[1..] == FoldAll(rows[1..], latest) && folded[0] == Fold(row, latest);
      if Folds(row, latest) { FoldedCells(row, latest); }
    }
  }

  lemma LeadGoesDown(text: string, header: Row, rows: seq<Row>, latest: map<string, Artifact>)
    requires ',' in text && AllKept(rows)
    requires var s := Scan(text, [], "", false, false); s != [] && !Kept(s[0]) && Filter(s) == [header] + rows
    ensures text != Raw(header) + "\n" + PrintRows(FoldAll(rows, latest))
  {
    var below := FoldAll(rows, latest);
    PrintedLead(below);
    LineLead(header, Raw(header), below);
    FoldedLead(rows, latest);
    LeadAbove(header, below, rows);
    ScanLead(text, "", false);
    FilterLead(Scan(text, [], "", false, false));
  }

  lemma NoCommaIsKept(text: string, header: Row, rows: seq<Row>)
    requires Kept(header) && AllKept(rows) && text == Printed(header, rows) && ParseCsv(text) == [header] + rows
    ensures var s := Scan(text, [], "", false, false); s != [] && Kept(s[0])
  {
    HeaderOfReadBack(header, rows);
    PlainRereads(header);
    PrintFirst(header, rows);
    ScanPrinted([header] + rows, false);
  }

  lemma BlankFirstIsNeverFixed(text: string, latest: map<string, Artifact>)
    requires var s := Scan(text, [], "", false, false); s != [] && !Kept(s[0]) && Filter(s) != []
    ensures Reconcile(text, latest) != text
  {
    var rows := ParseCsv(text);
    var header, data := rows[0], rows[1..];
    FilterKeeps(Scan(text, [], "", false, false));
    assert rows == [header] + data;
    KeptFirst(header, data);
    hide Scan, Kept, AllKept, PrintRows, Raw, FoldAll, Filter;
    if Reconcile(text, latest) == text {
      if ',' in text {
        LeadGoesDown(text, header, data, latest);
      } else {
        NothingFolds(header, data, text, latest);
        NoCommaIsKept(text, header, data);
      }
      assert false;
    }
  }

  lemma LeadAbove(row: Row, a: seq<Row>, b: seq<Row>)
    requires LeadRows(a) <= LeadRows(b)
    ensures LeadRows([row] + a) <= LeadRows([row] + b)
  {
    assert ([row] + a)[1..] == a && ([row] + b)[1..] == b;
  }

  lemma {:induction false} PrintHasRows(rows: seq<Row>, i: nat)
    requires i < |rows| && |rows[i]| > 1
    ensures ',' in PrintRows(rows)
  {
    if i == 0 {
      assert Line(rows[0]) == Quote(rows[0][0]) + "," + Line(rows[0][1..]);
    } else {
      PrintHasRows(rows[1..], i - 1);
    }
  }

  // A folded row prints commas.
  lemma NothingFolds(header: Row, rows: seq<Row>, text: string, latest: map<string, Artifact>)
    requires text == Raw(header) + "\n" + PrintRows(FoldAll(rows, latest)) && ',' !in text
    requires AllKept(rows)
    ensures FoldAll(rows, latest) == rows && text == Printed(header, rows)
  {
    forall i | 0 <= i < |rows| ensures Fold(rows[i], latest) == rows[i] {
      if Folds(rows[i], latest) {
        assert Kept(rows[i]);
        FoldedCells(rows[i], latest);
        PrintHasRows(FoldAll(rows, latest), i);
        assert false;
      }
    }
  }

  /**
   * Reconciling leaves a text alone exactly when it is a newline, or the print of its own rows, read with carriage
   * returns kept: a plain header, and rows that are folded already and read back as themselves, apart from the evidence
   * of a folded row, and a run id that reads back as empty.
   */
  lemma FixedTexts(text: string, latest: map<string, Artifact>)
    ensures Reconcile(text, latest) == text <==> text == "\n" || Canonical(text, latest)
  {
    var s := Scan(text, [], "", false, false);
    EmptyReadsBack();
    if Canonical(text, latest) { CanonicalIsFixed(text, latest); }
    if Reconcile(text, latest) == text && Filter(s) != [] {
      if Kept(s[0]) { FixedIsCanonical(text, latest); } else { BlankFirstIsNeverFixed(text, latest); }
    }
  }

  // --- Reconciling twice --------------------------------------------------------------------------------------------

  lemma OnceIsPrinted(csvText: string, latest: map<string, Artifact>)
    requires ParseCsv(csvText) != []
    ensures var rows := ParseCsv(csvText);
      && AllKept(rows)
      && Reconcile(csvText, latest) == Raw(rows[0]) + "\n" + PrintRows(FoldAll(rows[1..], latest))
  {
    FilterKeeps(Scan(csvText, [], "", false, false));
  }

  lemma SettledFolded(row: Row, latest: map<string, Artifact>)
    requires row != []
    ensures Settled(Fold(row, latest), latest) <==> Settled(row, latest)
  {
    FoldedStays(row, latest);
    if Folds(row, latest) { FoldedCells(row, latest); }
  }

  lemma KeptFields(line: string)
    requires OneLine(line) && line != "" && '\r' !in line
    ensures var header := Fields(line); Kept(header) && PlainCells(header) && Line(header) == line
  {
    FieldsPrint(line);
    PlainRereads(Fields(line));
  }

  // Below a header on one line and without quotes.
  lemma CanonicalBelow(line: string, data: seq<Row>, latest: map<string, Artifact>)
    requires OneLine(line) && line != "" && AllKept(data)
    ensures Canonical(line + "\n" + PrintRows(FoldAll(data, latest)), latest)
       <==> '\r' !in line && forall i :: 0 <= i < |data| ==> Settled(data[i], latest)
  {
    var folded := FoldAll(data, latest);
    if '\r' in line {
      if Canonical(line + "\n" + PrintRows(folded), latest) {
        CanonicalFirstLine(line + "\n" + PrintRows(folded), line, PrintRows(folded), latest);
      }
    } else {
      KeptFields(line);
      FoldedAreKept(data, latest);
      CanonicalPrint(Fields(line), folded, latest);
      forall i | 0 <= i < |data| ensures Stays(folded[i], latest) <==> Settled(data[i], latest) {
        FoldedStays(data[i], latest);
        SettledFolded(data[i], latest);
      }
      hide Stays, Settled, PrintRows, Canonical;
    }
  }

  lemma CanonicalPrint(header: Row, rows: seq<Row>, latest: map<string, Artifact>)
    requires Kept(header) && PlainCells(header) && AllKept(rows)
    ensures Canonical(Line(header) + "\n" + PrintRows(rows), latest)
       <==> forall i :: 0 <= i < |rows| ==> Stays(rows[i], latest)
  {
    var all := [header] + rows;
    PrintFirst(header, rows);
    KeptFirst(header, rows);
    ScanPrinted(all, true);
    RawRereads(all);
    hide Stays, PrintRows, Line, Kept, AllKept, PlainCells, Scan;
    assert forall i :: 1 <= i < |all| ==> all[i] == rows[i - 1];
    assert forall i :: 0 <= i < |rows| ==> rows[i] == all[i + 1];
  }

  /**
   * Reconciling a reconciled plan with the same artifacts changes nothing, exactly when the plan came out canonical.
   * With a header on one line and without quotes it does when the header holds no carriage return, and every printed
   * cell reads back as itself, apart from the evidence of a folded row, and a run id that reads back as empty.
   */
  lemma ReconcileTwice(csvText: string, latest: map<string, Artifact>)
    ensures var rows, once := ParseCsv(csvText), Reconcile(csvText, latest);
      && (Reconcile(once, latest) == once <==> rows == [] || Canonical(once, latest))
      && (rows != [] && OneLine(Raw(rows[0])) ==>
            (Canonical(once, latest)
             <==> '\r' !in Raw(rows[0]) && forall i :: 1 <= i < |rows| ==> Settled(rows[i], latest)))
  {
    var rows, once := ParseCsv(csvText), Reconcile(csvText, latest);
    FixedTexts(once, latest);
    if rows == [] {
      EmptyReadsBack();
    } else {
      OnceIsPrinted(csvText, latest);
      hide Canonical, Reconcile, Settled;
      if OneLine(Raw(rows[0])) {
        CanonicalBelow(Raw(rows[0]), rows[1..], latest);
        RowsBelow(rows, latest);
      }
    }
  }

  lemma RowsBelow(rows: seq<Row>, latest: map<string, Artifact>)
    requires rows != []
    ensures (forall i :: 1 <= i < |rows| ==> Settled(rows[i], latest))
       <==> (forall i :: 0 <= i < |rows[1..]| ==> Settled(rows[1..][i], latest))
  {
    hide Settled;
    assert forall i :: 1 <= i < |rows| ==> rows[i] == rows[1..][i - 1];
  }

  function FirstLine(text: string): string {
    if text == "" || text[0] == '\n' then "" else [text[0]] + FirstLine(text[1..])
  }

  lemma {:induction false} FirstLineOf(line: string, tail: string)
    ensures FirstLine(line + "\n" + tail) == FirstLine(line)
    ensures '\n' !in line ==> FirstLine(line) == line
  {
    if line == "" {
    } else {
      assert (line + "\n" + tail)[1..] == line[1..] + "\n" + tail;
      FirstLineOf(line[1..], tail);
    }
  }

  lemma {:induction false} PlainLine(row: Row)
    requires PlainCells(row)
    ensures '"' !in Raw(row) && '\n' !in Raw(row) && '\r' !in Raw(row)
  {
    if row == [] {
    } else {
      assert !NeedsQuotes(row[0]) && '\r' !in row[0];
      PlainLine(row[1..]);
    }
  }

  lemma CanonicalFirstLine(text: string, line: string, tail: string, latest: map<string, Artifact>)
    requires Canonical(text, latest) && text == line + "\n" + tail
    ensures '"' !in FirstLine(line) && '\r' !in FirstLine(line)
    ensures '\n' !in line ==> '\r' !in line
  {
    var all := Scan(text, [], "", false, true);
    PlainRereads(all[0]);
    PlainLine(all[0]);
    FirstLineOf(line, tail);
    FirstLineOf(Raw(all[0]), PrintRows(all[1..]));
  }

  /** A header whose first line holds a quote or a carriage return is never left alone by the second pass. */
  lemma OddHeaderIsNeverLeft(csvText: string, latest: map<string, Artifact>)
    requires ParseCsv(csvText) != []
    requires var line := FirstLine(Raw(ParseCsv(csvText)[0])); '"' in line || '\r' in line
    ensures var once := Reconcile(csvText, latest); Reconcile(once, latest) != once
  {
    var rows, once := ParseCsv(csvText), Reconcile(csvText, latest);
    ReconcileTwice(csvText, latest);
    OnceIsPrinted(csvText, latest);
    if Canonical(once, latest) {
      CanonicalFirstLine(once, Raw(rows[0]), PrintRows(FoldAll(rows[1..], latest)), latest);
      assert false;
    }
  }

  // A header of two lines, whose second line then reads as a row.
  const TWO_LINES: Row := ["a\nb"]

  /** A header with a newline changes what the plan says, yet the second pass may leave the text alone. */
  lemma NewlineHeaderCanStay()
    ensures var none: map<string, Artifact> := map[]; var once := Reconcile(PrintRows([TWO_LINES]), none);
      && ParseCsv(PrintRows([TWO_LINES])) == [TWO_LINES] && ParseCsv(once) == [["a"], ["b"]]
      && Reconcile(once, none) == once
  {
    TwoLinesPrint();
    var none: map<string, Artifact> := map[];
    var all: seq<Row> := [["a"], ["b"]];
    hide PrintRows, Line;
    RoundTrip([TWO_LINES]);
    RoundTrip(all);
    ScanPrinted(all, true);
    RawRereads(all);
    assert Fold(all[1], none) == all[1] && Faithful("b");
    CanonicalIsFixed(PrintRows(all), none);
    hide ParseCsv, Canonical;
    assert [TWO_LINES][1..] == [];
    assert FoldAll([], none) == [];
  }

  lemma TwoLinesPrint()
    ensures RowSurvives(TWO_LINES) && RowSurvives(["a"]) && RowSurvives(["b"])
    ensures Raw(TWO_LINES) + "\n" + PrintRows([]) == PrintRows([["a"], ["b"]])
  {
    var all: seq<Row> := [["a"], ["b"]];
    assert '\n' in "a\nb" by { assert "a\nb"[1] == '\n'; }
    assert all[1..] == [["b"]] && [["b"]][1..] == [];
  }

  // A cell that was quoted only to hold a carriage return.
  const LONE_RETURN: string := "id\n\"a\rb\"\n"

  lemma ScanOpensQuote(t: string, row: Row, raw: bool)
    ensures Scan("\"" + t, row, "", false, raw) == Scan(t, row, "", true, raw)
  {
    assert ("\"" + t)[1..] == t;
  }

  lemma ScanEnds(cell: string)
    ensures Scan("\n", [], cell, false, false) == [[cell]]
  {
    assert [] + [cell] == [cell];
  }

  lemma DoubledPlain(a: char, b: char, c: char)
    requires a != '"' && b != '"' && c != '"'
    ensures Doubled([a, b, c]) == [a, b, c]
  {
    assert [a, b, c][1..] == [b, c] && [b, c][1..] == [c];
    assert Doubled([c]) == [c] && Doubled([b, c]) == [b, c];
  }

  lemma LoneReturnParses()
    ensures ParseCsv(LONE_RETURN) == [["id"], ["a\rb"]]
  {
    var header, last: Row := ["id"], ["a\rb"];
    QuotedRow("a\rb", 'a', '\r', 'b');
    assert RereadRow(header, false) == header by { FaithfulReread(header[0]); }
    assert LONE_RETURN == Line(header) + "\n" + ("\"" + ("a\rb" + "\"" + "\n"));
    hide Scan, Line;
    ScanLine(header, "\"" + ("a\rb" + "\"" + "\n"), [], false);
    assert [] + RereadRow(header, false) == header;
    FilterAll([header, last]);
  }

  lemma QuotedRow(cell: string, a: char, b: char, c: char)
    requires cell == [a, b, c] && a != '"' && b != '"' && c != '"'
    ensures Scan("\"" + (cell + "\"" + "\n"), [], "", false, false) == [[cell]]
  {
    DoubledPlain(a, b, c);
    hide Scan, Doubled;
    ScanOpensQuote(cell + "\"" + "\n", [], false);
    ScanDoubled(cell, "\n", [], "", false);
    assert "" + cell == cell;
    ScanEnds(cell);
  }

  /** Reconciling is not always idempotent: a quoted cell with a lone carriage return loses it the second time. */
  lemma LoneReturnIsLost()
    ensures Reconcile(Reconcile(LONE_RETURN, map[]), map[]) != Reconcile(LONE_RETURN, map[])
  {
    LoneReturnParses();
    hide Reconcile, ParseCsv;
    ReconcileTwice(LONE_RETURN, map[]);
    var none: map<string, Artifact> := map[];
    var row: Row := ["a\rb"];
    assert ParseCsv(LONE_RETURN)[1] == row;
    assert '\r' in "a\rb" by { assert "a\rb"[1] == '\r'; }
    assert Fold(row, none)[0] == row[0] && !Faithful(row[0]);
    assert !Settled(row, none);
  }
}
