/**
 * Folding a run's artifacts into the plan (tools/ledger.ts): what may move, what the result reads back as, and
 * exactly when folding twice is folding once.
 */
module Ledger {
  import opened Csv

  const COLUMNS := 17
  const STATUS := 14
  const RUN_ID := 15
  const EVIDENCE := 16

  datatype Artifact = Artifact(taskId: string, runId: string, status: string, evidence: string, writtenAt: int)

  // --- The latest artifact of each task -----------------------------------------------------------------------------

  // `i` is the newest of its task among the first `n`, and the first of those written at that time.
  predicate Newest(artifacts: seq<Artifact>, n: nat, i: nat)
    requires i < n <= |artifacts|
  {
    forall j :: 0 <= j < n && artifacts[j].taskId == artifacts[i].taskId ==>
      artifacts[j].writtenAt <= artifacts[i].writtenAt && (j < i ==> artifacts[j].writtenAt < artifacts[i].writtenAt)
  }

  ghost predicate Collected(artifacts: seq<Artifact>, n: nat, latest: map<string, Artifact>)
    requires n <= |artifacts|
  {
    && (forall i :: 0 <= i < n ==> artifacts[i].taskId in latest)
    && forall id :: id in latest ==>
         exists i :: 0 <= i < n && artifacts[i] == latest[id] && artifacts[i].taskId == id && Newest(artifacts, n, i)
  }

  lemma NewestStays(artifacts: seq<Artifact>, n: nat, i: nat)
    requires i < n < |artifacts| && Newest(artifacts, n, i)
    requires artifacts[n].taskId == artifacts[i].taskId ==> artifacts[n].writtenAt <= artifacts[i].writtenAt
    ensures Newest(artifacts, n + 1, i)
  {
  }

  lemma NewestOfAll(artifacts: seq<Artifact>, n: nat, i: nat)
    requires i < n < |artifacts| && Newest(artifacts, n, i)
    requires artifacts[n].taskId == artifacts[i].taskId && artifacts[n].writtenAt > artifacts[i].writtenAt
    ensures Newest(artifacts, n + 1, n)
  {
  }

  lemma CollectOne(artifacts: seq<Artifact>, n: nat, latest: map<string, Artifact>)
    requires n < |artifacts| && Collected(artifacts, n, latest)
    ensures var loaded := artifacts[n];
      var newer := loaded.taskId !in latest || loaded.writtenAt > latest[loaded.taskId].writtenAt;
      Collected(artifacts, n + 1, if newer then latest[loaded.taskId := loaded] else latest)
  {
    var loaded := artifacts[n];
    var newer := loaded.taskId !in latest || loaded.writtenAt > latest[loaded.taskId].writtenAt;
    var after := if newer then latest[loaded.taskId := loaded] else latest;
    forall id | id in after
      ensures exists i :: 0 <= i < n + 1 && artifacts[i] == after[id] && artifacts[i].taskId == id
               && Newest(artifacts, n + 1, i)
    {
      if id in latest {
        var i :| 0 <= i < n && artifacts[i] == latest[id] && artifacts[i].taskId == id && Newest(artifacts, n, i);
        if id == loaded.taskId && newer { NewestOfAll(artifacts, n, i); } else { NewestStays(artifacts, n, i); }
      } else {
        assert Newest(artifacts, n + 1, n);
      }
    }
  }

  method LatestPerTask(artifacts: seq<Artifact>) returns (latest: map<string, Artifact>)
    ensures forall i :: 0 <= i < |artifacts| ==> artifacts[i].taskId in latest
    ensures forall id :: id in latest ==>
      exists i :: 0 <= i < |artifacts| && artifacts[i] == latest[id] && artifacts[i].taskId == id
          && Newest(artifacts, |artifacts|, i)
  {
    latest := map[];
    for n := 0 to |artifacts|
      invariant Collected(artifacts, n, latest)
    {
      CollectOne(artifacts, n, latest);
      var loaded := artifacts[n];
      if loaded.taskId !in latest || loaded.writtenAt > latest[loaded.taskId].writtenAt {
        latest := latest[loaded.taskId := loaded];
      }
    }
  }

  // --- One row ------------------------------------------------------------------------------------------------------

  function At(row: Row, k: nat): string {
    if k < |row| then row[k] else ""
  }

  predicate Foldable(status: string) {
    status == "done" || status == "failed" || status == "blocked"
  }

  // The row was dispatched, and its task's artifact is of its own run and is final.
  predicate Folds(row: Row, latest: map<string, Artifact>) {
    && At(row, 0) in latest
    && At(row, STATUS) != "pending"
    && (At(row, RUN_ID) == "" || At(row, RUN_ID) == latest[At(row, 0)].runId)
    && Foldable(latest[At(row, 0)].status)
  }

  // Writing past the end of a row fills the gap with empty cells.
  function Padded(row: Row): (wide: Row)
    ensures |wide| >= COLUMNS && forall k: nat :: At(wide, k) == At(row, k)
  {
    if |row| >= COLUMNS then row else row + seq(COLUMNS - |row|, _ => "")
  }

  function Fold(row: Row, latest: map<string, Artifact>): Row {
    if Folds(row, latest) then
      var found := latest[At(row, 0)];
      Padded(row)[STATUS := found.status][RUN_ID := found.runId][EVIDENCE := found.evidence]
    else row
  }

  function FoldAll(rows: seq<Row>, latest: map<string, Artifact>): (folded: seq<Row>)
    ensures |folded| == |rows|
  {
    seq(|rows|, i requires 0 <= i < |rows| => Fold(rows[i], latest))
  }

  // The artifact of the row's task is final and of its own run, and the row was dispatched.
  predicate Reports(row: Row, latest: map<string, Artifact>) {
    var id, status, run := At(row, 0), At(row, 14), At(row, 15);
    && id in latest
    && latest[id].status in {"done", "failed", "blocked"}
    && status != "pending"
    && (run == "" || run == latest[id].runId)
  }

  // The row takes its artifact's status, run and evidence exactly then; no other cell ever changes.
  predicate Becomes(row: Row, now: Row, latest: map<string, Artifact>) {
    if Reports(row, latest) then
      var found := latest[At(row, 0)];
      && |now| == (if |row| < 17 then 17 else |row|)
      && now[14] == found.status && now[15] == found.runId && now[16] == found.evidence
      && forall k :: 0 <= k < |now| && k != 14 && k != 15 && k != 16 ==> now[k] == At(row, k)
    else now == row
  }

  /** Folding moves the status, the run and the evidence exactly when the row's artifact reports, and nothing else. */
  lemma FoldMovesItsColumnsOnly(row: Row, latest: map<string, Artifact>)
    ensures Becomes(row, Fold(row, latest), latest)
  {
  }

  // --- The whole plan -----------------------------------------------------------------------------------------------

  // The header goes out as it is, unquoted.
  function Raw(row: Row): string {
    if row == [] then "" else if |row| == 1 then row[0] else row[0] + "," + Raw(row[1..])
  }

  function Reconcile(csvText: string, latest: map<string, Artifact>): string {
    var rows := ParseCsv(csvText);
    if rows == [] then "\n" else Raw(rows[0]) + "\n" + PrintRows(FoldAll(rows[1..], latest))
  }

  lemma {:induction false} PrintSnoc(rows: seq<Row>, row: Row)
    ensures PrintRows(rows + [row]) == PrintRows(rows) + Line(row) + "\n"
  {
    if rows == [] {
      assert rows + [row] == [row];
    } else {
      PrintSnoc(rows[1..], row);
      assert (rows + [row])[1..] == rows[1..] + [row];
      Assoc(Line(rows[0]) + "\n", PrintRows(rows[1..]) + Line(row), "\n");
      Assoc(Line(rows[0]) + "\n", PrintRows(rows[1..]), Line(row));
    }
  }

  lemma PrintMore(head: string, rows: seq<Row>, row: Row)
    ensures head + PrintRows(rows + [row]) == head + PrintRows(rows) + Line(row) + "\n"
  {
    PrintSnoc(rows, row);
    hide PrintRows, Line;
    Assoc(head, PrintRows(rows) + Line(row), "\n");
    Assoc(head, PrintRows(rows), Line(row));
  }

  lemma FoldMore(rows: seq<Row>, i: nat, latest: map<string, Artifact>)
    requires 1 <= i < |rows|
    ensures FoldAll(rows[1..i + 1], latest) == FoldAll(rows[1..i], latest) + [Fold(rows[i], latest)]
  {
    hide Fold;
    assert rows[1..i + 1] == rows[1..i] + [rows[i]];
  }

  // Overwrites the row's own cells.
  method FoldRow(row: Row, latest: map<string, Artifact>) returns (cells: Row)
    ensures cells == Fold(row, latest)
  {
    cells := row;
    var id := if |cells| > 0 then cells[0] else "";
    var status := if STATUS < |cells| then cells[STATUS] else "";
    var runId := if RUN_ID < |cells| then cells[RUN_ID] else "";
    if id in latest && status != "pending" && (runId == "" || latest[id].runId == runId)
        && Foldable(latest[id].status) {
      cells := Padded(cells);
      cells := cells[STATUS := latest[id].status];
      cells := cells[RUN_ID := latest[id].runId];
      cells := cells[EVIDENCE := latest[id].evidence];
    }
  }

  // `out` is the header's line as it was, then the lines of the rows as their artifacts leave them.
  ghost predicate Reconciled(csvText: string, latest: map<string, Artifact>, out: string) {
    var rows := ParseCsv(csvText);
    if rows == [] then out == "\n"
    else exists plan :: Moved(rows, plan, latest) && out == Raw(rows[0]) + "\n" + PrintRows(plan[1..])
  }

  ghost predicate Moved(rows: seq<Row>, plan: seq<Row>, latest: map<string, Artifact>) {
    && |plan| == |rows| > 0 && plan[0] == rows[0]
    && forall i :: 1 <= i < |rows| ==> Becomes(rows[i], plan[i], latest)
  }

  /** The rows of a plan, one by one. */
  lemma PlanMoves(csvText: string, latest: map<string, Artifact>)
    ensures var rows, plan := ParseCsv(csvText), Plan(csvText, latest);
      if rows == [] then plan == [] else Moved(rows, plan, latest)
    ensures Reconciled(csvText, latest, Reconcile(csvText, latest))
  {
    hide ParseCsv, Fold, Becomes;
    var rows, plan := ParseCsv(csvText), Plan(csvText, latest);
    if rows != [] {
      forall i | 1 <= i < |rows|
        ensures Becomes(rows[i], plan[i], latest)
      {
        FoldMovesItsColumnsOnly(rows[i], latest);
        assert plan[i] == Fold(rows[1..][i - 1], latest);
      }
      assert plan[1..] == FoldAll(rows[1..], latest);
    }
  }

  method ReconcileCsv(csvText: string, latest: map<string, Artifact>) returns (out: string)
    ensures out == Reconcile(csvText, latest)
    ensures Reconciled(csvText, latest, out)
  {
    PlanMoves(csvText, latest);
    hide Reconciled, Fold, FoldAll, PrintRows, Line, Raw, ParseCsv;
    var rows := ReadCsv(csvText);
    if |rows| == 0 { return "\n"; }
    var head := Raw(rows[0]) + "\n";
    out := head;
    NothingFolded(rows, head, latest);
    for i := 1 to |rows|
      invariant out == head + PrintRows(FoldAll(rows[1..i], latest))
    {
      var cells := FoldRow(rows[i], latest);
      FoldMore(rows, i, latest);
      PrintMore(head, FoldAll(rows[1..i], latest), cells);
      out := out + Line(cells) + "\n";
    }
    assert rows[1..|rows|] == rows[1..];
  }

  lemma NothingFolded(rows: seq<Row>, head: string, latest: map<string, Artifact>)
    requires rows != []
    ensures head == head + PrintRows(FoldAll(rows[1..1], latest))
  {
    assert FoldAll(rows[1..1], latest) == [];
  }

  lemma {:induction false} UnquotedPrints(row: Row)
    requires forall cell :: cell in row ==> !NeedsQuotes(cell)
    ensures Raw(row) == Line(row)
  {
    if |row| <= 1 {
    } else {
      UnquotedPrints(row[1..]);
    }
  }

  lemma EmptyReadsBack()
    ensures ParseCsv("\n") == []
  {
    assert "\n"[1..] == "";
    assert Scan("\n", [], "", false, false) == [[""]] by { assert [] + [""] == [""]; }
  }

  // The data rows of the plan after folding.
  function Plan(csvText: string, latest: map<string, Artifact>): seq<Row> {
    var rows := ParseCsv(csvText);
    if rows == [] then [] else [rows[0]] + FoldAll(rows[1..], latest)
  }

  lemma FoldedAreKept(rows: seq<Row>, latest: map<string, Artifact>)
    requires AllKept(rows)
    ensures AllKept(FoldAll(rows, latest))
  {
    forall i | 0 <= i < |rows| ensures Kept(FoldAll(rows, latest)[i]) { assert Kept(rows[i]); }
  }
}
