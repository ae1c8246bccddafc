/**
 * Any number of renderers saving one desktop, with reads and writes that fail (shell/ezil/native-persistence.js):
 * whose value each key and each app's row ends up with, and what a failed save leaves to be tried again.
 */
module PreferenceRuns {
  import opened Options
  import opened Preferences

  // --- One key at a time --------------------------------------------------------------------------------------------

  datatype Key = WallpaperKey | AccentKey | PortKey | BrowserKey | RowKey(app: App)

  datatype Value = TextValue(text: Option<string>) | PortValue(port: Option<int>) | TabsValue(tabs: Option<Tabs>)
    | RowValue(row: Option<Row>)

  function Of(d: Desktop, k: Key): Value {
    match k
    case WallpaperKey => TextValue(d.scalars.wallpaper)
    case AccentKey => TextValue(d.scalars.accent)
    case PortKey => PortValue(d.scalars.port)
    case BrowserKey => TabsValue(d.scalars.browser)
    case RowKey(app) => RowValue(RowOf(Rows(d), app))
  }

  // What any reader of the host gets for a key, whatever its screen.
  function Seen(host: Input, k: Key): Value {
    Of(Safe(host, ANY_SCREEN), k)
  }

  // A value as the normaliser gives it back.
  function Normal(v: Value): Value {
    if v.RowValue? && v.row.Some? then RowValue(Some(Clamp(v.row.value, ANY_SCREEN))) else v
  }

  // What the normaliser returns, on some screen.
  predicate SafeDesktop(d: Desktop) {
    Distinct(Rows(d)) && SafeScalars(d.scalars) == d.scalars
  }

  lemma SafeIsSafe(input: Input, screen: Screen)
    ensures SafeDesktop(Safe(input, screen))
  {
    if input.layout.Some? { SafeRowsAreDistinct(FirstItems(input.layout.value), {}, screen); }
  }

  // --- Rows ---------------------------------------------------------------------------------------------------------

  lemma {:induction false} RowOfIs(rows: seq<Row>, app: App)
    requires Distinct(rows)
    ensures RowOf(rows, app).Some? ==> RowOf(rows, app).value in rows && RowOf(rows, app).value.app == app
    ensures forall i :: 0 <= i < |rows| && rows[i].app == app ==> RowOf(rows, app) == Some(rows[i])
  {
    if rows != [] && rows[|rows| - 1].app != app {
      var init := rows[..|rows| - 1];
      RowOfIs(init, app);
      forall i | 0 <= i < |rows| && rows[i].app == app
        ensures RowOf(rows, app) == Some(rows[i])
      {
        assert init[i] == rows[i];
      }
    } else {
    }
  }

  lemma DistinctRest(rows: seq<Row>)
    requires Distinct(rows) && rows != []
    ensures Distinct(rows[1..]) && rows[0].width > 0.0 && rows[0].height > 0.0
    ensures rows == [rows[0]] + rows[1..] && forall r :: r in rows[1..] ==> r.app != rows[0].app
  {
  }

  lemma {:induction false} SetRowSets(rows: seq<Row>, row: Row)
    requires Distinct(rows) && row.width > 0.0 && row.height > 0.0
    ensures Distinct(SetRow(rows, row))
    ensures forall r :: r in SetRow(rows, row) <==> r == row || (r in rows && r.app != row.app)
  {
    if rows == [] {
    } else {
      var first, rest := rows[0], rows[1..];
      DistinctRest(rows);
      hide Distinct;
      if first.app == row.app {
        DistinctFirst(row, rest);
      } else {
        SetRowSets(rest, row);
        DistinctFirst(first, SetRow(rest, row));
      }
    }
  }

  lemma {:induction false} DropRowDrops(rows: seq<Row>, app: App)
    requires Distinct(rows)
    ensures Distinct(DropRow(rows, app))
    ensures forall r :: r in DropRow(rows, app) <==> r in rows && r.app != app
  {
    if rows == [] {
    } else {
      var first, rest := rows[0], rows[1..];
      DistinctRest(rows);
      hide Distinct;
      if first.app != app {
        DropRowDrops(rest, app);
        DistinctFirst(first, DropRow(rest, app));
      }
    }
  }

  // Rows with the same members give every app the same row.
  lemma RowOfMember(rows: seq<Row>, app: App, r: Option<Row>)
    requires Distinct(rows)
    requires r.Some? ==> r.value in rows && r.value.app == app
    requires r.None? ==> forall row :: row in rows ==> row.app != app
    ensures RowOf(rows, app) == r
  {
    RowOfIs(rows, app);
  }

  lemma MergeRowMerges(rows: seq<Row>, before: seq<Row>, after: seq<Row>, app: App, other: App)
    requires Distinct(rows) && Distinct(after)
    ensures Distinct(MergeRow(rows, before, after, app))
    ensures RowOf(MergeRow(rows, before, after, app), other)
         == if other == app && RowOf(before, app) != RowOf(after, app) then RowOf(after, app) else RowOf(rows, other)
  {
    RowOfIs(after, app);
    RowOfIs(rows, other);
    var merged := MergeRow(rows, before, after, app);
    if RowOf(before, app) != RowOf(after, app) {
      if RowOf(after, app).Some? { SetRowSets(rows, RowOf(after, app).value); } else { DropRowDrops(rows, app); }
      RowOfMember(merged, other, if other == app then RowOf(after, app) else RowOf(rows, other));
    }
  }

  lemma {:induction false} MergeRowsMerges(rows: seq<Row>, before: seq<Row>, after: seq<Row>, apps: seq<App>, app: App)
    requires Distinct(rows) && Distinct(after)
    ensures Distinct(MergeRows(rows, before, after, apps))
    ensures RowOf(MergeRows(rows, before, after, apps), app)
         == if app in apps && RowOf(before, app) != RowOf(after, app) then RowOf(after, app) else RowOf(rows, app)
  {
    if apps == [] {
    } else {
      var init, last := apps[..|apps| - 1], apps[|apps| - 1];
      assert apps == init + [last];
      MergeRowsMerges(rows, before, after, init, app);
      MergeRowMerges(MergeRows(rows, before, after, init), before, after, last, app);
    }
  }

  lemma {:induction false} OneRowEach(rows: seq<Row>, apps: set<App>)
    requires Distinct(rows) && forall i :: 0 <= i < |rows| ==> rows[i].app in apps
    ensures |rows| <= |apps|
  {
    if rows == [] {
    } else {
      OneRowEach(rows[1..], apps - {rows[0].app});
    }
  }

  lemma DistinctAreFew(rows: seq<Row>)
    requires Distinct(rows)
    ensures |rows| <= ROW_LIMIT
  {
    var all := {Browser, Code, Preview, Settings};
    forall i | 0 <= i < |rows| ensures rows[i].app in all {
      match rows[i].app
      case Browser =>
      case Code =>
      case Preview =>
      case Settings =>
    }
    OneRowEach(rows, all);
  }

  lemma {:induction false} RowOfClamped(rows: seq<Row>, app: App)
    requires Distinct(rows)
    ensures RowValue(RowOf(seq(|rows|, i requires 0 <= i < |rows| => Clamp(rows[i], ANY_SCREEN)), app))
        == Normal(RowValue(RowOf(rows, app)))
  {
    var clamped := seq(|rows|, i requires 0 <= i < |rows| => Clamp(rows[i], ANY_SCREEN));
    RowOfIs(rows, app);
    if RowOf(rows, app).Some? {
      var i :| 0 <= i < |rows| && rows[i] == RowOf(rows, app).value;
      assert clamped[i].app == app;
      RowOfIs(clamped, app);
    } else {
      forall row | row in clamped ensures row.app != app {
        var i :| 0 <= i < |clamped| && clamped[i] == row;
        assert rows[i].app == row.app;
      }
      RowOfMember(clamped, app, None);
    }
  }

  // --- One save -----------------------------------------------------------------------------------------------------

  // A desktop written to the host is read back value by value.
  lemma WrittenIsSeen(d: Desktop, k: Key)
    requires SafeDesktop(d)
    ensures Seen(Again(d), k) == Normal(Of(d, k))
  {
    if k.RowKey? && d.layout.Some? {
      var rows := Rows(d);
      DistinctAreFew(rows);
      ReadDistinct(rows, {}, ANY_SCREEN);
      RowOfClamped(rows, k.app);
    }
  }

  datatype Save = Save(writer: nat, before: Desktop, after: Desktop, acknowledged: bool)

  predicate Changes(s: Save, k: Key) {
    Of(s.before, k) != Of(s.after, k)
  }

  lemma SeenIsNormal(host: Input, k: Key)
    ensures Normal(Seen(host, k)) == Seen(host, k)
  {
    if k.RowKey? && host.layout.Some? && Seen(host, k).row.Some? {
      SafeRowsAreDistinct(FirstItems(host.layout.value), {}, ANY_SCREEN);
      var rows := Rows(Safe(host, ANY_SCREEN));
      RowOfIs(rows, k.app);
      var i :| 0 <= i < |rows| && rows[i] == Seen(host, k).row.value;
      var item :| item in FirstItems(host.layout.value) && item.Item? && rows[i] == Clamp(item.row, ANY_SCREEN);
      ClampAgain(item.row, ANY_SCREEN);
    }
  }

  lemma MergedIsSafe(host: Input, s: Save)
    requires SafeDesktop(s.after)
    ensures SafeDesktop(Merge(host, s.before, s.after))
  {
    SafeIsSafe(host, ANY_SCREEN);
    MergeRowsMerges(Rows(Safe(host, ANY_SCREEN)), Rows(s.before), Rows(s.after), Apps(Rows(s.before) + Rows(s.after)),
                    Browser);
  }

  lemma {:induction false} RowOfEither(a: seq<Row>, b: seq<Row>, app: App)
    ensures RowOf(a + b, app) == if RowOf(b, app).Some? then RowOf(b, app) else RowOf(a, app)
  {
    if b == [] {
      assert a + b == a;
    } else {
      var init := b[..|b| - 1];
      assert (a + b)[..|a + b| - 1] == a + init;
      RowOfEither(a, init, app);
    }
  }

  /** One save gives each key its renderer's value if the renderer changed it, and leaves every other key as it was. */
  lemma SaveMovesOnlyChanges(host: Input, s: Save, k: Key)
    requires SafeDesktop(s.after)
    ensures Seen(Again(Merge(host, s.before, s.after)), k) == if Changes(s, k) then Normal(Of(s.after, k))
        else Seen(host, k)
  {
    MergedIsSafe(host, s);
    WrittenIsSeen(Merge(host, s.before, s.after), k);
    SafeIsSafe(host, ANY_SCREEN);
    SeenIsNormal(host, k);
    if k.RowKey? {
      RowOfEither(Rows(s.before), Rows(s.after), k.app);
      MergeRowsMerges(Rows(Safe(host, ANY_SCREEN)), Rows(s.before), Rows(s.after), Apps(Rows(s.before) + Rows(s.after)),
                      k.app);
    }
  }

  // --- Any number of saves ------------------------------------------------------------------------------------------

  function Applied(host: Input, saves: seq<Save>): Input {
    if saves == [] then host
    else
      var s := saves[|saves| - 1];
      Again(Merge(Applied(host, saves[..|saves| - 1]), s.before, s.after))
  }

  // The last save that changed `k`, or -1.
  function LastChange(saves: seq<Save>, k: Key): (i: int)
    ensures -1 <= i < |saves|
    ensures i >= 0 ==> Changes(saves[i], k)
    ensures forall j :: i < j < |saves| ==> !Changes(saves[j], k)
  {
    if saves == [] then -1
    else if Changes(saves[|saves| - 1], k) then |saves| - 1 else LastChange(saves[..|saves| - 1], k)
  }

  /**
   * After any saves, each key and each app's row is, up to the normaliser, the value of the last save by a renderer
   * that had changed it, or what the host held if none had: a key that a renderer did not touch is never overwritten.
   */
  lemma {:induction false} LastChangeWins(host: Input, saves: seq<Save>, k: Key)
    requires forall i :: 0 <= i < |saves| ==> SafeDesktop(saves[i].after)
    ensures var i := LastChange(saves, k);
      Seen(Applied(host, saves), k) == if i >= 0 then Normal(Of(saves[i].after, k)) else Seen(host, k)
  {
    hide Merge, Again, Seen, Normal, SafeDesktop, Changes, Of;
    if saves == [] {
    } else {
      var init := saves[..|saves| - 1];
      LastChangeWins(host, init, k);
      SaveMovesOnlyChanges(Applied(host, init), saves[|saves| - 1], k);
    }
  }

  // --- Runs with failures -------------------------------------------------------------------------------------------

  // `last` is the desktop this renderer believes is saved or about to be; `queue` are its saves not yet tried.
  datatype Renderer = Renderer(committed: Desktop, last: Option<Desktop>, queue: seq<Desktop>)

  // `starts` is what each renderer opened with; `applied` are the writes that reached the host.
  datatype Shared = Shared(host: Input, starts: map<nat, Desktop>, renderers: map<nat, Renderer>, applied: seq<Save>)

  // How the save at the head of a queue ends. A lost write has reached the host, but the renderer hears of a failure.
  datatype Outcome = ReadFails | WriteFails | WriteLost | Written

  datatype Turn =
    | Opens(r: nat, screen: Screen)
    | Flushes(r: nat, captured: Input, screen: Screen)
    | Saves(r: nat, outcome: Outcome)

  function Flush(x: Renderer, preferences: Desktop): Renderer {
    if x.last == Some(preferences) then x else x.(last := Some(preferences), queue := x.queue + [preferences])
  }

  function Settle(x: Renderer, written: bool): Renderer
    requires x.queue != []
  {
    var head := x.queue[0];
    if written then x.(queue := x.queue[1..], committed := head)
    else x.(queue := x.queue[1..], last := if x.last == Some(head) then None else x.last)
  }

  function Next(d: Shared, t: Turn): Shared {
    match t
    case Opens(r, screen) =>
      var preferences := Safe(d.host, screen);
      if r in d.renderers then d
      else d.(starts := d.starts[r := preferences],
              renderers := d.renderers[r := Renderer(preferences, Some(preferences), [])])
    case Flushes(r, captured, screen) =>
      if r !in d.renderers then d else d.(renderers := d.renderers[r := Flush(d.renderers[r], Safe(captured, screen))])
    case Saves(r, outcome) =>
      if r !in d.renderers || d.renderers[r].queue == [] then d
      else
        var x := d.renderers[r];
        var settled := d.(renderers := d.renderers[r := Settle(x, outcome.Written?)]);
        if outcome.ReadFails? || outcome.WriteFails? then settled
        else settled.(host := Again(Merge(d.host, x.committed, x.queue[0])),
                      applied := d.applied + [Save(r, x.committed, x.queue[0], outcome.Written?)])
  }

  function Run(host: Input, turns: seq<Turn>): Shared {
    if turns == [] then Shared(host, map[], map[], []) else Next(Run(host, turns[..|turns| - 1]), turns[|turns| - 1])
  }

  // What a renderer was last told is saved: its last acknowledged save, or what it opened with.
  function Told(saves: seq<Save>, r: nat, start: Desktop): Desktop {
    if saves == [] then start
    else if saves[|saves| - 1].writer == r && saves[|saves| - 1].acknowledged then saves[|saves| - 1].after
    else Told(saves[..|saves| - 1], r, start)
  }

  ghost predicate RendererSound(applied: seq<Save>, start: Desktop, r: nat, x: Renderer) {
    && (forall i :: 0 <= i < |x.queue| ==> SafeDesktop(x.queue[i]))
    && x.committed == Told(applied, r, start)
    // Nothing changed is forgotten: what is believed saved is the last in the queue, or has been committed.
    && (x.last.Some? ==> if x.queue != [] then x.last.value == x.queue[|x.queue| - 1] else x.last.value == x.committed)
  }

  ghost predicate RenderersSound(applied: seq<Save>, starts: map<nat, Desktop>, renderers: map<nat, Renderer>) {
    renderers.Keys == starts.Keys && forall r :: r in renderers ==> RendererSound(applied, starts[r], r, renderers[r])
  }

  // The save at `i` was measured against what its renderer had last been told.
  ghost predicate SaveSound(applied: seq<Save>, starts: map<nat, Desktop>, i: nat)
    requires i < |applied|
  {
    var s := applied[i];
    SafeDesktop(s.after) && s.writer in starts && s.before == Told(applied[..i], s.writer, starts[s.writer])
  }

  ghost predicate SavesSound(applied: seq<Save>, starts: map<nat, Desktop>) {
    forall i :: 0 <= i < |applied| ==> SaveSound(applied, starts, i)
  }

  ghost predicate Sound(init: Input, d: Shared) {
    && d.host == Applied(init, d.applied)
    && SavesSound(d.applied, d.starts)
    && RenderersSound(d.applied, d.starts, d.renderers)
  }

  lemma {:induction false} ToldNothing(saves: seq<Save>, r: nat, start: Desktop)
    requires forall i :: 0 <= i < |saves| ==> saves[i].writer != r
    ensures Told(saves, r, start) == start
  {
    if saves == [] {
    } else {
      ToldNothing(saves[..|saves| - 1], r, start);
    }
  }

  // A renderer that opens has written nothing yet.
  lemma NewcomerKeepsSaves(applied: seq<Save>, starts: map<nat, Desktop>, r: nat, p: Desktop)
    requires SavesSound(applied, starts) && r !in starts
    ensures SavesSound(applied, starts[r := p]) && Told(applied, r, p) == p
  {
    hide SafeDesktop;
    forall i | 0 <= i < |applied| ensures applied[i].writer != r && SaveSound(applied, starts[r := p], i) {
      assert SaveSound(applied, starts, i);
    }
    ToldNothing(applied, r, p);
  }

  lemma NewcomerKeepsRenderers(applied: seq<Save>, starts: map<nat, Desktop>, renderers: map<nat, Renderer>, r: nat,
                               p: Desktop)
    requires RenderersSound(applied, starts, renderers) && r !in renderers && Told(applied, r, p) == p
    ensures RenderersSound(applied, starts[r := p], renderers[r := Renderer(p, Some(p), [])])
  {
    hide SafeDesktop, Told;
    assert RendererSound(applied, p, r, Renderer(p, Some(p), []));
  }

  lemma OpensKeepsSound(init: Input, d: Shared, r: nat, screen: Screen)
    requires Sound(init, d)
    ensures Sound(init, Next(d, Opens(r, screen)))
  {
    assert d.renderers.Keys == d.starts.Keys;
    hide SavesSound, RenderersSound, Safe, Applied, Told;
    if r !in d.renderers {
      NewcomerKeepsSaves(d.applied, d.starts, r, Safe(d.host, screen));
      NewcomerKeepsRenderers(d.applied, d.starts, d.renderers, r, Safe(d.host, screen));
    }
  }

  lemma FlushKeepsSound(applied: seq<Save>, starts: map<nat, Desktop>, renderers: map<nat, Renderer>, r: nat,
                        p: Desktop)
    requires RenderersSound(applied, starts, renderers) && r in renderers && SafeDesktop(p)
    ensures RenderersSound(applied, starts, renderers[r := Flush(renderers[r], p)])
  {
    hide SafeDesktop, Told;
    assert RendererSound(applied, starts[r], r, renderers[r]);
  }

  lemma FailureKeepsSound(applied: seq<Save>, starts: map<nat, Desktop>, renderers: map<nat, Renderer>, r: nat)
    requires RenderersSound(applied, starts, renderers) && r in renderers && renderers[r].queue != []
    ensures RenderersSound(applied, starts, renderers[r := Settle(renderers[r], false)])
  {
    hide SafeDesktop, Told;
    assert RendererSound(applied, starts[r], r, renderers[r]);
  }

  lemma SavesStaySound(applied: seq<Save>, starts: map<nat, Desktop>, s: Save)
    requires SavesSound(applied, starts)
    requires s.writer in starts && SafeDesktop(s.after) && s.before == Told(applied, s.writer, starts[s.writer])
    ensures SavesSound(applied + [s], starts)
  {
    var after := applied + [s];
    forall i | 0 <= i < |after| ensures SaveSound(after, starts, i) {
      if i < |applied| {
        assert SaveSound(applied, starts, i);
        assert after[..i] == applied[..i];
      } else {
        assert after[..i] == applied;
      }
    }
  }

  // A save that is not acknowledged, or another renderer's, tells a renderer nothing.
  lemma ToldMore(saves: seq<Save>, s: Save, r: nat, start: Desktop)
    ensures Told(saves + [s], r, start) == if s.writer == r && s.acknowledged then s.after else Told(saves, r, start)
  {
    assert (saves + [s])[..|saves + [s]| - 1] == saves;
  }

  lemma WriteKeepsRenderers(applied: seq<Save>, starts: map<nat, Desktop>, renderers: map<nat, Renderer>, r: nat,
                            heard: bool)
    requires RenderersSound(applied, starts, renderers) && r in renderers && renderers[r].queue != []
    ensures var x := renderers[r];
      RenderersSound(applied + [Save(r, x.committed, x.queue[0], heard)], starts, renderers[r := Settle(x, heard)])
  {
    hide SafeDesktop;
    var x := renderers[r];
    var s := Save(r, x.committed, x.queue[0], heard);
    var after := renderers[r := Settle(x, heard)];
    forall q | q in after ensures RendererSound(applied + [s], starts[q], q, after[q]) {
      assert RendererSound(applied, starts[q], q, renderers[q]);
      ToldMore(applied, s, q, starts[q]);
    }
  }

  lemma AppliedMore(host: Input, saves: seq<Save>, s: Save)
    ensures Applied(host, saves + [s]) == Again(Merge(Applied(host, saves), s.before, s.after))
  {
    hide Merge, Again;
    assert (saves + [s])[..|saves + [s]| - 1] == saves;
  }

  lemma HeadIsReady(applied: seq<Save>, starts: map<nat, Desktop>, renderers: map<nat, Renderer>, r: nat)
    requires RenderersSound(applied, starts, renderers) && r in renderers && renderers[r].queue != []
    ensures r in starts && SafeDesktop(renderers[r].queue[0]) && renderers[r].committed == Told(applied, r, starts[r])
  {
    assert RendererSound(applied, starts[r], r, renderers[r]);
  }

  lemma WriteKeepsSound(init: Input, d: Shared, r: nat, heard: bool)
    requires Sound(init, d) && r in d.renderers && d.renderers[r].queue != []
    ensures Sound(init, Next(d, Saves(r, if heard then Written else WriteLost)))
  {
    hide SavesSound, RenderersSound, Merge, Settle, Applied, SafeDesktop, Told, Again;
    var x := d.renderers[r];
    var s := Save(r, x.committed, x.queue[0], heard);
    HeadIsReady(d.applied, d.starts, d.renderers, r);
    SavesStaySound(d.applied, d.starts, s);
    WriteKeepsRenderers(d.applied, d.starts, d.renderers, r, heard);
    AppliedMore(init, d.applied, s);
  }

  lemma NextKeepsSound(init: Input, d: Shared, t: Turn)
    requires Sound(init, d)
    ensures Sound(init, Next(d, t))
  {
    hide SavesSound, RenderersSound, Applied, Flush, Settle, Safe, Merge;
    match t
    case Opens(r, screen) => OpensKeepsSound(init, d, r, screen);
    case Flushes(r, captured, screen) =>
      SafeIsSafe(captured, screen);
      if r in d.renderers { FlushKeepsSound(d.applied, d.starts, d.renderers, r, Safe(captured, screen)); }
    case Saves(r, outcome) =>
      if r in d.renderers && d.renderers[r].queue != [] {
        match outcome
        case ReadFails => FailureKeepsSound(d.applied, d.starts, d.renderers, r);
        case WriteFails => FailureKeepsSound(d.applied, d.starts, d.renderers, r);
        case WriteLost => WriteKeepsSound(init, d, r, false);
        case Written => WriteKeepsSound(init, d, r, true);
      }
  }

  lemma {:induction false} EveryRunIsSound(init: Input, turns: seq<Turn>)
    ensures Sound(init, Run(init, turns))
  {
    if turns == [] {
    } else {
      EveryRunIsSound(init, turns[..|turns| - 1]);
      NextKeepsSound(init, Run(init, turns[..|turns| - 1]), turns[|turns| - 1]);
    }
  }

  /**
   * In every run of any renderers, whatever fails: each key is, up to the normaliser, the value of the last write by a
   * renderer whose value differed from the one it had last been told was saved, or the host's own if there was none.
   */
  lemma SavedIsLastChange(init: Input, turns: seq<Turn>, k: Key)
    ensures var d := Run(init, turns);
      var i := LastChange(d.applied, k);
      && Seen(d.host, k) == (if i >= 0 then Normal(Of(d.applied[i].after, k)) else Seen(init, k))
      && SavesSound(d.applied, d.starts)
  {
    EveryRunIsSound(init, turns);
    var d := Run(init, turns);
    forall i | 0 <= i < |d.applied|
      ensures SafeDesktop(d.applied[i].after)
    {
      assert SaveSound(d.applied, d.starts, i);
    }
    LastChangeWins(init, d.applied, k);
  }

  /**
   * A failed save is not forgotten: in every run, a renderer with nothing queued skips a capture only if exactly that
   * desktop has been acknowledged as saved, or is the one it opened with.
   */
  lemma SkippedIsSaved(init: Input, turns: seq<Turn>, r: nat, captured: Input, screen: Screen)
    requires var d := Run(init, turns); r in d.renderers && d.renderers[r].queue == []
    requires var d := Run(init, turns); Next(d, Flushes(r, captured, screen)) == d
    ensures var d := Run(init, turns);
      r in d.starts && Safe(captured, screen) == Told(d.applied, r, d.starts[r])
  {
    EveryRunIsSound(init, turns);
    var d := Run(init, turns);
    assert RendererSound(d.applied, d.starts[r], r, d.renderers[r]);
    assert Next(d, Flushes(r, captured, screen)).renderers[r] == Flush(d.renderers[r], Safe(captured, screen));
  }
}
