/**
 * The saved native desktop (shell/ezil/native-persistence.js): the normaliser every read and write goes through, and
 * the three-way merge of one renderer's changes into what the host holds.
 */
module Preferences {
  import opened Options

  datatype App = Browser | Code | Preview | Settings

  datatype Tabs = Tabs(urls: seq<string>, active: int)

  datatype Row = Row(app: App, x: real, y: real, width: real, height: real, minimized: bool)

  // Anything but a row of a known app with finite numbers is junk.
  datatype Item = Junk | Item(row: Row)

  datatype Scalars = Scalars(wallpaper: Option<string>, accent: Option<string>, port: Option<int>,
                             browser: Option<Tabs>)

  datatype Input = Input(scalars: Scalars, layout: Option<seq<Item>>)

  datatype Desktop = Desktop(scalars: Scalars, layout: Option<seq<Row>>)

  datatype Screen = Screen(width: real, height: real)

  // The merge reads with a screen that nothing is too large for.
  const ANY_SCREEN := Screen(9007199254740991.0, 9007199254740991.0)

  const ROW_LIMIT: nat := 20

  // --- The normaliser -----------------------------------------------------------------------------------------------

  predicate Wallpaper(s: string) { s in {"horizon", "charcoal", "teal-dusk", "deep-slate", "aurora"} }

  predicate Accent(s: string) { s in {"teal", "violet", "amber", "rose"} }

  predicate SafeTabs(t: Tabs) {
    1 <= |t.urls| <= 20 && 0 <= t.active < |t.urls|
  }

  function SafeScalars(s: Scalars): Scalars {
    Scalars(if s.wallpaper.Some? && Wallpaper(s.wallpaper.value) then s.wallpaper else None,
            if s.accent.Some? && Accent(s.accent.value) then s.accent else None,
            if s.port.Some? && 1024 <= s.port.value <= 65535 then s.port else None,
            if s.browser.Some? && SafeTabs(s.browser.value) then s.browser else None)
  }

  function Min(a: real, b: real): real { if a <= b then a else b }

  function Max(a: real, b: real): real { if a >= b then a else b }

  function Clamp(row: Row, screen: Screen): Row {
    var w := Min(Max(1.0, screen.width), Max(240.0, row.width));
    var h := Min(Max(1.0, screen.height - 64.0), Max(160.0, row.height));
    Row(row.app, Max(0.0, Min(screen.width - w, row.x)), Max(0.0, Min(screen.height - 64.0 - h, row.y)), w, h,
        row.minimized)
  }

  predicate Usable(item: Item, seen: set<App>) {
    item.Item? && item.row.app !in seen && item.row.width > 0.0 && item.row.height > 0.0
  }

  function SafeRows(items: seq<Item>, seen: set<App>, screen: Screen): seq<Row> {
    if items == [] then []
    else if !Usable(items[0], seen) then SafeRows(items[1..], seen, screen)
    else [Clamp(items[0].row, screen)] + SafeRows(items[1..], seen + {items[0].row.app}, screen)
  }

  function FirstItems(items: seq<Item>): seq<Item> {
    if |items| > ROW_LIMIT then items[..ROW_LIMIT] else items
  }

  function Safe(input: Input, screen: Screen): Desktop {
    Desktop(SafeScalars(input.scalars),
            if input.layout.Some? then Some(SafeRows(FirstItems(input.layout.value), {}, screen)) else None)
  }

  function Items(rows: seq<Row>): (items: seq<Item>)
    ensures |items| == |rows| && forall i :: 0 <= i < |rows| ==> items[i] == Item(rows[i])
  {
    seq(|rows|, i requires 0 <= i < |rows| => Item(rows[i]))
  }

  // What a saved desktop is when it is read again.
  function Again(d: Desktop): Input {
    Input(d.scalars, if d.layout.Some? then Some(Items(d.layout.value)) else None)
  }

  method SafeDesktopPreferences(input: Input, screen: Screen) returns (d: Desktop)
    ensures d == Safe(input, screen)
  {
    var rows: seq<Row> := [];
    if input.layout.Some? {
      var items := FirstItems(input.layout.value);
      var seen: set<App> := {};
      for i := 0 to |items|
        invariant rows + SafeRows(items[i..], seen, screen) == SafeRows(items, {}, screen)
      {
        assert items[i..][1..] == items[i + 1..];
        if Usable(items[i], seen) {
          seen := seen + {items[i].row.app};
          rows := rows + [Clamp(items[i].row, screen)];
        }
      }
      assert items[|items|..] == [];
      assert rows == SafeRows(items, {}, screen);
    }
    return Desktop(SafeScalars(input.scalars), if input.layout.Some? then Some(rows) else None);
  }

  // One row an app, each of some size.
  predicate Distinct(rows: seq<Row>) {
    && (forall i, j :: 0 <= i < j < |rows| ==> rows[i].app != rows[j].app)
    && (forall i :: 0 <= i < |rows| ==> rows[i].width > 0.0 && rows[i].height > 0.0)
  }

  lemma DistinctFirst(row: Row, rows: seq<Row>)
    requires Distinct(rows) && row.width > 0.0 && row.height > 0.0 && forall r :: r in rows ==> r.app != row.app
    ensures Distinct([row] + rows)
  {
  }

  // The row of an item, on the screen.
  predicate FromItem(row: Row, items: seq<Item>, screen: Screen) {
    exists i :: 0 <= i < |items| && items[i].Item? && row == Clamp(items[i].row, screen)
  }

  predicate FromItems(rows: seq<Row>, items: seq<Item>, screen: Screen) {
    forall i :: 0 <= i < |rows| ==> FromItem(rows[i], items, screen)
  }

  lemma FromMoreItems(rows: seq<Row>, first: Item, items: seq<Item>, screen: Screen)
    requires FromItems(rows, items, screen)
    ensures FromItems(rows, [first] + items, screen)
    ensures first.Item? ==> FromItems([Clamp(first.row, screen)] + rows, [first] + items, screen)
  {
    var all := [first] + items;
    forall i | 0 <= i < |rows| ensures FromItem(rows[i], all, screen) {
      assert FromItem(rows[i], items, screen);
      var k :| 0 <= k < |items| && items[k].Item? && rows[i] == Clamp(items[k].row, screen);
      assert all[k + 1] == items[k];
    }
    if first.Item? {
      assert all[0] == first;
      assert FromItem(Clamp(first.row, screen), all, screen);
    }
  }

  lemma {:induction false} SafeRowsAreDistinct(items: seq<Item>, seen: set<App>, screen: Screen)
    ensures Distinct(SafeRows(items, seen, screen))
    ensures forall i :: 0 <= i < |SafeRows(items, seen, screen)| ==> SafeRows(items, seen, screen)[i].app !in seen
    ensures |SafeRows(items, seen, screen)| <= |items|
    ensures FromItems(SafeRows(items, seen, screen), items, screen)
  {
    if items == [] {
    } else {
      var first, rest := items[0], items[1..];
      assert items == [first] + rest;
      if Usable(first, seen) {
        var more := seen + {first.row.app};
        SafeRowsAreDistinct(rest, more, screen);
        FromMoreItems(SafeRows(rest, more, screen), first, rest, screen);
        hide FromItems, Distinct;
        DistinctFirst(Clamp(first.row, screen), SafeRows(rest, more, screen));
      } else {
        SafeRowsAreDistinct(rest, seen, screen);
        FromMoreItems(SafeRows(rest, seen, screen), first, rest, screen);
      }
    }
  }

  lemma ClampAgain(row: Row, screen: Screen)
    ensures Clamp(Clamp(row, screen), screen) == Clamp(row, screen)
  {
  }

  predicate Within(row: Row, screen: Screen) {
    0.0 <= row.x && row.x + row.width <= screen.width && 0.0 <= row.y && row.y + row.height <= screen.height - 64.0
  }

  // A screen wide and tall enough for one point beside the 64 points kept free.
  predicate HoldsARow(screen: Screen) {
    screen.width >= 1.0 && screen.height >= 65.0
  }

  /** A normalised row lies within the screen exactly when the screen can hold a row at all. */
  lemma ClampedIsWithin(row: Row, screen: Screen)
    ensures Within(Clamp(row, screen), screen) <==> HoldsARow(screen)
  {
  }

  lemma {:induction false} ReadDistinct(rows: seq<Row>, seen: set<App>, screen: Screen)
    requires Distinct(rows) && forall i :: 0 <= i < |rows| ==> rows[i].app !in seen
    ensures SafeRows(Items(rows), seen, screen) == seq(|rows|, i requires 0 <= i < |rows| => Clamp(rows[i], screen))
  {
    if rows == [] {
    } else {
      assert Items(rows)[1..] == Items(rows[1..]);
      ReadDistinct(rows[1..], seen + {rows[0].app}, screen);
    }
  }

  /** Normalising twice is normalising once, on any screen; and every normalised row fits a screen that can hold one. */
  lemma SafeIsIdempotent(input: Input, screen: Screen)
    ensures Safe(Again(Safe(input, screen)), screen) == Safe(input, screen)
    ensures HoldsARow(screen) && input.layout.Some? ==>
      forall i :: 0 <= i < |Safe(input, screen).layout.value| ==> Within(Safe(input, screen).layout.value[i], screen)
  {
    if input.layout.Some? {
      var items := FirstItems(input.layout.value);
      var rows := SafeRows(items, {}, screen);
      SafeRowsAreDistinct(items, {}, screen);
      ReadDistinct(rows, {}, screen);
      forall i | 0 <= i < |rows|
        ensures Clamp(rows[i], screen) == rows[i] && (HoldsARow(screen) ==> Within(rows[i], screen))
      {
        var item :| item in items && item.Item? && rows[i] == Clamp(item.row, screen);
        ClampAgain(item.row, screen);
        ClampedIsWithin(item.row, screen);
      }
      assert seq(|rows|, i requires 0 <= i < |rows| => Clamp(rows[i], screen)) == rows;
      assert FirstItems(Items(rows)) == Items(rows);
    }
  }

  // --- The merge ----------------------------------------------------------------------------------------------------

  function Rows(d: Desktop): seq<Row> {
    if d.layout.Some? then d.layout.value else []
  }

  // The row of an app, the last if there were several.
  function RowOf(rows: seq<Row>, app: App): Option<Row> {
    if rows == [] then None
    else if rows[|rows| - 1].app == app then Some(rows[|rows| - 1]) else RowOf(rows[..|rows| - 1], app)
  }

  // Setting keeps an app's place, or adds it at the end.
  function SetRow(rows: seq<Row>, row: Row): seq<Row> {
    if rows == [] then [row]
    else if rows[0].app == row.app then [row] + rows[1..]
    else [rows[0]] + SetRow(rows[1..], row)
  }

  function DropRow(rows: seq<Row>, app: App): seq<Row> {
    if rows == [] then []
    else if rows[0].app == app then rows[1..] else [rows[0]] + DropRow(rows[1..], app)
  }

  function MergeRow(rows: seq<Row>, before: seq<Row>, after: seq<Row>, app: App): seq<Row> {
    if RowOf(before, app) == RowOf(after, app) then rows
    else if RowOf(after, app).Some? then SetRow(rows, RowOf(after, app).value)
    else DropRow(rows, app)
  }

  function MergeRows(rows: seq<Row>, before: seq<Row>, after: seq<Row>, apps: seq<App>): seq<Row> {
    if apps == [] then rows
    else MergeRow(MergeRows(rows, before, after, apps[..|apps| - 1]), before, after, apps[|apps| - 1])
  }

  function Pick<T(==)>(latest: Option<T>, before: Option<T>, after: Option<T>): Option<T> {
    if after == before then latest else after
  }

  function MergeScalars(latest: Scalars, before: Scalars, after: Scalars): Scalars {
    Scalars(Pick(latest.wallpaper, before.wallpaper, after.wallpaper), Pick(latest.accent, before.accent, after.accent),
            Pick(latest.port, before.port, after.port), Pick(latest.browser, before.browser, after.browser))
  }

  // Each app once, in the order it first appears.
  function Apps(rows: seq<Row>): (apps: seq<App>)
    ensures forall app :: app in apps <==> RowOf(rows, app).Some?
    ensures forall i, j :: 0 <= i < j < |apps| ==> apps[i] != apps[j]
  {
    if rows == [] then []
    else
      var apps, app := Apps(rows[..|rows| - 1]), rows[|rows| - 1].app;
      if app in apps then apps else apps + [app]
  }

  // A renderer's changes, from what it last committed to what it has now, on top of what the host holds.
  function Merge(latest: Input, before: Desktop, after: Desktop): Desktop {
    var held := Safe(latest, ANY_SCREEN);
    Desktop(MergeScalars(held.scalars, before.scalars, after.scalars),
            Some(MergeRows(Rows(held), Rows(before), Rows(after), Apps(Rows(before) + Rows(after)))))
  }

  method MergeInto(latest: Input, before: Desktop, after: Desktop) returns (merged: Desktop)
    ensures merged == Merge(latest, before, after)
  {
    var held := SafeDesktopPreferences(latest, ANY_SCREEN);
    var rows := Rows(held);
    var apps := Apps(Rows(before) + Rows(after));
    for i := 0 to |apps|
      invariant rows == MergeRows(Rows(held), Rows(before), Rows(after), apps[..i])
    {
      assert apps[..i + 1][..i] == apps[..i];
      var app := apps[i];
      if RowOf(Rows(before), app) != RowOf(Rows(after), app) {
        if RowOf(Rows(after), app).Some? {
          rows := SetRow(rows, RowOf(Rows(after), app).value);
        } else {
          rows := DropRow(rows, app);
        }
      }
    }
    assert apps[..|apps|] == apps;
    merged := Desktop(MergeScalars(held.scalars, before.scalars, after.scalars), Some(rows));
  }
}
