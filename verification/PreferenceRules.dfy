/**
 * What the normaliser keeps of a saved desktop and how it places each row, told with its numbers and names.
 */
module PreferenceRules {
  import opened Options
  import opened Preferences

  /** Of the single settings exactly those on the lists and within the bounds are kept, each as it was. */
  lemma SettingsKept(input: Input, screen: Screen)
    ensures var was, now := input.scalars, Safe(input, screen).scalars;
      && (forall w :: now.wallpaper == Some(w) <==>
            was.wallpaper == Some(w) && w in ["horizon", "charcoal", "teal-dusk", "deep-slate", "aurora"])
      && (forall a :: now.accent == Some(a) <==> was.accent == Some(a) && a in ["teal", "violet", "amber", "rose"])
      && (forall p :: now.port == Some(p) <==> was.port == Some(p) && 1024 <= p < 65536)
      && (forall t :: now.browser == Some(t) <==>
            was.browser == Some(t) && 0 < |t.urls| < 21 && 0 <= t.active < |t.urls|)
  {
  }

  // --- Which rows ---------------------------------------------------------------------------------------------------

  // A row of a known app with an area.
  predicate HasArea(item: Item) {
    item.Item? && item.row.width > 0.0 && item.row.height > 0.0
  }

  // The first row with an area of its app, among the first twenty.
  predicate Chosen(items: seq<Item>, k: nat) {
    && k < |items| && k < 20 && HasArea(items[k])
    && forall j :: 0 <= j < k ==> !(HasArea(items[j]) && items[j].row.app == items[k].row.app)
  }

  // The chosen positions, in order.
  ghost predicate Choice(items: seq<Item>, at: seq<nat>) {
    && (forall i, j :: 0 <= i < j < |at| ==> at[i] < at[j])
    && (forall k: nat :: k in at <==> Chosen(items, k))
  }

  // --- Where a row goes ---------------------------------------------------------------------------------------------

  // A length asked for, at least `least`, within `room`, and at least 1 whatever the room.
  function Length(asked: real, least: real, room: real): real {
    var most := if room < 1.0 then 1.0 else room;
    if most <= least || most <= asked then most else if asked < least then least else asked
  }

  // A position asked for, from 0 to where the length still fits.
  function Position(asked: real, length: real, room: real): real {
    if asked <= 0.0 || room <= length then 0.0 else if room - length < asked then room - length else asked
  }

  // At least 240 by 160, and 64 points below are kept free.
  predicate Fits(row: Row, fit: Row, screen: Screen) {
    && fit.app == row.app && fit.minimized == row.minimized
    && fit.width == Length(row.width, 240.0, screen.width)
    && fit.height == Length(row.height, 160.0, screen.height - 64.0)
    && fit.x == Position(row.x, fit.width, screen.width)
    && fit.y == Position(row.y, fit.height, screen.height - 64.0)
  }

  ghost predicate Placed(items: seq<Item>, at: seq<nat>, rows: seq<Row>, screen: Screen) {
    && |at| == |rows|
    && forall i :: 0 <= i < |at| ==> at[i] < |items| && items[at[i]].Item? && Fits(items[at[i]].row, rows[i], screen)
  }

  lemma ClampFits(row: Row, screen: Screen)
    ensures Fits(row, Clamp(row, screen), screen)
  {
  }

  // The rows that remain once `n` items are behind and their apps are `seen`.
  ghost predicate SeenBy(items: seq<Item>, n: nat, seen: set<App>)
    requires n <= |items|
  {
    forall app :: app in seen <==> exists j :: 0 <= j < n && HasArea(items[j]) && items[j].row.app == app
  }

  // The chosen positions from `n` on.
  ghost predicate ChoiceFrom(items: seq<Item>, n: nat, at: seq<nat>) {
    && (forall i, j :: 0 <= i < j < |at| ==> at[i] < at[j])
    && (forall k: nat :: k in at <==> n <= k && Chosen(items, k))
  }

  lemma {:induction false} RowsFrom(items: seq<Item>, n: nat, seen: set<App>, screen: Screen) returns (at: seq<nat>)
    requires n <= |items| <= 20 && SeenBy(items, n, seen)
    ensures ChoiceFrom(items, n, at) && Placed(items, at, SafeRows(items[n..], seen, screen), screen)
    decreases |items| - n
  {
    if n == |items| {
      at := [];
    } else {
      hide Clamp, Fits, ChoiceFrom, Placed, Usable, Chosen, SeenBy;
      assert items[n..][1..] == items[n + 1..];
      if Usable(items[n], seen) {
        var more := seen + {items[n].row.app};
        SeenNow(items, n, seen, more);
        var rest := RowsFrom(items, n + 1, more, screen);
        at := [n] + rest;
        ChosenFirst(items, n, rest);
        PlacedFirst(items, n, rest, SafeRows(items[n + 1..], more, screen), screen);
      } else {
        SeenNow(items, n, seen, seen);
        at := RowsFrom(items, n + 1, seen, screen);
        NotChosenFirst(items, n, at);
      }
    }
  }

  lemma ChosenFirst(items: seq<Item>, n: nat, rest: seq<nat>)
    requires ChoiceFrom(items, n + 1, rest) && Chosen(items, n)
    ensures ChoiceFrom(items, n, [n] + rest)
  {
    hide Chosen;
    var at := [n] + rest;
    forall i, j | 0 <= i < j < |at|
      ensures at[i] < at[j]
    {
      assert at[j] == rest[j - 1] && rest[j - 1] in rest;
      if i > 0 {
        assert at[i] == rest[i - 1];
      }
    }
    forall k: nat
      ensures k in at <==> n <= k && Chosen(items, k)
    {
      assert k in at <==> k == n || k in rest;
    }
  }

  lemma NotChosenFirst(items: seq<Item>, n: nat, at: seq<nat>)
    requires ChoiceFrom(items, n + 1, at) && !Chosen(items, n)
    ensures ChoiceFrom(items, n, at)
  {
    hide Chosen;
  }

  lemma PlacedFirst(items: seq<Item>, n: nat, rest: seq<nat>, rows: seq<Row>, screen: Screen)
    requires n < |items| && items[n].Item? && Placed(items, rest, rows, screen)
    ensures Placed(items, [n] + rest, [Clamp(items[n].row, screen)] + rows, screen)
  {
    ClampFits(items[n].row, screen);
    hide Clamp, Fits;
    var at, all := [n] + rest, [Clamp(items[n].row, screen)] + rows;
    assert forall i :: 0 < i < |at| ==> at[i] == rest[i - 1] && all[i] == rows[i - 1];
  }

  lemma SeenNow(items: seq<Item>, n: nat, seen: set<App>, more: set<App>)
    requires n < |items| <= 20 && SeenBy(items, n, seen)
    requires more == if Usable(items[n], seen) then seen + {items[n].row.app} else seen
    ensures SeenBy(items, n + 1, more)
    ensures Chosen(items, n) <==> Usable(items[n], seen)
    ensures Usable(items[n], seen) ==> items[n].Item?
  {
  }

  /** The rows kept are, in order, the first with an area of each app among the first twenty, each fit to the screen. */
  lemma RowsKept(input: Input, screen: Screen)
    ensures var rows := Safe(input, screen).layout;
      match input.layout
      case None => rows.None?
      case Some(items) => rows.Some? && exists at :: Choice(items, at) && Placed(items, at, rows.value, screen)
  {
    if input.layout.Some? {
      var items := input.layout.value;
      var first := FirstItems(items);
      var at := RowsFrom(first, 0, {}, screen);
      assert first[0..] == first;
      hide Clamp, Fits, SafeRows;
      assert forall k: nat :: Chosen(first, k) <==> Chosen(items, k);
      assert Choice(items, at) && Placed(items, at, SafeRows(first, {}, screen), screen);
    }
  }

  // --- The order of the merged rows ---------------------------------------------------------------------------------

  function Names(rows: seq<Row>): seq<App> {
    if rows == [] then [] else [rows[0].app] + Names(rows[1..])
  }

  predicate Once(names: seq<App>) {
    forall i, j :: 0 <= i < j < |names| ==> names[i] != names[j]
  }

  // The renderer closed the app; or gave it a row, new or changed.
  predicate Closed(before: seq<Row>, after: seq<Row>, app: App) {
    RowOf(before, app).Some? && RowOf(after, app).None?
  }

  predicate Gave(before: seq<Row>, after: seq<Row>, app: App) {
    RowOf(after, app).Some? && RowOf(after, app) != RowOf(before, app)
  }

  // The names that are left, in order, once the apps of `done` that were closed are gone.
  function Left(names: seq<App>, before: seq<Row>, after: seq<Row>, done: seq<App>): seq<App> {
    if names == [] then []
    else if names[0] in done && Closed(before, after, names[0]) then Left(names[1..], before, after, done)
    else [names[0]] + Left(names[1..], before, after, done)
  }

  // The apps of `done` that were given a row and had none in `names`.
  function Added(names: seq<App>, before: seq<Row>, after: seq<Row>, done: seq<App>): seq<App> {
    if done == [] then []
    else
      var n := |done| - 1;
      Added(names, before, after, done[..n])
      + if Gave(before, after, done[n]) && done[n] !in names then [done[n]] else []
  }

  lemma {:induction false} LeftHas(names: seq<App>, before: seq<Row>, after: seq<Row>, done: seq<App>, app: App)
    ensures app in Left(names, before, after, done) <==> app in names && !(app in done && Closed(before, after, app))
  {
    if names == [] {
    } else {
      LeftHas(names[1..], before, after, done, app);
    }
  }

  lemma {:induction false} AddedHas(names: seq<App>, before: seq<Row>, after: seq<Row>, done: seq<App>, app: App)
    ensures app in Added(names, before, after, done) <==> app in done && Gave(before, after, app) && app !in names
  {
    if done == [] {
    } else {
      var n := |done| - 1;
      AddedHas(names, before, after, done[..n], app);
      assert done == done[..n] + [done[n]];
    }
  }

  // A name taken out wherever it stands.
  function Except(names: seq<App>, app: App): seq<App> {
    if names == [] then []
    else if names[0] == app then Except(names[1..], app) else [names[0]] + Except(names[1..], app)
  }

  lemma {:induction false} LeftMore(names: seq<App>, before: seq<Row>, after: seq<Row>, done: seq<App>, app: App)
    ensures Left(names, before, after, done + [app])
         == if Closed(before, after, app) then Except(Left(names, before, after, done), app)
            else Left(names, before, after, done)
  {
    if names == [] {
    } else {
      LeftMore(names[1..], before, after, done, app);
      hide Closed;
    }
  }

  lemma {:induction false} ExceptAbsent(names: seq<App>, app: App)
    requires app !in names
    ensures Except(names, app) == names
  {
    if names == [] {
    } else {
      ExceptAbsent(names[1..], app);
    }
  }

  lemma {:induction false} ExceptSum(a: seq<App>, b: seq<App>, app: App)
    ensures Except(a + b, app) == Except(a, app) + Except(b, app)
  {
    if a == [] {
      assert a + b == b;
    } else {
      assert (a + b)[1..] == a[1..] + b;
      ExceptSum(a[1..], b, app);
    }
  }

  lemma OnceTail(names: seq<App>)
    requires Once(names) && names != []
    ensures Once(names[1..]) && names[0] !in names[1..]
  {
  }

  lemma OnceMore(first: App, rest: seq<App>)
    requires Once(rest) && first !in rest
    ensures Once([first] + rest)
  {
  }

  lemma OnceInit(init: seq<App>, last: App)
    requires Once(init + [last])
    ensures Once(init) && last !in init
  {
    var names := init + [last];
    assert forall i :: 0 <= i < |init| ==> names[i] == init[i];
    assert names[|init|] == last;
  }

  lemma {:induction false} SetNames(rows: seq<Row>, row: Row)
    ensures Names(SetRow(rows, row))
         == if row.app in Names(rows) then Names(rows) else Names(rows) + [row.app]
  {
    if rows == [] {
    } else {
      SetNames(rows[1..], row);
    }
  }

  lemma {:induction false} DropNames(rows: seq<Row>, app: App)
    requires Once(Names(rows))
    ensures Names(DropRow(rows, app)) == Except(Names(rows), app)
  {
    if rows == [] {
    } else {
      assert Names(rows)[1..] == Names(rows[1..]);
      OnceTail(Names(rows));
      if rows[0].app == app {
        ExceptAbsent(Names(rows[1..]), app);
      } else {
        DropNames(rows[1..], app);
      }
    }
  }

  lemma {:induction false} MergedNames(rows: seq<Row>, before: seq<Row>, after: seq<Row>, done: seq<App>)
    requires Once(Names(rows)) && Once(done)
    ensures var names := Names(MergeRows(rows, before, after, done));
      names == Left(Names(rows), before, after, done) + Added(Names(rows), before, after, done) && Once(names)
  {
    if done == [] {
      NothingLeft(Names(rows), before, after);
      assert Names(rows) + [] == Names(rows);
    } else {
      hide Left, Added, Once, MergeRow, Closed, Gave, Except, Names;
      var n := |done| - 1;
      var init, app := done[..n], done[n];
      assert done == init + [app];
      OnceInit(init, app);
      MergedNames(rows, before, after, init);
      MergeOneName(MergeRows(rows, before, after, init), before, after, app);
      NamesStep(Names(rows), Names(MergeRows(rows, before, after, init)), before, after, init, app);
    }
  }

  // One more app merged takes one name out, adds one at the end, or neither.
  lemma NamesStep(held: seq<App>, names: seq<App>, before: seq<Row>, after: seq<Row>, init: seq<App>, app: App)
    requires names == Left(held, before, after, init) + Added(held, before, after, init) && app !in init
    ensures Left(held, before, after, init + [app]) + Added(held, before, after, init + [app])
         == if Closed(before, after, app) then Except(names, app)
            else if Gave(before, after, app) && app !in names then names + [app]
            else names
  {
    hide Left, Added, Closed, Except, Gave, Once;
    ClosedIsNotGiven(before, after, app);
    LeftMore(held, before, after, init, app);
    AddedMore(held, before, after, init, app);
    AddedHas(held, before, after, init, app);
    FreshName(held, before, after, init, app);
    JoinNames(Left(held, before, after, init), Added(held, before, after, init), app, Closed(before, after, app),
              Gave(before, after, app) && app !in held);
  }

  lemma ClosedIsNotGiven(before: seq<Row>, after: seq<Row>, app: App)
    ensures Closed(before, after, app) ==> !Gave(before, after, app)
  {
  }

  lemma FreshName(held: seq<App>, before: seq<Row>, after: seq<Row>, init: seq<App>, app: App)
    requires app !in init
    ensures app in Left(held, before, after, init) + Added(held, before, after, init) <==> app in held
  {
    hide Left, Added, Closed, Gave;
    LeftHas(held, before, after, init, app);
    AddedHas(held, before, after, init, app);
  }

  lemma JoinNames(left: seq<App>, added: seq<App>, app: App, closed: bool, gained: bool)
    requires app !in added && !(closed && gained)
    ensures (if closed then Except(left, app) else left) + (added + if gained then [app] else [])
         == if closed then Except(left + added, app)
            else if gained then (left + added) + [app]
            else left + added
  {
    hide Except;
    if closed {
      ExceptSum(left, added, app);
      ExceptAbsent(added, app);
    }
  }

  lemma AddedMore(names: seq<App>, before: seq<Row>, after: seq<Row>, done: seq<App>, app: App)
    ensures Added(names, before, after, done + [app])
         == Added(names, before, after, done) + if Gave(before, after, app) && app !in names then [app] else []
  {
    assert (done + [app])[..|done|] == done;
  }

  lemma {:induction false} NothingLeft(names: seq<App>, before: seq<Row>, after: seq<Row>)
    ensures Left(names, before, after, []) == names
  {
    if names == [] {
    } else {
      NothingLeft(names[1..], before, after);
    }
  }

  lemma MergeOneName(rows: seq<Row>, before: seq<Row>, after: seq<Row>, app: App)
    requires Once(Names(rows))
    ensures var names := Names(MergeRow(rows, before, after, app));
      && names == (if Closed(before, after, app) then Except(Names(rows), app)
                   else if Gave(before, after, app) && app !in Names(rows) then Names(rows) + [app]
                   else Names(rows))
      && Once(names)
  {
    if RowOf(after, app).Some? {
      RowOfIs(after, app);
      SetNames(rows, RowOf(after, app).value);
    }
    DropNames(rows, app);
    ExceptOnce(Names(rows), app);
  }

  lemma {:induction false} RowOfIs(rows: seq<Row>, app: App)
    ensures RowOf(rows, app).Some? ==> RowOf(rows, app).value.app == app
  {
    if rows == [] {
    } else {
      RowOfIs(rows[..|rows| - 1], app);
    }
  }

  lemma {:induction false} ExceptOnce(names: seq<App>, app: App)
    requires Once(names)
    ensures Once(Except(names, app)) && forall a :: a in Except(names, app) ==> a in names
  {
    if names == [] {
    } else {
      OnceTail(names);
      ExceptOnce(names[1..], app);
      if names[0] != app {
        OnceMore(names[0], Except(names[1..], app));
      }
    }
  }

  lemma {:induction false} NamesOnce(rows: seq<Row>)
    requires Distinct(rows)
    ensures Once(Names(rows)) && forall a :: a in Names(rows) <==> exists i :: 0 <= i < |rows| && rows[i].app == a
  {
    if rows == [] {
    } else {
      NamesOnce(rows[1..]);
      OnceMore(rows[0].app, Names(rows[1..]));
    }
  }

  /**
   * The merged rows stand in the host's order without the apps this renderer closed; those it gave a row that the host
   * did not hold come after, in the order in which its old and new layouts first name them.
   */
  lemma MergedOrder(latest: Input, before: Desktop, after: Desktop)
    ensures var held, b, a := Rows(Safe(latest, ANY_SCREEN)), Rows(before), Rows(after);
      var done := Apps(b + a);
      Names(Rows(Merge(latest, before, after))) == Left(Names(held), b, a, done) + Added(Names(held), b, a, done)
  {
    if latest.layout.Some? {
      SafeRowsAreDistinct(FirstItems(latest.layout.value), {}, ANY_SCREEN);
    }
    hide Clamp, SafeRows;
    NamesOnce(Rows(Safe(latest, ANY_SCREEN)));
    MergedNames(Rows(Safe(latest, ANY_SCREEN)), Rows(before), Rows(after), Apps(Rows(before) + Rows(after)));
  }
}
