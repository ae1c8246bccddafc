/**
 * The owner of the tab's address bar (shell/ezil/app-history.js), on values: what each event does to the numbers
 * that arbitrate between pending launches, to the browser's history, and to the parameters it remembers.
 */
module AppHistory {
  import opened Options

  type App = string
  type WindowId = nat
  type RouteId = nat

  datatype View = FullScreen | Windowed

  // What `parseAppLink` reads as the app, and the rest of the spelling.
  datatype Url = Url(app: Option<App>, query: string)

  // `rest` stands for every key this module does not know.
  datatype State = State(app: Option<App>, view: Option<View>, rest: string)

  datatype Entry = Entry(url: Url, state: State)

  // The open windows with the view each shows, and the app in front.
  datatype Screen = Screen(open: map<App, Option<View>>, front: Option<App>)

  // An app's parameters. Every write stores a new object, so an object is told from its equals by its stamp.
  datatype Params = Params(stamp: nat, query: string)

  // What a click's launch keeps from its beginning.
  datatype RawClick = Click(
    gen: nat, id: App, priorOwner: nat, priorLaunch: nat, held: nat,
    before: Entry, beforeParams: Option<Params>, pushed: bool, mine: nat)

  const SOME_CLICK := Click(1, "", 0, 0, 0, Entry(Url(None, ""), State(None, None, "")), None, false, 0)

  type Click = c: RawClick | c.priorLaunch < c.gen witness SOME_CLICK

  datatype Route = Route(gen: nat, held: nat)

  // `took`, `launched` and `gaveBack` are bookkeeping the source does not keep: every number that ever took the entry,
  // that was ever a launch, and that was given back.
  datatype History = History(
    known: set<App>, enabled: bool,
    issued: nat, owner: nat, launch: nat, holds: int,
    params: map<App, Params>, stamps: nat,
    failed: map<nat, Click>, routes: map<RouteId, Route>, settling: map<WindowId, nat>,
    entries: seq<Entry>, index: nat,
    took: set<nat>, launched: set<nat>, gaveBack: set<nat>)

  predicate Wellformed(h: History) {
    h.index < |h.entries|
  }

  function Current(h: History): Entry
    requires Wellformed(h)
  {
    h.entries[h.index]
  }

  function CurrentApp(h: History): Option<App>
    requires Wellformed(h)
  {
    Current(h).url.app
  }

  function QueryOf(h: History, id: App): string {
    if id in h.params then h.params[id].query else ""
  }

  function UrlFor(h: History, id: Option<App>): Url {
    Url(id, if id.Some? then QueryOf(h, id.value) else "")
  }

  // `ezilView` follows the app's open window; without one, an entry of the same app keeps the view it recorded.
  function StateFor(h: History, id: Option<App>, screen: Screen): State
    requires Wellformed(h)
  {
    var now := Current(h).state;
    if id.Some? && id.value in screen.open then State(id, screen.open[id.value], now.rest)
    else State(id, if id.Some? && now.app == id then now.view else None, now.rest)
  }

  function Replace(h: History, e: Entry): History
    requires Wellformed(h)
  {
    h.(entries := h.entries[h.index := e])
  }

  function Push(h: History, e: Entry): History
    requires Wellformed(h)
  {
    h.(entries := h.entries[..h.index + 1] + [e], index := h.index + 1)
  }

  function Name(h: History, id: Option<App>, screen: Screen): History
    requires Wellformed(h)
  {
    Replace(h, Entry(UrlFor(h, id), StateFor(h, id, screen)))
  }

  function SetParams(h: History, id: App, query: string): History {
    h.(params := h.params[id := Params(h.stamps, query)], stamps := h.stamps + 1)
  }

  // `remember`: the parameters a launch gives, or a copy of those on record.
  function Remember(h: History, id: App, given: Option<string>): History {
    SetParams(h, id, if given.Some? then given.value else QueryOf(h, id))
  }

  function Take(h: History): History {
    h.(failed := map[], issued := h.issued + 1, owner := h.issued + 1, took := h.took + {h.issued + 1})
  }

  function Settle(h: History, w: Option<WindowId>, gen: nat): History {
    if w.None? || (w.value in h.settling && h.settling[w.value] > gen) then h
    else h.(settling := h.settling[w.value := gen])
  }

  // `settled`: the window's focus events are the user's from now on.
  function Settled(h: History, w: WindowId): History {
    h.(settling := h.settling - {w})
  }

  predicate Superseded(h: History, w: WindowId) {
    w in h.settling && h.settling[w] != h.launch
  }

  // --- A click's launch -------------------------------------------------------------------------------------------

  predicate Accepts(h: History, id: App) {
    h.enabled && id in h.known
  }

  function BeginClick(h: History, id: App, given: Option<string>): Click
    requires Wellformed(h) && h.launch <= h.issued
  {
    var pushed := CurrentApp(h) != Some(id);
    var takes := pushed || QueryOf(Remember(h, id, given), id) != QueryOf(h, id);
    Click(h.issued + 1, id, h.owner, h.launch, if takes then h.issued + 1 else h.owner,
          Current(h), if id in h.params then Some(h.params[id]) else None, pushed, h.stamps)
  }

  // The push, or the rewrite in place, with which a click takes the entry.
  function TakeForClick(h: History, gen: nat, id: App, pushed: bool, screen: Screen): History
    requires Wellformed(h)
  {
    var h := h.(owner := gen, took := h.took + {gen});
    if pushed
    then Push(h, Entry(UrlFor(h, Some(id)),
                       State(Some(id), if id in screen.open then screen.open[id] else None, Current(h).state.rest)))
    else Name(h, Some(id), screen)
  }

  // The click's number, and the parameters it gives.
  function NumberClick(h: History, id: App, given: Option<string>): History {
    var gen := h.issued + 1;
    Remember(h.(issued := gen, launch := gen, holds := h.holds + 1, launched := h.launched + {gen}), id, given)
  }

  function Begin(h: History, id: App, given: Option<string>, screen: Screen): History
    requires Wellformed(h) && h.launch <= h.issued
  {
    var c := BeginClick(h, id, given);
    var g := NumberClick(h, id, given);
    if c.held == c.gen then TakeForClick(g, c.gen, id, c.pushed, screen) else g
  }

  // The launch resolved with a window; `connected` is false for one that is already gone again.
  function EndOpened(h: History, c: Click, w: WindowId, connected: bool, screen: Screen): History
    requires Wellformed(h)
  {
    var h := h.(holds := h.holds - 1);
    if !connected then h
    else
      var h := Settle(h, Some(w), c.gen);
      if c.gen == h.launch && CurrentApp(h) != Some(c.id) then Name(h, Some(c.id), screen) else h
  }

  predicate MayGiveBack(h: History, c: Click) {
    h.owner == c.held && h.launch == c.gen
  }

  // The state an entry goes back with: the view its app's window shows now.
  function WithView(h: History, s: State, screen: Screen): State {
    if s.app.Some? && s.app.value in h.known && s.app.value in screen.open then s.(view := screen.open[s.app.value])
        else s
  }

  function Undo(h: History, c: Click, screen: Screen): History
    requires Wellformed(h)
  {
    var h := if c.pushed then Replace(h, Entry(c.before.url, WithView(h, c.before.state, screen))) else h;
    h.(owner := c.priorOwner, launch := c.priorLaunch, gaveBack := h.gaveBack + {c.gen})
  }

  // As if this launch never happened; a launch under it that failed meanwhile gives back too.
  function GiveBack(h: History, c: Click, screen: Screen): History
    requires Wellformed(h)
    decreases c.gen
  {
    var h := Undo(h, c, screen);
    if h.launch !in h.failed then h
    else
      var older := h.failed[h.launch];
      var h := h.(failed := h.failed - {h.launch});
      if MayGiveBack(h, older) then GiveBack(h, older, screen) else h
  }

  function RestoreParams(h: History, c: Click): History {
    if c.id !in h.params || h.params[c.id].stamp != c.mine then h
    else if c.beforeParams.None? then h.(params := h.params - {c.id})
    else h.(params := h.params[c.id := c.beforeParams.value])
  }

  function EndFailed(h: History, c: Click, screen: Screen): History
    requires Wellformed(h)
  {
    var h := RestoreParams(h.(holds := h.holds - 1), c);
    if MayGiveBack(h, c) then GiveBack(h, c, screen) else h.(failed := h.failed[c.gen := c])
  }

  // --- The other intents ------------------------------------------------------------------------------------------

  // Back/Forward: the browser has moved to entry `to`.
  function PopState(h: History, to: nat, route: RouteId, screen: Screen): History
    requires Wellformed(h) && to < |h.entries|
  {
    var h := Take(h.(index := to));
    var h := h.(launch := h.owner, launched := h.launched + {h.owner});
    if CurrentApp(h).None? then h
    else
      var id := CurrentApp(h).value;
      var h := SetParams(h, id, Current(h).url.query);
      var h := if id in screen.open && h.enabled
               then Replace(h, Entry(Current(h).url, Current(h).state.(app := Some(id), view := screen.open[id])))
               else h;
      h.(routes := h.routes[route := Route(h.owner, h.owner)])
  }

  function OnFocus(h: History, w: WindowId, id: App, closing: bool, screen: Screen): History
    requires Wellformed(h)
  {
    if !h.enabled || h.holds > 0 || id !in h.known || closing || Superseded(h, w) || CurrentApp(h) == Some(id) then h
    else Name(Take(h), Some(id), screen)
  }

  function OnClosed(h: History, closed: Option<App>, screen: Screen): History
    requires Wellformed(h)
  {
    if !h.enabled then h
    else
      var mine := closed.Some? && closed.value in h.known;
      var h := if mine && closed.value !in screen.open then h.(params := h.params - {closed.value}) else h;
      if CurrentApp(h) == screen.front then h
      else Name(if mine then Take(h) else h, screen.front, screen)
  }

  // Code reports its folder: `spelled` is the query its address would carry.
  function OnParamsChanged(h: History, id: App, query: string, spelled: string, push: bool, screen: Screen): History
    requires Wellformed(h)
  {
    if !Accepts(h, id) || id !in screen.open || CurrentApp(h) != Some(id) || h.holds > 0 then h
    else
      var h := SetParams(h, id, query);
      var url := Url(Some(id), spelled);
      if !push && url == Current(h).url then h
      else
        var h := Take(h);
        var e := Entry(url, StateFor(h, Some(id), screen));
        if push then Push(h, e) else Replace(h, e)
  }

  function OnViewChanged(h: History, id: App, view: View): History
    requires Wellformed(h)
  {
    if !Accepts(h, id) || CurrentApp(h) != Some(id) then h
    else Replace(h, Entry(Current(h).url, Current(h).state.(app := Some(id), view := Some(view))))
  }

  // A launch the boot starts itself: numbered, but it takes nothing.
  function NumberRoute(h: History, route: RouteId): History {
    h.(issued := h.issued + 1, launch := h.issued + 1, launched := h.launched + {h.issued + 1},
       routes := h.routes[route := Route(h.issued + 1, h.owner)])
  }

  // The write of a route launch that still holds the entry.
  function CommitEntry(h: History, id: App, given: Option<string>, screen: Screen): History
    requires Wellformed(h)
  {
    var g := Remember(h, id, given);
    var same := CurrentApp(g) == Some(id) && QueryOf(g, id) == QueryOf(h, id);
    Replace(g, Entry(if same then Current(g).url else UrlFor(g, Some(id)), StateFor(g, Some(id), screen)))
  }

  function Commit(h: History, route: Option<RouteId>, id: App, given: Option<string>, w: Option<WindowId>,
                  screen: Screen): History
    requires Wellformed(h)
  {
    if !Accepts(h, id) then h
    else
      var numbered := route.Some? && route.value in h.routes;
      var h := Settle(h, w, if numbered then h.routes[route.value].gen else h.launch);
      if numbered && h.routes[route.value].held != h.owner then h else CommitEntry(h, id, given, screen)
  }

  // The boot's own link in its canonical spelling. A host that serves no app paths keeps its own; it writes only
  // `left`, what remains of the location when the caller has used up some of its query.
  function Adopt(h: History, route: Option<RouteId>, id: App, query: string, spelled: string, left: Option<Url>,
                 screen: Screen): History
    requires Wellformed(h)
  {
    var h := SetParams(h, id, query);
    if route.Some? && route.value in h.routes && h.routes[route.value].held != h.owner then h
    else if h.enabled then Replace(h, Entry(Url(Some(id), spelled), StateFor(h, Some(id), screen)))
    else if left.Some? then Replace(h, Entry(left.value, Current(h).state))
    else h
  }

  function Sync(h: History, screen: Screen): History
    requires Wellformed(h)
  {
    if !h.enabled then h
    else
      var h := h.(params := map id | id in h.params && id in screen.open :: h.params[id]);
      if CurrentApp(h) != screen.front then Name(h, screen.front, screen) else h
  }
}
