/**
 * Who may write the address bar: in every run of clicks, Back/Forward, focuses, closes, folder switches and boot
 * launches, resolved in any order.
 */
module AppHistoryOrder {
  import opened Options
  import opened AppHistory

  // `live`: the click launches that have not ended.
  datatype Tab = Tab(h: History, live: map<nat, Click>)

  datatype Intent =
    | Clicks(id: App, given: Option<string>, screen: Screen)
    | Opens(gen: nat, window: WindowId, connected: bool, screen: Screen)
    | Fails(gen: nat, screen: Screen)
    | Traverses(to: nat, route: RouteId, screen: Screen)
    | Focuses(window: WindowId, id: App, closing: bool, screen: Screen)
    | Closes(closed: Option<App>, screen: Screen)
    | SwitchesFolder(id: App, query: string, spelled: string, push: bool, screen: Screen)
    | ChangesView(id: App, view: View)
    | Numbers(route: RouteId)
    | Commits(ctx: Option<RouteId>, id: App, given: Option<string>, shown: Option<WindowId>, screen: Screen)
    | Adopts(ctx: Option<RouteId>, id: App, query: string, spelled: string, left: Option<Url>, screen: Screen)
    | Syncs(screen: Screen)
    | Settles(window: WindowId)

  // --- The invariant ------------------------------------------------------------------------------------------------

  // The greatest number of `all` that was not given back, or 0.
  ghost predicate IsTop(n: nat, all: set<nat>, back: set<nat>) {
    (n == 0 || (n in all && n !in back)) && forall t :: t in all && t !in back ==> t <= n
  }

  ghost predicate IsTopBelow(n: nat, all: set<nat>, back: set<nat>, bound: nat) {
    n < bound && (n == 0 || (n in all && n !in back)) && forall t :: t in all && t !in back && t < bound ==> t <= n
  }

  ghost predicate Stands(h: History, gen: nat) {
    gen in h.launched && gen !in h.gaveBack
  }

  // A launch numbered `gen` that found `prior` owning the entry and holds `held`.
  ghost predicate Holds(h: History, gen: nat, prior: nat, held: nat) {
    && Stands(h, gen)
    && IsTopBelow(prior, h.took, h.gaveBack, gen)
    && ((held == gen && gen in h.took) || (held == prior && gen !in h.took))
  }

  ghost predicate ClickSound(h: History, gen: nat, c: Click) {
    && c.gen == gen
    && Holds(h, gen, c.priorOwner, c.held)
    && IsTopBelow(c.priorLaunch, h.launched, h.gaveBack, gen)
  }

  ghost predicate RouteSound(h: History, r: Route) {
    && Stands(h, r.gen)
    && (if r.gen in h.took then r.held == r.gen else IsTopBelow(r.held, h.took, h.gaveBack, r.gen))
  }

  ghost predicate Numbered(h: History) {
    && Wellformed(h)
    && (forall n :: n in h.took ==> 0 < n <= h.issued)
    && (forall n :: n in h.launched ==> 0 < n <= h.issued)
    && h.gaveBack <= h.launched
    && IsTop(h.owner, h.took, h.gaveBack)
    && IsTop(h.launch, h.launched, h.gaveBack)
    && h.launch <= h.issued
  }

  // The order of the pending launches of one history.
  ghost predicate Ordered(h: History, live: map<nat, Click>) {
    && Numbered(h)
    && live.Keys !! h.failed.Keys
    && (forall gen :: gen in live ==> ClickSound(h, gen, live[gen]))
    && (forall gen :: gen in h.failed ==> ClickSound(h, gen, h.failed[gen]))
    && (forall route :: route in h.routes ==> RouteSound(h, h.routes[route]))
    && (forall route :: route in h.routes ==> h.routes[route].gen !in live && h.routes[route].gen !in h.failed)
  }

  // A failed launch that could give back now has already done so.
  ghost predicate NoneOverdue(h: History) {
    h.launch in h.failed ==> h.owner != h.failed[h.launch].held
  }

  ghost predicate Sound(t: Tab) {
    Ordered(t.h, t.live) && NoneOverdue(t.h)
  }

  // An intent that cannot happen (a launch that has ended, an entry that is not there) changes nothing.
  function Do(t: Tab, i: Intent): Tab
    requires Sound(t)
  {
    match i
    case Clicks(id, given, screen) =>
      if !Accepts(t.h, id) then t
      else var c := BeginClick(t.h, id, given); Tab(Begin(t.h, id, given, screen), t.live[c.gen := c])
    case Opens(gen, w, connected, screen) =>
      if gen in t.live then Tab(EndOpened(t.h, t.live[gen], w, connected, screen), t.live - {gen}) else t
    case Fails(gen, screen) =>
      if gen in t.live then Tab(EndFailed(t.h, t.live[gen], screen), t.live - {gen}) else t
    case Traverses(to, route, screen) => if to < |t.h.entries| then t.(h := PopState(t.h, to, route, screen)) else t
    case Focuses(w, id, closing, screen) => t.(h := OnFocus(t.h, w, id, closing, screen))
    case Closes(closed, screen) => t.(h := OnClosed(t.h, closed, screen))
    case SwitchesFolder(id, query, spelled, push, screen) =>
        t.(h := OnParamsChanged(t.h, id, query, spelled, push, screen))
    case ChangesView(id, view) => t.(h := OnViewChanged(t.h, id, view))
    case Numbers(route) => t.(h := NumberRoute(t.h, route))
    case Commits(ctx, id, given, w, screen) => t.(h := Commit(t.h, ctx, id, given, w, screen))
    case Adopts(ctx, id, query, spelled, left, screen) => t.(h := Adopt(t.h, ctx, id, query, spelled, left, screen))
    case Syncs(screen) => t.(h := Sync(t.h, screen))
    case Settles(w) => t.(h := Settled(t.h, w))
  }

  // An intent that begins and ends no click changes the history alone.
  lemma DoChangesHistory(t: Tab, i: Intent)
    requires Sound(t)
    ensures i.Traverses? && i.to < |t.h.entries| ==> Do(t, i) == t.(h := PopState(t.h, i.to, i.route, i.screen))
    ensures i.Focuses? ==> Do(t, i) == t.(h := OnFocus(t.h, i.window, i.id, i.closing, i.screen))
    ensures i.Closes? ==> Do(t, i) == t.(h := OnClosed(t.h, i.closed, i.screen))
    ensures i.SwitchesFolder? ==> Do(t, i) == t.(h := OnParamsChanged(t.h, i.id, i.query, i.spelled, i.push, i.screen))
    ensures i.ChangesView? ==> Do(t, i) == t.(h := OnViewChanged(t.h, i.id, i.view))
    ensures i.Numbers? ==> Do(t, i) == t.(h := NumberRoute(t.h, i.route))
    ensures i.Commits? ==> Do(t, i) == t.(h := Commit(t.h, i.ctx, i.id, i.given, i.shown, i.screen))
    ensures i.Adopts? ==> Do(t, i) == t.(h := Adopt(t.h, i.ctx, i.id, i.query, i.spelled, i.left, i.screen))
    ensures i.Syncs? ==> Do(t, i) == t.(h := Sync(t.h, i.screen))
    ensures i.Settles? ==> Do(t, i) == t.(h := Settled(t.h, i.window))
  {
  }

  lemma DoClicks(t: Tab, id: App, given: Option<string>, screen: Screen)
    requires Sound(t)
    ensures Wellformed(t.h) && t.h.launch <= t.h.issued && t.h.owner <= t.h.issued
    ensures Do(t, Clicks(id, given, screen))
         == if !Accepts(t.h, id) then t
            else var c := BeginClick(t.h, id, given); Tab(Begin(t.h, id, given, screen), t.live[c.gen := c])
  {
  }

  function Start(known: set<App>, enabled: bool, first: Entry): Tab {
    Tab(History(known, enabled, 0, 0, 0, 0, map[], 0, map[], map[], map[], [first], 0, {}, {}, {}), map[])
  }

  // --- What every intent keeps --------------------------------------------------------------------------------------

  // A write that only renames the entry, records parameters or settles a window leaves the order alone.
  ghost predicate SameOrder(h: History, g: History) {
    && Wellformed(g)
    && g.issued == h.issued && g.owner == h.owner && g.launch == h.launch && g.failed == h.failed
    && g.routes == h.routes
    && g.took == h.took && g.launched == h.launched && g.gaveBack == h.gaveBack
  }

  lemma NameKeepsOrder(h: History, id: Option<App>, screen: Screen)
    requires Wellformed(h)
    ensures SameOrder(h, Name(h, id, screen))
  {
    hide UrlFor, StateFor;
  }

  lemma SameOrderTwice(a: History, b: History, c: History)
    requires SameOrder(a, b) && SameOrder(b, c)
    ensures SameOrder(a, c)
  {
  }

  lemma SameOrderKeepsSound(h: History, g: History, live: map<nat, Click>)
    requires Sound(Tab(h, live)) && SameOrder(h, g)
    ensures Sound(Tab(g, live))
  {
    OrderFrame(h, g, live, live);
  }

  // A number issued now is above everything found so far.
  lemma NewNumberKeepsClick(h: History, g: History, gen: nat, c: Click)
    requires Numbered(h) && ClickSound(h, gen, c)
    requires g.gaveBack == h.gaveBack
    requires g.took == h.took || g.took == h.took + {h.issued + 1}
    requires g.launched == h.launched || g.launched == h.launched + {h.issued + 1}
    ensures ClickSound(g, gen, c)
  {
    assert gen in h.launched && gen <= h.issued;
    assert h.issued + 1 !in h.took && h.issued + 1 !in h.gaveBack;
  }

  lemma NewNumberKeepsRoute(h: History, g: History, r: Route)
    requires Numbered(h) && RouteSound(h, r)
    requires g.gaveBack == h.gaveBack
    requires g.took == h.took || g.took == h.took + {h.issued + 1}
    requires g.launched == h.launched || g.launched == h.launched + {h.issued + 1}
    ensures RouteSound(g, r)
  {
    assert r.gen in h.launched && r.gen <= h.issued;
  }

  lemma TakeKeepsSound(h: History, live: map<nat, Click>)
    requires Sound(Tab(h, live))
    ensures Sound(Tab(Take(h), live))
  {
    var g := Take(h);
    forall gen | gen in live ensures ClickSound(g, gen, live[gen]) {
      NewNumberKeepsClick(h, g, gen, live[gen]);
    }
    forall route | route in g.routes ensures RouteSound(g, g.routes[route]) {
      NewNumberKeepsRoute(h, g, h.routes[route]);
    }
  }

  lemma NewNumberKeepsAll(h: History, g: History, live: map<nat, Click>)
    requires Sound(Tab(h, live)) && g.gaveBack == h.gaveBack
    requires g.took == h.took || g.took == h.took + {h.issued + 1}
    requires g.launched == h.launched || g.launched == h.launched + {h.issued + 1}
    ensures forall gen :: gen in live ==> ClickSound(g, gen, live[gen])
    ensures forall gen :: gen in h.failed ==> ClickSound(g, gen, h.failed[gen])
    ensures forall route :: route in h.routes ==> RouteSound(g, h.routes[route])
  {
    hide ClickSound, RouteSound, Numbered;
    forall gen | gen in live ensures ClickSound(g, gen, live[gen]) {
      NewNumberKeepsClick(h, g, gen, live[gen]);
    }
    forall gen | gen in h.failed ensures ClickSound(g, gen, h.failed[gen]) {
      NewNumberKeepsClick(h, g, gen, h.failed[gen]);
    }
    forall route | route in h.routes ensures RouteSound(g, h.routes[route]) {
      NewNumberKeepsRoute(h, g, h.routes[route]);
    }
  }

  // The next number is in no use yet.
  lemma NextNumberIsNew(h: History, live: map<nat, Click>)
    requires Sound(Tab(h, live))
    ensures h.issued + 1 !in live && h.issued + 1 !in h.failed
    ensures h.issued + 1 !in h.took && h.issued + 1 !in h.launched && h.issued + 1 !in h.gaveBack
    ensures forall route :: route in h.routes ==> h.routes[route].gen != h.issued + 1
  {
    assert forall gen :: gen in live ==> ClickSound(h, gen, live[gen]);
    assert forall gen :: gen in h.failed ==> ClickSound(h, gen, h.failed[gen]);
    assert forall route :: route in h.routes ==> RouteSound(h, h.routes[route]);
  }

  ghost predicate Launched(h: History, g: History, route: RouteId, r: Route) {
    && g.issued == h.issued + 1 && g.launch == h.issued + 1 && g.gaveBack == h.gaveBack
    && g.launched == h.launched + {h.issued + 1} && (g.took == h.took || g.took == h.took + {h.issued + 1})
    && (g.failed == h.failed || g.failed == map[])
    && (g.routes == h.routes || (g.routes == h.routes[route := r] && r.gen == h.issued + 1 && RouteSound(g, r)))
  }

  lemma LaunchKeepsRoutes(h: History, g: History, live: map<nat, Click>, route: RouteId, r: Route)
    requires Sound(Tab(h, live)) && Launched(h, g, route, r)
    ensures forall other :: other in g.routes ==> RouteSound(g, g.routes[other])
    ensures forall other :: other in g.routes ==> g.routes[other].gen !in live && g.routes[other].gen !in g.failed
  {
    NextNumberIsNew(h, live);
    NewNumberKeepsAll(h, g, live);
    hide ClickSound, RouteSound, Numbered;
  }

  lemma LaunchKeepsClicks(h: History, g: History, live: map<nat, Click>, route: RouteId, r: Route)
    requires Sound(Tab(h, live)) && Launched(h, g, route, r)
    ensures live.Keys !! g.failed.Keys && g.launch !in g.failed
    ensures forall gen :: gen in live ==> ClickSound(g, gen, live[gen])
    ensures forall gen :: gen in g.failed ==> ClickSound(g, gen, g.failed[gen])
  {
    NextNumberIsNew(h, live);
    NewNumberKeepsAll(h, g, live);
    hide ClickSound, RouteSound, Numbered;
  }

  lemma LaunchKeepsSound(h: History, g: History, live: map<nat, Click>, route: RouteId, r: Route)
    requires Sound(Tab(h, live)) && Numbered(g) && Launched(h, g, route, r)
    ensures Sound(Tab(g, live))
  {
    LaunchKeepsRoutes(h, g, live, route, r);
    LaunchKeepsClicks(h, g, live, route, r);
    hide ClickSound, RouteSound, Numbered, Launched;
  }

  lemma NumberFacts(h: History, id: App, given: Option<string>)
    requires Wellformed(h)
    ensures var g := NumberClick(h, id, given);
      && Wellformed(g) && g.entries == h.entries && g.index == h.index
      && g.issued == g.launch == h.issued + 1 && g.owner == h.owner
      && g.failed == h.failed && g.routes == h.routes && g.took == h.took
      && g.launched == h.launched + {h.issued + 1} && g.gaveBack == h.gaveBack
  {
    hide QueryOf;
  }

  lemma TakeForFacts(h: History, gen: nat, id: App, pushed: bool, screen: Screen)
    requires Wellformed(h) && (!pushed ==> CurrentApp(h) == Some(id))
    ensures var g := TakeForClick(h, gen, id, pushed, screen);
      && Wellformed(g) && CurrentApp(g) == Some(id) && g.owner == gen && g.took == h.took + {gen}
      && g.issued == h.issued && g.launch == h.launch && g.failed == h.failed && g.routes == h.routes
      && g.launched == h.launched && g.gaveBack == h.gaveBack
  {
    hide QueryOf, StateFor;
  }

  lemma BeginClickFacts(h: History, id: App, given: Option<string>)
    requires Wellformed(h) && h.launch <= h.issued
    ensures var c := BeginClick(h, id, given);
      && c.gen == h.issued + 1 && c.id == id && c.before == Current(h)
      && c.priorLaunch == h.launch && c.priorOwner == h.owner
      && (c.held == c.gen || c.held == h.owner) && (c.pushed ==> c.held == c.gen)
      && (c.pushed <==> CurrentApp(h) != Some(id))
  {
    hide QueryOf, Remember;
  }

  lemma BeginFacts(h: History, id: App, given: Option<string>, screen: Screen)
    requires Numbered(h)
    ensures var g, c := Begin(h, id, given, screen), BeginClick(h, id, given);
      && Wellformed(g) && CurrentApp(g) == Some(id) && g.owner == c.held
      && g.launch == c.gen == g.issued == h.issued + 1
      && g.failed == h.failed && g.routes == h.routes
      && g.took == (if c.held == c.gen then h.took + {c.gen} else h.took)
      && g.launched == h.launched + {c.gen} && g.gaveBack == h.gaveBack
      && (!c.pushed ==> CurrentApp(h) == Some(id))
      && (c.held == c.gen || c.held == h.owner) && c.gen == h.issued + 1
      && c.before == Current(h) && c.priorLaunch == h.launch && c.priorOwner == h.owner && c.id == id
  {
    var c := BeginClick(h, id, given);
    NumberFacts(h, id, given);
    BeginClickFacts(h, id, given);
    hide NumberClick, TakeForClick, BeginClick;
    TakeForFacts(NumberClick(h, id, given), c.gen, id, c.pushed, screen);
  }

  lemma JoinLive(g: History, live: map<nat, Click>, c: Click)
    requires Sound(Tab(g, live)) && ClickSound(g, c.gen, c) && c.gen !in g.failed
    requires forall route :: route in g.routes ==> g.routes[route].gen != c.gen
    ensures Sound(Tab(g, live[c.gen := c]))
  {
  }

  lemma BeginNumbered(h: History, id: App, given: Option<string>, screen: Screen)
    requires Numbered(h)
    ensures var g, c := Begin(h, id, given, screen), BeginClick(h, id, given);
      Numbered(g) && ClickSound(g, c.gen, c) && c.gen !in h.launched
  {
    var c := BeginClick(h, id, given);
    BeginFacts(h, id, given, screen);
    hide Begin, BeginClick;
    assert c.gen !in h.took && c.gen !in h.launched && c.gen !in h.gaveBack;
  }

  lemma SoundIsNumbered(t: Tab)
    requires Sound(t)
    ensures Numbered(t.h) && Wellformed(t.h) && t.h.launch <= t.h.issued
  {
  }

  lemma BeginLaunched(h: History, id: App, given: Option<string>, screen: Screen)
    requires Numbered(h)
    ensures var g := Begin(h, id, given, screen);
      Launched(h, g, 0, Route(0, 0)) && g.failed == h.failed && g.routes == h.routes
    ensures BeginClick(h, id, given).gen == h.issued + 1
  {
    BeginFacts(h, id, given, screen);
    hide Begin, BeginClick;
  }

  lemma BeginKeepsSound(t: Tab, id: App, given: Option<string>, screen: Screen)
    requires Sound(t) && Accepts(t.h, id)
    ensures Sound(Tab(Begin(t.h, id, given, screen), t.live[t.h.issued + 1 := BeginClick(t.h, id, given)]))
  {
    var h := t.h;
    SoundIsNumbered(t);
    hide Begin, BeginClick, Sound, Numbered, ClickSound, RouteSound, Launched, Accepts;
    NextNumberIsNew(h, t.live);
    BeginLaunched(h, id, given, screen);
    BeginNumbered(h, id, given, screen);
    var g := Begin(h, id, given, screen);
    LaunchKeepsSound(h, g, t.live, 0, Route(0, 0));
    JoinLive(g, t.live, BeginClick(h, id, given));
  }

  // A launch that is neither pending nor waiting: it is ending.
  ghost predicate Ending(h: History, live: map<nat, Click>, c: Click) {
    && Ordered(h, live)
    && ClickSound(h, c.gen, c) && c.gen !in live && c.gen !in h.failed
    && (forall route :: route in h.routes ==> h.routes[route].gen != c.gen)
  }

  // Only the top of both stacks is ever given back, so nothing below it changes for the others.
  lemma UndoKeepsClick(h: History, c: Click, screen: Screen, gen: nat, d: Click)
    requires Numbered(h) && ClickSound(h, c.gen, c) && MayGiveBack(h, c)
    requires ClickSound(h, gen, d) && gen != c.gen
    ensures ClickSound(Undo(h, c, screen), gen, d)
  {
    assert gen < c.gen;
  }

  lemma UndoKeepsRoute(h: History, c: Click, screen: Screen, r: Route)
    requires Numbered(h) && ClickSound(h, c.gen, c) && MayGiveBack(h, c)
    requires RouteSound(h, r) && r.gen != c.gen
    ensures RouteSound(Undo(h, c, screen), r)
  {
    assert r.gen < c.gen;
  }

  lemma UndoKeepsNumbered(h: History, c: Click, screen: Screen)
    requires Numbered(h) && ClickSound(h, c.gen, c) && MayGiveBack(h, c)
    ensures Numbered(Undo(h, c, screen))
  {
  }

  lemma UndoKeepsOrdered(h: History, live: map<nat, Click>, c: Click, screen: Screen)
    requires Ending(h, live, c) && MayGiveBack(h, c)
    ensures Ordered(Undo(h, c, screen), live)
  {
    var g := Undo(h, c, screen);
    UndoKeepsNumbered(h, c, screen);
    forall gen | gen in live ensures ClickSound(g, gen, live[gen]) {
      UndoKeepsClick(h, c, screen, gen, live[gen]);
    }
    forall gen | gen in g.failed ensures ClickSound(g, gen, g.failed[gen]) {
      UndoKeepsClick(h, c, screen, gen, h.failed[gen]);
    }
    forall route | route in g.routes ensures RouteSound(g, g.routes[route]) {
      UndoKeepsRoute(h, c, screen, h.routes[route]);
    }
  }

  // The order says nothing about what is not in it.
  lemma OrderFrame(h: History, g: History, live: map<nat, Click>, rest: map<nat, Click>)
    requires Ordered(h, live) && Wellformed(g)
    requires g.issued == h.issued && g.owner == h.owner && g.launch == h.launch && g.routes == h.routes
    requires g.took == h.took && g.launched == h.launched && g.gaveBack == h.gaveBack
    requires rest.Keys !! g.failed.Keys
    requires forall gen :: gen in rest ==> gen in live && rest[gen] == live[gen]
    requires forall gen :: gen in g.failed ==>
      (gen in h.failed && g.failed[gen] == h.failed[gen]) || (gen in live && g.failed[gen] == live[gen])
    ensures Ordered(g, rest)
    ensures forall gen, c :: ClickSound(h, gen, c) ==> ClickSound(g, gen, c)
  {
    forall gen, c | ClickSound(h, gen, c) ensures ClickSound(g, gen, c) {
    }
    forall route | route in g.routes ensures RouteSound(g, g.routes[route]) {
      assert RouteSound(h, h.routes[route]);
    }
  }

  lemma {:induction false} GiveBackKeepsSound(h: History, live: map<nat, Click>, c: Click, screen: Screen)
    requires Ending(h, live, c) && MayGiveBack(h, c)
    ensures Sound(Tab(GiveBack(h, c, screen), live))
    decreases c.gen
  {
    var g := Undo(h, c, screen);
    UndoKeepsOrdered(h, live, c, screen);
    if g.launch in g.failed {
      var older := g.failed[g.launch];
      var k := g.(failed := g.failed - {g.launch});
      assert ClickSound(g, g.launch, older);
      OrderFrame(g, k, live, live);
      if MayGiveBack(k, older) {
        GiveBackKeepsSound(k, live, older, screen);
      }
    } else {
    }
  }

  lemma RestoreChangesParams(h: History, c: Click)
    ensures var g := RestoreParams(h, c); g == h.(params := g.params)
  {
  }

  // What `EndFailed` decides on, after the parameters are back.
  lemma EndFailedIs(h: History, c: Click, screen: Screen) returns (g: History)
    requires Wellformed(h)
    ensures SameOrder(h, g) && CurrentApp(g) == CurrentApp(h) && g.entries == h.entries && g.index == h.index
        && g.holds == h.holds - 1
    ensures EndFailed(h, c, screen) == if MayGiveBack(g, c) then GiveBack(g, c, screen)
        else g.(failed := g.failed[c.gen := c])
  {
    g := RestoreParams(h.(holds := h.holds - 1), c);
    RestoreChangesParams(h.(holds := h.holds - 1), c);
    hide RestoreParams, GiveBack;
  }

  lemma EndingAfterRestore(t: Tab, gen: nat, g: History)
    requires Sound(t) && gen in t.live && SameOrder(t.h, g)
    ensures Ending(g, t.live - {gen}, t.live[gen]) && NoneOverdue(g) && t.live[gen].gen == gen
  {
    assert ClickSound(t.h, gen, t.live[gen]);
    OrderFrame(t.h, g, t.live, t.live - {gen});
  }

  lemma WaitingKeepsSound(g: History, live: map<nat, Click>, c: Click)
    requires Ending(g, live, c) && NoneOverdue(g) && !MayGiveBack(g, c)
    ensures Sound(Tab(g.(failed := g.failed[c.gen := c]), live))
  {
    OrderFrame(g, g.(failed := g.failed[c.gen := c]), live[c.gen := c], live);
  }

  lemma FailKeepsSoundAfterRestore(t: Tab, gen: nat, g: History, screen: Screen)
    requires Sound(t) && gen in t.live && SameOrder(t.h, g)
    ensures var c := t.live[gen];
      Sound(Tab(if MayGiveBack(g, c) then GiveBack(g, c, screen)
          else g.(failed := g.failed[c.gen := c]), t.live - {gen}))
  {
    EndingAfterRestore(t, gen, g);
    if MayGiveBack(g, t.live[gen]) {
      GiveBackKeepsSound(g, t.live - {gen}, t.live[gen], screen);
    } else {
      WaitingKeepsSound(g, t.live - {gen}, t.live[gen]);
    }
  }

  lemma FailKeepsSound(t: Tab, gen: nat, screen: Screen)
    requires Sound(t) && gen in t.live
    ensures Sound(Tab(EndFailed(t.h, t.live[gen], screen), t.live - {gen}))
  {
    var g := EndFailedIs(t.h, t.live[gen], screen);
    hide EndFailed, GiveBack, Sound;
    FailKeepsSoundAfterRestore(t, gen, g, screen);
  }

  lemma LandFacts(h: History, to: nat)
    requires Wellformed(h) && to < |h.entries|
    ensures var n := h.issued + 1; var g := Take(h.(index := to));
        var k := g.(launch := g.owner, launched := g.launched + {g.owner});
      && Wellformed(k) && k.issued == k.owner == k.launch == n && k.failed == map[] && k.routes == h.routes
      && k.took == h.took + {n} && k.launched == h.launched + {n} && k.gaveBack == h.gaveBack
  {
  }

  lemma PopStateFacts(h: History, to: nat, route: RouteId, screen: Screen)
    requires Wellformed(h) && to < |h.entries|
    ensures var n, g := h.issued + 1, PopState(h, to, route, screen);
      && Wellformed(g) && g.issued == g.owner == g.launch == n && g.failed == map[]
      && (g.routes == h.routes || g.routes == h.routes[route := Route(n, n)])
      && g.took == h.took + {n} && g.launched == h.launched + {n} && g.gaveBack == h.gaveBack
  {
    LandFacts(h, to);
    hide Take;
  }

  lemma NewTopIsNumbered(h: History, g: History)
    requires Numbered(h) && Wellformed(g) && g.issued == g.launch == h.issued + 1 && g.gaveBack == h.gaveBack
    requires g.launched == h.launched + {h.issued + 1}
    requires (g.took == h.took && g.owner == h.owner) || (g.took == h.took + {h.issued + 1} && g.owner == h.issued + 1)
    ensures Numbered(g)
  {
    assert h.issued + 1 !in h.gaveBack;
  }

  lemma PopStateKeepsSound(t: Tab, to: nat, route: RouteId, screen: Screen)
    requires Sound(t) && to < |t.h.entries|
    ensures Sound(t.(h := PopState(t.h, to, route, screen)))
  {
    var h, g, n := t.h, PopState(t.h, to, route, screen), t.h.issued + 1;
    PopStateFacts(h, to, route, screen);
    NextNumberIsNew(h, t.live);
    hide PopState, Numbered, ClickSound, NoneOverdue;
    NewTopIsNumbered(h, g);
    assert RouteSound(g, Route(n, n));
    hide Sound;
    LaunchKeepsSound(h, g, t.live, route, Route(n, n));
  }

  lemma NumberRouteKeepsSound(t: Tab, route: RouteId)
    requires Sound(t)
    ensures Sound(t.(h := NumberRoute(t.h, route)))
  {
    var h, g := t.h, NumberRoute(t.h, route);
    NextNumberIsNew(h, t.live);
    hide ClickSound, NoneOverdue;
    NewTopIsNumbered(h, g);
    assert RouteSound(g, Route(h.issued + 1, h.owner));
    hide Sound, Numbered;
    LaunchKeepsSound(h, g, t.live, route, Route(h.issued + 1, h.owner));
  }

  lemma ViewKeepsOrder(h: History, id: App, view: View)
    requires Wellformed(h)
    ensures SameOrder(h, OnViewChanged(h, id, view))
  {
  }

  lemma CommitEntryKeepsOrder(h: History, id: App, given: Option<string>, screen: Screen)
    requires Wellformed(h)
    ensures SameOrder(h, CommitEntry(h, id, given, screen))
  {
    hide QueryOf, UrlFor, StateFor;
  }

  lemma CommitKeepsOrder(h: History, ctx: Option<RouteId>, id: App, given: Option<string>, shown: Option<WindowId>,
                         screen: Screen)
    requires Wellformed(h)
    ensures SameOrder(h, Commit(h, ctx, id, given, shown, screen))
  {
    if Accepts(h, id) {
      var k := Settle(h, shown, if ctx.Some? && ctx.value in h.routes then h.routes[ctx.value].gen else h.launch);
      assert SameOrder(h, k);
      CommitEntryKeepsOrder(k, id, given, screen);
      hide CommitEntry, Settle;
    }
  }

  lemma AdoptKeepsOrder(h: History, ctx: Option<RouteId>, id: App, query: string, spelled: string, left: Option<Url>,
                        screen: Screen)
    requires Wellformed(h)
    ensures SameOrder(h, Adopt(h, ctx, id, query, spelled, left, screen))
  {
  }

  lemma SyncKeepsOrder(h: History, screen: Screen)
    requires Wellformed(h)
    ensures SameOrder(h, Sync(h, screen))
  {
  }

  lemma OpensKeepsOrder(h: History, c: Click, w: WindowId, connected: bool, screen: Screen)
    requires Wellformed(h)
    ensures SameOrder(h, EndOpened(h, c, w, connected, screen))
  {
  }

  lemma FocusKeepsOrTakes(h: History, w: WindowId, id: App, closing: bool, screen: Screen)
    requires Wellformed(h)
    ensures SameOrder(h, OnFocus(h, w, id, closing, screen)) || SameOrder(Take(h), OnFocus(h, w, id, closing, screen))
  {
  }

  lemma CloseKeepsOrTakes(h: History, closed: Option<App>, screen: Screen)
    requires Wellformed(h)
    ensures SameOrder(h, OnClosed(h, closed, screen)) || SameOrder(Take(h), OnClosed(h, closed, screen))
  {
    var mine := closed.Some? && closed.value in h.known;
    var k := if mine && closed.value !in screen.open then h.(params := h.params - {closed.value}) else h;
    DroppedKeepsOrder(h, k);
    hide Name, Take, SameOrder;
    NameKeepsOrder(k, screen.front, screen);
    NameKeepsOrder(Take(k), screen.front, screen);
    if mine {
      SameOrderTwice(Take(h), Take(k), Name(Take(k), screen.front, screen));
    } else {
      SameOrderTwice(h, k, Name(k, screen.front, screen));
    }
  }

  lemma DroppedKeepsOrder(h: History, k: History)
    requires Wellformed(h) && k == h.(params := k.params)
    ensures Wellformed(k) && SameOrder(h, k) && Wellformed(Take(k)) && SameOrder(Take(h), Take(k))
  {
  }

  lemma SwitchKeepsOrTakes(h: History, id: App, query: string, spelled: string, push: bool, screen: Screen)
    requires Wellformed(h)
    ensures var g := OnParamsChanged(h, id, query, spelled, push, screen); SameOrder(h, g) || SameOrder(Take(h), g)
  {
  }

  // An intent that numbers no launch and ends none.
  lemma OthersKeepSound(t: Tab, i: Intent)
    requires Sound(t) && !i.Clicks? && !i.Opens? && !i.Fails? && !i.Traverses? && !i.Numbers?
    ensures Sound(Do(t, i))
  {
    var g := Do(t, i).h;
    assert Wellformed(t.h);
    hide Sound, OnFocus, OnClosed, OnParamsChanged, OnViewChanged, Commit, Adopt, Sync, Settled, Take, SameOrder,
        Wellformed;
    match i
    case Focuses(w, id, closing, screen) => FocusKeepsOrTakes(t.h, w, id, closing, screen); TakerKeepsSound(t, g);
    case Closes(closed, screen) => CloseKeepsOrTakes(t.h, closed, screen); TakerKeepsSound(t, g);
    case SwitchesFolder(id, query, spelled, push, screen) =>
      SwitchKeepsOrTakes(t.h, id, query, spelled, push, screen);
      TakerKeepsSound(t, g);
    case ChangesView(id, view) => ViewKeepsOrder(t.h, id, view); TakerKeepsSound(t, g);
    case Commits(ctx, id, given, w, screen) => CommitKeepsOrder(t.h, ctx, id, given, w, screen); TakerKeepsSound(t, g);
    case Adopts(ctx, id, query, spelled, left, screen) =>
      AdoptKeepsOrder(t.h, ctx, id, query, spelled, left, screen);
      TakerKeepsSound(t, g);
    case Syncs(screen) => SyncKeepsOrder(t.h, screen); TakerKeepsSound(t, g);
    case Settles(w) => SettledKeepsOrder(t.h, w); TakerKeepsSound(t, g);
  }

  lemma SettledKeepsOrder(h: History, w: WindowId)
    requires Wellformed(h)
    ensures SameOrder(h, Settled(h, w))
  {
  }

  lemma DoKeepsSound(t: Tab, i: Intent)
    requires Sound(t)
    ensures Sound(Do(t, i))
  {
    hide Sound, EndOpened, OnFocus, OnClosed, OnParamsChanged, OnViewChanged, Commit, Adopt, Sync, Begin, EndFailed,
        PopState,
         NumberRoute, BeginClick;
    match i
    case Clicks(id, given, screen) => if Accepts(t.h, id) { ClicksKeepsSound(t, id, given, screen); }
    case Opens(gen, w, connected, screen) => if gen in t.live { OpensKeepsSound(t, gen, w, connected, screen); }
    case Fails(gen, screen) => if gen in t.live { FailKeepsSound(t, gen, screen); }
    case Traverses(to, route, screen) => if to < |t.h.entries| { PopStateKeepsSound(t, to, route, screen); }
    case Numbers(route) => NumberRouteKeepsSound(t, route);
    case _ => OthersKeepSound(t, i);
  }

  lemma ClicksKeepsSound(t: Tab, id: App, given: Option<string>, screen: Screen)
    requires Sound(t) && Accepts(t.h, id)
    ensures Sound(Do(t, Clicks(id, given, screen)))
  {
    BeginClickFacts(t.h, id, given);
    BeginKeepsSound(t, id, given, screen);
    hide Sound, Begin, BeginClick;
  }

  lemma TakerKeepsSound(t: Tab, g: History)
    requires Sound(t) && (SameOrder(t.h, g) || SameOrder(Take(t.h), g))
    ensures Sound(Tab(g, t.live))
  {
    TakeKeepsSound(t.h, t.live);
    SameOrderKeepsSound(if SameOrder(t.h, g) then t.h else Take(t.h), g, t.live);
  }

  lemma OpensKeepsSound(t: Tab, gen: nat, w: WindowId, connected: bool, screen: Screen)
    requires Sound(t) && gen in t.live
    ensures Sound(Tab(EndOpened(t.h, t.live[gen], w, connected, screen), t.live - {gen}))
  {
    var g := EndOpened(t.h, t.live[gen], w, connected, screen);
    OpensKeepsOrder(t.h, t.live[gen], w, connected, screen);
    OrderFrame(t.h, g, t.live, t.live - {gen});
  }

  lemma StartSound(known: set<App>, enabled: bool, first: Entry)
    ensures Sound(Start(known, enabled, first))
  {
  }

  // A run from the first entry of the tab; the tab is sound at every moment, so every intent is defined.
  function RunTab(t: Tab, run: seq<Intent>): (u: Tab)
    requires Sound(t)
    ensures Sound(u)
  {
    if run == [] then t
    else
      var u := RunTab(t, run[..|run| - 1]);
      DoKeepsSound(u, run[|run| - 1]);
      Do(u, run[|run| - 1])
  }

  // --- Who owns the entry -------------------------------------------------------------------------------------------

  // Every number above `gen` that took the entry has given it back.
  ghost predicate NothingNewerTookIt(h: History, gen: nat) {
    forall n :: n in h.took && n > gen ==> n in h.gaveBack
  }

  /**
   * A pending click still holds the entry exactly when every later intent that took it has given it back. Clicks that
   * failed and wait in `failed`, and numbered route launches, are no different.
   */
  lemma HeldIffNothingNewerTookIt(t: Tab, gen: nat)
    requires Sound(t) && (gen in t.live || gen in t.h.failed)
    ensures var c := if gen in t.live then t.live[gen] else t.h.failed[gen];
      c.held == t.h.owner <==> NothingNewerTookIt(t.h, gen)
  {
    var c := if gen in t.live then t.live[gen] else t.h.failed[gen];
    assert ClickSound(t.h, gen, c);
    if NothingNewerTookIt(t.h, gen) {
      assert forall n :: n in t.h.took && n !in t.h.gaveBack ==> n <= c.held;
    }
  }

  lemma RouteHeldIffNothingNewerTookIt(t: Tab, route: RouteId)
    requires Sound(t) && route in t.h.routes
    ensures t.h.routes[route].held == t.h.owner <==> NothingNewerTookIt(t.h, t.h.routes[route].gen)
  {
    var r := t.h.routes[route];
    assert RouteSound(t.h, r);
    if NothingNewerTookIt(t.h, r.gen) {
      assert forall n :: n in t.h.took && n !in t.h.gaveBack ==> n <= r.held;
    }
  }

  /** So it is at every moment of every run from a tab's first entry. */
  lemma OwnershipInEveryRun(known: set<App>, enabled: bool, first: Entry, run: seq<Intent>)
    ensures Sound(Start(known, enabled, first))
    ensures var t := RunTab(Start(known, enabled, first), run);
      && (forall gen :: gen in t.live ==> (t.live[gen].held == t.h.owner <==> NothingNewerTookIt(t.h, gen)))
      && (forall gen :: gen in t.h.failed ==> (t.h.failed[gen].held == t.h.owner <==> NothingNewerTookIt(t.h, gen)))
      && (forall route :: route in t.h.routes ==>
            (t.h.routes[route].held == t.h.owner <==> NothingNewerTookIt(t.h, t.h.routes[route].gen)))
  {
    StartSound(known, enabled, first);
    var t := RunTab(Start(known, enabled, first), run);
    assert t.live.Keys !! t.h.failed.Keys;
    hide NothingNewerTookIt, Sound;
    forall gen | gen in t.live || gen in t.h.failed
      ensures (if gen in t.live then t.live[gen] else t.h.failed[gen]).held == t.h.owner
          <==> NothingNewerTookIt(t.h, gen)
    {
      HeldIffNothingNewerTookIt(t, gen);
    }
    forall route | route in t.h.routes
      ensures t.h.routes[route].held == t.h.owner <==> NothingNewerTookIt(t.h, t.h.routes[route].gen)
    {
      RouteHeldIffNothingNewerTookIt(t, route);
    }
  }
}
