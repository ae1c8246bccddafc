/** Which entry a pending launch may write, what a failed click puts back, and when a focus counts. */
module AppHistoryWrites {
  import opened Options
  import opened AppHistory
  import opened AppHistoryOrder

  /** A numbered route launch writes the entry only if no later intent holds it. */
  lemma CommitNeverOverwritesALaterIntent(t: Tab, route: RouteId, id: App, given: Option<string>, w: Option<WindowId>,
                                          screen: Screen)
    requires Sound(t) && route in t.h.routes
    requires Commit(t.h, Some(route), id, given, w, screen).entries != t.h.entries
    ensures NothingNewerTookIt(t.h, t.h.routes[route].gen)
  {
    RouteHeldIffNothingNewerTookIt(t, route);
  }

  lemma AdoptNeverOverwritesALaterIntent(t: Tab, route: RouteId, id: App, query: string, spelled: string,
                                         left: Option<Url>, screen: Screen)
    requires Sound(t) && route in t.h.routes
    requires Adopt(t.h, Some(route), id, query, spelled, left, screen).entries != t.h.entries
    ensures NothingNewerTookIt(t.h, t.h.routes[route].gen)
  {
    RouteHeldIffNothingNewerTookIt(t, route);
  }

  /** A failed click writes the entry only if no later intent holds it: no Back/Forward, focus, close or later click. */
  lemma FailureNeverOverwritesALaterIntent(t: Tab, gen: nat, screen: Screen)
    requires Sound(t) && gen in t.live
    requires EndFailed(t.h, t.live[gen], screen).entries != t.h.entries
    ensures NothingNewerTookIt(t.h, gen)
  {
    var g := EndFailedIs(t.h, t.live[gen], screen);
    hide EndFailed, GiveBack, Sound, NothingNewerTookIt;
    HeldIffNothingNewerTookIt(t, gen);
  }

  // --- One click that fails at once ---------------------------------------------------------------------------------

  // The parameters a click gives its app differ from those on record.
  predicate ChangesParams(h: History, id: App, given: Option<string>) {
    QueryOf(Remember(h, id, given), id) != QueryOf(h, id)
  }

  /**
   * A click that fails before anything else happens is undone: the owner, the newest launch, the pending count and the
   * app's parameters. Its entry names the old app again. The document promises the previous URL and state. A pushed
   * entry goes back with both, its view refreshed to what its app's window shows now. A click that rewrote the entry
   * in place leaves its own state there, and the URL comes back exactly when it was spelled the same.
   */
  lemma ClickThenFailure(t: Tab, id: App, given: Option<string>, screen: Screen, later: Screen)
    requires Sound(t) && Accepts(t.h, id)
    ensures var h, c := t.h, BeginClick(t.h, id, given);
      var g := EndFailed(Begin(h, id, given, screen), c, later);
      && Wellformed(g)
      && g.owner == h.owner && g.launch == h.launch && g.holds == h.holds
      && (id in g.params <==> id in h.params) && QueryOf(g, id) == QueryOf(h, id)
      && CurrentApp(g) == CurrentApp(h)
      && (Current(g).url == Current(h).url <==>
          CurrentApp(h) != Some(id) || !ChangesParams(h, id, given)
              || Current(h).url == UrlFor(Remember(h, id, given), Some(id)))
      && Current(g).state == (if CurrentApp(h) != Some(id) then WithView(h, Current(h).state, later)
                              else if ChangesParams(h, id, given) then StateFor(h, Some(id), screen)
                              else Current(h).state)
      && |g.entries| == (if CurrentApp(h) != Some(id) then h.index + 2 else |h.entries|)
  {
    SoundIsNumbered(t);
    hide Begin, BeginClick, Sound, StateFor, Numbered, Accepts, EndFailed, WithView, Remember;
    BeginShape(t.h, id, given, screen);
    FailureShape(t, id, given, screen, later);
  }

  // What a click that fails at once leaves.
  lemma FailureShape(t: Tab, id: App, given: Option<string>, screen: Screen, later: Screen)
    requires Sound(t) && Accepts(t.h, id)
    ensures var h, b, c := t.h, Begin(t.h, id, given, screen), BeginClick(t.h, id, given);
      var g := EndFailed(b, c, later);
      && Wellformed(g) && Wellformed(b) && g.owner == h.owner && g.launch == h.launch && g.holds == h.holds
      && (id in g.params <==> id in h.params) && QueryOf(g, id) == QueryOf(h, id) && |g.entries| == |b.entries|
      && Current(g) == (if c.pushed then Entry(Current(h).url, WithView(h, Current(h).state, later)) else Current(b))
  {
    var h, c := t.h, BeginClick(t.h, id, given);
    var b := Begin(h, id, given, screen);
    SoundIsNumbered(t);
    BeginShape(h, id, given, screen);
    hide Begin, BeginClick, Sound, StateFor, Numbered, Accepts, RestoreParams;
    var r := RestoredShape(h, b, c);
    GiveBackAlone(t, r, c, later);
    FailureGivesBack(b, c, later, r);
    hide GiveBack, EndFailed, QueryOf, Remember;
    QueryStays(r, GiveBack(r, c, later), id);
    SameViews(h, r, Current(h).state, later);
    hide WithView;
  }

  // The parameters of a click that nothing has followed.
  lemma RestoredShape(h: History, b: History, c: Click) returns (r: History)
    requires c.id in b.params && c.mine == h.stamps
    requires b.params == h.params[c.id := Params(h.stamps, b.params[c.id].query)]
    requires c.beforeParams == (if c.id in h.params then Some(h.params[c.id]) else None)
    ensures r == RestoreParams(b.(holds := b.holds - 1), c) && r == b.(holds := b.holds - 1, params := r.params)
    ensures (c.id in r.params <==> c.id in h.params) && QueryOf(r, c.id) == QueryOf(h, c.id)
  {
    r := RestoreParams(b.(holds := b.holds - 1), c);
  }

  lemma FailureGivesBack(b: History, c: Click, later: Screen, r: History)
    requires Wellformed(b) && Wellformed(r) && r == RestoreParams(b.(holds := b.holds - 1), c) && MayGiveBack(r, c)
    ensures EndFailed(b, c, later) == GiveBack(r, c, later)
  {
    hide RestoreParams, GiveBack;
  }

  lemma QueryStays(h: History, g: History, id: App)
    requires g.params == h.params
    ensures QueryOf(g, id) == QueryOf(h, id)
  {
  }

  lemma SameViews(h: History, g: History, s: State, screen: Screen)
    requires g.known == h.known
    ensures WithView(g, s, screen) == WithView(h, s, screen)
  {
  }

  /**
   * The promise fails here: Settings at its usage tab, clicked for billing, does not open, and the URL still says
   * billing.
   */
  lemma RewrittenUrlStays()
    ensures var open := Screen(map["settings" := None], Some("settings"));
      var h := Start({"settings"}, true,
                     Entry(Url(Some("settings"), "tab=usage"), State(Some("settings"), None, ""))).h;
      var g := EndFailed(Begin(h, "settings", Some("tab=billing"), open),
                         BeginClick(h, "settings", Some("tab=billing")), open);
      && Wellformed(g) && Current(g).url == Url(Some("settings"), "tab=billing")
      && g.owner == h.owner && g.params == h.params
  {
    var open := Screen(map["settings" := None], Some("settings"));
    var t := Start({"settings"}, true, Entry(Url(Some("settings"), "tab=usage"), State(Some("settings"), None, "")));
    assert "tab=billing" != "" && "tab=billing"[4] != "tab=usage"[4];
    var c := BeginClick(t.h, "settings", Some("tab=billing"));
    var b := Begin(t.h, "settings", Some("tab=billing"), open);
    BeginShape(t.h, "settings", Some("tab=billing"), open);
    var r := RestoreParams(b.(holds := b.holds - 1), c);
    StartSound(t.h.known, true, t.h.entries[0]);
    GiveBackAlone(t, r, c, open);
  }

  lemma NumberShape(h: History, id: App, given: Option<string>)
    requires Wellformed(h)
    ensures var b := NumberClick(h, id, given);
      && Wellformed(b) && b.entries == h.entries && b.index == h.index && b.owner == h.owner && b.launch == h.issued + 1
      && b.failed == h.failed && b.holds == h.holds + 1 && b.known == h.known
      && b.params == h.params[id := Params(h.stamps, QueryOf(Remember(h, id, given), id))]
  {
  }

  lemma TakeForShape(h: History, gen: nat, id: App, pushed: bool, screen: Screen)
    requires Wellformed(h)
    ensures var b := TakeForClick(h, gen, id, pushed, screen);
      && Wellformed(b) && b.owner == gen && b.launch == h.launch && b.failed == h.failed && b.holds == h.holds
      && b.known == h.known && b.params == h.params
      && (if pushed then b.index == h.index + 1 && |b.entries| == h.index + 2
          else b.index == h.index && |b.entries| == |h.entries|
               && Current(b) == Entry(Url(Some(id), QueryOf(h, id)), StateFor(h, Some(id), screen)))
  {
    var k := h.(owner := gen, took := h.took + {gen});
    assert QueryOf(k, id) == QueryOf(h, id) && StateFor(k, Some(id), screen) == StateFor(h, Some(id), screen);
    hide QueryOf, StateFor;
  }

  lemma ClickShape(h: History, id: App, given: Option<string>)
    requires Wellformed(h) && h.launch <= h.issued
    ensures var c := BeginClick(h, id, given);
      && c.mine == h.stamps && c.priorOwner == h.owner && c.priorLaunch == h.launch && c.id == id
      && c.before == Current(h)
      && c.gen == h.issued + 1 && c.beforeParams == (if id in h.params then Some(h.params[id]) else None)
      && c.pushed == (CurrentApp(h) != Some(id))
      && c.held == if c.pushed || ChangesParams(h, id, given) then c.gen else h.owner
  {
    hide QueryOf, Remember;
  }

  lemma BeginShape(h: History, id: App, given: Option<string>, screen: Screen)
    requires Numbered(h)
    ensures var b, c := Begin(h, id, given, screen), BeginClick(h, id, given);
      var query := QueryOf(Remember(h, id, given), id);
      && Wellformed(b) && b.owner == c.held && b.launch == c.gen && b.failed == h.failed && b.holds == h.holds + 1
      && b.known == h.known
      && b.params == h.params[id := Params(h.stamps, query)] && c.mine == h.stamps
      && c.priorOwner == h.owner && c.priorLaunch == h.launch && c.id == id && c.before == Current(h)
      && c.beforeParams == (if id in h.params then Some(h.params[id]) else None)
      && c.pushed == (CurrentApp(h) != Some(id))
      && (if c.pushed then b.index == h.index + 1 && |b.entries| == h.index + 2
          else b.index == h.index && |b.entries| == |h.entries|
               && Current(b) == (if query == QueryOf(h, id) then Current(h)
                                 else Entry(Url(Some(id), query), StateFor(h, Some(id), screen))))
  {
    var c, g := BeginClick(h, id, given), NumberClick(h, id, given);
    NumberShape(h, id, given);
    ClickShape(h, id, given);
    assert StateFor(g, Some(id), screen) == StateFor(h, Some(id), screen);
    assert h.owner <= h.issued;
    hide NumberClick, TakeForClick, BeginClick, Remember, StateFor, Numbered;
    TakeForShape(g, c.gen, id, c.pushed, screen);
  }

  // The launch below was standing already, and could not give back then.
  lemma GiveBackAlone(t: Tab, r: History, c: Click, screen: Screen)
    requires Sound(t) && Wellformed(r) && MayGiveBack(r, c)
    requires r.failed == t.h.failed && c.priorOwner == t.h.owner && c.priorLaunch == t.h.launch
    ensures var g := GiveBack(r, c, screen);
      && Wellformed(g) && g.owner == t.h.owner && g.launch == t.h.launch && g.holds == r.holds && g.params == r.params
      && g.index == r.index && |g.entries| == |r.entries|
      && Current(g) == (if c.pushed then Entry(c.before.url, WithView(r, c.before.state, screen)) else Current(r))
  {
    assert t.h.launch in t.h.failed
        ==> t.h.failed[t.h.launch].gen == t.h.launch && t.h.owner != t.h.failed[t.h.launch].held by {
      assert forall gen :: gen in t.h.failed ==> ClickSound(t.h, gen, t.h.failed[gen]);
    }
    UndoShape(r, c, screen);
    hide Sound, Undo, WithView;
  }

  lemma UndoShape(r: History, c: Click, screen: Screen)
    requires Wellformed(r)
    ensures var g := Undo(r, c, screen);
      && Wellformed(g) && g.owner == c.priorOwner && g.launch == c.priorLaunch && g.failed == r.failed
      && g.holds == r.holds && g.params == r.params && g.index == r.index && |g.entries| == |r.entries|
      && Current(g) == (if c.pushed then Entry(c.before.url, WithView(r, c.before.state, screen)) else Current(r))
  {
    hide WithView;
  }

  // --- Pending clicks and focus -------------------------------------------------------------------------------------

  lemma GiveBackKeepsHolds(h: History, c: Click, screen: Screen)
    requires Wellformed(h)
    ensures GiveBack(h, c, screen).holds == h.holds
    decreases c.gen
  {
  }

  lemma FocusKeepsHolds(h: History, w: WindowId, id: App, closing: bool, screen: Screen)
    requires Wellformed(h)
    ensures OnFocus(h, w, id, closing, screen).holds == h.holds
  {
  }

  lemma CloseKeepsHolds(h: History, closed: Option<App>, screen: Screen)
    requires Wellformed(h)
    ensures OnClosed(h, closed, screen).holds == h.holds
  {
  }

  lemma SwitchKeepsHolds(h: History, id: App, query: string, spelled: string, push: bool, screen: Screen)
    requires Wellformed(h)
    ensures OnParamsChanged(h, id, query, spelled, push, screen).holds == h.holds
  {
  }

  lemma RenameKeepsHolds(h: History, id: App, view: View, query: string, spelled: string, left: Option<Url>,
                         ctx: Option<RouteId>, screen: Screen)
    requires Wellformed(h)
    ensures OnViewChanged(h, id, view).holds == h.holds
    ensures Sync(h, screen).holds == h.holds
    ensures Adopt(h, ctx, id, query, spelled, left, screen).holds == h.holds
  {
  }

  lemma RoutesKeepHolds(h: History, to: nat, route: RouteId, ctx: Option<RouteId>, id: App, given: Option<string>,
                        shown: Option<WindowId>, screen: Screen)
    requires Wellformed(h)
    ensures to < |h.entries| ==> PopState(h, to, route, screen).holds == h.holds
    ensures NumberRoute(h, route).holds == h.holds
    ensures Commit(h, ctx, id, given, shown, screen).holds == h.holds
  {
  }

  lemma RoutesKeepHold(t: Tab, i: Intent)
    requires Sound(t) && (i.Traverses? || i.Numbers? || i.Commits? || i.Settles?)
    ensures Do(t, i).h.holds == t.h.holds && Do(t, i).live == t.live
  {
    SoundIsNumbered(t);
    hide PopState, NumberRoute, Commit, Sound, Numbered;
    match i
    case Traverses(to, route, screen) => RoutesKeepHolds(t.h, to, route, None, "", None, None, screen);
    case Numbers(route) => RoutesKeepHolds(t.h, 0, route, None, "", None, None, Screen(map[], None));
    case Commits(ctx, id, given, w, screen) => RoutesKeepHolds(t.h, 0, 0, ctx, id, given, w, screen);
    case Settles(_) =>
  }

  lemma OthersKeepHolds(t: Tab, i: Intent)
    requires Sound(t) && !i.Clicks? && !i.Opens? && !i.Fails?
    ensures Do(t, i).h.holds == t.h.holds && Do(t, i).live == t.live
  {
    SoundIsNumbered(t);
    hide OnFocus, OnClosed, OnParamsChanged, OnViewChanged, Sync, PopState, NumberRoute, Commit, Adopt, Settled, Sound,
         Numbered;
    match i
    case Focuses(w, id, closing, screen) => FocusKeepsHolds(t.h, w, id, closing, screen);
    case Closes(closed, screen) => CloseKeepsHolds(t.h, closed, screen);
    case SwitchesFolder(id, query, spelled, push, screen) => SwitchKeepsHolds(t.h, id, query, spelled, push, screen);
    case ChangesView(id, view) => RenameKeepsHolds(t.h, id, view, "", "", None, None, Screen(map[], None));
    case Adopts(ctx, id, query, spelled, left, screen) =>
      RenameKeepsHolds(t.h, id, Windowed, query, spelled, left, ctx, screen);
    case Syncs(screen) => RenameKeepsHolds(t.h, "", Windowed, "", "", None, None, screen);
    case _ => RoutesKeepHold(t, i);
  }

  lemma EndsDropOneHold(h: History, c: Click, w: WindowId, connected: bool, screen: Screen)
    requires Wellformed(h)
    ensures EndOpened(h, c, w, connected, screen).holds == h.holds - 1
    ensures EndFailed(h, c, screen).holds == h.holds - 1
  {
    var g := EndFailedIs(h, c, screen);
    hide EndFailed;
    if MayGiveBack(g, c) { GiveBackKeepsHolds(g, c, screen); }
  }

  lemma ClickAddsOneHold(t: Tab, i: Intent)
    requires Sound(t) && i.Clicks?
    ensures Do(t, i).h.holds - |Do(t, i).live| == t.h.holds - |t.live|
  {
    if Accepts(t.h, i.id) {
      NextNumberIsNew(t.h, t.live);
      BeginShape(t.h, i.id, i.given, i.screen);
      BeginClickFacts(t.h, i.id, i.given);
      hide Sound, Begin, BeginClick;
    }
  }

  lemma EndDropsOneHold(t: Tab, i: Intent)
    requires Sound(t) && (i.Opens? || i.Fails?)
    ensures Do(t, i).h.holds - |Do(t, i).live| == t.h.holds - |t.live|
  {
    SoundIsNumbered(t);
    hide Sound, EndOpened, EndFailed;
    if i.gen in t.live {
      EndsDropOneHold(t.h, t.live[i.gen], if i.Opens? then i.window else 0, if i.Opens? then i.connected
          else true, i.screen);
      assert |t.live - {i.gen}| == |t.live| - 1;
    }
  }

  lemma DoKeepsHolds(t: Tab, i: Intent)
    requires Sound(t)
    ensures Do(t, i).h.holds - |Do(t, i).live| == t.h.holds - |t.live|
  {
    hide Sound, Do;
    if i.Clicks? {
      ClickAddsOneHold(t, i);
    } else if i.Opens? || i.Fails? {
      EndDropsOneHold(t, i);
    } else {
      OthersKeepHolds(t, i);
    }
  }

  /** `holds` counts the click launches that have not ended, so a focus writes nothing while one is pending. */
  lemma {:induction false} HoldsCountsPendingClicks(known: set<App>, enabled: bool, first: Entry, run: seq<Intent>)
    ensures Sound(Start(known, enabled, first))
    ensures var t := RunTab(Start(known, enabled, first), run); t.h.holds == |t.live|
  {
    StartSound(known, enabled, first);
    if run == [] {
    } else {
      HoldsCountsPendingClicks(known, enabled, first, run[..|run| - 1]);
      DoKeepsHolds(RunTab(Start(known, enabled, first), run[..|run| - 1]), run[|run| - 1]);
    }
  }
}
