/** `createAppHistory` as the source writes it: closures over mutable fields, and the browser's own history. */
module AddressBar {
  import opened Options
  import opened AppHistory
  import opened AppHistoryOrder

  class Browser {
    var entries: seq<Entry>
    var index: nat

    constructor (first: Entry)
      ensures entries == [first] && index == 0
    {
      entries, index := [first], 0;
    }

    ghost predicate Valid()
      reads this
    {
      index < |entries|
    }

    function Here(): Entry
      reads this
      requires Valid()
    {
      entries[index]
    }

    method PushState(e: Entry)
      requires Valid()
      modifies this
      ensures Valid() && entries == old(entries[..index + 1]) + [e] && index == old(index) + 1
    {
      entries := entries[..index + 1] + [e];
      index := index + 1;
    }

    method ReplaceState(e: Entry)
      requires Valid()
      modifies this
      ensures Valid() && entries == old(entries)[old(index) := e] && index == old(index)
    {
      entries := entries[index := e];
    }
  }

  // What `begin` hands back: the closure's own variables, and whether it has ended.
  class Launch {
    const click: Click
    var ended: bool

    constructor (c: Click)
      ensures click == c && !ended
    {
      click, ended := c, false;
    }
  }

  class Controller {
    const browser: Browser
    const known: set<App>
    const enabled: bool
    var issued: nat
    var owner: nat
    var launchGeneration: nat
    var holds: int
    var params: map<App, Params>
    var stamps: nat
    var failed: map<nat, Click>
    var routes: map<RouteId, Route>
    var settling: map<WindowId, nat>
    ghost var took: set<nat>
    ghost var launched: set<nat>
    ghost var gaveBack: set<nat>
    ghost var live: map<nat, Click>

    ghost function Contents(): History
      reads this, browser
    {
      History(known, enabled, issued, owner, launchGeneration, holds, params, stamps, failed, routes, settling,
              browser.entries, browser.index, took, launched, gaveBack)
    }

    // The tab this controller stands for.
    ghost function TabOf(): Tab
      reads this, browser
    {
      Tab(Contents(), live)
    }

    ghost predicate Placed()
      reads this, browser
    {
      Wellformed(Contents()) && launchGeneration <= issued
    }

    ghost predicate Valid()
      reads this, browser
      ensures Valid() ==> Placed()
    {
      Sound(TabOf())
    }

    // The handle of a click whose launch has not ended is that of a pending launch.
    ghost predicate Holding(handle: Launch)
      reads this, handle
    {
      !handle.ended ==> handle.click.gen in live && live[handle.click.gen] == handle.click
    }

    // Who holds the entry, told by the closure's own test.
    lemma HeldIffNothingNewerTookIt(handle: Launch)
      requires Valid() && Holding(handle) && !handle.ended
      ensures owner == handle.click.held <==> NothingNewerTookIt(Contents(), handle.click.gen)
    {
      AppHistoryOrder.HeldIffNothingNewerTookIt(TabOf(), handle.click.gen);
    }

    constructor (known: set<App>, enabled: bool, browser: Browser)
      requires browser.Valid()
      ensures this.browser == browser && Valid()
      ensures TabOf()
          == Tab(History(known, enabled, 0, 0, 0, 0, map[], 0, map[], map[], map[], browser.entries, browser.index, {},
                         {}, {}), map[])
    {
      this.known, this.enabled, this.browser := known, enabled, browser;
      issued, owner, launchGeneration, holds, stamps := 0, 0, 0, 0, 0;
      params, failed, routes, settling := map[], map[], map[], map[];
      took, launched, gaveBack, live := {}, {}, {}, map[];
    }

    function CurrentId(): Option<App>
      reads this, browser
      requires browser.Valid()
      ensures CurrentId() == CurrentApp(Contents())
    {
      browser.Here().url.app
    }

    function Query(id: App): string
      reads this
    {
      if id in params then params[id].query else ""
    }

    function UrlOf(id: Option<App>): Url
      reads this
    {
      Url(id, if id.Some? then Query(id.value) else "")
    }

    function StateOf(id: Option<App>, screen: Screen): State
      reads this, browser
      requires browser.Valid()
    {
      var now := browser.Here().state;
      if id.Some? && id.value in screen.open then State(id, screen.open[id.value], now.rest)
      else State(id, if id.Some? && now.app == id then now.view else None, now.rest)
    }

    // A new params object on every write.
    method StoreParams(id: App, query: string)
      modifies this`params, this`stamps
      ensures Contents() == SetParams(old(Contents()), id, query)
    {
      params := params[id := Params(stamps, query)];
      stamps := stamps + 1;
    }

    // True if the app's parameters changed.
    method RememberParams(id: App, given: Option<string>) returns (changed: bool)
      modifies this`params, this`stamps
      ensures Contents() == Remember(old(Contents()), id, given)
      ensures changed == (QueryOf(Contents(), id) != QueryOf(old(Contents()), id))
    {
      var before := Query(id);
      StoreParams(id, if given.Some? then given.value else before);
      changed := Query(id) != before;
    }

    method TakeEntry()
      requires Placed()
      modifies this
      ensures Placed() && live == old(live) && Contents() == Take(old(Contents()))
    {
      failed := map[];
      issued := issued + 1;
      owner := issued;
      took := took + {issued};
    }

    method SettleWindow(w: WindowId, gen: nat)
      requires Wellformed(Contents())
      modifies this
      ensures live == old(live) && Contents() == Settle(old(Contents()), Some(w), gen)
    {
      if !(w in settling && settling[w] > gen) {
        settling := settling[w := gen];
      }
    }

    // `write('replaceState', urlFor(id), stateFor(id))`
    method NameEntry(id: Option<App>, screen: Screen)
      requires Wellformed(Contents())
      modifies browser
      ensures Contents() == Name(old(Contents()), id, screen)
    {
      browser.ReplaceState(Entry(UrlOf(id), StateOf(id, screen)));
    }

    method TakeEntryForClick(gen: nat, id: App, pushed: bool, screen: Screen)
      requires Wellformed(Contents())
      modifies this, browser
      ensures Wellformed(Contents()) && issued == old(issued) && launchGeneration == old(launchGeneration)
          && owner == gen
      ensures live == old(live) && Contents() == TakeForClick(old(Contents()), gen, id, pushed, screen)
    {
      owner := gen;
      took := took + {gen};
      if pushed {
        browser.PushState(Entry(UrlOf(Some(id)),
          State(Some(id), if id in screen.open then screen.open[id] else None, browser.Here().state.rest)));
      } else {
        NameEntry(Some(id), screen);
      }
    }

    lemma SameParams(h: History, g: History, id: App, given: Option<string>)
      requires g.params == h.params && g.stamps == h.stamps
      ensures QueryOf(g, id) == QueryOf(h, id)
      ensures Remember(g, id, given)
          == g.(params := Remember(h, id, given).params, stamps := Remember(h, id, given).stamps)
      ensures QueryOf(Remember(g, id, given), id) == QueryOf(Remember(h, id, given), id)
    {
    }

    lemma RememberStamps(h: History, id: App, given: Option<string>)
      ensures var g := Remember(h, id, given); id in g.params && g.params[id].stamp == h.stamps
    {
    }

    method CountTheClick() returns (gen: nat)
      modifies this`issued, this`launchGeneration, this`launched, this`holds
      ensures gen == issued == launchGeneration == old(issued) + 1 && holds == old(holds) + 1
          && launched == old(launched) + {gen}
    {
      issued := issued + 1;
      gen := issued;
      launchGeneration := gen;
      launched := launched + {gen};
      holds := holds + 1;
    }

    method NumberTheClick(id: App, given: Option<string>) returns (gen: nat, changed: bool)
      requires Placed()
      modifies this
      ensures Placed() && live == old(live) && Contents() == NumberClick(old(Contents()), id, given)
      ensures gen == old(issued) + 1 && owner == old(owner) && id in params && params[id].stamp == old(stamps)
      ensures changed == (QueryOf(Remember(old(Contents()), id, given), id) != QueryOf(old(Contents()), id))
    {
      hide Remember, QueryOf;
      gen := CountTheClick();
      SameParams(old(Contents()), Contents(), id, given);
      changed := RememberParams(id, given);
      RememberStamps(old(Contents()), id, given);
    }

    // Numbers the click, and takes the entry if it names another app or changes its own parameters.
    method LaunchClick(id: App, given: Option<string>, screen: Screen) returns (click: Click)
      requires Placed() && owner <= issued
      modifies this, browser
      ensures Placed() && live == old(live)
      ensures Contents() == AppHistory.Begin(old(Contents()), id, given, screen)
          && click == BeginClick(old(Contents()), id, given)
    {
      hide NumberClick, TakeForClick, QueryOf, Remember;
      var priorOwner, priorLaunch, before := owner, launchGeneration, browser.Here();
      var beforeParams := if id in params then Some(params[id]) else None;
      var pushed := CurrentId() != Some(id);
      var gen, changed := NumberTheClick(id, given);
      var mine := params[id].stamp;
      if changed || pushed {
        TakeEntryForClick(gen, id, pushed, screen);
      }
      click := Click(gen, id, priorOwner, priorLaunch, owner, before, beforeParams, pushed, mine);
    }

    // `begin(id, ctx)`: the handle whose `end` tells how the launch came out, or null.
    method Begin(id: App, given: Option<string>, screen: Screen) returns (handle: Option<Launch>)
      requires Valid()
      modifies this, browser
      ensures Valid() && TabOf() == Do(old(TabOf()), Clicks(id, given, screen))
      ensures handle.Some? <==> Accepts(old(Contents()), id)
      ensures handle.Some? ==>
        && fresh(handle.value) && !handle.value.ended && Holding(handle.value)
        && handle.value.click == BeginClick(old(Contents()), id, given)
    {
      hide Sound, Do, AppHistory.Begin, BeginClick, Wellformed;
      DoKeepsSound(TabOf(), Clicks(id, given, screen));
      DoClicks(TabOf(), id, given, screen);
      if !enabled || id !in known {
        return None;
      }
      var click := LaunchClick(id, given, screen);
      var launch := Track(click);
      handle := Some(launch);
    }

    method Track(click: Click) returns (launch: Launch)
      modifies this`live
      ensures fresh(launch) && launch.click == click && !launch.ended
      ensures live == old(live)[click.gen := click]
    {
      launch := new Launch(click);
      live := live[click.gen := click];
    }

    // Its own entry back, and the owner and the newest launch it found.
    method UndoLaunch(c: Click, screen: Screen)
      requires Wellformed(Contents())
      modifies this`owner, this`launchGeneration, this`gaveBack, browser
      ensures Wellformed(Contents()) && launchGeneration == c.priorLaunch
          && Contents() == Undo(old(Contents()), c, screen)
    {
      if c.pushed {
        var view := if c.before.state.app.Some? && c.before.state.app.value in known
            && c.before.state.app.value in screen.open
                    then screen.open[c.before.state.app.value] else c.before.state.view;
        browser.ReplaceState(Entry(c.before.url, c.before.state.(view := view)));
      }
      owner, launchGeneration := c.priorOwner, c.priorLaunch;
      gaveBack := gaveBack + {c.gen};
    }

    // The parameters from before the launch, if nobody has written newer ones.
    method TakeBackParams(c: Click)
      modifies this`params
      ensures Contents() == RestoreParams(old(Contents()), c)
    {
      if c.id in params && params[c.id].stamp == c.mine {
        if c.beforeParams.None? {
          params := params - {c.id};
        } else {
          params := params[c.id := c.beforeParams.value];
        }
      }
    }

    // As if this launch never happened; one under it that failed meanwhile gives back too.
    method GiveBackEntry(c: Click, screen: Screen)
      requires Wellformed(Contents())
      modifies this, browser
      ensures live == old(live) && Contents() == GiveBack(old(Contents()), c, screen)
      decreases c.gen
    {
      hide AppHistory.Undo;
      UndoLaunch(c, screen);
      if launchGeneration in failed {
        var older := failed[launchGeneration];
        failed := failed - {launchGeneration};
        if owner == older.held && launchGeneration == older.gen {
          GiveBackEntry(older, screen);
        }
      }
    }

    // What a failed click does to the parameters and the entry.
    method Unlaunch(c: Click, screen: Screen)
      requires Wellformed(Contents())
      modifies this, browser
      ensures live == old(live) && Contents() == AppHistory.EndFailed(old(Contents()), c, screen)
    {
      hide RestoreParams, GiveBack;
      holds := holds - 1;
      TakeBackParams(c);
      if owner == c.held && launchGeneration == c.gen {
        GiveBackEntry(c, screen);
      } else {
        failed := failed[c.gen := c];
      }
    }

    // `end(null)`: the app did not open.
    method EndFailed(handle: Launch, screen: Screen)
      requires Valid() && Holding(handle)
      modifies this, browser, handle
      ensures handle.ended
      ensures Valid()
          && TabOf() == if old(handle.ended) then old(TabOf()) else Do(old(TabOf()), Fails(handle.click.gen, screen))
    {
      if handle.ended { return; }
      DoKeepsSound(TabOf(), Fails(handle.click.gen, screen));
      hide Sound, AppHistory.EndFailed;
      handle.ended := true;
      Unlaunch(handle.click, screen);
      live := live - {handle.click.gen};
    }

    method ShowOpened(c: Click, w: WindowId, connected: bool, screen: Screen)
      requires Wellformed(Contents())
      modifies this, browser
      ensures live == old(live) && Contents() == AppHistory.EndOpened(old(Contents()), c, w, connected, screen)
    {
      hide Name, Settle;
      holds := holds - 1;
      if !connected { return; }
      SettleWindow(w, c.gen);
      if c.gen == launchGeneration && CurrentId() != Some(c.id) {
        NameEntry(Some(c.id), screen);
      }
    }

    // `end(el)`: the app opened this window.
    method EndOpened(handle: Launch, w: WindowId, connected: bool, screen: Screen)
      requires Valid() && Holding(handle)
      modifies this, browser, handle
      ensures handle.ended
      ensures Valid() && TabOf() == if old(handle.ended) then old(TabOf())
                                    else Do(old(TabOf()), Opens(handle.click.gen, w, connected, screen))
    {
      if handle.ended { return; }
      DoKeepsSound(TabOf(), Opens(handle.click.gen, w, connected, screen));
      hide Sound, AppHistory.EndOpened;
      handle.ended := true;
      ShowOpened(handle.click, w, connected, screen);
      live := live - {handle.click.gen};
    }

    // The browser has moved to entry `to`: the newest intent, and the newest launch.
    method Land(to: nat)
      requires Placed() && to < |browser.entries|
      modifies this, browser
      ensures Placed() && live == old(live)
      ensures var g := Take(old(Contents()).(index := to));
          Contents() == g.(launch := g.owner, launched := g.launched + {g.owner})
    {
      browser.index := to;
      TakeEntry();
      launchGeneration := owner;
      launched := launched + {owner};
    }

    method Arrive(to: nat, route: RouteId, screen: Screen)
      requires Placed() && to < |browser.entries|
      modifies this, browser
      ensures live == old(live) && Contents() == AppHistory.PopState(old(Contents()), to, route, screen)
    {
      hide Take, SetParams, Replace;
      Land(to);
      if CurrentId().None? { return; }
      var id := CurrentId().value;
      StoreParams(id, browser.Here().url.query);
      ShowView(id, screen);
      routes := routes[route := Route(owner, owner)];
    }

    method ShowView(id: App, screen: Screen)
      requires Wellformed(Contents())
      modifies browser
      ensures var h := old(Contents());
        Contents()
        == if id in screen.open && h.enabled
           then Replace(h, Entry(Current(h).url, Current(h).state.(app := Some(id), view := screen.open[id])))
           else h
    {
      if id in screen.open && enabled {
        browser.ReplaceState(Entry(browser.Here().url,
                                   browser.Here().state.(app := Some(id), view := screen.open[id])));
      }
    }

    // Back/Forward.
    method PopState(to: nat, route: RouteId, screen: Screen)
      requires Valid() && to < |browser.entries|
      modifies this, browser
      ensures Valid() && TabOf() == Do(old(TabOf()), Traverses(to, route, screen))
    {
      DoKeepsSound(TabOf(), Traverses(to, route, screen));
      DoChangesHistory(TabOf(), Traverses(to, route, screen));
      hide Sound, Do, AppHistory.PopState;
      Arrive(to, route, screen);
    }

    method OnFocus(w: WindowId, id: App, closing: bool, screen: Screen)
      requires Valid()
      modifies this, browser
      ensures Valid() && TabOf() == Do(old(TabOf()), Focuses(w, id, closing, screen))
    {
      DoKeepsSound(TabOf(), Focuses(w, id, closing, screen));
      DoChangesHistory(TabOf(), Focuses(w, id, closing, screen));
      hide Sound, Do;
      if !enabled || holds > 0 { return; }
      if id !in known || closing { return; }
      if w in settling && settling[w] != launchGeneration { return; }
      if CurrentId() == Some(id) { return; }
      TakeEntry();
      NameEntry(Some(id), screen);
    }

    method OnClosed(closed: Option<App>, screen: Screen)
      requires Valid()
      modifies this, browser
      ensures Valid() && TabOf() == Do(old(TabOf()), Closes(closed, screen))
    {
      DoKeepsSound(TabOf(), Closes(closed, screen));
      DoChangesHistory(TabOf(), Closes(closed, screen));
      hide Sound, Do;
      if !enabled { return; }
      var mine := closed.Some? && closed.value in known;
      if mine && closed.value !in screen.open {
        params := params - {closed.value};
      }
      if CurrentId() == screen.front { return; }
      if mine {
        TakeEntry();
      }
      NameEntry(screen.front, screen);
    }

    method FollowFolder(id: App, query: string, spelled: string, push: bool, screen: Screen)
      requires Placed()
      modifies this, browser
      ensures live == old(live)
          && Contents() == AppHistory.OnParamsChanged(old(Contents()), id, query, spelled, push, screen)
    {
      if !enabled || id !in known || id !in screen.open || CurrentId() != Some(id) || holds > 0 { return; }
      StoreParams(id, query);
      var url := Url(Some(id), spelled);
      if !push && url == browser.Here().url { return; }
      TakeEntry();
      var e := Entry(url, StateOf(Some(id), screen));
      if push {
        browser.PushState(e);
      } else {
        browser.ReplaceState(e);
      }
    }

    // Code reports its folder.
    method OnParamsChanged(id: App, query: string, spelled: string, push: bool, screen: Screen)
      requires Valid()
      modifies this, browser
      ensures Valid() && TabOf() == Do(old(TabOf()), SwitchesFolder(id, query, spelled, push, screen))
    {
      DoKeepsSound(TabOf(), SwitchesFolder(id, query, spelled, push, screen));
      DoChangesHistory(TabOf(), SwitchesFolder(id, query, spelled, push, screen));
      hide Sound, Do, AppHistory.OnParamsChanged;
      FollowFolder(id, query, spelled, push, screen);
    }

    // The launch that opened this window has settled.
    method OnSettled(w: WindowId)
      requires Valid()
      modifies this
      ensures Valid() && TabOf() == Do(old(TabOf()), Settles(w))
    {
      DoKeepsSound(TabOf(), Settles(w));
      DoChangesHistory(TabOf(), Settles(w));
      hide Sound, Do;
      settling := settling - {w};
      assert Contents() == Settled(old(Contents()), w);
    }

    // Code shows another view of its window.
    method OnViewChanged(id: App, view: View)
      requires Valid()
      modifies this, browser
      ensures Valid() && TabOf() == Do(old(TabOf()), ChangesView(id, view))
    {
      DoKeepsSound(TabOf(), ChangesView(id, view));
      DoChangesHistory(TabOf(), ChangesView(id, view));
      hide Sound, Do;
      if !enabled || id !in known || CurrentId() != Some(id) { return; }
      browser.ReplaceState(Entry(browser.Here().url, browser.Here().state.(app := Some(id), view := Some(view))));
    }

    method NumberRoute(route: RouteId)
      requires Valid()
      modifies this
      ensures Valid() && TabOf() == Do(old(TabOf()), Numbers(route))
    {
      DoKeepsSound(TabOf(), Numbers(route));
      DoChangesHistory(TabOf(), Numbers(route));
      hide Sound, Do;
      issued := issued + 1;
      launchGeneration := issued;
      launched := launched + {issued};
      routes := routes[route := Route(issued, owner)];
      assert Contents() == AppHistory.NumberRoute(old(Contents()), route);
    }

    method WriteCommit(id: App, given: Option<string>, screen: Screen)
      requires Placed()
      modifies this, browser
      ensures Placed() && live == old(live) && Contents() == CommitEntry(old(Contents()), id, given, screen)
    {
      var changed := RememberParams(id, given);
      var same := CurrentId() == Some(id);
      browser.ReplaceState(Entry(if same && !changed then browser.Here().url
          else UrlOf(Some(id)), StateOf(Some(id), screen)));
    }

    method Commit(route: Option<RouteId>, id: App, given: Option<string>, w: Option<WindowId>, screen: Screen)
      requires Valid()
      modifies this, browser
      ensures Valid() && TabOf() == Do(old(TabOf()), Commits(route, id, given, w, screen))
    {
      DoKeepsSound(TabOf(), Commits(route, id, given, w, screen));
      DoChangesHistory(TabOf(), Commits(route, id, given, w, screen));
      hide Sound, Do;
      if !enabled || id !in known { return; }
      var numbered := route.Some? && route.value in routes;
      var gen := if numbered then routes[route.value].gen else launchGeneration;
      if w.Some? {
        SettleWindow(w.value, gen);
      }
      if numbered && routes[route.value].held != owner { return; }
      WriteCommit(id, given, screen);
    }

    method Canonicalise(route: Option<RouteId>, id: App, query: string, spelled: string, left: Option<Url>,
                        screen: Screen)
      requires Placed()
      modifies this, browser
      ensures live == old(live)
          && Contents() == AppHistory.Adopt(old(Contents()), route, id, query, spelled, left, screen)
    {
      StoreParams(id, query);
      if route.Some? && route.value in routes && routes[route.value].held != owner { return; }
      if enabled {
        browser.ReplaceState(Entry(Url(Some(id), spelled), StateOf(Some(id), screen)));
      } else if left.Some? {
        browser.ReplaceState(Entry(left.value, browser.Here().state));
      }
    }

    // The boot's own link.
    method Adopt(route: Option<RouteId>, id: App, query: string, spelled: string, left: Option<Url>, screen: Screen)
      requires Valid()
      modifies this, browser
      ensures Valid() && TabOf() == Do(old(TabOf()), Adopts(route, id, query, spelled, left, screen))
    {
      DoKeepsSound(TabOf(), Adopts(route, id, query, spelled, left, screen));
      DoChangesHistory(TabOf(), Adopts(route, id, query, spelled, left, screen));
      hide Sound, Do, AppHistory.Adopt;
      Canonicalise(route, id, query, spelled, left, screen);
    }

    // After a shell rebuild: drop the parameters of apps without a window and name the app in front.
    method NameTheFront(screen: Screen)
      requires Placed()
      modifies this, browser
      ensures live == old(live) && Contents() == AppHistory.Sync(old(Contents()), screen)
    {
      if !enabled { return; }
      ghost var all := params;
      var ids := params.Keys;
      while ids != {}
        invariant ids <= all.Keys
        invariant params == map id | id in all && (id in screen.open || id in ids) :: all[id]
        invariant live == old(live) && Contents() == old(Contents()).(params := params)
        decreases ids
      {
        var id :| id in ids;
        if id !in screen.open {
          params := params - {id};
        }
        ids := ids - {id};
      }
      if CurrentId() != screen.front {
        NameEntry(screen.front, screen);
      }
    }

    // After a shell rebuild.
    method Sync(screen: Screen)
      requires Valid()
      modifies this, browser
      ensures Valid() && TabOf() == Do(old(TabOf()), Syncs(screen))
    {
      DoKeepsSound(TabOf(), Syncs(screen));
      DoChangesHistory(TabOf(), Syncs(screen));
      hide Sound, Do, AppHistory.Sync;
      NameTheFront(screen);
    }
  }
}
