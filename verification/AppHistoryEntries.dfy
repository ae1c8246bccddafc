/**
 * What each intent writes: the entry it leaves current, the parameters it remembers, and the entries it leaves alone.
 * Told by the tab's fields before the intent and by the screen.
 */
module AppHistoryEntries {
  import opened Options
  import opened AppHistory
  import opened AppHistoryOrder

  function Here(h: History): Entry
    requires h.index < |h.entries|
  {
    h.entries[h.index]
  }

  // What is on record for an app, if anything.
  function Recorded(h: History, id: App): Option<string> {
    if id in h.params then Some(h.params[id].query) else None
  }

  function Or(query: Option<string>, otherwise: string): string {
    if query.Some? then query.value else otherwise
  }

  // The state of an entry that comes to name `id`: its open window's view, or the one already recorded for that app.
  predicate Shows(s: State, id: Option<App>, before: State, screen: Screen) {
    && s.app == id
    && s.rest == before.rest
    && s.view == if id.Some? && id.value in screen.open then screen.open[id.value]
                 else if id.Some? && before.app == id then before.view
                 else None
  }

  // --- How the entries change ---------------------------------------------------------------------------------------

  predicate OthersStay(h: History, g: History, at: nat) {
    && |g.entries| == |h.entries| && g.index == at < |h.entries|
    && forall k :: 0 <= k < |h.entries| && k != at ==> g.entries[k] == h.entries[k]
  }

  // A new entry after the current one; what lay ahead is gone.
  predicate Pushes(h: History, g: History) {
    && g.index == h.index + 1 && |g.entries| == g.index + 1
    && forall k :: 0 <= k <= h.index < |h.entries| ==> g.entries[k] == h.entries[k]
  }

  ghost predicate OtherParamsStay(h: History, g: History, id: App) {
    forall other :: other != id ==> Recorded(g, other) == Recorded(h, other)
  }

  // What naming an app writes, and what it leaves.
  lemma NameWrites(h: History, id: Option<App>, screen: Screen)
    requires Wellformed(h)
    ensures var g := Name(h, id, screen);
      && OthersStay(h, g, h.index)
      && Here(g).url.app == id
      && Here(g).url.query == (if id.Some? then Or(Recorded(h, id.value), "") else "")
      && Shows(Here(g).state, id, Here(h).state, screen)
      && g == h.(entries := g.entries)
  {
  }

  // --- The user's intents -------------------------------------------------------------------------------------------

  /** A focus that counts names its app with what is on record for it; any other changes nothing. */
  lemma FocusNames(t: Tab, w: WindowId, id: App, closing: bool, screen: Screen)
    requires Sound(t)
    ensures var h, g := t.h, Do(t, Focuses(w, id, closing, screen)).h;
      if h.enabled && h.holds <= 0 && id in h.known && !closing && Here(h).url.app != Some(id)
         && (w in h.settling ==> h.settling[w] == h.launch) then
        && OthersStay(h, g, h.index)
        && Here(g).url == Url(Some(id), Or(Recorded(h, id), ""))
        && Shows(Here(g).state, Some(id), Here(h).state, screen)
        && g.params == h.params && g.owner == g.issued == h.issued + 1
      else g == h
  {
    hide Sound, Name, Do;
    DoChangesHistory(t, Focuses(w, id, closing, screen));
    SoundIsNumbered(t);
    NameWrites(Take(t.h), Some(id), screen);
  }

  /**
   * A close forgets the parameters of an app without a window, and names the app in front if another was named: the
   * close of one of the tab's own apps takes the entry then.
   */
  lemma CloseNames(t: Tab, closed: Option<App>, screen: Screen)
    requires Sound(t)
    ensures var h, g := t.h, Do(t, Closes(closed, screen)).h;
      var mine := closed.Some? && closed.value in h.known;
      if !h.enabled then g == h
      else
        && OthersStay(h, g, h.index)
        && Forgets(h, g, closed, screen)
        && (if Here(h).url.app == screen.front then Here(g) == Here(h) && g.owner == h.owner
            else
              && Here(g).url.app == screen.front
              && Here(g).url.query == (if screen.front.Some? then Or(Recorded(g, screen.front.value), "") else "")
              && Shows(Here(g).state, screen.front, Here(h).state, screen)
              && g.owner == if mine then h.issued + 1 else h.owner)
  {
    hide Sound, Do;
    DoChangesHistory(t, Closes(closed, screen));
    SoundIsNumbered(t);
    if t.h.enabled {
      hide Name, Forgets, Shows, OnClosed, OthersStay, Recorded;
      CloseWrites(t.h, closed, screen);
    }
  }

  ghost predicate Forgets(h: History, g: History, closed: Option<App>, screen: Screen) {
    forall id :: Recorded(g, id)
      == if closed == Some(id) && id in h.known && id !in screen.open then None else Recorded(h, id)
  }

  lemma CloseWrites(h: History, closed: Option<App>, screen: Screen)
    requires Wellformed(h) && h.enabled
    ensures var g := OnClosed(h, closed, screen);
      && OthersStay(h, g, h.index)
      && Forgets(h, g, closed, screen)
      && (if Here(h).url.app == screen.front then Here(g) == Here(h) && g.owner == h.owner
          else
            && Here(g).url.app == screen.front
            && Here(g).url.query == (if screen.front.Some? then Or(Recorded(g, screen.front.value), "") else "")
            && Shows(Here(g).state, screen.front, Here(h).state, screen)
            && g.owner == if closed.Some? && closed.value in h.known then h.issued + 1 else h.owner)
  {
    hide Name, Recorded, Forgets, Shows, OnClosed, Dropped;
    DropForgets(h, closed, screen);
    var k := Dropped(h, closed, screen);
    if Here(h).url.app != screen.front {
      var n := if closed.Some? && closed.value in h.known then Take(k) else k;
      NameWrites(n, screen.front, screen);
      RecordedInParams(n, Name(n, screen.front, screen));
    }
  }

  function Dropped(h: History, closed: Option<App>, screen: Screen): History {
    if closed.Some? && closed.value in h.known && closed.value !in screen.open
    then h.(params := h.params - {closed.value}) else h
  }

  lemma DropForgets(h: History, closed: Option<App>, screen: Screen)
    requires Wellformed(h) && h.enabled
    ensures var k := Dropped(h, closed, screen);
      && k == h.(params := k.params)
      && Forgets(h, k, closed, screen)
      && (forall g: History :: g.params == k.params ==> Forgets(h, g, closed, screen))
      && OthersStay(h, k, h.index)
      && OnClosed(h, closed, screen)
         == if Here(h).url.app == screen.front then k
            else Name(if closed.Some? && closed.value in h.known then Take(k) else k, screen.front, screen)
  {
    hide Name;
  }

  lemma RecordedInParams(h: History, g: History)
    ensures g.params == h.params ==> forall id :: Recorded(g, id) == Recorded(h, id)
  {
  }

  /** Back/Forward keeps the URL it lands on and records that URL's query; an open window only refreshes the view. */
  lemma TraversalKeepsTheUrl(t: Tab, to: nat, route: RouteId, screen: Screen)
    requires Sound(t) && to < |t.h.entries|
    ensures var h, g := t.h, Do(t, Traverses(to, route, screen)).h; var landed := h.entries[to];
      && OthersStay(h, g, to)
      && Here(g).url == landed.url
      && g.owner == g.launch == g.issued == h.issued + 1
      && (match landed.url.app
          case None => Here(g) == landed && g.params == h.params
          case Some(id) =>
            && Recorded(g, id) == Some(landed.url.query) && OtherParamsStay(h, g, id)
            && Here(g).state == (if h.enabled && id in screen.open
                                 then State(Some(id), screen.open[id], landed.state.rest) else landed.state))
  {
    hide Sound, Do, PopState;
    DoChangesHistory(t, Traverses(to, route, screen));
    SoundIsNumbered(t);
    if t.h.entries[to].url.app.None? {
      UnnamedLanding(t.h, to, route, screen);
    } else {
      NamedLanding(t.h, to, route, screen);
      hide Recorded;
    }
  }

  lemma UnnamedLanding(h: History, to: nat, route: RouteId, screen: Screen)
    requires Wellformed(h) && to < |h.entries| && h.entries[to].url.app.None?
    ensures var g := PopState(h, to, route, screen);
      && g.entries == h.entries && g.index == to && g.params == h.params
      && g.owner == g.launch == g.issued == h.issued + 1
  {
  }

  lemma NamedLanding(h: History, to: nat, route: RouteId, screen: Screen)
    requires Wellformed(h) && to < |h.entries| && h.entries[to].url.app.Some?
    ensures var g, landed := PopState(h, to, route, screen), h.entries[to]; var id := landed.url.app.value;
      && OthersStay(h, g, to) && Here(g).url == landed.url
      && g.owner == g.launch == g.issued == h.issued + 1
      && Recorded(g, id) == Some(landed.url.query) && OtherParamsStay(h, g, id)
      && Here(g).state == (if h.enabled && id in screen.open
                           then State(Some(id), screen.open[id], landed.state.rest) else landed.state)
  {
  }

  /**
   * A folder that counts is recorded and leaves the spelling that was reported, in a new entry when it asks for one.
   */
  lemma FolderKeepsItsSpelling(t: Tab, id: App, query: string, spelled: string, push: bool, screen: Screen)
    requires Sound(t)
    ensures var h, g := t.h, Do(t, SwitchesFolder(id, query, spelled, push, screen)).h;
      if h.enabled && id in h.known && id in screen.open && Here(h).url.app == Some(id) && h.holds <= 0 then
        && Recorded(g, id) == Some(query) && OtherParamsStay(h, g, id)
        && (if push then Pushes(h, g) else OthersStay(h, g, h.index))
        && Here(g).url == Url(Some(id), spelled)
        && (if !push && Here(h).url.query == spelled then Here(g) == Here(h) && g.owner == h.owner
            else Here(g).state == State(Some(id), screen.open[id], Here(h).state.rest) && g.owner == h.issued + 1)
      else g == h
  {
    hide Sound;
    DoChangesHistory(t, SwitchesFolder(id, query, spelled, push, screen));
    SoundIsNumbered(t);
  }

  /** A view that counts is written into the entry, whose URL stays. */
  lemma ViewIsWritten(t: Tab, id: App, view: View)
    requires Sound(t)
    ensures var h, g := t.h, Do(t, ChangesView(id, view)).h;
      if h.enabled && id in h.known && Here(h).url.app == Some(id) then
        && OthersStay(h, g, h.index)
        && Here(g) == Entry(Here(h).url, State(Some(id), Some(view), Here(h).state.rest))
        && g.params == h.params && g.owner == h.owner
      else g == h
  {
    hide Sound;
    DoChangesHistory(t, ChangesView(id, view));
    SoundIsNumbered(t);
  }

  /**
   * A click names its app with the parameters it gives, or those on record: in a new entry if another app was named,
   * in place if its parameters changed, and otherwise not at all.
   */
  lemma ClickNames(t: Tab, id: App, given: Option<string>, screen: Screen)
    requires Sound(t)
    ensures var h, u := t.h, Do(t, Clicks(id, given, screen)); var g := u.h;
      var recorded := Or(Recorded(h, id), ""); var query := Or(given, recorded);
      if h.enabled && id in h.known then
        && u.live.Keys == t.live.Keys + {h.issued + 1} && Remembers(h, g, u.live[h.issued + 1], id)
        && g.launch == g.issued == h.issued + 1 && g.holds == h.holds + 1
        && Recorded(g, id) == Some(query) && OtherParamsStay(h, g, id)
        && (if Here(h).url.app != Some(id) then
              && Pushes(h, g) && g.owner == h.issued + 1
              && Here(g).url == Url(Some(id), query)
              && Here(g).state
                 == State(Some(id), if id in screen.open then screen.open[id] else None, Here(h).state.rest)
            else
              && OthersStay(h, g, h.index)
              && (if query == recorded then Here(g) == Here(h) && g.owner == h.owner
                  else
                    && Here(g).url == Url(Some(id), query) && g.owner == h.issued + 1
                    && Shows(Here(g).state, Some(id), Here(h).state, screen)))
      else u == t
  {
    hide Sound, Do, Begin, BeginClick;
    DoClicks(t, id, given, screen);
    ClickRemembers(t.h, id, given, screen);
    BeginWrites(t.h, id, given, screen);
  }

  // What the launch keeps for its end: its app, the entry and the parameters it found, and those it set itself.
  predicate Remembers(h: History, g: History, c: Click, id: App)
    requires h.index < |h.entries|
  {
    && c.id == id && c.before == Here(h) && c.pushed == (Here(h).url.app != Some(id))
    && c.beforeParams == (if id in h.params then Some(h.params[id]) else None)
    && id in g.params && g.params[id].stamp == c.mine
  }

  lemma ClickRemembers(h: History, id: App, given: Option<string>, screen: Screen)
    requires Wellformed(h) && h.launch <= h.issued
    ensures Remembers(h, Begin(h, id, given, screen), BeginClick(h, id, given), id)
    ensures BeginClick(h, id, given).gen == h.issued + 1
  {
    hide UrlFor, StateFor;
  }

  lemma BeginWrites(h: History, id: App, given: Option<string>, screen: Screen)
    requires Wellformed(h) && h.launch <= h.issued && h.owner <= h.issued
    ensures var g, recorded := Begin(h, id, given, screen), Or(Recorded(h, id), "");
      var query := Or(given, recorded);
      && g.launch == g.issued == h.issued + 1 && g.holds == h.holds + 1
      && Recorded(g, id) == Some(query) && OtherParamsStay(h, g, id)
      && (if Here(h).url.app != Some(id) then
            && Pushes(h, g) && g.owner == h.issued + 1
            && Here(g).url == Url(Some(id), query)
            && Here(g).state == State(Some(id), if id in screen.open then screen.open[id] else None, Here(h).state.rest)
          else
            && OthersStay(h, g, h.index)
            && (if query == recorded then Here(g) == Here(h) && g.owner == h.owner
                else
                  && Here(g).url == Url(Some(id), query) && g.owner == h.issued + 1
                  && Shows(Here(g).state, Some(id), Here(h).state, screen)))
  {
    var k := NumberClick(h, id, given);
    NumberRecords(h, id, given);
    BeginTakes(h, id, given);
    hide NumberClick, BeginClick, Recorded;
    TakeWrites(k, h.issued + 1, id, Here(h).url.app != Some(id), screen);
    hide TakeForClick, Shows;
  }

  lemma NumberRecords(h: History, id: App, given: Option<string>)
    ensures var g := NumberClick(h, id, given);
      && Recorded(g, id) == Some(Or(given, Or(Recorded(h, id), ""))) && OtherParamsStay(h, g, id)
      && g.entries == h.entries && g.index == h.index && g.owner == h.owner
      && g.launch == g.issued == h.issued + 1 && g.holds == h.holds + 1
  {
  }

  lemma BeginTakes(h: History, id: App, given: Option<string>)
    requires Wellformed(h) && h.launch <= h.issued
    ensures var c, recorded := BeginClick(h, id, given), Or(Recorded(h, id), "");
      && c.gen == h.issued + 1 && c.pushed == (Here(h).url.app != Some(id))
      && c.held == if c.pushed || Or(given, recorded) != recorded then c.gen else h.owner
  {
  }

  lemma TakeWrites(h: History, gen: nat, id: App, pushed: bool, screen: Screen)
    requires Wellformed(h)
    ensures var g := TakeForClick(h, gen, id, pushed, screen);
      && (if pushed then Pushes(h, g) else OthersStay(h, g, h.index))
      && g.owner == gen && g == h.(owner := gen, took := g.took, entries := g.entries, index := g.index)
      && Here(g).url == Url(Some(id), Or(Recorded(h, id), ""))
      && (if pushed then
            Here(g).state == State(Some(id), if id in screen.open then screen.open[id] else None, Here(h).state.rest)
          else Shows(Here(g).state, Some(id), Here(h).state, screen))
  {
    NameWrites(h.(owner := gen, took := h.took + {gen}), Some(id), screen);
    hide Name;
  }

  // --- How a launch ends --------------------------------------------------------------------------------------------

  /** A launch that opened names its app while it is the newest, if the entry names another; no other opening writes. */
  lemma OpenedNames(t: Tab, gen: nat, w: WindowId, connected: bool, screen: Screen)
    requires Sound(t) && gen in t.live
    ensures var h, u := t.h, Do(t, Opens(gen, w, connected, screen)); var g, id := u.h, t.live[gen].id;
      && u.live == t.live - {gen} && g.holds == h.holds - 1
      && OthersStay(h, g, h.index)
      && g.params == h.params && g.owner == h.owner
      && (if connected && gen == h.launch && Here(h).url.app != Some(id) then
            && Here(g).url == Url(Some(id), Or(Recorded(h, id), ""))
            && Shows(Here(g).state, Some(id), Here(h).state, screen)
          else Here(g) == Here(h))
      && g.settling == (if connected && (w in h.settling ==> h.settling[w] <= gen) then h.settling[w := gen]
                        else h.settling)
  {
    SoundIsNumbered(t);
    var c := t.live[gen];
    assert c.gen == gen;
    hide Sound, EndOpened, Shows, OthersStay, Recorded;
    OpenedWrites(t.h, c, w, connected, screen);
  }

  lemma OpenedWrites(h: History, c: Click, w: WindowId, connected: bool, screen: Screen)
    requires Wellformed(h)
    ensures var g := EndOpened(h, c, w, connected, screen);
      && g.holds == h.holds - 1
      && OthersStay(h, g, h.index)
      && g.params == h.params && g.owner == h.owner
      && (if connected && c.gen == h.launch && Here(h).url.app != Some(c.id) then
            && Here(g).url == Url(Some(c.id), Or(Recorded(h, c.id), ""))
            && Shows(Here(g).state, Some(c.id), Here(h).state, screen)
          else Here(g) == Here(h))
      && g.settling == (if connected && (w in h.settling ==> h.settling[w] <= c.gen) then h.settling[w := c.gen]
                        else h.settling)
  {
    hide Name;
    var k := Settle(h.(holds := h.holds - 1), Some(w), c.gen);
    NameWrites(k, Some(c.id), screen);
  }

  // The click a failing launch or one that failed before it came from.
  function ClickOf(h: History, c: Click, n: nat): Click
    requires n == c.gen || n in h.failed
  {
    if n == c.gen then c else h.failed[n]
  }

  // The entry `e` with the view that the window of its app shows now.
  predicate PutBack(h: History, e: Entry, was: Entry, screen: Screen) {
    && e.url == was.url && e.state.app == was.state.app && e.state.rest == was.state.rest
    && e.state.view == match was.state.app
       case Some(id) => if id in h.known && id in screen.open then screen.open[id] else was.state.view
       case None => was.state.view
  }

  // The least number of `back` whose click had added an entry.
  ghost predicate LeastPushed(h: History, c: Click, back: set<nat>, n: nat)
    requires forall m :: m in back ==> m == c.gen || m in h.failed
  {
    n in back && ClickOf(h, c, n).pushed && forall m :: m in back && ClickOf(h, c, m).pushed ==> n <= m
  }

  ghost predicate NothingPushed(h: History, c: Click, back: set<nat>)
    requires forall m :: m in back ==> m == c.gen || m in h.failed
  {
    forall m :: m in back ==> !ClickOf(h, c, m).pushed
  }

  // Each number given back is that of `c` or of a launch that failed before it, and the entry is what they left.
  ghost predicate GivesBack(h: History, g: History, c: Click, screen: Screen) {
    var back := g.gaveBack - h.gaveBack;
    && h.index < |h.entries| && OthersStay(h, g, h.index)
    && c.gen in back
    && (forall n :: n in back ==> n <= c.gen && (n == c.gen || n in h.failed))
    && (NothingPushed(h, c, back) ==> Here(g) == Here(h))
    && (forall n :: LeastPushed(h, c, back, n) ==> PutBack(h, Here(g), ClickOf(h, c, n).before, screen))
  }

  ghost predicate SameBeside(h: History, g: History) {
    && g.params == h.params && g.holds == h.holds && g.known == h.known && h.gaveBack <= g.gaveBack
    && g.settling == h.settling && g.routes == h.routes && g.enabled == h.enabled
  }

  ghost predicate Waiting(h: History) {
    forall n :: n in h.failed ==> h.failed[n].gen == n && n !in h.gaveBack
  }

  lemma {:induction false} GiveBackWrites(h: History, c: Click, screen: Screen)
    requires Wellformed(h) && c.gen !in h.gaveBack && c.gen !in h.failed && Waiting(h)
    ensures GivesBack(h, GiveBack(h, c, screen), c, screen) && SameBeside(h, GiveBack(h, c, screen))
    decreases c.gen
  {
    hide GivesBack, Undo, PutBack;
    var u := Undo(h, c, screen);
    UndoWrites(h, c, screen);
    UndoGivesBack(h, u, c, screen);
    if u.launch in u.failed {
      var older := u.failed[u.launch];
      var k := u.(failed := u.failed - {u.launch});
      if MayGiveBack(k, older) {
        GiveBackWrites(k, older, screen);
        ChainGivesBack(h, u, k, c, older, GiveBack(k, older, screen), screen);
      } else {
        UndoGivesBack(h, k, c, screen);
      }
    } else {
    }
  }

  lemma UndoGivesBack(h: History, u: History, c: Click, screen: Screen)
    requires Wellformed(h) && c.gen !in h.gaveBack && OthersStay(h, u, h.index)
    requires u.gaveBack == h.gaveBack + {c.gen}
    requires if c.pushed then PutBack(h, Here(u), c.before, screen) else Here(u) == Here(h)
    ensures GivesBack(h, u, c, screen)
  {
    hide PutBack, OthersStay;
    assert u.gaveBack - h.gaveBack == {c.gen};
  }

  lemma ChainGivesBack(h: History, u: History, k: History, c: Click, older: Click, g: History, screen: Screen)
    requires Wellformed(h) && c.gen !in h.gaveBack && c.gen !in h.failed && Waiting(h) && OthersStay(h, u, h.index)
    requires u.gaveBack == h.gaveBack + {c.gen} && u.failed == h.failed && u.known == h.known
    requires if c.pushed then PutBack(h, Here(u), c.before, screen) else Here(u) == Here(h)
    requires older.gen < c.gen && older.gen in h.failed && older == h.failed[older.gen]
    requires k == u.(failed := u.failed - {older.gen})
    requires GivesBack(k, g, older, screen) && SameBeside(k, g)
    ensures GivesBack(h, g, c, screen)
  {
    hide PutBack;
    var back, rest := g.gaveBack - h.gaveBack, g.gaveBack - k.gaveBack;
    assert back == rest + {c.gen};
    assert forall n :: n in rest ==> n < c.gen && ClickOf(k, older, n) == ClickOf(h, c, n);
    assert Here(k) == Here(u) && OthersStay(h, g, h.index);
    hide OthersStay;
    if NothingPushed(h, c, back) {
      assert NothingPushed(k, older, rest);
    }
    forall n | LeastPushed(h, c, back, n)
      ensures PutBack(h, Here(g), ClickOf(h, c, n).before, screen)
    {
      if n == c.gen {
        assert NothingPushed(k, older, rest);
      } else {
        assert LeastPushed(k, older, rest, n);
        SamePutBack(h, k, Here(g), ClickOf(h, c, n).before, screen);
      }
    }
  }

  lemma SamePutBack(h: History, k: History, e: Entry, was: Entry, screen: Screen)
    requires h.known == k.known
    ensures PutBack(h, e, was, screen) == PutBack(k, e, was, screen)
  {
  }

  lemma UndoWrites(h: History, c: Click, screen: Screen)
    requires Wellformed(h)
    ensures var g := Undo(h, c, screen);
      && OthersStay(h, g, h.index)
      && g == h.(owner := c.priorOwner, launch := c.priorLaunch, gaveBack := h.gaveBack + {c.gen}, entries := g.entries)
      && (!c.pushed ==> Here(g) == Here(h))
      && (c.pushed ==> PutBack(h, Here(g), c.before, screen))
  {
  }

  /**
   * A click's launch that failed gives back the parameters it set, if nothing has set them since. If it still holds the
   * entry and is the newest launch, it gives back the entry it found, together with every launch before it that failed
   * meanwhile: what remains is what the first of them that had added an entry found. It writes no entry otherwise.
   */
  lemma FailedPutsBack(t: Tab, gen: nat, screen: Screen)
    requires Sound(t) && gen in t.live
    ensures var h, u, c := t.h, Do(t, Fails(gen, screen)), t.live[gen];
      var g := u.h; var back := g.gaveBack - h.gaveBack;
      && u.live == t.live - {gen} && g.holds == h.holds - 1
      && OthersStay(h, g, h.index)
      && OtherParamsStay(h, g, c.id)
      && Recorded(g, c.id) == (if c.id in h.params && h.params[c.id].stamp == c.mine
                               then (if c.beforeParams.Some? then Some(c.beforeParams.value.query) else None)
                               else Recorded(h, c.id))
      && (if h.owner == c.held && h.launch == gen then GivesBack(h, g, c, screen)
          else back == {} && Here(g) == Here(h) && g.owner == h.owner && g.launch == h.launch)
  {
    hide Sound, Recorded, GivesBack, EndFailed, OthersStay, OtherParamsStay;
    SoundIsNumbered(t);
    PendingIsWaiting(t, gen);
    FailedWrites(t.h, t.live[gen], screen);
  }

  lemma PendingIsWaiting(t: Tab, gen: nat)
    requires Sound(t) && gen in t.live
    ensures t.live[gen].gen == gen && gen !in t.h.gaveBack && gen !in t.h.failed && Waiting(t.h)
  {
    assert ClickSound(t.h, gen, t.live[gen]);
    assert forall n :: n in t.h.failed ==> ClickSound(t.h, n, t.h.failed[n]);
  }

  lemma FailedWrites(h: History, c: Click, screen: Screen)
    requires Wellformed(h) && c.gen !in h.gaveBack && c.gen !in h.failed && Waiting(h)
    ensures var g := EndFailed(h, c, screen); var back := g.gaveBack - h.gaveBack;
      && g.holds == h.holds - 1
      && OthersStay(h, g, h.index)
      && OtherParamsStay(h, g, c.id)
      && Recorded(g, c.id) == (if c.id in h.params && h.params[c.id].stamp == c.mine
                               then (if c.beforeParams.Some? then Some(c.beforeParams.value.query) else None)
                               else Recorded(h, c.id))
      && (if h.owner == c.held && h.launch == c.gen then GivesBack(h, g, c, screen)
          else back == {} && Here(g) == Here(h) && g.owner == h.owner && g.launch == h.launch)
  {
    var k := RestoreParams(h.(holds := h.holds - 1), c);
    RestoreWrites(h, c);
    RestoreChangesParams(h.(holds := h.holds - 1), c);
    hide RestoreParams, GiveBack, PutBack, GivesBack, Recorded;
    if MayGiveBack(k, c) {
      var g := GiveBack(k, c, screen);
      GiveBackWrites(k, c, screen);
      RecordedInParams(k, g);
      SameGivesBack(h, k, g, c, screen);
    } else {
      RecordedInParams(k, k.(failed := k.failed[c.gen := c]));
    }
  }

  lemma SameGivesBack(h: History, k: History, g: History, c: Click, screen: Screen)
    requires GivesBack(k, g, c, screen)
    requires k.entries == h.entries && k.index == h.index && k.failed == h.failed && k.gaveBack == h.gaveBack
    requires k.known == h.known
    ensures GivesBack(h, g, c, screen) && OthersStay(h, g, h.index)
  {
    hide PutBack;
    var back := g.gaveBack - h.gaveBack;
    assert forall n :: n in back ==> ClickOf(k, c, n) == ClickOf(h, c, n);
    forall n | LeastPushed(h, c, back, n)
      ensures PutBack(h, Here(g), ClickOf(h, c, n).before, screen)
    {
      assert LeastPushed(k, c, back, n);
      SamePutBack(h, k, Here(g), ClickOf(h, c, n).before, screen);
    }
    if NothingPushed(h, c, back) {
      assert NothingPushed(k, c, back);
    }
  }

  lemma RestoreWrites(h: History, c: Click)
    ensures var g := RestoreParams(h.(holds := h.holds - 1), c);
      && OtherParamsStay(h, g, c.id)
      && Recorded(g, c.id) == (if c.id in h.params && h.params[c.id].stamp == c.mine
                               then (if c.beforeParams.Some? then Some(c.beforeParams.value.query) else None)
                               else Recorded(h, c.id))
  {
  }

  // --- The boot's launches and the shell's own writes ---------------------------------------------------------------

  // A numbered launch under which a newer intent took the entry.
  predicate LostTheEntry(h: History, ctx: Option<RouteId>) {
    ctx.Some? && ctx.value in h.routes && h.routes[ctx.value].held != h.owner
  }

  /**
   * A commit that holds the entry leaves its own app there: the URL stays if it names that app and its parameters did
   * not change.
   */
  lemma CommitNames(t: Tab, ctx: Option<RouteId>, id: App, given: Option<string>, w: Option<WindowId>, screen: Screen)
    requires Sound(t)
    ensures var h, g := t.h, Do(t, Commits(ctx, id, given, w, screen)).h;
      if !h.enabled || id !in h.known then g == h
      else if LostTheEntry(h, ctx) then
        && OthersStay(h, g, h.index) && OtherParamsStay(h, g, id) && g.owner == h.owner
        && Here(g) == Here(h) && Recorded(g, id) == Recorded(h, id)
      else Committed(h, g, id, given, screen)
  {
    hide Sound, Do;
    DoChangesHistory(t, Commits(ctx, id, given, w, screen));
    SoundIsNumbered(t);
    if t.h.enabled && id in t.h.known {
      hide Committed, Commit, Recorded, OthersStay, OtherParamsStay;
      CommitWrites(t.h, ctx, id, given, w, screen);
    }
  }

  lemma CommitWrites(h: History, ctx: Option<RouteId>, id: App, given: Option<string>, w: Option<WindowId>,
                     screen: Screen)
    requires Wellformed(h) && h.enabled && id in h.known
    ensures var g := Commit(h, ctx, id, given, w, screen);
      if LostTheEntry(h, ctx) then
        && OthersStay(h, g, h.index) && OtherParamsStay(h, g, id) && g.owner == h.owner
        && Here(g) == Here(h) && Recorded(g, id) == Recorded(h, id)
      else Committed(h, g, id, given, screen)
  {
    hide CommitEntry, Committed, Recorded, Settle;
    var gen := if ctx.Some? && ctx.value in h.routes then h.routes[ctx.value].gen else h.launch;
    var k := Settle(h, w, gen);
    SettleWrites(h, w, gen);
    RecordedInParams(h, k);
    if !LostTheEntry(h, ctx) {
      CommitEntryWrites(k, id, given, screen);
      SameCommitted(h, k, CommitEntry(k, id, given, screen), id, given, screen);
    }
  }

  // What a commit that holds the entry leaves.
  ghost predicate Committed(h: History, g: History, id: App, given: Option<string>, screen: Screen) {
    var recorded := Or(Recorded(h, id), ""); var query := Or(given, recorded);
    && OthersStay(h, g, h.index) && OtherParamsStay(h, g, id) && g.owner == h.owner
    && Recorded(g, id) == Some(query)
    && Here(g).url == (if Here(h).url.app == Some(id) && query == recorded then Here(h).url else Url(Some(id), query))
    && Shows(Here(g).state, Some(id), Here(h).state, screen)
  }

  lemma SameCommitted(h: History, k: History, g: History, id: App, given: Option<string>, screen: Screen)
    requires Committed(k, g, id, given, screen) && k == h.(settling := k.settling)
    ensures Committed(h, g, id, given, screen)
  {
    RecordedInParams(h, k);
    hide Recorded, Shows;
  }

  lemma SettleWrites(h: History, w: Option<WindowId>, gen: nat)
    ensures var g := Settle(h, w, gen); g == h.(settling := g.settling)
  {
  }

  lemma CommitEntryWrites(h: History, id: App, given: Option<string>, screen: Screen)
    requires Wellformed(h)
    ensures Committed(h, CommitEntry(h, id, given, screen), id, given, screen)
  {
  }

  /**
   * An adopted link that holds the entry leaves its canonical spelling, or on a host without app paths what is left.
   */
  lemma AdoptNames(t: Tab, ctx: Option<RouteId>, id: App, query: string, spelled: string, left: Option<Url>,
                   screen: Screen)
    requires Sound(t)
    ensures var h, g := t.h, Do(t, Adopts(ctx, id, query, spelled, left, screen)).h;
      && OthersStay(h, g, h.index) && Recorded(g, id) == Some(query) && OtherParamsStay(h, g, id)
      && g.owner == h.owner && g.launch == h.launch
      && (if LostTheEntry(h, ctx) then Here(g) == Here(h)
          else if h.enabled then
            && Here(g).url == Url(Some(id), spelled)
            && Shows(Here(g).state, Some(id), Here(h).state, screen)
          else Here(g) == (if left.Some? then Entry(left.value, Here(h).state) else Here(h)))
  {
    hide Sound;
    DoChangesHistory(t, Adopts(ctx, id, query, spelled, left, screen));
    SoundIsNumbered(t);
  }

  /** A rebuilt shell forgets what closed unseen, and the entry names the app in front. */
  lemma SyncNames(t: Tab, screen: Screen)
    requires Sound(t)
    ensures var h, g := t.h, Do(t, Syncs(screen)).h;
      if !h.enabled then g == h
      else
        && OthersStay(h, g, h.index)
        && (forall id :: Recorded(g, id) == if id in screen.open then Recorded(h, id) else None)
        && g.owner == h.owner
        && (if Here(h).url.app == screen.front then Here(g) == Here(h)
            else
              && Here(g).url.app == screen.front
              && Here(g).url.query == (if screen.front.Some? then Or(Recorded(g, screen.front.value), "") else "")
              && Shows(Here(g).state, screen.front, Here(h).state, screen))
  {
    hide Sound;
    DoChangesHistory(t, Syncs(screen));
    SoundIsNumbered(t);
  }

  /** No intent changes any entry but the current one, the one it lands on, or the one it adds. */
  lemma OnlyTheCurrentEntryChanges(t: Tab, i: Intent)
    requires Sound(t)
    ensures var h, g := t.h, Do(t, i).h;
      if i.Traverses? && i.to < |h.entries| then OthersStay(h, g, i.to)
      else if h.enabled && ((i.Clicks? && i.id in h.known && Here(h).url.app != Some(i.id))
                            || (i.SwitchesFolder? && i.push && i.id in h.known && i.id in i.screen.open
                                && Here(h).url.app == Some(i.id) && h.holds <= 0)) then Pushes(h, g)
      else OthersStay(h, g, h.index)
  {
    SoundIsNumbered(t);
    match i
    case Clicks(id, given, screen) => ClickNames(t, id, given, screen);
    case Opens(gen, w, connected, screen) => if gen in t.live { OpenedNames(t, gen, w, connected, screen); }
    case Fails(gen, screen) => if gen in t.live { FailedPutsBack(t, gen, screen); }
    case Traverses(to, route, screen) => if to < |t.h.entries| { TraversalKeepsTheUrl(t, to, route, screen); }
    case Focuses(w, id, closing, screen) => FocusNames(t, w, id, closing, screen);
    case Closes(closed, screen) => CloseNames(t, closed, screen);
    case SwitchesFolder(id, query, spelled, push, screen) =>
      FolderKeepsItsSpelling(t, id, query, spelled, push, screen);
    case ChangesView(id, view) => ViewIsWritten(t, id, view);
    case Numbers(route) =>
    case Commits(ctx, id, given, w, screen) => CommitNames(t, ctx, id, given, w, screen);
    case Adopts(ctx, id, query, spelled, left, screen) => AdoptNames(t, ctx, id, query, spelled, left, screen);
    case Syncs(screen) => SyncNames(t, screen);
    case Settles(w) =>
  }

  // --- What no write touches ----------------------------------------------------------------------------------------

  // The numbers under which windows still settle: a window that resolves two launches keeps the newer one's.
  function SettlingAfter(h: History, w: Option<WindowId>, gen: nat): map<WindowId, nat> {
    if w.Some? && (w.value in h.settling ==> h.settling[w.value] <= gen) then h.settling[w.value := gen] else h.settling
  }

  predicate Framed(h: History, g: History, settling: map<WindowId, nat>, holds: int) {
    g.enabled == h.enabled && g.known == h.known && g.settling == settling && g.holds == holds
  }

  function SettlingOf(t: Tab, i: Intent): map<WindowId, nat> {
    var h := t.h;
    match i
    case Opens(gen, w, connected, _) =>
        if gen in t.live && connected then SettlingAfter(h, Some(w), gen) else h.settling
    case Commits(ctx, id, _, w, _) =>
      if h.enabled && id in h.known then
        SettlingAfter(h, w, if ctx.Some? && ctx.value in h.routes then h.routes[ctx.value].gen else h.launch)
      else h.settling
    case Settles(w) => map v | v in h.settling && v != w :: h.settling[v]
    case _ => h.settling
  }

  function HoldsOf(t: Tab, i: Intent): int {
    match i
    case Clicks(id, _, _) => if t.h.enabled && id in t.h.known then t.h.holds + 1 else t.h.holds
    case Opens(gen, _, _, _) => if gen in t.live then t.h.holds - 1 else t.h.holds
    case Fails(gen, _) => if gen in t.live then t.h.holds - 1 else t.h.holds
    case _ => t.h.holds
  }

  /**
   * Only a launch that ends with a window marks it, only `settled` clears the mark, and only clicks hold focuses off.
   */
  lemma WindowsAndHolds(t: Tab, i: Intent)
    requires Sound(t)
    ensures Framed(t.h, Do(t, i).h, SettlingOf(t, i), HoldsOf(t, i))
  {
    hide Sound, Do, Framed;
    match i
    case Clicks(id, given, screen) => ClickFrame(t, id, given, screen);
    case Opens(gen, w, connected, screen) => OpenedFrame(t, gen, w, connected, screen);
    case Fails(gen, screen) => FailedFrame(t, gen, screen);
    case Commits(ctx, id, given, w, screen) => CommitFrame(t, ctx, id, given, w, screen);
    case _ => QuietFrame(t, i);
  }

  lemma ClickFrame(t: Tab, id: App, given: Option<string>, screen: Screen)
    requires Sound(t)
    ensures Framed(t.h, Do(t, Clicks(id, given, screen)).h, t.h.settling, HoldsOf(t, Clicks(id, given, screen)))
  {
    hide Sound, Do, Begin, BeginClick;
    DoClicks(t, id, given, screen);
    BeginFrame(t.h, id, given, screen);
  }

  lemma BeginFrame(h: History, id: App, given: Option<string>, screen: Screen)
    requires Wellformed(h) && h.launch <= h.issued
    ensures Framed(h, Begin(h, id, given, screen), h.settling, h.holds + 1)
  {
    hide BeginClick, TakeForClick;
    var c := BeginClick(h, id, given);
    TakeWrites(NumberClick(h, id, given), c.gen, id, c.pushed, screen);
  }

  lemma DoEnds(t: Tab, gen: nat, w: WindowId, connected: bool, screen: Screen)
    requires Sound(t)
    ensures Wellformed(t.h)
    ensures Do(t, Opens(gen, w, connected, screen)).h
         == if gen in t.live then EndOpened(t.h, t.live[gen], w, connected, screen) else t.h
    ensures Do(t, Fails(gen, screen)).h == if gen in t.live then EndFailed(t.h, t.live[gen], screen) else t.h
  {
    hide EndOpened, EndFailed;
  }

  lemma OpenedFrame(t: Tab, gen: nat, w: WindowId, connected: bool, screen: Screen)
    requires Sound(t)
    ensures var i := Opens(gen, w, connected, screen); Framed(t.h, Do(t, i).h, SettlingOf(t, i), HoldsOf(t, i))
  {
    hide Do, EndOpened, SettlingAfter;
    DoEnds(t, gen, w, connected, screen);
    if gen in t.live {
      PendingIsWaiting(t, gen);
      hide Sound;
      EndOpenedFrame(t.h, t.live[gen], w, connected, screen);
    }
  }

  lemma EndOpenedFrame(h: History, c: Click, w: WindowId, connected: bool, screen: Screen)
    requires Wellformed(h)
    ensures Framed(h, EndOpened(h, c, w, connected, screen),
                   if connected then SettlingAfter(h, Some(w), c.gen) else h.settling, h.holds - 1)
  {
    hide UrlFor, StateFor;
  }

  lemma FailedFrame(t: Tab, gen: nat, screen: Screen)
    requires Sound(t)
    ensures Framed(t.h, Do(t, Fails(gen, screen)).h, t.h.settling, HoldsOf(t, Fails(gen, screen)))
  {
    hide Do, EndFailed;
    DoEnds(t, gen, 0, false, screen);
    if gen in t.live {
      PendingIsWaiting(t, gen);
      hide Sound;
      EndFailedFrame(t.h, t.live[gen], screen);
    }
  }

  lemma EndFailedFrame(h: History, c: Click, screen: Screen)
    requires Wellformed(h) && c.gen !in h.gaveBack && c.gen !in h.failed && Waiting(h)
    ensures Framed(h, EndFailed(h, c, screen), h.settling, h.holds - 1)
  {
    hide RestoreParams, GiveBack, GivesBack;
    var k := RestoreParams(h.(holds := h.holds - 1), c);
    RestoreChangesParams(h.(holds := h.holds - 1), c);
    if MayGiveBack(k, c) {
      GiveBackWrites(k, c, screen);
    }
  }

  lemma CommitFrame(t: Tab, ctx: Option<RouteId>, id: App, given: Option<string>, w: Option<WindowId>, screen: Screen)
    requires Sound(t)
    ensures var i := Commits(ctx, id, given, w, screen); Framed(t.h, Do(t, i).h, SettlingOf(t, i), t.h.holds)
  {
    hide Sound, Do, CommitEntry;
    DoChangesHistory(t, Commits(ctx, id, given, w, screen));
    SoundIsNumbered(t);
    var h := t.h;
    var k := Settle(h, w, if ctx.Some? && ctx.value in h.routes then h.routes[ctx.value].gen else h.launch);
    CommitEntryFrame(k, id, given, screen);
  }

  lemma CommitEntryFrame(h: History, id: App, given: Option<string>, screen: Screen)
    requires Wellformed(h)
    ensures Framed(h, CommitEntry(h, id, given, screen), h.settling, h.holds)
  {
    hide QueryOf, UrlFor, StateFor;
  }

  lemma QuietFrame(t: Tab, i: Intent)
    requires Sound(t) && !i.Clicks? && !i.Opens? && !i.Fails? && !i.Commits?
    ensures Framed(t.h, Do(t, i).h, SettlingOf(t, i), t.h.holds)
  {
    SoundIsNumbered(t);
    DoChangesHistory(t, i);
    if i.Traverses? && i.to >= |t.h.entries| {
      assert Do(t, i) == t;
    }
    hide Sound, Do, PopState, OnFocus, OnClosed, OnParamsChanged, Adopt, Sync;
    match i
    case Traverses(to, route, screen) =>
      if to < |t.h.entries| {
        PopStateFrame(t.h, to, route, screen);
      }
    case Focuses(w, id, closing, screen) => TakersFrame(t.h, w, id, closing, screen);
    case Closes(closed, screen) => CloseFrame(t.h, closed, screen);
    case SwitchesFolder(id, query, spelled, push, screen) => FolderFrame(t.h, id, query, spelled, push, screen);
    case Adopts(ctx, id, query, spelled, left, screen) => AdoptFrame(t.h, ctx, id, query, spelled, left, screen);
    case Syncs(screen) => SyncFrame(t.h, screen);
    case _ =>
  }

  lemma PopStateFrame(h: History, to: nat, route: RouteId, screen: Screen)
    requires Wellformed(h) && to < |h.entries|
    ensures Framed(h, PopState(h, to, route, screen), h.settling, h.holds)
  {
  }

  lemma TakersFrame(h: History, w: WindowId, id: App, closing: bool, screen: Screen)
    requires Wellformed(h)
    ensures Framed(h, OnFocus(h, w, id, closing, screen), h.settling, h.holds)
  {
    hide UrlFor, StateFor;
  }

  lemma CloseFrame(h: History, closed: Option<App>, screen: Screen)
    requires Wellformed(h)
    ensures Framed(h, OnClosed(h, closed, screen), h.settling, h.holds)
  {
    hide UrlFor, StateFor;
  }

  lemma FolderFrame(h: History, id: App, query: string, spelled: string, push: bool, screen: Screen)
    requires Wellformed(h)
    ensures Framed(h, OnParamsChanged(h, id, query, spelled, push, screen), h.settling, h.holds)
  {
    hide StateFor;
  }

  lemma AdoptFrame(h: History, ctx: Option<RouteId>, id: App, query: string, spelled: string, left: Option<Url>,
                   screen: Screen)
    requires Wellformed(h)
    ensures Framed(h, Adopt(h, ctx, id, query, spelled, left, screen), h.settling, h.holds)
  {
    hide StateFor;
  }

  lemma SyncFrame(h: History, screen: Screen)
    requires Wellformed(h)
    ensures Framed(h, Sync(h, screen), h.settling, h.holds)
  {
    hide UrlFor, StateFor;
  }
}