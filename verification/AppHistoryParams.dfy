/**
 * When a failed click gives an app's parameters back: exactly while nothing has set or dropped them since.
 */
module AppHistoryParams {
  import opened Options
  import opened AppHistory
  import opened AppHistoryOrder
  import opened AppHistoryEntries

  // The intent sets the app's parameters.
  predicate Sets(h: History, i: Intent, id: App)
    requires h.index < |h.entries|
  {
    match i
    case Clicks(app, _, _) => app == id && h.enabled && id in h.known
    case Traverses(to, _, _) => to < |h.entries| && h.entries[to].url.app == Some(id)
    case SwitchesFolder(app, _, _, _, screen) =>
      && app == id && h.enabled && id in h.known && id in screen.open && Here(h).url.app == Some(id) && h.holds <= 0
    case Commits(ctx, app, _, _, _) => app == id && h.enabled && id in h.known && !LostTheEntry(h, ctx)
    case Adopts(_, app, _, _, _, _) => app == id
    case _ => false
  }

  // The intent drops them: their app has no window any more.
  predicate Drops(h: History, i: Intent, id: App) {
    match i
    case Closes(closed, screen) => h.enabled && closed == Some(id) && id in h.known && id !in screen.open
    case Syncs(screen) => h.enabled && id !in screen.open
    case _ => false
  }

  function ParamsAt(h: History, id: App): Option<Params> {
    if id in h.params then Some(h.params[id]) else None
  }

  // What an intent that is no failure makes of an app's parameters: new ones, none, or the same.
  predicate Keeps(h: History, g: History, i: Intent, id: App)
    requires h.index < |h.entries|
  {
    && g.stamps >= h.stamps && g.issued >= h.issued
    && if Sets(h, i, id) then
         g.stamps == h.stamps + 1 && ParamsAt(g, id).Some? && ParamsAt(g, id).value.stamp == h.stamps
       else if Drops(h, i, id) then ParamsAt(g, id).None?
       else ParamsAt(g, id) == ParamsAt(h, id)
  }

  lemma ClickKeeps(t: Tab, app: App, given: Option<string>, screen: Screen, id: App)
    requires Sound(t)
    ensures Wellformed(t.h) && Keeps(t.h, Do(t, Clicks(app, given, screen)).h, Clicks(app, given, screen), id)
  {
    hide Sound, Do, Begin;
    DoClicks(t, app, given, screen);
    BeginParams(t.h, app, given, screen);
  }

  lemma BeginParams(h: History, app: App, given: Option<string>, screen: Screen)
    requires Wellformed(h) && h.launch <= h.issued
    ensures var g := Begin(h, app, given, screen);
      g.stamps == h.stamps + 1 && app in g.params && g.params[app].stamp == h.stamps && g.issued >= h.issued
      && forall id :: id != app ==> ParamsAt(g, id) == ParamsAt(h, id)
  {
    var c, k := BeginClick(h, app, given), NumberClick(h, app, given);
    TakeWrites(k, c.gen, app, c.pushed, screen);
    hide BeginClick, TakeForClick, QueryOf;
  }

  lemma OpenedKeeps(t: Tab, gen: nat, w: WindowId, connected: bool, screen: Screen, id: App)
    requires Sound(t)
    ensures Wellformed(t.h)
        && Keeps(t.h, Do(t, Opens(gen, w, connected, screen)).h, Opens(gen, w, connected, screen), id)
  {
    hide Do, EndOpened;
    DoEnds(t, gen, w, connected, screen);
    if gen in t.live {
      hide Sound;
      OpenedParams(t.h, t.live[gen], w, connected, screen);
    }
  }

  lemma OpenedParams(h: History, c: Click, w: WindowId, connected: bool, screen: Screen)
    requires Wellformed(h)
    ensures var g := EndOpened(h, c, w, connected, screen);
        g.params == h.params && g.stamps == h.stamps && g.issued == h.issued
  {
    hide UrlFor, StateFor;
  }

  lemma CommitKeeps(h: History, ctx: Option<RouteId>, app: App, given: Option<string>, w: Option<WindowId>,
                    screen: Screen, id: App)
    requires Wellformed(h)
    ensures Keeps(h, Commit(h, ctx, app, given, w, screen), Commits(ctx, app, given, w, screen), id)
  {
    hide CommitEntry, Settle;
    var gen := if ctx.Some? && ctx.value in h.routes then h.routes[ctx.value].gen else h.launch;
    var k := Settle(h, w, gen);
    SettleWrites(h, w, gen);
    CommitParams(k, app, given, screen);
  }

  lemma CommitParams(h: History, app: App, given: Option<string>, screen: Screen)
    requires Wellformed(h)
    ensures var g := CommitEntry(h, app, given, screen);
      g.stamps == h.stamps + 1 && app in g.params && g.params[app].stamp == h.stamps && g.issued >= h.issued
      && forall id :: id != app ==> ParamsAt(g, id) == ParamsAt(h, id)
  {
    hide UrlFor, StateFor, QueryOf;
  }

  lemma LandingKeeps(h: History, to: nat, route: RouteId, screen: Screen, id: App)
    requires Wellformed(h) && to < |h.entries|
    ensures Keeps(h, PopState(h, to, route, screen), Traverses(to, route, screen), id)
  {
    hide PopState;
    LandingParams(h, to, route, screen);
  }

  lemma LandingParams(h: History, to: nat, route: RouteId, screen: Screen)
    requires Wellformed(h) && to < |h.entries|
    ensures var g := PopState(h, to, route, screen);
      && g.issued >= h.issued
      && match h.entries[to].url.app
         case None => g.params == h.params && g.stamps == h.stamps
         case Some(app) =>
           g.params == h.params[app := Params(h.stamps, h.entries[to].url.query)] && g.stamps == h.stamps + 1
  {
  }

  lemma FocusKeeps(h: History, w: WindowId, app: App, closing: bool, screen: Screen, id: App)
    requires Wellformed(h)
    ensures Keeps(h, OnFocus(h, w, app, closing, screen), Focuses(w, app, closing, screen), id)
  {
    hide UrlFor, StateFor;
  }

  lemma CloseKeeps(h: History, closed: Option<App>, screen: Screen, id: App)
    requires Wellformed(h)
    ensures Keeps(h, OnClosed(h, closed, screen), Closes(closed, screen), id)
  {
    hide OnClosed, Dropped;
    if h.enabled {
      CloseParams(h, closed, screen);
      DroppedParams(h, closed, screen, id);
    } else {
      assert OnClosed(h, closed, screen) == h by { DisabledClose(h, closed, screen); }
    }
  }

  lemma DisabledClose(h: History, closed: Option<App>, screen: Screen)
    requires Wellformed(h) && !h.enabled
    ensures OnClosed(h, closed, screen) == h
  {
  }

  lemma CloseParams(h: History, closed: Option<App>, screen: Screen)
    requires Wellformed(h) && h.enabled
    ensures var g, k := OnClosed(h, closed, screen), Dropped(h, closed, screen);
      g.params == k.params && g.stamps == k.stamps && g.issued >= h.issued
  {
    hide Name, Dropped, OnClosed, Forgets, OthersStay, Shows;
    var k := Dropped(h, closed, screen);
    DropForgets(h, closed, screen);
    var n := if closed.Some? && closed.value in h.known then Take(k) else k;
    NameWrites(n, screen.front, screen);
  }

  lemma DroppedParams(h: History, closed: Option<App>, screen: Screen, id: App)
    requires h.index < |h.entries| && h.enabled
    ensures ParamsAt(Dropped(h, closed, screen), id)
         == if Drops(h, Closes(closed, screen), id) then None else ParamsAt(h, id)
    ensures Dropped(h, closed, screen).stamps == h.stamps
  {
  }

  lemma FolderKeeps(h: History, app: App, query: string, spelled: string, push: bool, screen: Screen, id: App)
    requires Wellformed(h)
    ensures Keeps(h, OnParamsChanged(h, app, query, spelled, push, screen),
                  SwitchesFolder(app, query, spelled, push, screen), id)
  {
    hide OnParamsChanged;
    FolderParams(h, app, query, spelled, push, screen);
  }

  lemma FolderParams(h: History, app: App, query: string, spelled: string, push: bool, screen: Screen)
    requires Wellformed(h)
    ensures var g := OnParamsChanged(h, app, query, spelled, push, screen);
      && g.issued >= h.issued
      && if Sets(h, SwitchesFolder(app, query, spelled, push, screen), app)
         then g.params == h.params[app := Params(h.stamps, query)] && g.stamps == h.stamps + 1
         else g.params == h.params && g.stamps == h.stamps
  {
    hide StateFor;
  }

  lemma AdoptKeeps(h: History, ctx: Option<RouteId>, app: App, query: string, spelled: string, left: Option<Url>,
                   screen: Screen, id: App)
    requires Wellformed(h)
    ensures Keeps(h, Adopt(h, ctx, app, query, spelled, left, screen), Adopts(ctx, app, query, spelled, left, screen),
                  id)
  {
    hide StateFor;
  }

  lemma SyncKeeps(h: History, screen: Screen, id: App)
    requires Wellformed(h)
    ensures Keeps(h, Sync(h, screen), Syncs(screen), id)
  {
    hide UrlFor, StateFor;
  }

  /** What each intent that is no failure makes of an app's parameters. */
  lemma IntentKeeps(t: Tab, i: Intent, id: App)
    requires Sound(t) && !i.Fails?
    ensures Wellformed(t.h) && Keeps(t.h, Do(t, i).h, i, id)
  {
    SoundIsNumbered(t);
    DoChangesHistory(t, i);
    if i.Traverses? && i.to >= |t.h.entries| {
      assert Do(t, i) == t;
    }
    hide Sound, Do, PopState, OnFocus, OnClosed, OnParamsChanged, Adopt, Sync, Commit;
    match i
    case Clicks(app, given, screen) => ClickKeeps(t, app, given, screen, id);
    case Opens(gen, w, connected, screen) => OpenedKeeps(t, gen, w, connected, screen, id);
    case Traverses(to, route, screen) => if to < |t.h.entries| { LandingKeeps(t.h, to, route, screen, id); }
    case Focuses(w, app, closing, screen) => FocusKeeps(t.h, w, app, closing, screen, id);
    case Closes(closed, screen) => CloseKeeps(t.h, closed, screen, id);
    case SwitchesFolder(app, query, spelled, push, screen) => FolderKeeps(t.h, app, query, spelled, push, screen, id);
    case Commits(ctx, app, given, w, screen) => CommitKeeps(t.h, ctx, app, given, w, screen, id);
    case Adopts(ctx, app, query, spelled, left, screen) => AdoptKeeps(t.h, ctx, app, query, spelled, left, screen, id);
    case Syncs(screen) => SyncKeeps(t.h, screen, id);
    case _ =>
  }

  // A failure touches no other app's parameters, and makes none anew.
  lemma FailureKeeps(t: Tab, gen: nat, screen: Screen, id: App)
    requires Sound(t) && (gen in t.live ==> t.live[gen].id != id)
    ensures var g := Do(t, Fails(gen, screen)).h;
      g.stamps == t.h.stamps && g.issued == t.h.issued && ParamsAt(g, id) == ParamsAt(t.h, id)
  {
    hide Do, EndFailed;
    DoEnds(t, gen, 0, false, screen);
    if gen in t.live {
      PendingIsWaiting(t, gen);
      hide Sound;
      EndFailedParams(t.h, t.live[gen], screen);
    }
  }

  lemma EndFailedParams(h: History, c: Click, screen: Screen)
    requires Wellformed(h) && c.gen !in h.gaveBack && c.gen !in h.failed && Waiting(h)
    ensures var g := EndFailed(h, c, screen);
      g.stamps == h.stamps && g.issued == h.issued && forall id :: id != c.id ==> ParamsAt(g, id) == ParamsAt(h, id)
  {
    hide RestoreParams, GiveBack, GivesBack, ParamsAt;
    var k := RestoreParams(h.(holds := h.holds - 1), c);
    RestoreChangesParams(h.(holds := h.holds - 1), c);
    RestoredParams(h, c);
    if MayGiveBack(k, c) {
      GiveBackWrites(k, c, screen);
      GiveBackStamps(k, c, screen);
      SameParams(k, GiveBack(k, c, screen));
    } else {
      SameParams(k, k.(failed := k.failed[c.gen := c]));
    }
  }

  lemma RestoredParams(h: History, c: Click)
    ensures var g := RestoreParams(h.(holds := h.holds - 1), c);
      g.stamps == h.stamps && g.issued == h.issued && forall id :: id != c.id ==> ParamsAt(g, id) == ParamsAt(h, id)
  {
  }

  lemma SameParams(h: History, g: History)
    requires g.params == h.params
    ensures forall id :: ParamsAt(g, id) == ParamsAt(h, id)
  {
  }

  lemma {:induction false} GiveBackStamps(h: History, c: Click, screen: Screen)
    requires Wellformed(h)
    ensures GiveBack(h, c, screen).stamps == h.stamps && GiveBack(h, c, screen).issued == h.issued
    decreases c.gen
  {
    hide Undo;
    var u := Undo(h, c, screen);
    UndoWrites(h, c, screen);
    if u.launch in u.failed {
      var k := u.(failed := u.failed - {u.launch});
      if MayGiveBack(k, u.failed[u.launch]) {
        GiveBackStamps(k, u.failed[u.launch], screen);
      }
    } else {
    }
  }

  // --- A stretch of a run -------------------------------------------------------------------------------------------

  function After(t: Tab, run: seq<Intent>): (u: Tab)
    requires Sound(t)
    ensures Sound(u)
  {
    if run == [] then t
    else
      var before, i := After(t, run[..|run| - 1]), run[|run| - 1];
      DoKeepsSound(before, i);
      Do(before, i)
  }

  // No click on the app fails in the run.
  ghost predicate NoneFails(t: Tab, run: seq<Intent>, id: App)
    requires Sound(t)
  {
    forall k :: 0 <= k < |run| && run[k].Fails? ==>
      var u := After(t, run[..k]); run[k].gen in u.live ==> u.live[run[k].gen].id != id
  }

  // An intent of the run set the app's parameters, or dropped them.
  ghost predicate Changed(t: Tab, run: seq<Intent>, id: App)
    requires Sound(t)
  {
    exists k :: 0 <= k < |run| && ChangedAt(t, run, k, id)
  }

  ghost predicate ChangedAt(t: Tab, run: seq<Intent>, k: nat, id: App)
    requires Sound(t) && k < |run|
  {
    var h := After(t, run[..k]).h;
    h.index < |h.entries| && (Sets(h, run[k], id) || Drops(h, run[k], id))
  }

  // The parameters found at the start are there as long as nothing changed them, and never come back after.
  ghost predicate StillThere(t: Tab, run: seq<Intent>, id: App)
    requires Sound(t)
  {
    var h, g := t.h, After(t, run).h;
    && g.stamps >= h.stamps && g.issued >= h.issued
    && if Changed(t, run, id) then ParamsAt(g, id).Some? ==> ParamsAt(g, id).value.stamp >= h.stamps
       else ParamsAt(g, id) == ParamsAt(h, id)
  }

  lemma AfterMore(t: Tab, run: seq<Intent>, i: Intent)
    requires Sound(t)
    ensures After(t, run + [i]) == Do(After(t, run), i)
    ensures forall k :: 0 <= k <= |run| ==> (run + [i])[..k] == run[..k]
    ensures forall k :: 0 <= k < |run| ==> (run + [i])[k] == run[k]
    ensures (run + [i])[|run|] == i && run[..|run|] == run
  {
    hide Sound, Do;
    assert (run + [i])[..|run|] == run;
  }

  lemma NoneFailsMore(t: Tab, run: seq<Intent>, i: Intent, id: App)
    requires Sound(t) && NoneFails(t, run + [i], id)
    ensures NoneFails(t, run, id)
    ensures i.Fails? ==> var u := After(t, run); i.gen in u.live ==> u.live[i.gen].id != id
  {
    AfterMore(t, run, i);
    hide Sound, Do, After;
    var all := run + [i];
    forall k | 0 <= k < |run| && run[k].Fails?
      ensures var u := After(t, run[..k]); run[k].gen in u.live ==> u.live[run[k].gen].id != id
    {
      assert all[k] == run[k] && all[..k] == run[..k];
    }
    assert all[..|run|] == run;
  }

  lemma ChangedMore(t: Tab, run: seq<Intent>, i: Intent, id: App)
    requires Sound(t)
    ensures Changed(t, run + [i], id) <==> Changed(t, run, id) || ChangedAt(t, run + [i], |run|, id)
  {
    AfterMore(t, run, i);
    var all := run + [i];
    forall k | 0 <= k < |run|
      ensures ChangedAt(t, all, k, id) == ChangedAt(t, run, k, id)
    {
      hide Sound, Do, After, Sets, Drops;
      assert all[k] == run[k] && all[..k] == run[..k];
    }
    hide Sound, ChangedAt;
  }

  lemma {:induction false} StillThereInEveryRun(t: Tab, run: seq<Intent>, id: App)
    requires Sound(t) && NoneFails(t, run, id)
    ensures StillThere(t, run, id)
  {
    if run == [] {
    } else {
      hide Sound, Do, Changed, NoneFails, After, StillThere;
      var init, i := run[..|run| - 1], run[|run| - 1];
      assert init + [i] == run;
      NoneFailsMore(t, init, i, id);
      StillThereInEveryRun(t, init, id);
      StillStep(t, init, i, id);
    }
  }

  lemma StillStep(t: Tab, init: seq<Intent>, i: Intent, id: App)
    requires Sound(t) && StillThere(t, init, id) && NoneFails(t, init + [i], id)
    ensures StillThere(t, init + [i], id)
  {
    hide Sound, Do, Changed, NoneFails, After, Sets, Drops, ChangedAt, Keeps, StillThere;
    AfterMore(t, init, i);
    NoneFailsMore(t, init, i, id);
    ChangedMore(t, init, i, id);
    var u := After(t, init);
    if i.Fails? {
      FailureKeeps(u, i.gen, i.screen, id);
      NoChange(t, init, i, id);
      SameStays(t, init, i, id);
    } else {
      IntentKeeps(u, i, id);
      ChangeIs(t, init, i, id);
      KeptStays(t, init, i, id);
    }
  }

  lemma SameStays(t: Tab, init: seq<Intent>, i: Intent, id: App)
    requires Sound(t) && StillThere(t, init, id)
    requires Changed(t, init + [i], id) == Changed(t, init, id)
    requires var h, g := After(t, init).h, After(t, init + [i]).h;
      g.stamps == h.stamps && g.issued == h.issued && ParamsAt(g, id) == ParamsAt(h, id)
    ensures StillThere(t, init + [i], id)
  {
    hide Sound, Do, Changed, After;
  }

  lemma KeptStays(t: Tab, init: seq<Intent>, i: Intent, id: App)
    requires Sound(t) && StillThere(t, init, id) && Wellformed(After(t, init).h)
    requires var h := After(t, init).h;
      Changed(t, init + [i], id) == (Changed(t, init, id) || Sets(h, i, id) || Drops(h, i, id))
    requires Keeps(After(t, init).h, After(t, init + [i]).h, i, id)
    ensures StillThere(t, init + [i], id)
  {
    hide Sound, Do, Changed, After, Sets, Drops;
  }

  lemma NoChange(t: Tab, run: seq<Intent>, i: Intent, id: App)
    requires Sound(t) && i.Fails?
    ensures !ChangedAt(t, run + [i], |run|, id)
  {
    assert (run + [i])[|run|] == i;
    hide Sound, Do, After;
  }

  lemma ChangeIs(t: Tab, run: seq<Intent>, i: Intent, id: App)
    requires Sound(t) && Wellformed(After(t, run).h)
    ensures ChangedAt(t, run + [i], |run|, id) <==> Sets(After(t, run).h, i, id) || Drops(After(t, run).h, i, id)
  {
    assert (run + [i])[..|run|] == run && (run + [i])[|run|] == i;
    hide Sound, Do, After, Sets, Drops;
  }

  lemma LiveAfter(t: Tab, i: Intent, gen: nat)
    requires Sound(t) && gen <= t.h.issued && gen in Do(t, i).live
    ensures gen in t.live && Do(t, i).live[gen] == t.live[gen]
  {
    SoundIsNumbered(t);
    if i.Clicks? {
      DoClicks(t, i.id, i.given, i.screen);
      BeginClickFacts(t.h, i.id, i.given);
      hide Do, Begin, BeginClick;
    } else {
      hide Begin, EndOpened, EndFailed, PopState, OnFocus, OnClosed, OnParamsChanged, OnViewChanged, Commit, Adopt,
          Sync;
    }
    hide Sound;
  }

  // A pending click keeps what it began with.
  lemma {:induction false} PendingStays(t: Tab, run: seq<Intent>, gen: nat, id: App)
    requires Sound(t) && gen <= t.h.issued && gen in After(t, run).live && NoneFails(t, run, id)
    ensures gen in t.live && After(t, run).live[gen] == t.live[gen]
  {
    if run == [] {
    } else {
      hide Do, Sound, NoneFails, Changed, After;
      var init, i := run[..|run| - 1], run[|run| - 1];
      assert init + [i] == run;
      AfterMore(t, init, i);
      NoneFailsMore(t, init, i, id);
      StillThereInEveryRun(t, init, id);
      hide ParamsAt;
      LiveAfter(After(t, init), i, gen);
      PendingStays(t, init, gen, id);
    }
  }

  // What the failure of the click `gen` of tab `u` makes of its app's parameters after a run.
  lemma FailureAfter(u: Tab, run: seq<Intent>, gen: nat, screen: Screen)
    requires Sound(u) && gen in u.live && gen <= u.h.issued
    requires var id := u.live[gen].id;
      && NoneFails(u, run, id) && id in u.h.params
      && u.h.params[id].stamp == u.live[gen].mine && u.live[gen].mine < u.h.stamps
    requires gen in After(u, run).live
    ensures var e, c := After(u, run), u.live[gen];
      Recorded(Do(e, Fails(gen, screen)).h, c.id)
      == if Changed(u, run, c.id) then Recorded(e.h, c.id)
         else if c.beforeParams.Some? then Some(c.beforeParams.value.query) else None
  {
    var c, e := u.live[gen], After(u, run);
    hide Sound, Do, After, Changed, GivesBack, NoneFails, Recorded, OthersStay, OtherParamsStay, StillThere;
    PendingStays(u, run, gen, c.id);
    StillThereInEveryRun(u, run, c.id);
    StampTells(u, run, c.id, c.mine);
    FailedPutsBack(e, gen, screen);
  }

  lemma StampTells(t: Tab, run: seq<Intent>, id: App, mine: nat)
    requires Sound(t) && StillThere(t, run, id)
    requires id in t.h.params && t.h.params[id].stamp == mine && mine < t.h.stamps
    ensures var g := After(t, run).h; id in g.params && g.params[id].stamp == mine <==> !Changed(t, run, id)
  {
    hide Sound, Do, After, Changed;
  }

  /**
   * A click that fails gives the parameters of its app back to what they were before it exactly if no intent since has
   * set or dropped them; otherwise they stay. This holds after any run in which no other click on the app has failed.
   */
  lemma ParamsGoBackExactly(t: Tab, click: Intent, u: Tab, run: seq<Intent>, later: Screen)
    requires Sound(t) && click.Clicks? && t.h.enabled && click.id in t.h.known && u == Do(t, click)
    requires Sound(u) && NoneFails(u, run, click.id) && t.h.issued + 1 in After(u, run).live
    ensures var e := After(u, run);
      Recorded(Do(e, Fails(t.h.issued + 1, later)).h, click.id)
      == if Changed(u, run, click.id) then Recorded(e.h, click.id) else Recorded(t.h, click.id)
  {
    hide Sound, Do, After, Changed, NoneFails, OthersStay, OtherParamsStay;
    var gen := t.h.issued + 1;
    SoundIsNumbered(t);
    ClickNames(t, click.id, click.given, click.screen);
    IntentKeeps(t, click, click.id);
    FailureAfter(u, run, gen, later);
  }

  // What a failure makes of its own app's parameters.
  lemma OwnParams(t: Tab, gen: nat, screen: Screen)
    requires Sound(t) && gen in t.live
    ensures var c, h, g := t.live[gen], t.h, Do(t, Fails(gen, screen)).h;
      ParamsAt(g, c.id)
      == if ParamsAt(h, c.id).Some? && ParamsAt(h, c.id).value.stamp == c.mine then c.beforeParams
          else ParamsAt(h, c.id)
  {
    hide Do, EndFailed;
    DoEnds(t, gen, 0, false, screen);
    PendingIsWaiting(t, gen);
    hide Sound;
    EndFailedOwnParams(t.h, t.live[gen], screen);
  }

  lemma EndFailedOwnParams(h: History, c: Click, screen: Screen)
    requires Wellformed(h) && c.gen !in h.gaveBack && c.gen !in h.failed && Waiting(h)
    ensures ParamsAt(EndFailed(h, c, screen), c.id)
         == if ParamsAt(h, c.id).Some? && ParamsAt(h, c.id).value.stamp == c.mine then c.beforeParams
            else ParamsAt(h, c.id)
  {
    hide RestoreParams, GiveBack, GivesBack, ParamsAt;
    var k := RestoreParams(h.(holds := h.holds - 1), c);
    RestoreChangesParams(h.(holds := h.holds - 1), c);
    RestoredOwnParams(h, c);
    if MayGiveBack(k, c) {
      GiveBackWrites(k, c, screen);
      SameParams(k, GiveBack(k, c, screen));
    } else {
      SameParams(k, k.(failed := k.failed[c.gen := c]));
    }
  }

  lemma RestoredOwnParams(h: History, c: Click)
    ensures ParamsAt(RestoreParams(h.(holds := h.holds - 1), c), c.id)
         == if ParamsAt(h, c.id).Some? && ParamsAt(h, c.id).value.stamp == c.mine then c.beforeParams
            else ParamsAt(h, c.id)
  {
  }

  /**
   * Two clicks on one app that fail in the order they began leave the first one's parameters behind: the second gives
   * back what it found, and the first had given nothing back.
   */
  lemma FirstFailureLingers(t: Tab, first: Intent, second: Intent, screen: Screen)
    requires Sound(t) && first.Clicks? && second.Clicks? && t.h.enabled && first.id in t.h.known
    requires second.id == first.id && first.given.Some?
    ensures var u := Do(t, first);
      && Sound(u)
      && (var v := Do(u, second);
          && Sound(v)
          && (var w := Do(v, Fails(t.h.issued + 1, screen));
              && Sound(w) && t.h.issued + 2 in w.live
              && Recorded(Do(w, Fails(t.h.issued + 2, screen)).h, first.id) == first.given))
  {
    hide Sound, Do, OthersStay, OtherParamsStay, Pushes, Shows, GivesBack;
    var id, a, b := first.id, t.h.issued + 1, t.h.issued + 2;
    ClickNames(t, id, first.given, first.screen);
    IntentKeeps(t, first, id);
    DoKeepsSound(t, first);
    var u := Do(t, first);
    SameShell(t, first);
    ClickNames(u, id, second.given, second.screen);
    IntentKeeps(u, second, id);
    DoKeepsSound(u, second);
    var v := Do(u, second);
    OneLiveMore(u, second, a);
    OwnParams(v, a, screen);
    FailedPutsBack(v, a, screen);
    DoKeepsSound(v, Fails(a, screen));
    OwnParams(Do(v, Fails(a, screen)), b, screen);
  }

  // A click keeps the host and the known apps, and the launches pending before it.
  lemma SameShell(t: Tab, click: Intent)
    requires Sound(t) && click.Clicks?
    ensures Do(t, click).h.enabled == t.h.enabled && Do(t, click).h.known == t.h.known
  {
    WindowsAndHolds(t, click);
    hide Sound, Do;
  }

  lemma OneLiveMore(t: Tab, click: Intent, gen: nat)
    requires Sound(t) && click.Clicks? && gen in t.live && gen <= t.h.issued
    ensures gen in Do(t, click).live && Do(t, click).live[gen] == t.live[gen]
  {
    DoClicks(t, click.id, click.given, click.screen);
    BeginClickFacts(t.h, click.id, click.given);
    hide Do, Sound, Begin, BeginClick;
  }
}
