/**
 * Launches that fail. Clicks made after some moment may fail in any order, early ones waiting in `failed` until the
 * newer ones have failed too: the last click that has not failed decides, and if all fail nothing has happened.
 * Whatever else goes on meanwhile is part of the run, so long as it takes nothing and launches nothing.
 */
module AppHistoryFailures {
  import opened Options
  import opened AppHistory
  import opened AppHistoryOrder

  // What a give-back puts back of an entry; its view follows the screen.
  datatype Mark = Mark(url: Url, app: Option<App>, rest: string)

  function MarkOf(e: Entry): Mark {
    Mark(e.url, e.state.app, e.state.rest)
  }

  // A stretch after the tab was in some state: its clicks, those that have failed, and what its failures leave.
  datatype Stretch = Stretch(t: Tab, clicks: map<nat, Click>, lost: set<nat>, left: Mark)

  // The tab as it was before the stretch.
  datatype Base = Base(issued: nat, launch: nat, owner: nat, app: Option<App>, failed: map<nat, Click>)

  function BaseOf(t: Tab): Base
    requires Wellformed(t.h)
  {
    Base(t.h.issued, t.h.launch, t.h.owner, CurrentApp(t.h), t.h.failed)
  }

  predicate OfStretch(b: Base, clicks: map<nat, Click>, gen: nat) {
    gen > b.issued && gen in clicks && clicks[gen].gen == gen
  }

  // The launch `gen`, or one of the stretch under it, pushed an entry of its own.
  predicate UnderPush(b: Base, clicks: map<nat, Click>, gen: nat)
    decreases gen
  {
    OfStretch(b, clicks, gen) && (clicks[gen].pushed || UnderPush(b, clicks, clicks[gen].priorLaunch))
  }

  // What the entry says once `gen` and all of the stretch under it have given back, if it says `now`.
  function Remains(b: Base, clicks: map<nat, Click>, gen: nat, now: Mark): Mark
    decreases gen
  {
    if !OfStretch(b, clicks, gen) then now
    else Remains(b, clicks, clicks[gen].priorLaunch, if clicks[gen].pushed then MarkOf(clicks[gen].before) else now)
  }

  // One intent of the stretch. Only a write made while no push of the stretch stands changes what it will leave.
  function Extend(b: Base, s: Stretch, i: Intent): (u: Stretch)
    requires Sound(s.t)
    ensures Sound(u.t) && u.t == Do(s.t, i)
  {
    DoKeepsSound(s.t, i);
    var t := Do(s.t, i);
    var ours := if i.Clicks? && Accepts(s.t.h, i.id)
                then s.clicks[s.t.h.issued + 1 := BeginClick(s.t.h, i.id, i.given)] else s.clicks;
    if i.Fails? && i.gen in s.clicks then
      s.(t := t, lost := if i.gen in s.t.live then s.lost + {i.gen} else s.lost)
    else
      Stretch(t, ours, s.lost, if UnderPush(b, ours, t.h.launch) then s.left else MarkOf(Current(t.h)))
  }

  // The entry keeps its owner, the newest launch its number, and the address bar its app.
  ghost predicate Keeps(t: Tab, u: Tab)
    requires Wellformed(t.h)
  {
    SameOrder(t.h, u.h) && CurrentApp(u.h) == CurrentApp(t.h)
  }

  // What may happen in a stretch: clicks and their ends; failures of older launches, but for the one it gives back to;
  // and whatever leaves the order and the app alone, such as a view change, a focus while a click is pending, a close
  // behind the front window, a launch that was superseded.
  ghost predicate Allowed(b: Base, s: Stretch, i: Intent)
    requires Sound(s.t)
  {
    || i.Clicks?
    || (i.Opens? && i.gen in s.clicks)
    || (i.Fails? && (i.gen in s.clicks || i.gen != b.launch || i.gen !in s.t.live))
    || Keeps(s.t, Do(s.t, i))
  }

  function RunStretch(from: Tab, run: seq<Intent>): (s: Stretch)
    requires Sound(from)
    ensures Sound(s.t) && s.t == RunTab(from, run)
  {
    if run == [] then Stretch(from, map[], {}, MarkOf(Current(from.h)))
    else
      var s := RunStretch(from, run[..|run| - 1]);
      DoKeepsSound(s.t, run[|run| - 1]);
      Extend(BaseOf(from), s, run[|run| - 1])
  }

  // Nothing else took the entry, renamed it or launched anything meanwhile.
  ghost predicate Undisturbed(from: Tab, run: seq<Intent>)
    requires Sound(from)
  {
    run != [] ==>
      && Undisturbed(from, run[..|run| - 1])
      && Allowed(BaseOf(from), RunStretch(from, run[..|run| - 1]), run[|run| - 1])
  }

  // What `c` would give back to: an earlier click of the stretch, or the tab as it was.
  ghost predicate Linked(b: Base, clicks: map<nat, Click>, c: Click) {
    && (!c.pushed ==> c.before.url.app == Some(c.id))
    && (c.held == c.gen || c.held == c.priorOwner)
    && if c.priorLaunch > b.issued then
         && c.priorLaunch in clicks
         && c.priorOwner == clicks[c.priorLaunch].held
         && c.before.url.app == Some(clicks[c.priorLaunch].id)
       else
         c.priorLaunch == b.launch && c.priorOwner == b.owner && c.before.url.app == b.app
  }

  // Where every click of the stretch is: pending or opened, waiting in `failed`, or given back.
  ghost predicate Books(b: Base, clicks: map<nat, Click>, lost: set<nat>, live: map<nat, Click>,
                        failed: map<nat, Click>,
                        launched: set<nat>, gaveBack: set<nat>) {
    && (forall gen :: gen in clicks ==> gen > b.issued && clicks[gen].gen == gen && gen in launched)
    && (forall gen :: gen in launched && gen > b.issued ==> gen in clicks)
    && (forall gen :: gen in live && gen > b.issued ==> gen in clicks && live[gen] == clicks[gen] && gen !in lost)
    && (forall gen :: gen in failed && gen > b.issued ==> gen in clicks && failed[gen] == clicks[gen] && gen in lost)
    && (b.launch in failed ==> b.launch in b.failed && failed[b.launch] == b.failed[b.launch])
    && (forall gen :: gen in lost ==> gen in clicks && (gen in failed || gen in gaveBack))
    && (forall gen :: gen in clicks && gen in gaveBack ==> gen in lost)
    && (forall gen :: gen in clicks && gen !in gaveBack
          ==> Linked(b, clicks, clicks[gen]) && clicks[gen].priorLaunch !in gaveBack)
  }

  ghost predicate Kept(b: Base, s: Stretch) {
    Books(b, s.clicks, s.lost, s.t.live, s.t.h.failed, s.t.h.launched, s.t.h.gaveBack)
  }

  // What the newest standing click says of the order and of the entry.
  ghost predicate HeadRight(b: Base, clicks: map<nat, Click>, h: History)
    requires Wellformed(h)
  {
    if h.launch > b.issued then
      h.launch in clicks && h.owner == clicks[h.launch].held && CurrentApp(h) == Some(clicks[h.launch].id)
    else
      h.launch == b.launch && h.owner == b.owner && CurrentApp(h) == b.app
  }

  ghost predicate LeftRight(b: Base, s: Stretch)
    requires Wellformed(s.t.h)
  {
    s.left == Remains(b, s.clicks, s.t.h.launch, MarkOf(Current(s.t.h)))
  }

  // Nothing of the tab as it was is overdue.
  ghost predicate AtRest(b: Base) {
    b.launch <= b.issued && (b.launch in b.failed ==> b.owner != b.failed[b.launch].held)
  }

  ghost predicate Following(b: Base, s: Stretch) {
    && AtRest(b) && Kept(b, s) && Sound(s.t) && HeadRight(b, s.clicks, s.t.h) && LeftRight(b, s)
    && s.t.h.issued >= b.issued
  }

  lemma BooksAfterBegin(b: Base, clicks: map<nat, Click>, lost: set<nat>, live: map<nat, Click>,
                        failed: map<nat, Click>,
                        launched: set<nat>, gaveBack: set<nat>, c: Click)
    requires Books(b, clicks, lost, live, failed, launched, gaveBack)
    requires c.gen > b.issued && c.gen !in launched && c.gen !in gaveBack && c.gen !in clicks
    requires Linked(b, clicks, c) && c.priorLaunch !in gaveBack && forall gen :: gen in clicks ==> gen < c.gen
    ensures Books(b, clicks[c.gen := c], lost, live[c.gen := c], failed, launched + {c.gen}, gaveBack)
  {
    var more := clicks[c.gen := c];
    forall gen | gen in more && gen !in gaveBack
      ensures Linked(b, more, more[gen]) && more[gen].priorLaunch !in gaveBack
    {
      assert gen != c.gen ==> Linked(b, clicks, clicks[gen]);
    }
  }

  // --- What the failures leave --------------------------------------------------------------------------------------

  // Under a push, what the entry says now does not matter; without one, nothing else does.
  lemma {:induction false} RemainsByPush(b: Base, clicks: map<nat, Click>, gen: nat, now: Mark, other: Mark)
    ensures UnderPush(b, clicks, gen) ==> Remains(b, clicks, gen, now) == Remains(b, clicks, gen, other)
    ensures !UnderPush(b, clicks, gen) ==> Remains(b, clicks, gen, now) == now
    decreases gen
  {
    if OfStretch(b, clicks, gen) {
      RemainsByPush(b, clicks, clicks[gen].priorLaunch, now, other);
    } else {
    }
  }

  // A newer click changes nothing below it.
  lemma {:induction false} RemainsFrame(b: Base, clicks: map<nat, Click>, c: Click, gen: nat, now: Mark)
    requires gen < c.gen
    ensures Remains(b, clicks[c.gen := c], gen, now) == Remains(b, clicks, gen, now)
    ensures UnderPush(b, clicks[c.gen := c], gen) == UnderPush(b, clicks, gen)
    decreases gen
  {
    if OfStretch(b, clicks, gen) {
      RemainsFrame(b, clicks, c, clicks[gen].priorLaunch, if clicks[gen].pushed then MarkOf(clicks[gen].before)
          else now);
      RemainsFrame(b, clicks, c, clicks[gen].priorLaunch, now);
    } else {
    }
  }

  // The new value of `left` when the newest launch stays the same.
  lemma LeftStaysRight(b: Base, s: Stretch, u: Stretch)
    requires Wellformed(s.t.h) && Wellformed(u.t.h) && LeftRight(b, s)
    requires u.clicks == s.clicks && u.t.h.launch == s.t.h.launch
    requires u.left == if UnderPush(b, u.clicks, u.t.h.launch) then s.left else MarkOf(Current(u.t.h))
    ensures LeftRight(b, u)
  {
    RemainsByPush(b, s.clicks, s.t.h.launch, MarkOf(Current(s.t.h)), MarkOf(Current(u.t.h)));
    RemainsByPush(b, s.clicks, s.t.h.launch, MarkOf(Current(u.t.h)), MarkOf(Current(s.t.h)));
  }

  lemma LeftAfterBegin(b: Base, s: Stretch, u: Stretch, c: Click)
    requires Wellformed(s.t.h) && Wellformed(u.t.h) && LeftRight(b, s)
    requires c.gen > b.issued && c.priorLaunch == s.t.h.launch < c.gen == u.t.h.launch && c.before == Current(s.t.h)
    requires u.clicks == s.clicks[c.gen := c]
    requires u.left == if UnderPush(b, u.clicks, c.gen) then s.left else MarkOf(Current(u.t.h))
    ensures LeftRight(b, u)
  {
    var was, now := MarkOf(Current(s.t.h)), MarkOf(Current(u.t.h));
    RemainsFrame(b, s.clicks, c, c.priorLaunch, if c.pushed then was else now);
    RemainsByPush(b, s.clicks, c.priorLaunch, now, was);
  }

  // --- Clicks, and what takes nothing -------------------------------------------------------------------------------

  lemma ExtendByClick(b: Base, s: Stretch, id: App, given: Option<string>, screen: Screen)
    requires Sound(s.t) && Accepts(s.t.h, id)
    ensures var u, c := Extend(b, s, Clicks(id, given, screen)), BeginClick(s.t.h, id, given);
      && u.t == Tab(Begin(s.t.h, id, given, screen), s.t.live[c.gen := c]) && Wellformed(u.t.h)
      && u.clicks == s.clicks[c.gen := c] && u.lost == s.lost && u.t.h.launch == c.gen == s.t.h.issued + 1
      && u.left == if UnderPush(b, u.clicks, c.gen) then s.left else MarkOf(Current(u.t.h))
  {
    BeginFacts(s.t.h, id, given, screen);
    hide Begin, UnderPush, MarkOf, Sound;
  }

  lemma NewClickIsLinked(b: Base, s: Stretch, id: App, given: Option<string>)
    requires Following(b, s) && Accepts(s.t.h, id)
    ensures var h, c := s.t.h, BeginClick(s.t.h, id, given);
      && c.gen !in h.launched && c.gen !in h.gaveBack && c.gen !in s.clicks && c.gen > b.issued
      && Linked(b, s.clicks, c) && c.priorLaunch !in h.gaveBack && forall gen :: gen in s.clicks ==> gen < c.gen
  {
    BeginFacts(s.t.h, id, given, Screen(map[], None));
    hide BeginClick, Remains;
  }

  lemma BeginFollows(b: Base, s: Stretch, id: App, given: Option<string>, screen: Screen)
    requires Following(b, s) && Accepts(s.t.h, id)
    ensures Following(b, Extend(b, s, Clicks(id, given, screen)))
  {
    var h, c := s.t.h, BeginClick(s.t.h, id, given);
    var u := Extend(b, s, Clicks(id, given, screen));
    NewClickIsLinked(b, s, id, given);
    HeadAfterBegin(b, s, id, given, screen);
    hide Begin, BeginClick, UnderPush, Extend, Do, Linked, Sound, Books, LeftRight, HeadRight, AtRest, Accepts;
    BooksAfterBegin(b, s.clicks, s.lost, s.t.live, h.failed, h.launched, h.gaveBack, c);
  }

  lemma HeadAfterBegin(b: Base, s: Stretch, id: App, given: Option<string>, screen: Screen)
    requires Sound(s.t) && LeftRight(b, s) && s.t.h.issued >= b.issued && Accepts(s.t.h, id)
    ensures var u, c := Extend(b, s, Clicks(id, given, screen)), BeginClick(s.t.h, id, given);
      && HeadRight(b, u.clicks, u.t.h) && LeftRight(b, u) && u.t.h.issued >= b.issued
      && u.t.live == s.t.live[c.gen := c] && u.clicks == s.clicks[c.gen := c] && u.lost == s.lost
      && u.t.h.failed == s.t.h.failed && u.t.h.launched == s.t.h.launched + {c.gen} && u.t.h.gaveBack == s.t.h.gaveBack
  {
    SoundIsNumbered(s.t);
    BeginFacts(s.t.h, id, given, screen);
    ExtendByClick(b, s, id, given, screen);
    hide Begin, BeginClick, UnderPush, Extend, Do, Sound, Numbered, LeftRight, Accepts;
    LeftAfterBegin(b, s, Extend(b, s, Clicks(id, given, screen)), BeginClick(s.t.h, id, given));
  }

  lemma OpenedFacts(h: History, c: Click, w: WindowId, connected: bool, screen: Screen)
    requires Wellformed(h)
    ensures var g := EndOpened(h, c, w, connected, screen);
      SameOrder(h, g) && (c.gen != h.launch || CurrentApp(h) == Some(c.id) ==> CurrentApp(g) == CurrentApp(h))
  {
  }

  lemma BooksAfterOpen(b: Base, clicks: map<nat, Click>, lost: set<nat>, live: map<nat, Click>, failed: map<nat, Click>,
                       launched: set<nat>, gaveBack: set<nat>, gen: nat)
    requires Books(b, clicks, lost, live, failed, launched, gaveBack)
    ensures Books(b, clicks, lost, live - {gen}, failed, launched, gaveBack)
  {
  }

  // The tab after an intent that keeps the order and the app, and may have ended a launch.
  lemma KeepingFollows(b: Base, s: Stretch, u: Stretch, gen: nat)
    requires Following(b, s) && Sound(u.t) && Keeps(s.t, u.t)
    requires u.t.live == s.t.live || u.t.live == s.t.live - {gen}
    requires u.clicks == s.clicks && u.lost == s.lost
    requires u.left == if UnderPush(b, u.clicks, u.t.h.launch) then s.left else MarkOf(Current(u.t.h))
    ensures Following(b, u)
  {
    LeftStaysRight(b, s, u);
    BooksAfterOpen(b, s.clicks, s.lost, s.t.live, s.t.h.failed, s.t.h.launched, s.t.h.gaveBack, gen);
    hide Sound, Books, LeftRight, UnderPush;
  }

  lemma OpensKeeps(b: Base, s: Stretch, gen: nat, w: WindowId, connected: bool, screen: Screen)
    requires Following(b, s) && gen in s.clicks
    ensures var t := Do(s.t, Opens(gen, w, connected, screen));
      Keeps(s.t, t) && (t.live == s.t.live || t.live == s.t.live - {gen})
  {
    if gen in s.t.live {
      LiveIsOurs(b, s, gen);
      OpenedFacts(s.t.h, s.t.live[gen], w, connected, screen);
    }
    hide EndOpened, Sound, Books, LeftRight;
  }

  lemma OpensFollows(b: Base, s: Stretch, gen: nat, w: WindowId, connected: bool, screen: Screen)
    requires Following(b, s) && gen in s.clicks
    ensures Following(b, Extend(b, s, Opens(gen, w, connected, screen)))
  {
    var i := Opens(gen, w, connected, screen);
    DoKeepsSound(s.t, i);
    OpensKeeps(b, s, gen, w, connected, screen);
    hide Do, Sound, Following, Keeps, UnderPush;
    KeepingFollows(b, s, Extend(b, s, i), gen);
  }

  // Which of the pending launches an intent that keeps the order may have ended.
  lemma KeepingEndsAtMostOne(t: Tab, i: Intent)
    requires Sound(t) && !i.Clicks? && !i.Fails?
    ensures Do(t, i).live == t.live || (i.Opens? && Do(t, i).live == t.live - {i.gen})
  {
    SoundIsNumbered(t);
    hide Sound, Numbered, EndOpened, OnFocus, OnClosed, OnParamsChanged, OnViewChanged, Commit, Adopt, Sync, PopState;
  }

  lemma OthersFollow(b: Base, s: Stretch, i: Intent)
    requires Following(b, s) && Keeps(s.t, Do(s.t, i)) && !i.Clicks? && !i.Fails?
    ensures Following(b, Extend(b, s, i))
  {
    DoKeepsSound(s.t, i);
    KeepingEndsAtMostOne(s.t, i);
    hide Do, Sound, Following, Keeps, UnderPush;
    KeepingFollows(b, s, Extend(b, s, i), if i.Opens? then i.gen else 0);
  }

  // An older launch fails; it is not the newest, so it waits.
  lemma BooksAfterOlderWaits(b: Base, clicks: map<nat, Click>, lost: set<nat>, live: map<nat, Click>,
                             failed: map<nat, Click>,
                             launched: set<nat>, gaveBack: set<nat>, gen: nat)
    requires Books(b, clicks, lost, live, failed, launched, gaveBack)
    requires gen in live && gen !in clicks && gen != b.launch
    ensures Books(b, clicks, lost, live - {gen}, failed[gen := live[gen]], launched, gaveBack)
  {
  }

  lemma OlderWaits(b: Base, s: Stretch, gen: nat, g: History)
    requires Following(b, s) && gen !in s.clicks && gen in s.t.live && gen != b.launch
    requires SameOrder(s.t.h, g) && g.entries == s.t.h.entries && CurrentApp(g) == CurrentApp(s.t.h)
        && Current(g) == Current(s.t.h)
    ensures !MayGiveBack(g, s.t.live[gen]) && s.t.live[gen].gen == gen
    ensures Following(b, s.(t := Tab(g.(failed := g.failed[gen := s.t.live[gen]]), s.t.live - {gen})))
  {
    EndingAfterRestore(s.t, gen, g);
    BooksAfterOlderWaits(b, s.clicks, s.lost, s.t.live, s.t.h.failed, s.t.h.launched, s.t.h.gaveBack, gen);
    WaitingKeepsSound(g, s.t.live - {gen}, s.t.live[gen]);
  }

  lemma OlderFailsFollows(b: Base, s: Stretch, gen: nat, screen: Screen)
    requires Following(b, s) && gen !in s.clicks && (gen != b.launch || gen !in s.t.live)
    ensures Following(b, Extend(b, s, Fails(gen, screen)))
  {
    var u := Extend(b, s, Fails(gen, screen));
    if gen in s.t.live {
      var g := EndFailedIs(s.t.h, s.t.live[gen], screen);
      OlderWaits(b, s, gen, g);
      var v := s.(t := Tab(g.(failed := g.failed[gen := s.t.live[gen]]), s.t.live - {gen}));
      hide EndFailed, GiveBack, Following, UnderPush;
      assert u.t == v.t;
      LeftAlone(b, s, u, v);
    } else {
      hide UnderPush;
      KeepingFollows(b, s, u, gen);
    }
  }

  lemma LeftAlone(b: Base, s: Stretch, u: Stretch, v: Stretch)
    requires Following(b, v) && u.t == v.t && u.clicks == v.clicks && u.lost == v.lost && v.left == s.left
    requires u.left == if UnderPush(b, u.clicks, u.t.h.launch) then s.left else MarkOf(Current(u.t.h))
    ensures Following(b, u)
  {
    RemainsByPush(b, v.clicks, v.t.h.launch, MarkOf(Current(v.t.h)), MarkOf(Current(v.t.h)));
  }

  // --- A click of the stretch fails at its head ---------------------------------------------------------------------

  ghost predicate AtHead(b: Base, s: Stretch, c: Click) {
    && AtRest(b) && Kept(b, s) && Ending(s.t.h, s.t.live, c) && MayGiveBack(s.t.h, c)
    && c.gen in s.clicks && s.clicks[c.gen] == c && c.gen !in s.lost
    && CurrentApp(s.t.h) == Some(c.id) && s.t.h.issued >= b.issued && LeftRight(b, s)
  }

  function AfterUndo(s: Stretch, c: Click, screen: Screen): Stretch
    requires Wellformed(s.t.h)
  {
    Stretch(Tab(Undo(s.t.h, c, screen), s.t.live), s.clicks, s.lost + {c.gen}, s.left)
  }

  lemma BooksAfterUndo(b: Base, clicks: map<nat, Click>, lost: set<nat>, live: map<nat, Click>, failed: map<nat, Click>,
                       launched: set<nat>, gaveBack: set<nat>, gen: nat)
    requires Books(b, clicks, lost, live, failed, launched, gaveBack)
    requires gen in clicks && gen !in live && forall k :: k in clicks && k !in gaveBack ==> k <= gen
    ensures Books(b, clicks, lost + {gen}, live, failed, launched, gaveBack + {gen})
  {
  }

  lemma UndoFacts(h: History, c: Click, screen: Screen)
    requires Wellformed(h)
    ensures var g := Undo(h, c, screen);
      && Wellformed(g) && g.owner == c.priorOwner && g.launch == c.priorLaunch && g.issued == h.issued
      && g.failed == h.failed && g.launched == h.launched && g.gaveBack == h.gaveBack + {c.gen}
      && CurrentApp(g) == (if c.pushed then c.before.url.app else CurrentApp(h))
      && MarkOf(Current(g)) == (if c.pushed then MarkOf(c.before) else MarkOf(Current(h)))
  {
  }

  lemma UndoFollows(b: Base, s: Stretch, c: Click, screen: Screen)
    requires AtHead(b, s, c)
    ensures var u := AfterUndo(s, c, screen);
      Kept(b, u) && Ordered(u.t.h, u.t.live) && HeadRight(b, u.clicks, u.t.h) && LeftRight(b, u)
          && u.t.h.issued == s.t.h.issued
  {
    UndoFacts(s.t.h, c, screen);
    UndoKeepsOrdered(s.t.h, s.t.live, c, screen);
    assert Linked(b, s.clicks, c) by {
      assert c.gen !in s.t.h.gaveBack;
    }
    assert forall k :: k in s.clicks && k !in s.t.h.gaveBack ==> k <= c.gen;
    BooksAfterUndo(b, s.clicks, s.lost, s.t.live, s.t.h.failed, s.t.h.launched, s.t.h.gaveBack, c.gen);
    hide Undo, Ordered, Books;
  }

  lemma BooksWithoutWaiting(b: Base, clicks: map<nat, Click>, lost: set<nat>, live: map<nat, Click>,
                            failed: map<nat, Click>,
                            launched: set<nat>, gaveBack: set<nat>, gen: nat)
    requires Books(b, clicks, lost, live, failed, launched, gaveBack)
    requires gen in failed && gen !in gaveBack
    ensures Books(b, clicks, lost - {gen}, live, failed - {gen}, launched, gaveBack)
  {
    hide Linked;
  }

  lemma BooksWithoutEarlier(b: Base, clicks: map<nat, Click>, lost: set<nat>, live: map<nat, Click>,
                            failed: map<nat, Click>,
                            launched: set<nat>, gaveBack: set<nat>, gen: nat)
    requires Books(b, clicks, lost, live, failed, launched, gaveBack) && gen <= b.issued
    ensures Books(b, clicks, lost, live, failed - {gen}, launched, gaveBack)
  {
    hide Linked;
  }

  lemma WaitingIsLost(b: Base, clicks: map<nat, Click>, lost: set<nat>, live: map<nat, Click>, failed: map<nat, Click>,
                      launched: set<nat>, gaveBack: set<nat>, gen: nat)
    requires Books(b, clicks, lost, live, failed, launched, gaveBack) && gen in failed && gen > b.issued
    ensures gen in clicks && failed[gen] == clicks[gen] && gen in lost
  {
  }

  lemma LeavesWaiting(h: History, k: History, live: map<nat, Click>, older: Click)
    requires Ordered(h, live) && h.launch in h.failed && older == h.failed[h.launch]
    requires k == h.(failed := h.failed - {h.launch})
    ensures Ending(k, live, older) && older.gen == h.launch && h.launch !in h.gaveBack
  {
    assert ClickSound(h, h.launch, older);
    OrderFrame(h, k, live, live);
  }

  // The waiting launch under the one that gave back comes to the head.
  lemma WaitingReachesHead(b: Base, u: Stretch, k: History, older: Click)
    requires AtRest(b) && Kept(b, u) && Ordered(u.t.h, u.t.live) && HeadRight(b, u.clicks, u.t.h) && LeftRight(b, u)
    requires u.t.h.issued >= b.issued && u.t.h.launch in u.t.h.failed && older == u.t.h.failed[u.t.h.launch]
    requires k == u.t.h.(failed := u.t.h.failed - {u.t.h.launch}) && u.t.h.launch > b.issued
    ensures AtHead(b, Stretch(Tab(k, u.t.live), u.clicks, u.lost - {older.gen}, u.left), older)
    ensures u.lost - {older.gen} + {older.gen} == u.lost
  {
    var h := u.t.h;
    hide Ordered, Ending, Books, MayGiveBack, HeadRight, AtRest, CurrentApp, LeftRight, MarkOf;
    WaitingHolds(b, u, k, older);
    LeavesWaiting(h, k, u.t.live, older);
    BooksWithoutWaiting(b, u.clicks, u.lost, u.t.live, h.failed, h.launched, h.gaveBack, h.launch);
    LeftFrame(b, u, Stretch(Tab(k, u.t.live), u.clicks, u.lost - {older.gen}, u.left));
  }

  lemma WaitingHolds(b: Base, u: Stretch, k: History, older: Click)
    requires Kept(b, u) && Ordered(u.t.h, u.t.live) && HeadRight(b, u.clicks, u.t.h)
    requires u.t.h.launch in u.t.h.failed && older == u.t.h.failed[u.t.h.launch]
    requires k == u.t.h.(failed := u.t.h.failed - {u.t.h.launch}) && u.t.h.launch > b.issued
    ensures Wellformed(k) && MayGiveBack(k, older) && CurrentApp(k) == Some(older.id) && Current(k) == Current(u.t.h)
    ensures older.gen == u.t.h.launch && older.gen in u.clicks && u.clicks[older.gen] == older && older.gen in u.lost
  {
    var h := u.t.h;
    LeavesWaiting(h, k, u.t.live, older);
    WaitingIsLost(b, u.clicks, u.lost, u.t.live, h.failed, h.launched, h.gaveBack, h.launch);
    hide Ordered, Ending, Books;
  }

  // What is left depends on the newest launch and the entry.
  lemma LeftFrame(b: Base, s: Stretch, u: Stretch)
    requires Wellformed(s.t.h) && LeftRight(b, s) && Wellformed(u.t.h) && Current(u.t.h) == Current(s.t.h)
    requires u.t.h.launch == s.t.h.launch && u.clicks == s.clicks && u.left == s.left
    ensures LeftRight(b, u)
  {
  }

  // One from before the stretch stays as it is.
  lemma EarlierStaysWaiting(b: Base, u: Stretch, k: History, older: Click)
    requires AtRest(b) && Kept(b, u) && Ordered(u.t.h, u.t.live) && HeadRight(b, u.clicks, u.t.h) && LeftRight(b, u)
    requires u.t.h.issued >= b.issued && u.t.h.launch in u.t.h.failed && older == u.t.h.failed[u.t.h.launch]
    requires k == u.t.h.(failed := u.t.h.failed - {u.t.h.launch}) && u.t.h.launch <= b.issued
    ensures var v := u.(t := Tab(k, u.t.live));
        !MayGiveBack(k, older) && Kept(b, v) && HeadRight(b, u.clicks, k) && LeftRight(b, v)
  {
    var h := u.t.h;
    assert ClickSound(h, h.launch, older);
    BooksWithoutEarlier(b, u.clicks, u.lost, u.t.live, h.failed, h.launched, h.gaveBack, h.launch);
  }

  lemma {:induction false} GiveBackFollows(b: Base, s: Stretch, c: Click, screen: Screen)
    requires AtHead(b, s, c)
    ensures Following(b, Stretch(Tab(GiveBack(s.t.h, c, screen), s.t.live), s.clicks, s.lost + {c.gen}, s.left))
    decreases c.gen
  {
    GiveBackKeepsSound(s.t.h, s.t.live, c, screen);
    UndoFollows(b, s, c, screen);
    var u := AfterUndo(s, c, screen);
    if u.t.h.launch !in u.t.h.failed {
    } else {
      var older := u.t.h.failed[u.t.h.launch];
      var k := u.t.h.(failed := u.t.h.failed - {u.t.h.launch});
      if u.t.h.launch > b.issued { WaitingReachesHead(b, u, k, older); } else { EarlierStaysWaiting(b, u, k, older); }
      hide Ordered, Ending, Kept, Undo;
      if u.t.h.launch > b.issued {
        GiveBackFollows(b, Stretch(Tab(k, s.t.live), s.clicks, u.lost - {older.gen}, s.left), older, screen);
      }
    }
  }

  // The tab once a failing click's parameters are back.
  ghost predicate Restored(h: History, g: History)
    requires Wellformed(h)
  {
    SameOrder(h, g) && CurrentApp(g) == CurrentApp(h) && Current(g) == Current(h)
  }

  lemma FailedAtHead(b: Base, s: Stretch, gen: nat, g: History)
    requires Following(b, s) && gen in s.clicks && gen in s.t.live
    requires Restored(s.t.h, g) && MayGiveBack(g, s.t.live[gen])
    ensures AtHead(b, Stretch(Tab(g, s.t.live - {gen}), s.clicks, s.lost, s.left), s.t.live[gen])
        && s.t.live[gen].gen == gen
  {
    EndingAfterRestore(s.t, gen, g);
    BooksAfterOpen(b, s.clicks, s.lost, s.t.live, s.t.h.failed, s.t.h.launched, s.t.h.gaveBack, gen);
    LiveIsOurs(b, s, gen);
    LeftFrame(b, s, Stretch(Tab(g, s.t.live - {gen}), s.clicks, s.lost, s.left));
    hide Sound, Ending, Books, AtRest, LeftRight, NoneOverdue;
  }

  lemma LiveIsOurs(b: Base, s: Stretch, gen: nat)
    requires Following(b, s) && gen in s.clicks && gen in s.t.live
    ensures s.t.live[gen] == s.clicks[gen] && gen > b.issued && gen !in s.lost && s.clicks[gen].gen == gen
  {
  }

  lemma BooksAfterWaiting(b: Base, clicks: map<nat, Click>, lost: set<nat>, live: map<nat, Click>,
                          failed: map<nat, Click>,
                          launched: set<nat>, gaveBack: set<nat>, gen: nat)
    requires Books(b, clicks, lost, live, failed, launched, gaveBack) && b.launch <= b.issued
    requires gen in live && gen in clicks
    ensures Books(b, clicks, lost + {gen}, live - {gen}, failed[gen := live[gen]], launched, gaveBack)
  {
  }

  lemma WaitsFollows(b: Base, s: Stretch, gen: nat, g: History)
    requires Following(b, s) && gen in s.clicks && gen in s.t.live
    requires Restored(s.t.h, g) && !MayGiveBack(g, s.t.live[gen])
    ensures Following(b,
                      Stretch(Tab(g.(failed := g.failed[gen := s.t.live[gen]]), s.t.live - {gen}), s.clicks,
                              s.lost + {gen}, s.left))
  {
    BooksAfterWaiting(b, s.clicks, s.lost, s.t.live, s.t.h.failed, s.t.h.launched, s.t.h.gaveBack, gen);
    EndingAfterRestore(s.t, gen, g);
    WaitingKeepsSound(g, s.t.live - {gen}, s.t.live[gen]);
    var k := g.(failed := g.failed[gen := s.t.live[gen]]);
    LeftFrame(b, s, Stretch(Tab(k, s.t.live - {gen}), s.clicks, s.lost + {gen}, s.left));
    hide Sound, Ending, Books, AtRest, LeftRight, NoneOverdue, MayGiveBack;
  }

  lemma FailsFollowsAfterRestore(b: Base, s: Stretch, gen: nat, g: History, screen: Screen)
    requires Following(b, s) && gen in s.clicks && gen in s.t.live
    requires Restored(s.t.h, g)
    ensures var c := s.t.live[gen];
      Following(b, Stretch(Tab(if MayGiveBack(g, c) then GiveBack(g, c, screen) else g.(failed := g.failed[c.gen := c]),
                               s.t.live - {gen}), s.clicks, s.lost + {gen}, s.left))
  {
    assert s.t.live[gen].gen == gen by { assert ClickSound(s.t.h, gen, s.t.live[gen]); }
    if MayGiveBack(g, s.t.live[gen]) {
      FailedAtHead(b, s, gen, g);
      GiveBackFollows(b, Stretch(Tab(g, s.t.live - {gen}), s.clicks, s.lost, s.left), s.t.live[gen], screen);
    } else {
      WaitsFollows(b, s, gen, g);
    }
  }

  lemma FailsFollows(b: Base, s: Stretch, gen: nat, screen: Screen)
    requires Following(b, s) && gen in s.clicks
    ensures Following(b, Extend(b, s, Fails(gen, screen)))
  {
    DoKeepsSound(s.t, Fails(gen, screen));
    if gen in s.t.live {
      var g := EndFailedIs(s.t.h, s.t.live[gen], screen);
      hide EndFailed, GiveBack, Following, UnderPush, Remains, Sound;
      FailsFollowsAfterRestore(b, s, gen, g, screen);
    }
  }

  lemma ExtendFollows(b: Base, s: Stretch, i: Intent)
    requires Following(b, s) && Allowed(b, s, i)
    ensures Following(b, Extend(b, s, i))
  {
    hide Following, Do, Keeps, UnderPush;
    match i
    case Clicks(id, given, screen) =>
      if Accepts(s.t.h, id) { BeginFollows(b, s, id, given, screen); } else { RefusedFollows(b, s, i); }
    case Fails(gen, screen) =>
      if gen in s.clicks { FailsFollows(b, s, gen, screen); } else { OlderOrNoFailure(b, s, gen, screen); }
    case Opens(gen, w, connected, screen) =>
      if gen in s.clicks { OpensFollows(b, s, gen, w, connected, screen); } else { OthersFollow(b, s, i); }
    case _ => OthersFollow(b, s, i);
  }

  lemma RefusedFollows(b: Base, s: Stretch, i: Intent)
    requires Following(b, s) && i.Clicks? && !Accepts(s.t.h, i.id)
    ensures Following(b, Extend(b, s, i))
  {
    hide UnderPush;
    KeepingFollows(b, s, Extend(b, s, i), 0);
  }

  lemma OlderOrNoFailure(b: Base, s: Stretch, gen: nat, screen: Screen)
    requires Following(b, s) && gen !in s.clicks && Allowed(b, s, Fails(gen, screen))
    ensures Following(b, Extend(b, s, Fails(gen, screen)))
  {
    if gen != b.launch || gen !in s.t.live {
      OlderFailsFollows(b, s, gen, screen);
    } else {
      // A failure always leaves its mark on the order: the launch waits, or gives back.
      FailureShows(s.t, gen, screen);
    }
  }

  lemma FailureShows(t: Tab, gen: nat, screen: Screen)
    requires Sound(t) && gen in t.live
    ensures !SameOrder(t.h, EndFailed(t.h, t.live[gen], screen))
  {
    var c := t.live[gen];
    assert ClickSound(t.h, gen, c) && gen !in t.h.failed;
    var g := EndFailedIs(t.h, c, screen);
    hide EndFailed;
    if MayGiveBack(g, c) {
      GiveBackGives(g, c, screen);
    }
  }

  lemma {:induction false} GiveBackGives(h: History, c: Click, screen: Screen)
    requires Wellformed(h)
    ensures c.gen in GiveBack(h, c, screen).gaveBack && h.gaveBack <= GiveBack(h, c, screen).gaveBack
    decreases c.gen
  {
    var u := Undo(h, c, screen);
    if u.launch in u.failed && MayGiveBack(u.(failed := u.failed - {u.launch}), u.failed[u.launch]) {
      GiveBackGives(u.(failed := u.failed - {u.launch}), u.failed[u.launch], screen);
    } else {
    }
  }

  lemma {:induction false} RunFollows(from: Tab, run: seq<Intent>)
    requires Sound(from) && Undisturbed(from, run)
    ensures Following(BaseOf(from), RunStretch(from, run))
  {
    if run == [] {
      StretchBegins(from);
    } else {
      RunFollows(from, run[..|run| - 1]);
      hide Following, Sound, Allowed, Extend;
      ExtendFollows(BaseOf(from), RunStretch(from, run[..|run| - 1]), run[|run| - 1]);
    }
  }

  lemma StretchBegins(from: Tab)
    requires Sound(from)
    ensures Following(BaseOf(from), Stretch(from, map[], {}, MarkOf(Current(from.h))))
  {
    assert forall gen :: gen in from.live ==> ClickSound(from.h, gen, from.live[gen]);
    assert forall gen :: gen in from.h.failed ==> ClickSound(from.h, gen, from.h.failed[gen]);
  }

  /**
   * From any reachable tab, let clicks begin, open and fail in any order, with nothing else taking the entry. The last
   * click that has not failed owns the order and the entry names its app.
   */
  lemma LastUnfailedClickDecides(from: Tab, run: seq<Intent>, gen: nat)
    requires Sound(from) && Undisturbed(from, run)
    requires var s := RunStretch(from, run);
      gen in s.clicks && gen !in s.lost && forall k :: k in s.clicks && k !in s.lost ==> k <= gen
    ensures var s, h := RunStretch(from, run), RunTab(from, run).h;
      h.launch == gen && h.owner == s.clicks[gen].held && CurrentApp(h) == Some(s.clicks[gen].id)
  {
    RunFollows(from, run);
    HeadIsLastUnfailed(BaseOf(from), RunStretch(from, run));
  }

  /**
   * If every one of them fails, in whatever order, the owner, the newest launch and the entry's app are as before. The
   * URL and the state are `left`: as before, but for what was written while no push of a standing click was on top.
   */
  lemma AllFailedIsAsIfNothingHappened(from: Tab, run: seq<Intent>)
    requires Sound(from) && Undisturbed(from, run)
    requires var s := RunStretch(from, run); forall gen :: gen in s.clicks ==> gen in s.lost
    ensures var h := RunTab(from, run).h;
      h.owner == from.h.owner && h.launch == from.h.launch && CurrentApp(h) == CurrentApp(from.h)
    ensures MarkOf(Current(RunTab(from, run).h)) == RunStretch(from, run).left
  {
    RunFollows(from, run);
    HeadIsLastUnfailed(BaseOf(from), RunStretch(from, run));
  }

  // The newest standing launch has not failed, and every click that has not failed still stands.
  lemma HeadIsLastUnfailed(b: Base, s: Stretch)
    requires Following(b, s)
    ensures s.t.h.launch > b.issued ==> s.t.h.launch in s.clicks && s.t.h.launch !in s.lost
    ensures forall gen :: gen in s.clicks && gen !in s.lost ==> gen <= s.t.h.launch
  {
  }

  // --- The URL and the state ----------------------------------------------------------------------------------------

  // No push of a standing click is on top after the intent at `j`, which is not a failure of one of them.
  ghost predicate Bare(from: Tab, run: seq<Intent>, j: nat)
    requires Sound(from) && j < |run|
  {
    var u := RunStretch(from, run[..j + 1]);
    !(run[j].Fails? && run[j].gen in u.clicks) && !UnderPush(BaseOf(from), u.clicks, u.t.h.launch)
  }

  // The last such intent of the run.
  ghost predicate LastBare(from: Tab, run: seq<Intent>, j: nat)
    requires Sound(from) && j < |run|
  {
    Bare(from, run, j) && forall k :: j < k < |run| ==> !Bare(from, run, k)
  }

  function MarkAfter(from: Tab, run: seq<Intent>): Mark
    requires Sound(from)
  {
    MarkOf(Current(RunStretch(from, run).t.h))
  }

  lemma BareBefore(from: Tab, run: seq<Intent>, j: nat)
    requires Sound(from) && j < |run| - 1
    ensures Bare(from, run, j) <==> Bare(from, run[..|run| - 1], j)
    ensures run[..j + 1] == run[..|run| - 1][..j + 1]
  {
    assert run[..|run| - 1][..j + 1] == run[..j + 1];
  }

  lemma LeftByLast(from: Tab, run: seq<Intent>)
    requires Sound(from) && run != []
    ensures RunStretch(from, run).left
         == if Bare(from, run, |run| - 1) then MarkAfter(from, run) else RunStretch(from, run[..|run| - 1]).left
  {
    assert run[..|run|] == run;
    hide Sound, MarkOf, Do, UnderPush;
  }

  ghost predicate LastIs(from: Tab, run: seq<Intent>, last: Option<nat>)
    requires Sound(from)
  {
    match last
    case None => forall k :: 0 <= k < |run| ==> !Bare(from, run, k)
    case Some(j) => j < |run| && LastBare(from, run, j)
  }

  // What the entry said then, or before the run.
  ghost function SaidAt(from: Tab, run: seq<Intent>, last: Option<nat>): Mark
    requires Sound(from) && LastIs(from, run, last)
  {
    if last.None? then MarkOf(Current(from.h)) else MarkAfter(from, run[..last.value + 1])
  }

  lemma LastIsNow(from: Tab, run: seq<Intent>)
    requires Sound(from) && run != [] && Bare(from, run, |run| - 1)
    ensures LastIs(from, run, Some(|run| - 1)) && SaidAt(from, run, Some(|run| - 1)) == MarkAfter(from, run)
  {
    hide Sound, Bare, MarkOf, RunStretch;
    assert run[..|run| - 1 + 1] == run;
  }

  lemma LastIsEarlier(from: Tab, run: seq<Intent>, last: Option<nat>)
    requires Sound(from) && run != [] && !Bare(from, run, |run| - 1) && LastIs(from, run[..|run| - 1], last)
    ensures LastIs(from, run, last) && SaidAt(from, run, last) == SaidAt(from, run[..|run| - 1], last)
  {
    hide Sound, Bare, MarkAfter, MarkOf;
    forall k: nat | k < |run| - 1
      ensures Bare(from, run, k) <==> Bare(from, run[..|run| - 1], k)
    {
      BareBefore(from, run, k);
    }
    if last.Some? { BareBefore(from, run, last.value); }
  }

  // What failures leave is what the entry said after the last such intent.
  lemma {:induction false} LeftByLastBare(from: Tab, run: seq<Intent>) returns (last: Option<nat>)
    requires Sound(from)
    ensures LastIs(from, run, last) && RunStretch(from, run).left == SaidAt(from, run, last)
  {
    if run == [] {
      last := None;
    } else {
      hide RunStretch, Bare, MarkOf, Sound, MarkAfter, LastIs, SaidAt;
      last := LeftByLastBare(from, run[..|run| - 1]);
      LeftByLast(from, run);
      if Bare(from, run, |run| - 1) {
        LastIsNow(from, run);
        last := Some(|run| - 1);
      } else {
        LastIsEarlier(from, run, last);
      }
    }
  }

  /**
   * If all of them fail, the previous URL and state are put back, the view apart, exactly when the last intent that
   * left no push of a standing click on top, failures of the clicks apart, left the entry saying what it said before
   * the run.
   */
  lemma AllFailedPutsTheEntryBack(from: Tab, run: seq<Intent>)
    requires Sound(from) && Undisturbed(from, run)
    requires var s := RunStretch(from, run); forall gen :: gen in s.clicks ==> gen in s.lost
    ensures MarkOf(Current(RunTab(from, run).h)) == MarkOf(Current(from.h))
       <==> forall j: nat :: j < |run| && LastBare(from, run, j) ==>
              MarkOf(Current(RunTab(from, run[..j + 1]).h)) == MarkOf(Current(from.h))
  {
    hide Bare, Undisturbed, MarkOf, Sound, RunTab, SameOrder;
    AllFailedIsAsIfNothingHappened(from, run);
    var last := LeftByLastBare(from, run);
    hide RunStretch;
  }

  // --- A launch that takes nothing and never gives back -------------------------------------------------------------

  /**
   * A boot launch numbered meanwhile takes nothing, but the clicks under it can no longer give back. Once all clicks
   * have failed the owner is the one from before exactly when, as the launch was numbered, every click that had taken
   * the entry had given it back.
   */
  lemma RouteNumberedMeanwhile(from: Tab, run: seq<Intent>, route: RouteId, later: seq<Intent>)
    requires Sound(from) && Sound(Do(RunTab(from, run), Numbers(route)))
    requires Undisturbed(from, run) && Undisturbed(Do(RunTab(from, run), Numbers(route)), later)
    requires var s := RunStretch(Do(RunTab(from, run), Numbers(route)), later);
        forall gen :: gen in s.clicks ==> gen in s.lost
    ensures var m := RunTab(from, run).h; var h := RunTab(Do(RunTab(from, run), Numbers(route)), later).h;
      && (h.owner == from.h.owner <==> NothingNewerTookIt(m, from.h.issued))
      && h.owner == m.owner && CurrentApp(h) == CurrentApp(m)
  {
    var m := RunTab(from, run);
    NumberingKeeps(m, route);
    hide Undisturbed, Following, NothingNewerTookIt, RunTab, RunStretch, Do, Sound, CurrentApp;
    AllFailedIsAsIfNothingHappened(Do(m, Numbers(route)), later);
    RunFollows(from, run);
    OwnerIsOlder(BaseOf(from), RunStretch(from, run), from);
  }

  lemma NumberingKeeps(t: Tab, route: RouteId)
    requires Sound(t)
    ensures var n := Do(t, Numbers(route)); Sound(n) && n.h.owner == t.h.owner && CurrentApp(n.h) == CurrentApp(t.h)
  {
    DoKeepsSound(t, Numbers(route));
  }

  lemma OwnerIsOlder(b: Base, s: Stretch, from: Tab)
    requires Following(b, s) && Sound(from) && b == BaseOf(from)
    ensures s.t.h.owner == from.h.owner <==> NothingNewerTookIt(s.t.h, from.h.issued)
  {
    var h := s.t.h;
    assert from.h.owner <= from.h.issued;
    if NothingNewerTookIt(h, from.h.issued) && h.launch > b.issued {
      HeldDownTheLine(b, s, h.launch);
    }
  }

  // Clicks that took nothing hold the entry under the owner they found.
  lemma {:induction false} HeldDownTheLine(b: Base, s: Stretch, gen: nat)
    requires Following(b, s) && gen > b.issued && gen in s.clicks && gen !in s.t.h.gaveBack
    requires s.clicks[gen].held <= b.issued
    ensures s.clicks[gen].held == b.owner
    decreases gen
  {
    var c := s.clicks[gen];
    assert Linked(b, s.clicks, c);
    if c.priorLaunch > b.issued {
      HeldDownTheLine(b, s, c.priorLaunch);
    } else {
    }
  }

  lemma RunTabSnoc(t: Tab, run: seq<Intent>, i: Intent)
    requires Sound(t)
    ensures RunTab(t, run + [i]) == Do(RunTab(t, run), i)
  {
    assert (run + [i])[..|run|] == run;
  }

  /**
   * A click, a boot launch, and the click fails: its entry stays. The boot numbers its link as soon as the dock is
   * built, so the click comes first only on a second mount: the launch of a billing link threw, which left the link to
   * be acted on again, and a click on the first dock was still opening (shell/ezil/boot.js:965-989, 1095-1111).
   */
  lemma RouteStrandsAFailure()
    ensures var t := Start({"code"}, true, Entry(Url(None, ""), State(None, None, "")));
      var shown := Screen(map[], None);
      Sound(t) && var h := RunTab(t, [] + [Clicks("code", None, shown)] + [Numbers(0)] + [Fails(1, shown)]).h;
        h.owner == 1 != t.h.owner && CurrentApp(h) == Some("code") != CurrentApp(t.h)
  {
    var shown := Screen(map[], None);
    var t := Start({"code"}, true, Entry(Url(None, ""), State(None, None, "")));
    StartSound({"code"}, true, Entry(Url(None, ""), State(None, None, "")));
    CodeClicked(t, shown);
    hide Sound, Do, RunTab;
    var clicked: seq<Intent> := [] + [Clicks("code", None, shown)];
    RunTabStarts(t);
    RunTabSnoc(t, [], Clicks("code", None, shown));
    RunTabSnoc(t, clicked, Numbers(0));
    RunTabSnoc(t, clicked + [Numbers(0)], Fails(1, shown));
    NumberedThenFails(Do(t, Clicks("code", None, shown)), shown);
  }

  lemma RunTabStarts(t: Tab)
    requires Sound(t)
    ensures RunTab(t, []) == t
  {
  }

  lemma CodeClicked(t: Tab, shown: Screen)
    requires Sound(t) && t == Start({"code"}, true, Entry(Url(None, ""), State(None, None, "")))
    ensures var u := Do(t, Clicks("code", None, shown));
      Sound(u) && u.h.launch == u.h.owner == u.h.issued == 1 && 1 in u.live && CurrentApp(u.h) == Some("code")
  {
    DoKeepsSound(t, Clicks("code", None, shown));
    BeginFacts(t.h, "code", None, shown);
    BeginClickFacts(t.h, "code", None);
    hide Begin, BeginClick, Sound;
  }

  lemma NumberedThenFails(t: Tab, shown: Screen)
    requires Sound(t) && t.h.launch == t.h.owner == t.h.issued == 1 && 1 in t.live
    ensures Sound(Do(t, Numbers(0)))
    ensures var h := Do(Do(t, Numbers(0)), Fails(1, shown)).h;
      Wellformed(h) && h.owner == 1 && CurrentApp(h) == CurrentApp(t.h)
  {
    DoKeepsSound(t, Numbers(0));
    var u := Do(t, Numbers(0));
    assert t.live[1].gen == 1 by { assert ClickSound(t.h, 1, t.live[1]); }
    assert u.h == NumberRoute(t.h, 0) && u.live == t.live;
    hide Sound;
    var g := EndFailedIs(u.h, u.live[1], shown);
    hide EndFailed, GiveBack;
  }
}
