/**
 * The four registries every open loop of the page shares (`migratingRequests`, `launchingRequests`,
 * `preparingRequests`, `movingRequests`), the imperative loop that keeps its own entries in them, and any number of
 * loops interleaved at their awaits.
 */
module WakeRegistries {
  import opened Options
  import opened WakeLoop
  import opened WakeLoopSafety

  type Key = nat

  datatype Watcher = Watcher(computer: string, owner: Option<nat>)

  datatype Board = Board(
    migrating: map<Key, string>, launching: map<Key, string>, preparing: map<Key, string>, moving: map<Key, Watcher>)

  function Without(b: Board, key: Key): Board {
    Board(b.migrating - {key}, b.launching - {key}, b.preparing - {key}, b.moving - {key})
  }

  // `if (on) { if (v) m.set(key, v) } else m.delete(key)`
  function Put<V>(m: map<Key, V>, key: Key, on: bool, v: Option<V>): map<Key, V> {
    if !on then m - {key} else if v.Some? then m[key := v.value] else m
  }

  function WatcherOf(c: Caller): Option<Watcher> {
    if c.computer.Some? then Some(Watcher(c.computer.value, c.owner)) else None
  }

  // What one answer does to the entries of the loop `key`.
  function Post(b: Board, key: Key, c: Caller, a: Answer): Board {
    if NeedsAttention(a) then b.(moving := b.moving - {key})
    else if Moving(a) then
      Board(b.migrating - {key}, b.launching - {key}, b.preparing - {key}, Put(b.moving, key, true, WatcherOf(c)))
    else
      Board(
        Put(b.migrating, key, Migrating(a), c.computer),
        Put(b.launching, key, Launching(a) && !Migrating(a), c.computer),
        if Preparing(a) then Put(b.preparing, key, true, c.computer) else b.preparing,
        b.moving - {key})
  }

  // The board after one step of the loop `key`: every way out runs the `finally` block.
  function StepBoard(b: Board, key: Key, c: Caller, s: Loop, e: Env): Board {
    if s.pc.Done? then b
    else if Step(c, s, e).pc.Done? then Without(b, key)
    else if s.pc.Answering? then Post(b, key, c, if s.carried.Some? then s.carried.value else e.answer)
    else b
  }

  // --- What the entries mean ------------------------------------------------------------------------------------

  predicate ShowsMigrating(log: seq<Event>) { LastAnswer(log).Some? && Migrating(LastAnswer(log).value) }

  predicate ShowsLaunching(log: seq<Event>) {
    LastAnswer(log).Some? && Launching(LastAnswer(log).value) && !Migrating(LastAnswer(log).value)
  }

  predicate ShowsMoving(log: seq<Event>) { LastAnswer(log).Some? && Moving(LastAnswer(log).value) }

  // Some answer since the last moving one said the desktop is being prepared.
  predicate ShowsPreparing(log: seq<Event>) {
    log != [] &&
    if log[|log| - 1].Answered? && Moving(log[|log| - 1].answer) then false
    else if log[|log| - 1].Answered? && Preparing(log[|log| - 1].answer) then true
    else ShowsPreparing(log[..|log| - 1])
  }

  // The board `b` with the entries of the loop `key` as its log says they must be.
  function Marked(b: Board, key: Key, c: Caller, log: seq<Event>): Board {
    Board(
      Entry(b.migrating, key, ShowsMigrating(log), c.computer),
          Entry(b.launching, key, ShowsLaunching(log), c.computer),
      Entry(b.preparing, key, ShowsPreparing(log), c.computer), Entry(b.moving, key, ShowsMoving(log), WatcherOf(c)))
  }

  function Entry<V>(m: map<Key, V>, key: Key, shown: bool, v: Option<V>): map<Key, V> {
    if shown && v.Some? then m[key := v.value] else m - {key}
  }

  lemma PutAfterEntry<V>(m: map<Key, V>, key: Key, was: bool, on: bool, v: Option<V>)
    ensures Put(Entry(m, key, was, v), key, on, v) == Entry(m, key, on, v)
    ensures Entry(m, key, was, v) - {key} == Entry(m, key, false, v)
    ensures Entry(m, key, was, v) - {key} == m - {key}
  {
  }

  lemma MarkedAfter(b: Board, key: Key, c: Caller, log: seq<Event>, a: Answer, now: int)
    requires !NeedsAttention(a)
    ensures Marked(b, key, c, log + [Answered(a, now)]) == Post(Marked(b, key, c, log), key, c, a)
  {
    Appended(log, Answered(a, now));
    assert (log + [Answered(a, now)])[..|log|] == log;
    PutAfterEntry(b.migrating, key, ShowsMigrating(log), Migrating(a), c.computer);
    PutAfterEntry(b.launching, key, ShowsLaunching(log), Launching(a) && !Migrating(a), c.computer);
    PutAfterEntry(b.preparing, key, ShowsPreparing(log), true, c.computer);
    PutAfterEntry(b.moving, key, ShowsMoving(log), Moving(a), WatcherOf(c));
    hide Put, Entry;
  }

  lemma MarkedIgnores(b: Board, key: Key, c: Caller, log: seq<Event>, e: Event)
    requires !e.Answered?
    ensures Marked(b, key, c, log + [e]) == Marked(b, key, c, log)
  {
    Appended(log, e);
    assert (log + [e])[..|log|] == log;
  }

  lemma MarkedAfterStep(b: Board, key: Key, c: Caller, s: Loop, e: Env)
    requires !Step(c, s, e).pc.Done?
    ensures StepBoard(Marked(b, key, c, s.log), key, c, s, e) == Marked(b, key, c, Step(c, s, e).log)
  {
    hide Marked, Post, WatchMove, Noted;
    match s.pc
    case Top => MarkedIgnores(b, key, c, s.log, Asked(e.now));
    case Answering => MarkedAfter(b, key, c, s.log, if s.carried.Some? then s.carried.value else e.answer, e.now);
    case MoveCheck(_) =>
    case MovePaused(_) => MarkedIgnores(b, key, c, s.log, ReadSent);
    case MoveReading(_) => MarkedIgnores(b, key, c, s.log, ReadSaid(e.read));
    case Done(_) =>
  }

  // --- Any number of loops ----------------------------------------------------------------------------------------

  // Which of the three opens a loop serves.
  datatype Kind = Desktop | Preview | Code

  // `cancelOpenDesktop(id)`, `cancelComputerOpens(id)`, and `cancelComputerOpens(undefined, {keep})`.
  datatype Cancelling = DesktopsOf(computer: string) | OpensOf(computer: string) | AllOpensBut(keep: Option<string>)

  // `cancelled` are the loops whose own controller was aborted, `signals` the callers' signals that were.
  datatype Page = Page(
    callers: map<Key, Caller>, kinds: map<Key, Kind>, loops: map<Key, Loop>,
    cancelled: set<Key>, signals: set<nat>, board: Board)

  datatype Turn =
    | Open(key: Key, kind: Kind, caller: Caller, start: int)
    | Advance(key: Key, env: Env)
    | Cancel(what: Cancelling)
    | Abort(signal: nat)

  predicate Live(p: Page, key: Key) {
    key in p.loops && !p.loops[key].pc.Done?
  }

  // A loop's signal is aborted by its own controller or, at once or later, by its caller's.
  predicate Aborted(p: Page, key: Key) {
    key in p.cancelled || (key in p.callers && p.callers[key].owner.Some? && p.callers[key].owner.value in p.signals)
  }

  // A key is a fresh symbol.
  predicate Enabled(p: Page, t: Turn) {
    match t
    case Open(key, _, _, _) => key !in p.loops
    case Advance(key, _) => Live(p, key) && key in p.callers
    case Cancel(_) => true
    case Abort(_) => true
  }

  predicate Covers(what: Cancelling, c: Caller, kind: Kind) {
    match what
    case DesktopsOf(computer) => kind == Desktop && c.computer == Some(computer)
    case OpensOf(computer) => c.computer == Some(computer)
    case AllOpensBut(keep) => keep.None? || c.computer != keep
  }

  // The entries of `openCancels` a cancellation reaches.
  function Hit(p: Page, what: Cancelling): set<Key> {
    set key | key in p.loops && Live(p, key) && key in p.callers && key in p.kinds
        && Covers(what, p.callers[key], p.kinds[key])
  }

  function TurnPage(p: Page, t: Turn): Page {
    if !Enabled(p, t) then p else
    match t
    case Open(key, kind, caller, start) =>
      p.(callers := p.callers[key := caller], kinds := p.kinds[key := kind],
         loops := p.loops[key := Init(caller, start)])
    case Advance(key, env) =>
      var e := env.(aborted := Aborted(p, key));
      p.(loops := p.loops[key := Step(p.callers[key], p.loops[key], e)],
         board := StepBoard(p.board, key, p.callers[key], p.loops[key], e))
    case Cancel(what) => p.(cancelled := p.cancelled + Hit(p, what))
    case Abort(signal) => p.(signals := p.signals + {signal})
  }

  ghost predicate EntryExact<V>(p: Page, m: map<Key, V>, key: Key, shown: bool, v: V) {
    && (key in m <==> shown)
    && (key in m ==> m[key] == v)
  }

  ghost predicate KeyExact(p: Page, key: Key) {
    if Live(p, key) && key in p.callers && p.callers[key].computer.Some? then
      var c, log := p.callers[key], p.loops[key].log;
      var id := c.computer.value;
      && EntryExact(p, p.board.migrating, key, ShowsMigrating(log), id)
      && EntryExact(p, p.board.launching, key, ShowsLaunching(log), id)
      && EntryExact(p, p.board.preparing, key, ShowsPreparing(log), id)
      && EntryExact(p, p.board.moving, key, ShowsMoving(log), Watcher(id, c.owner))
    else
      key !in p.board.migrating && key !in p.board.launching && key !in p.board.preparing && key !in p.board.moving
  }

  ghost predicate RegistriesExact(p: Page) {
    && p.callers.Keys == p.loops.Keys
    && forall key :: KeyExact(p, key)
  }

  const EMPTY_PAGE := Page(map[], map[], map[], {}, {}, Board(map[], map[], map[], map[]))

  function PageAfter(p: Page, turns: seq<Turn>): Page {
    if turns == [] then p else TurnPage(PageAfter(p, turns[..|turns| - 1]), turns[|turns| - 1])
  }

  lemma MarkedWhenExact(p: Page, key: Key)
    requires KeyExact(p, key) && Live(p, key) && key in p.callers
    ensures Marked(p.board, key, p.callers[key], p.loops[key].log) == p.board
  {
  }

  lemma PostFrame(b: Board, key: Key, c: Caller, a: Answer)
    ensures Without(Post(b, key, c, a), key) == Without(b, key)
  {
  }

  lemma StepBoardFrame(b: Board, key: Key, c: Caller, s: Loop, e: Env)
    ensures Without(StepBoard(b, key, c, s, e), key) == Without(b, key)
  {
    PostFrame(b, key, c, if s.carried.Some? then s.carried.value else e.answer);
    hide Step, Post;
    assert Without(Without(b, key), key) == Without(b, key);
  }

  lemma WithoutKeepsOthers(b: Board, d: Board, key: Key, other: Key)
    requires Without(b, key) == Without(d, key) && other != key
    ensures other in b.migrating <==> other in d.migrating
    ensures other in b.migrating ==> b.migrating[other] == d.migrating[other]
    ensures other in b.launching <==> other in d.launching
    ensures other in b.launching ==> b.launching[other] == d.launching[other]
    ensures other in b.preparing <==> other in d.preparing
    ensures other in b.preparing ==> b.preparing[other] == d.preparing[other]
    ensures other in b.moving <==> other in d.moving
    ensures other in b.moving ==> b.moving[other] == d.moving[other]
  {
    assert other in b.migrating <==> other in Without(b, key).migrating;
    assert other in b.launching <==> other in Without(b, key).launching;
    assert other in b.preparing <==> other in Without(b, key).preparing;
    assert other in b.moving <==> other in Without(b, key).moving;
  }

  lemma MarkedIsExact(q: Page, b: Board, key: Key)
    requires Live(q, key) && key in q.callers && q.board == Marked(b, key, q.callers[key], q.loops[key].log)
    ensures KeyExact(q, key)
  {
    hide ShowsMigrating, ShowsLaunching, ShowsPreparing, ShowsMoving;
  }

  lemma AdvanceKeepsOwnEntry(p: Page, key: Key, env: Env)
    requires KeyExact(p, key) && Enabled(p, Advance(key, env))
    ensures KeyExact(TurnPage(p, Advance(key, env)), key)
  {
    var e := env.(aborted := Aborted(p, key));
    var c, s := p.callers[key], p.loops[key];
    var t := Step(c, s, e);
    if t.pc.Done? {
      assert StepBoard(p.board, key, c, s, e) == Without(p.board, key);
    } else {
      MarkedWhenExact(p, key);
      MarkedAfterStep(p.board, key, c, s, e);
      hide Step, StepBoard, Marked, KeyExact;
      MarkedIsExact(TurnPage(p, Advance(key, env)), p.board, key);
    }
  }

  lemma TurnKeepsExact(p: Page, t: Turn)
    requires RegistriesExact(p) && Enabled(p, t)
    ensures RegistriesExact(TurnPage(p, t))
  {
    var q := TurnPage(p, t);
    hide Step, StepBoard;
    if t.Advance? {
      StepBoardFrame(p.board, t.key, p.callers[t.key], p.loops[t.key], t.env.(aborted := Aborted(p, t.key)));
      AdvanceKeepsOwnEntry(p, t.key, t.env);
    }
    forall key ensures KeyExact(q, key) {
      assert KeyExact(p, key);
      if t.Advance? && key != t.key {
        WithoutKeepsOthers(p.board, q.board, t.key, key);
      }
    }
  }

  /**
   * At every moment, whatever loops run, each registry names exactly the loops in flight whose log says so, each with
   * its own computer and owner. A loop that has returned is in none of them.
   */
  lemma {:induction false} RegistriesAlwaysExact(turns: seq<Turn>)
    ensures RegistriesExact(PageAfter(EMPTY_PAGE, turns))
  {
    if turns == [] {
    } else {
      RegistriesAlwaysExact(turns[..|turns| - 1]);
      var p := PageAfter(EMPTY_PAGE, turns[..|turns| - 1]);
      if Enabled(p, turns[|turns| - 1]) {
        TurnKeepsExact(p, turns[|turns| - 1]);
      }
    }
  }

  // The query a window makes; `owner` is absent when it asks about the computer alone.
  predicate IsComputeMoving(b: Board, computer: string, owner: Option<Option<nat>>) {
    exists key :: key in b.moving && b.moving[key].computer == computer
                  && (owner.None? || b.moving[key].owner == owner.value)
  }

  ghost predicate InAMove(p: Page, key: Key, computer: string, owner: Option<Option<nat>>) {
    && Live(p, key) && key in p.callers
    && p.callers[key].computer == Some(computer) && (owner.None? || p.callers[key].owner == owner.value)
    && ShowsMoving(p.loops[key].log)
  }

  /**
   * A window that asks whether a computer is moving is told so exactly when the last answer of some loop in flight for
   * that computer said so; one that asks about its own loop, when that loop's did.
   */
  lemma MovingQueryIsExact(turns: seq<Turn>, computer: string, owner: Option<Option<nat>>)
    ensures var p := PageAfter(EMPTY_PAGE, turns);
      IsComputeMoving(p.board, computer, owner) <==> exists key :: InAMove(p, key, computer, owner)
  {
    var p := PageAfter(EMPTY_PAGE, turns);
    RegistriesAlwaysExact(turns);
    hide ShowsMoving;
    if IsComputeMoving(p.board, computer, owner) {
      var key :| key in p.board.moving && p.board.moving[key].computer == computer
                 && (owner.None? || p.board.moving[key].owner == owner.value);
      assert KeyExact(p, key);
      assert InAMove(p, key, computer, owner);
    }
    if key :| InAMove(p, key, computer, owner) {
      assert KeyExact(p, key);
      assert p.board.moving[key] == Watcher(computer, p.callers[key].owner);
    }
  }

  // A loop whose signal is aborted sends nothing more, whatever the page does.
  lemma {:induction false} AbortedStaysSilent(p: Page, key: Key, more: seq<Turn>)
    requires key in p.loops && key in p.callers && Aborted(p, key)
    ensures var q := PageAfter(p, more);
      && key in q.loops && key in q.callers && q.callers[key] == p.callers[key] && Aborted(q, key)
      && q.loops[key].log == p.loops[key].log
  {
    if more == [] {
    } else {
      AbortedStaysSilent(p, key, more[..|more| - 1]);
      var q := PageAfter(p, more[..|more| - 1]);
      hide OnAnswer, OnRead, StepBoard, Hit;
    }
  }

  /**
   * After a cancellation (of a computer's desktop opens; of all its opens on Stop or Delete; of all but one
   * computer's), none of the loops it reached sends another request or read, ever.
   */
  lemma CancelledOpensStaySilent(p: Page, what: Cancelling, key: Key, more: seq<Turn>)
    requires key in Hit(p, what)
    ensures var q := PageAfter(TurnPage(p, Cancel(what)), more);
      key in q.loops && q.loops[key].log == p.loops[key].log
  {
    AbortedStaysSilent(TurnPage(p, Cancel(what)), key, more);
  }

  /**
   * After a caller's own signal is aborted, none of the loops it started sends anything again, nor any it starts later.
   */
  lemma AbortedCallersStaySilent(p: Page, signal: nat, key: Key, more: seq<Turn>)
    requires p.callers.Keys == p.loops.Keys
    ensures var q := PageAfter(TurnPage(p, Abort(signal)), more);
      key in q.loops && key in q.callers && q.callers[key].owner == Some(signal) ==>
        q.loops[key].log == (if key in p.loops then p.loops[key].log else [])
  {
    SignalsStaySilent(TurnPage(p, Abort(signal)), signal, key, more);
  }

  lemma {:induction false} SignalsStaySilent(p: Page, signal: nat, key: Key, more: seq<Turn>)
    requires p.callers.Keys == p.loops.Keys && signal in p.signals
    ensures var q := PageAfter(p, more);
      && q.callers.Keys == q.loops.Keys && signal in q.signals
      && (key in p.loops ==> key in q.loops && q.callers[key] == p.callers[key])
      && (key in q.loops && q.callers[key].owner == Some(signal) ==>
            q.loops[key].log == (if key in p.loops then p.loops[key].log else []))
  {
    if more == [] {
    } else {
      SignalsStaySilent(p, signal, key, more[..|more| - 1]);
      TurnStaysSilent(PageAfter(p, more[..|more| - 1]), signal, key, more[|more| - 1]);
      hide TurnPage;
    }
  }

  lemma TurnStaysSilent(p: Page, signal: nat, key: Key, t: Turn)
    requires p.callers.Keys == p.loops.Keys && signal in p.signals
    ensures var q := TurnPage(p, t);
      && q.callers.Keys == q.loops.Keys && signal in q.signals
      && (key in p.loops ==> key in q.loops && q.callers[key] == p.callers[key])
      && (key in q.loops && q.callers[key].owner == Some(signal) ==>
            q.loops[key].log == (if key in p.loops then p.loops[key].log else []))
  {
    hide OnAnswer, OnRead, StepBoard, Hit;
    match t
    case Open(_, _, _, _) =>
    case Advance(_, _) =>
    case Cancel(_) =>
    case Abort(_) =>
  }
}
