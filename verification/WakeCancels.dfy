/**
 * Which loops a cancellation reaches, told by how each loop was opened, in every run of concurrent loops.
 */
module WakeCancels {
  import opened Options
  import opened WakeLoop
  import opened WakeRegistries

  // The `k`th turn is the first that opens `key`, and so.
  ghost predicate OpenedAs(turns: seq<Turn>, k: nat, key: Key, kind: Kind, caller: Caller) {
    && k < |turns| && turns[k].Open? && turns[k].key == key && turns[k].kind == kind && turns[k].caller == caller
    && forall j :: 0 <= j < k ==> !(turns[j].Open? && turns[j].key == key)
  }

  ghost predicate NeverOpened(turns: seq<Turn>, key: Key) {
    forall j :: 0 <= j < |turns| ==> !(turns[j].Open? && turns[j].key == key)
  }

  // The page knows the loop as it was opened.
  ghost predicate Known(p: Page, turns: seq<Turn>, key: Key) {
    if key in p.loops then
      && key in p.kinds && key in p.callers
      && exists k: nat :: OpenedAs(turns, k, key, p.kinds[key], p.callers[key])
    else NeverOpened(turns, key)
  }

  lemma {:induction false} EveryLoopIsKnown(turns: seq<Turn>, key: Key)
    ensures Known(PageAfter(EMPTY_PAGE, turns), turns, key)
  {
    if turns == [] {
    } else {
      var init, t := turns[..|turns| - 1], turns[|turns| - 1];
      var p := PageAfter(EMPTY_PAGE, init);
      EveryLoopIsKnown(init, key);
      TurnKnows(p, init, t, key);
      assert init + [t] == turns;
    }
  }

  lemma TurnTables(p: Page, t: Turn, key: Key)
    requires key in p.loops ==> key in p.kinds && key in p.callers
    ensures var q := TurnPage(p, t);
      && (key in q.loops <==> key in p.loops || (t.Open? && t.key == key))
      && (key in p.loops ==>
            key in q.kinds && key in q.callers && q.kinds[key] == p.kinds[key] && q.callers[key] == p.callers[key])
      && (key !in p.loops && t.Open? && t.key == key ==>
            key in q.kinds && key in q.callers && q.kinds[key] == t.kind && q.callers[key] == t.caller)
  {
    hide Step, StepBoard, Hit, Aborted;
  }

  lemma TurnKnows(p: Page, turns: seq<Turn>, t: Turn, key: Key)
    requires Known(p, turns, key)
    ensures Known(TurnPage(p, t), turns + [t], key)
  {
    TurnTables(p, t, key);
    hide TurnPage;
    var after, q := turns + [t], TurnPage(p, t);
    assert forall j :: 0 <= j < |turns| ==> after[j] == turns[j];
    assert after[|turns|] == t;
    if key in p.loops {
      var k: nat :| OpenedAs(turns, k, key, p.kinds[key], p.callers[key]);
      assert OpenedAs(after, k, key, p.kinds[key], p.callers[key]);
      assert key in q.loops && q.kinds[key] == p.kinds[key] && q.callers[key] == p.callers[key];
    } else if t.Open? && t.key == key {
      assert OpenedAs(after, |turns|, key, t.kind, t.caller);
    } else {
      assert key !in q.loops;
      assert forall j :: 0 <= j < |after| ==> j == |turns| || after[j] == turns[j];
    }
  }

  // A desktop's cancellation reaches the desktops of its computer, a computer's every open of it, and the last every
  // open but those of the computer to keep.
  predicate Reaches(what: Cancelling, kind: Kind, computer: Option<string>) {
    match what
    case DesktopsOf(id) => kind.Desktop? && computer.Some? && computer.value == id
    case OpensOf(id) => computer.Some? && computer.value == id
    case AllOpensBut(keep) => !(keep.Some? && computer.Some? && computer.value == keep.value)
  }

  /** In every run, a cancellation aborts exactly the loops in flight that it reaches, by how they were opened. */
  lemma CancelsExactly(turns: seq<Turn>, what: Cancelling, key: Key)
    ensures var p := PageAfter(EMPTY_PAGE, turns); var q := PageAfter(EMPTY_PAGE, turns + [Cancel(what)]);
      && q.loops == p.loops && q.signals == p.signals && q.board == p.board
      && (key in q.cancelled <==>
            || key in p.cancelled
            || (key in p.loops && !p.loops[key].pc.Done?
                && exists k: nat, kind, caller ::
                     OpenedAs(turns, k, key, kind, caller) && Reaches(what, kind, caller.computer)))
  {
    var p := PageAfter(EMPTY_PAGE, turns);
    assert (turns + [Cancel(what)])[..|turns|] == turns;
    EveryLoopIsKnown(turns, key);
    if key in p.loops {
      var k: nat :| OpenedAs(turns, k, key, p.kinds[key], p.callers[key]);
      forall j: nat, kind, caller | OpenedAs(turns, j, key, kind, caller)
        ensures kind == p.kinds[key] && caller == p.callers[key]
      {
        assert j == k;
      }
    }
    hide OpenedAs;
  }

  // Some turn aborted the signal of the caller that opened the loop.
  ghost predicate CallerAborted(turns: seq<Turn>, key: Key) {
    exists k: nat, kind, caller, j ::
      && OpenedAs(turns, k, key, kind, caller)
      && 0 <= j < |turns| && turns[j].Abort? && caller.owner == Some(turns[j].signal)
  }

  lemma {:induction false} SignalsAre(turns: seq<Turn>)
    ensures forall signal :: signal in PageAfter(EMPTY_PAGE, turns).signals
              <==> exists j :: 0 <= j < |turns| && turns[j].Abort? && turns[j].signal == signal
  {
    if turns == [] {
    } else {
      var init, t := turns[..|turns| - 1], turns[|turns| - 1];
      SignalsAre(init);
      SignalsAfter(PageAfter(EMPTY_PAGE, init), t);
      hide TurnPage;
      assert forall j :: 0 <= j < |init| ==> turns[j] == init[j];
    }
  }

  lemma SignalsAfter(p: Page, t: Turn)
    ensures TurnPage(p, t).signals == if t.Abort? then p.signals + {t.signal} else p.signals
  {
    hide Step, StepBoard, Hit, Aborted;
  }

  /**
   * In every run, a loop in flight advances as aborted exactly when a cancellation reached it or some turn aborted its
   * caller's own signal, before it was opened or after; and no other loop moves with it.
   */
  lemma AdvancesExactly(turns: seq<Turn>, key: Key, env: Env)
    requires var p := PageAfter(EMPTY_PAGE, turns); key in p.loops && key in p.callers && !p.loops[key].pc.Done?
    ensures var p := PageAfter(EMPTY_PAGE, turns); var q := PageAfter(EMPTY_PAGE, turns + [Advance(key, env)]);
      && q.loops == p.loops[key := Step(p.callers[key], p.loops[key],
                                        env.(aborted := key in p.cancelled || CallerAborted(turns, key)))]
      && q.cancelled == p.cancelled && q.signals == p.signals && q.callers == p.callers && q.kinds == p.kinds
  {
    var p := PageAfter(EMPTY_PAGE, turns);
    assert (turns + [Advance(key, env)])[..|turns|] == turns;
    EveryLoopIsKnown(turns, key);
    SignalsAre(turns);
    CallerIs(turns, key);
    hide Step, StepBoard, PageAfter, Known;
  }

  lemma CallerIs(turns: seq<Turn>, key: Key)
    requires var p := PageAfter(EMPTY_PAGE, turns); key in p.loops && key in p.callers
    ensures var owner := PageAfter(EMPTY_PAGE, turns).callers[key].owner;
      CallerAborted(turns, key) <==> owner.Some? && owner.value in PageAfter(EMPTY_PAGE, turns).signals
  {
    var p := PageAfter(EMPTY_PAGE, turns);
    EveryLoopIsKnown(turns, key);
    SignalsAre(turns);
    var k: nat :| OpenedAs(turns, k, key, p.kinds[key], p.callers[key]);
    forall j: nat, kind, caller | OpenedAs(turns, j, key, kind, caller)
      ensures caller == p.callers[key]
    {
      assert j == k;
    }
    hide OpenedAs, PageAfter;
  }
}
