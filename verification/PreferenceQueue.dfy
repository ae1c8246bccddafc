/**
 * When a renderer's capture is queued and when it is skipped, and what becomes of a queue, in every run.
 */
module PreferenceQueue {
  import opened Options
  import opened Preferences
  import opened PreferenceRuns

  // --- What a renderer last said ------------------------------------------------------------------------------------

  // At turn `j` the renderer opened with `v`, or captured it.
  ghost predicate Says(host: Input, turns: seq<Turn>, r: nat, j: nat, v: Desktop)
    requires j < |turns|
  {
    var d := Run(host, turns[..j]);
    match turns[j]
    case Opens(opener, screen) => opener == r && r !in d.renderers && v == Safe(d.host, screen)
    case Flushes(writer, captured, screen) => writer == r && r in d.renderers && v == Safe(captured, screen)
    case Saves(_, _) => false
  }

  ghost predicate LastSaid(host: Input, turns: seq<Turn>, r: nat, j: nat, v: Desktop) {
    && j < |turns| && Says(host, turns, r, j, v)
    && forall k, w :: j < k < |turns| ==> !Says(host, turns, r, k, w)
  }

  // A queued save of `v` by this renderer failed at turn `k`.
  ghost predicate Fails(host: Input, turns: seq<Turn>, r: nat, k: nat, v: Desktop)
    requires k < |turns|
  {
    var d := Run(host, turns[..k]);
    && turns[k].Saves? && turns[k].r == r && !turns[k].outcome.Written?
    && r in d.renderers && d.renderers[r].queue != [] && d.renderers[r].queue[0] == v
  }

  ghost predicate FailedSince(host: Input, turns: seq<Turn>, r: nat, j: nat, v: Desktop) {
    exists k :: j < k < |turns| && Fails(host, turns, r, k, v)
  }

  // What the renderer believes is saved or about to be.
  ghost predicate Believes(host: Input, turns: seq<Turn>, r: nat, j: nat, v: Desktop) {
    && r in Run(host, turns).renderers && LastSaid(host, turns, r, j, v)
    && Run(host, turns).renderers[r].last == if FailedSince(host, turns, r, j, v) then None else Some(v)
  }

  lemma EarlierTurns(host: Input, turns: seq<Turn>, t: Turn, r: nat)
    ensures Run(host, turns + [t]) == Next(Run(host, turns), t)
    ensures (turns + [t])[..|turns|] == turns
    ensures forall j: nat, v :: j < |turns| ==> Says(host, turns + [t], r, j, v) == Says(host, turns, r, j, v)
    ensures forall j: nat, v :: j < |turns| ==> Fails(host, turns + [t], r, j, v) == Fails(host, turns, r, j, v)
  {
    var after := turns + [t];
    assert after[..|turns|] == turns;
    forall j: nat, v | j < |turns|
      ensures Says(host, after, r, j, v) == Says(host, turns, r, j, v)
      ensures Fails(host, after, r, j, v) == Fails(host, turns, r, j, v)
    {
      hide Run, Safe;
      assert after[..j] == turns[..j] && after[j] == turns[j];
    }
  }

  lemma NowFails(host: Input, turns: seq<Turn>, t: Turn, r: nat, j: nat, v: Desktop)
    requires j < |turns|
    ensures FailedSince(host, turns + [t], r, j, v)
       <==> FailedSince(host, turns, r, j, v) || Fails(host, turns + [t], r, |turns|, v)
  {
    EarlierTurns(host, turns, t, r);
    hide Fails, Run;
    if FailedSince(host, turns, r, j, v) {
      var k :| j < k < |turns| && Fails(host, turns, r, k, v);
      assert Fails(host, turns + [t], r, k, v);
    }
  }

  // What a turn in which the renderer says nothing leaves it believing.
  lemma LastAfter(host: Input, turns: seq<Turn>, t: Turn, r: nat, v: Desktop)
    requires r in Run(host, turns).renderers && forall w :: !Says(host, turns + [t], r, |turns|, w)
    ensures var x := Run(host, turns).renderers[r];
      && r in Next(Run(host, turns), t).renderers
      && Next(Run(host, turns), t).renderers[r].last
         == if x.last.Some? && Fails(host, turns + [t], r, |turns|, x.last.value) then None else x.last
  {
    hide Run, Safe, Merge, Again;
    assert (turns + [t])[..|turns|] == turns;
    if t.Flushes? {
      assert t.r == r ==> Says(host, turns + [t], r, |turns|, Safe(t.captured, t.screen));
    }
  }

  lemma TurnKeepsBelief(host: Input, turns: seq<Turn>, t: Turn, r: nat, j: nat, v: Desktop)
    requires Believes(host, turns, r, j, v) && forall w :: !Says(host, turns + [t], r, |turns|, w)
    ensures Believes(host, turns + [t], r, j, v)
  {
    hide FailedSince, Run, Says, Fails, Next;
    EarlierTurns(host, turns, t, r);
    NowFails(host, turns, t, r, j, v);
    LastAfter(host, turns, t, r, v);
  }

  lemma SaysNow(host: Input, turns: seq<Turn>, t: Turn, r: nat, v: Desktop)
    requires Says(host, turns + [t], r, |turns|, v)
    requires r in Run(host, turns + [t]).renderers && Run(host, turns + [t]).renderers[r].last == Some(v)
    ensures Believes(host, turns + [t], r, |turns|, v)
  {
  }

  /**
   * In every run, what a renderer believes is saved or about to be is what it last said, captured or opened with,
   * unless a save of just that failed since.
   */
  lemma {:induction false} BeliefInEveryRun(host: Input, turns: seq<Turn>, r: nat) returns (j: nat, v: Desktop)
    requires r in Run(host, turns).renderers
    ensures Believes(host, turns, r, j, v)
  {
    hide Believes, Safe, Merge, Again;
    if turns == [] {
      assert false;
    } else {
      var init, t := turns[..|turns| - 1], turns[|turns| - 1];
      assert init + [t] == turns;
      var d := Run(host, init);
      EarlierTurns(host, init, t, r);
      if t.Flushes? && t.r == r && r in d.renderers {
        j, v := |init|, Safe(t.captured, t.screen);
        SaysNow(host, init, t, r, v);
      } else if t.Opens? && t.r == r && r !in d.renderers {
        j, v := |init|, Safe(d.host, t.screen);
        SaysNow(host, init, t, r, v);
      } else {
        j, v := BeliefInEveryRun(host, init, r);
        assert turns[..|init|] == init;
        TurnKeepsBelief(host, init, t, r, j, v);
      }
    }
  }

  /**
   * In every run, a capture is skipped exactly when the renderer last said the same and no save of it failed since.
   * Otherwise it is queued behind what is queued already.
   */
  lemma SkippedExactly(host: Input, turns: seq<Turn>, r: nat, captured: Input, screen: Screen)
    requires r in Run(host, turns).renderers
    ensures exists j, v ::
      && LastSaid(host, turns, r, j, v)
      && (var x, y := Run(host, turns).renderers[r], Run(host, turns + [Flushes(r, captured, screen)]).renderers[r];
          if Safe(captured, screen) == v && !FailedSince(host, turns, r, j, v) then y == x
          else y.queue == x.queue + [Safe(captured, screen)] && y.committed == x.committed)
  {
    var j, v := BeliefInEveryRun(host, turns, r);
    EarlierTurns(host, turns, Flushes(r, captured, screen), r);
    hide LastSaid, FailedSince, Run, Safe;
    assert LastSaid(host, turns, r, j, v);
  }

  // --- What becomes of a queue --------------------------------------------------------------------------------------

  function SaveTurns(r: nat, outcomes: seq<Outcome>): seq<Turn> {
    if outcomes == [] then [] else SaveTurns(r, outcomes[..|outcomes| - 1]) + [Saves(r, outcomes[|outcomes| - 1])]
  }

  function After(d: Shared, turns: seq<Turn>): Shared {
    if turns == [] then d else Next(After(d, turns[..|turns| - 1]), turns[|turns| - 1])
  }

  // The desktops whose writes reached the host, in order.
  function Reached(queue: seq<Desktop>, outcomes: seq<Outcome>): seq<Desktop>
    requires |outcomes| <= |queue|
  {
    if outcomes == [] then []
    else
      var n := |outcomes| - 1;
      Reached(queue, outcomes[..n]) + if outcomes[n] in {ReadFails, WriteFails} then [] else [queue[n]]
  }

  // The last desktop whose write was acknowledged.
  function Acknowledged(queue: seq<Desktop>, outcomes: seq<Outcome>, committed: Desktop): Desktop
    requires |outcomes| <= |queue|
  {
    if outcomes == [] then committed
    else
      var n := |outcomes| - 1;
      if outcomes[n] == Written then queue[n] else Acknowledged(queue, outcomes[..n], committed)
  }

  function Afters(saves: seq<Save>): seq<Desktop> {
    seq(|saves|, i requires 0 <= i < |saves| => saves[i].after)
  }

  /**
   * Each save settles the head of the queue, whatever comes of it: the queue drains in order, exactly the writes that
   * reached the host are applied, and the last one acknowledged is what the renderer measures its next changes against.
   */
  lemma {:induction false} QueueDrains(d: Shared, r: nat, outcomes: seq<Outcome>)
    requires r in d.renderers && |outcomes| <= |d.renderers[r].queue|
    ensures var x, e := d.renderers[r], After(d, SaveTurns(r, outcomes));
      && e.renderers.Keys == d.renderers.Keys
      && e.renderers[r].queue == x.queue[|outcomes|..]
      && e.renderers[r].committed == Acknowledged(x.queue, outcomes, x.committed)
      && Afters(e.applied) == Afters(d.applied) + Reached(x.queue, outcomes)
      && (forall other :: other in d.renderers && other != r ==> e.renderers[other] == d.renderers[other])
  {
    var x := d.renderers[r];
    if outcomes == [] {
      assert x.queue[0..] == x.queue;
      assert Afters(d.applied) + [] == Afters(d.applied);
    } else {
      var n := |outcomes| - 1;
      QueueDrains(d, r, outcomes[..n]);
      var turns := SaveTurns(r, outcomes);
      assert turns[..|turns| - 1] == SaveTurns(r, outcomes[..n]);
      var k := After(d, SaveTurns(r, outcomes[..n]));
      assert k.renderers[r].queue[0] == x.queue[n] && k.renderers[r].queue[1..] == x.queue[n + 1..];
      SaveAppends(k, r, outcomes[n]);
      hide Merge, Again, After;
    }
  }

  lemma SaveAppends(k: Shared, r: nat, outcome: Outcome)
    requires r in k.renderers && k.renderers[r].queue != []
    ensures var e, x := Next(k, Saves(r, outcome)), k.renderers[r];
      && e.renderers.Keys == k.renderers.Keys
      && e.renderers[r].queue == x.queue[1..]
      && e.renderers[r].committed == (if outcome == Written then x.queue[0] else x.committed)
      && Afters(e.applied) == Afters(k.applied) + (if outcome in {ReadFails, WriteFails} then [] else [x.queue[0]])
      && (forall other :: other in k.renderers && other != r ==> e.renderers[other] == k.renderers[other])
  {
    hide Merge, Again;
  }
}
