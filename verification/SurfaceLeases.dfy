/**
 * Which slots are busy, which slot a window may take, and how a window numbers what it sends, in every run.
 */
module SurfaceLeases {
  import opened Options
  import opened Surfaces
  import opened SurfaceProtocol

  // A window on this slot whose close has not settled.
  predicate Holds(d: World, w: nat, s: nat) {
    w in d.windows && d.windows[w].surface == s && !d.windows[w].released
  }

  ghost predicate Held(d: World, s: nat) {
    exists w :: Holds(d, w, s)
  }

  ghost predicate Leased(d: World) {
    && (forall s :: s in d.slots ==> (d.slots[s].busy <==> Held(d, s)))
    && (forall w :: w in d.windows ==> d.windows[w].surface in d.slots)
    && (forall w :: w in d.windows ==>
          var v := d.windows[w];
          (v.released ==> v.disposed) && (v.disposed && v.outbox == [] && !v.inFlight ==> v.released))
  }

  // A turn that changes one window and leaves whether it holds its slot alone.
  lemma SameHolds(d: World, e: World, w: nat)
    requires Leased(d) && w in d.windows
    requires e.slots.Keys == d.slots.Keys && forall s :: s in d.slots ==> e.slots[s].busy == d.slots[s].busy
    requires w in e.windows && e.windows == d.windows[w := e.windows[w]]
    requires e.windows[w].surface == d.windows[w].surface && e.windows[w].released == d.windows[w].released
    requires var v := e.windows[w];
      (v.released ==> v.disposed) && (v.disposed && v.outbox == [] && !v.inFlight ==> v.released)
    ensures Leased(e)
  {
    assert forall v, s :: Holds(e, v, s) == Holds(d, v, s);
    assert forall s :: Held(e, s) == Held(d, s) by {
      forall s ensures Held(e, s) == Held(d, s) {
        if v :| Holds(d, v, s) {
          assert Holds(e, v, s);
        }
        if v :| Holds(e, v, s) {
          assert Holds(d, v, s);
        }
      }
    }
    hide Holds, Held;
  }

  // The only window on its slot lets go of it.
  lemma FreesSlot(d: World, e: World, w: nat)
    requires Leased(d) && w in d.windows && !d.windows[w].released && Apart(d.windows)
    requires var s := d.windows[w].surface; s in d.slots && e.slots == d.slots[s := d.slots[s].(busy := false)]
    requires w in e.windows && e.windows == d.windows[w := e.windows[w]]
    requires e.windows[w].surface == d.windows[w].surface && e.windows[w].released && e.windows[w].disposed
    ensures Leased(e)
  {
    var s := d.windows[w].surface;
    assert forall v :: !Holds(e, v, s);
    forall other | other in e.slots && other != s
      ensures e.slots[other].busy <==> Held(e, other)
    {
      if v :| Holds(d, v, other) {
        assert Holds(e, v, other);
      }
      if v :| Holds(e, v, other) {
        assert Holds(d, v, other);
      }
    }
    hide Holds;
  }

  lemma MountLeases(d: World, e: World, w: nat, s: nat)
    requires Leased(d) && w !in d.windows && w in e.windows && s in e.slots
    requires e.slots == d.slots[s := e.slots[s]] && e.slots[s].busy
    requires e.windows == d.windows[w := e.windows[w]] && e.windows[w].surface == s && !e.windows[w].released
    requires !e.windows[w].disposed
    ensures Leased(e)
  {
    assert Holds(e, w, s);
    forall other | other in e.slots && other != s
      ensures e.slots[other].busy <==> Held(e, other)
    {
      if v :| Holds(d, v, other) {
        assert Holds(e, v, other);
      }
      if v :| Holds(e, v, other) {
        assert Holds(d, v, other);
      }
    }
    hide Holds;
  }

  lemma TurnKeepsLeased(d: World, t: Turn)
    requires Leased(d) && Apart(d.windows)
    ensures Leased(Next(d, t))
  {
    hide Leased, Apart, Deliver;
    var e := Next(d, t);
    SurfacesExist(d);
    match t
    case Mount(w, _, _, slot) => if MayLease(d, t) { MountLeases(d, e, w, slot); }
    case Opens(w, _) => if w in d.windows && !d.windows[w].disposed { SameHolds(d, e, w); }
    case Sends(w, verb) =>
      if w in d.windows && !d.windows[w].disposed && !verb.Open? && !verb.Close? { SameHolds(d, e, w); }
    case Disposes(w) =>
      if w in d.windows && !d.windows[w].disposed {
        if d.windows[w].generation > 0 {
          SameHolds(d, e, w);
        } else {
          FreesSlot(d, e, w);
        }
      }
    case Transmits(w) =>
      if w in d.windows && !d.windows[w].inFlight && d.windows[w].outbox != [] { SameHolds(d, e, w); }
    case Settles(w) =>
      if w in d.windows && d.windows[w].inFlight {
        var v := d.windows[w];
        if v.disposed && v.outbox == [] && !v.released {
          FreesSlot(d, e, w);
        } else {
          SameHolds(d, e, w);
        }
      }
    case Delivers(refused) =>
      if d.delivered < |d.sent| {
        DeliveryLeases(d, refused);
      }
  }

  lemma SurfacesExist(d: World)
    requires Leased(d)
    ensures forall w :: w in d.windows ==>
              && d.windows[w].surface in d.slots
              && (d.windows[w].released ==> d.windows[w].disposed)
  {
  }

  lemma DeliveryLeases(d: World, refused: bool)
    requires Leased(d) && d.delivered < |d.sent|
    ensures Leased(Deliver(d, refused))
  {
    var e := Deliver(d, refused);
    assert e.slots == d.slots && e.windows == d.windows;
    assert forall v, s :: Holds(e, v, s) == Holds(d, v, s);
    assert forall s :: Held(e, s) == Held(d, s) by {
      forall s ensures Held(e, s) == Held(d, s) {
        if v :| Holds(d, v, s) {
          assert Holds(e, v, s);
        }
        if v :| Holds(e, v, s) {
          assert Holds(d, v, s);
        }
      }
    }
    hide Holds, Held, Deliver;
  }

  /**
   * In every run, a slot is busy exactly while a window on it has not let go; and a window that was disposed and has
   * nothing more to send or to hear of has let go.
   */
  lemma {:induction false} BusyExactly(turns: seq<Turn>)
    ensures Leased(RunWorld(turns))
  {
    if turns == [] {
    } else {
      var before := turns[..|turns| - 1];
      BusyExactly(before);
      EveryWorldIsSound(before);
      hide Leased, Next;
      TurnKeepsLeased(RunWorld(before), turns[|turns| - 1]);
    }
  }

  predicate OfKind(d: World, s: nat, workspace: string, kind: Kind) {
    s in d.slots && d.slots[s].workspace == workspace && d.slots[s].kind == kind
  }

  /**
   * In every run, a window takes a slot exactly when that is one of its workspace and kind that no window holds, or a
   * new one while every such slot is held. It starts with nothing numbered and nothing queued, and the slot goes on
   * counting where it was.
   */
  lemma MountsExactly(turns: seq<Turn>, w: nat, workspace: string, kind: Kind, s: nat)
    ensures var d := RunWorld(turns); var e := Next(d, Mount(w, workspace, kind, s));
      var may := w !in d.windows
                 && if s in d.slots then OfKind(d, s, workspace, kind) && !Held(d, s)
                    else forall other :: OfKind(d, other, workspace, kind) ==> Held(d, other);
      if !may then e == d
      else
        && e.windows == d.windows[w := Window(s, workspace, kind, 0, 0, false, [], false, false)]
        && e.slots == d.slots[s := Lease(workspace, kind, if s in d.slots then d.slots[s].generation else 0, true)]
        && e.sent == d.sent && e.delivered == d.delivered && e.entries == d.entries && e.refusals == d.refusals
  {
    BusyExactly(turns);
    hide Held, RunWorld;
  }

  // --- How operations are numbered ----------------------------------------------------------------------------------

  // The window `w` queued one more operation, and only its numbers changed with it.
  predicate QueuesOne(d: World, e: World, w: nat, generation: nat, sequence: nat, verb: Verb)
    requires w in d.windows && w in e.windows
  {
    var v, u := d.windows[w], e.windows[w];
    && u.outbox == v.outbox + [Operation(Key(v.workspace, v.surface), generation, sequence, v.kind, verb)]
    && u.generation == generation && u.sequence == sequence
    && u.surface == v.surface && u.workspace == v.workspace && u.kind == v.kind
    && u.inFlight == v.inFlight && u.released == v.released && u.disposed == (v.disposed || verb.Close?)
    && e.windows == d.windows[w := u] && e.sent == d.sent && e.delivered == d.delivered && e.entries == d.entries
  }

  // A window that can still queue.
  predicate Usable(d: World, w: nat) {
    w in d.windows && !d.windows[w].disposed && d.windows[w].surface in d.slots
  }

  lemma OpensNumbered(d: World, w: nat, port: Option<nat>)
    requires Usable(d, w)
    ensures var v, e := d.windows[w], Next(d, Opens(w, port)); var generation := d.slots[v.surface].generation + 1;
      && w in e.windows && QueuesOne(d, e, w, generation, 1, Open(port))
      && e.slots == d.slots[v.surface := d.slots[v.surface].(generation := generation)]
  {
  }

  lemma SendsNumbered(d: World, w: nat, verb: Verb)
    requires Usable(d, w) && !verb.Open? && !verb.Close?
    ensures var v, e := d.windows[w], Next(d, Sends(w, verb));
      w in e.windows && QueuesOne(d, e, w, v.generation, v.sequence + 1, verb) && e.slots == d.slots
  {
  }

  lemma DisposesNumbered(d: World, w: nat)
    requires Usable(d, w)
    ensures var v, e := d.windows[w], Next(d, Disposes(w));
      && w in e.windows
      && if v.generation > 0 then QueuesOne(d, e, w, v.generation, v.sequence + 1, Close) && e.slots == d.slots
         else
           && e.windows == d.windows[w := v.(disposed := true, released := true)]
           && e.slots == d.slots[v.surface := d.slots[v.surface].(busy := false)]
  {
  }

  /**
   * In every run, an open starts the next generation of its slot at one, every other operation is one later in its
   * window's generation, a close is queued for a window that ever opened and is its last, and one that never opened
   * just lets go.
   */
  lemma NumbersExactly(turns: seq<Turn>, w: nat, port: Option<nat>, verb: Verb)
    requires w in RunWorld(turns).windows && !RunWorld(turns).windows[w].disposed && !verb.Open? && !verb.Close?
    ensures var d := RunWorld(turns); var v := d.windows[w];
      && v.surface in d.slots
      && (var e := Next(d, Opens(w, port)); var generation := d.slots[v.surface].generation + 1;
          && w in e.windows && QueuesOne(d, e, w, generation, 1, Open(port))
          && e.slots == d.slots[v.surface := d.slots[v.surface].(generation := generation)])
      && (var e := Next(d, Sends(w, verb));
          w in e.windows && QueuesOne(d, e, w, v.generation, v.sequence + 1, verb) && e.slots == d.slots)
      && (var e := Next(d, Disposes(w));
          && w in e.windows
          && if v.generation > 0 then QueuesOne(d, e, w, v.generation, v.sequence + 1, Close) && e.slots == d.slots
             else
               && e.windows == d.windows[w := v.(disposed := true, released := true)]
               && e.slots == d.slots[v.surface := d.slots[v.surface].(busy := false)])
  {
    hide RunWorld, Leased, Next, QueuesOne;
    var d := RunWorld(turns);
    BusyExactly(turns);
    SurfacesExist(d);
    OpensNumbered(d, w, port);
    SendsNumbered(d, w, verb);
    DisposesNumbered(d, w);
  }

  /** Operations leave in the order queued, one at a time, and nothing follows a disposal. */
  lemma SendsInOrder(d: World, w: nat, port: Option<nat>, verb: Verb)
    requires w in d.windows
    ensures var v, e := d.windows[w], Next(d, Transmits(w));
      if v.inFlight || v.outbox == [] then e == d
      else
        && e.sent == d.sent + [v.outbox[0]]
        && e.windows == d.windows[w := v.(outbox := v.outbox[1..], inFlight := true)] && e.slots == d.slots
    ensures d.windows[w].disposed ==>
              Next(d, Opens(w, port)) == Next(d, Sends(w, verb)) == Next(d, Disposes(w)) == d
  {
  }
}
