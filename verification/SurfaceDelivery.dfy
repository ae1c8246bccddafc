/**
 * Serialised sends mean that nothing overtakes the open of its generation: as long as the grant check refuses nothing,
 * the host accepts every operation a window sends (shell/ezil/native-runtime.js, native/src/surfaces.ts).
 */
module SurfaceDelivery {
  import opened Surfaces
  import opened SurfaceProtocol

  predicate SameRound(a: Operation, b: Operation) {
    Real(a) && a.key == b.key && a.generation == b.generation
  }

  // Some operation of `op`'s generation is in `ops` already.
  ghost predicate Begun(ops: seq<Operation>, op: Operation) {
    exists i :: 0 <= i < |ops| && SameRound(ops[i], op)
  }

  ghost predicate OpensFirst(ops: seq<Operation>) {
    forall i :: 0 <= i < |ops| && Real(ops[i]) && !ops[i].verb.Open? ==> Begun(ops[..i], ops[i])
  }

  // An operation the window could queue next.
  function NextOp(w: Window, verb: Verb): Operation {
    Operation(Key(w.workspace, w.surface), w.generation, w.sequence + 1, w.kind, verb)
  }

  ghost predicate WindowBegun(sent: seq<Operation>, w: Window) {
    && OpensFirst(sent + w.outbox)
    && (w.generation > 0 ==> Begun(sent + w.outbox, NextOp(w, Status)))
  }

  // Whatever has arrived, its surface's entry is at least at its generation.
  ghost predicate Answered(arrived: seq<Operation>, entries: map<Key, Entry>) {
    forall i :: 0 <= i < |arrived| && Real(arrived[i]) ==>
      arrived[i].key in entries && arrived[i].generation <= entries[arrived[i].key].generation
  }

  ghost predicate Serial(d: World) {
    && OpensFirst(d.sent)
    && (forall w :: w in d.windows ==> WindowBegun(d.sent, d.windows[w]))
    && d.delivered <= |d.sent| && Answered(d.sent[..d.delivered], d.entries)
    && d.refusals == []
  }

  lemma OpensFirstGrows(ops: seq<Operation>, op: Operation)
    requires OpensFirst(ops) && (Real(op) && !op.verb.Open? ==> Begun(ops, op))
    ensures OpensFirst(ops + [op])
  {
    var after := ops + [op];
    forall i | 0 <= i < |after| && Real(after[i]) && !after[i].verb.Open? ensures Begun(after[..i], after[i]) {
      assert after[..i] == if i < |ops| then ops[..i] else ops;
    }
  }

  lemma QueuedStaysBegun(sent: seq<Operation>, was: Window, v: Window, verb: Verb, disposed: bool)
    requires WindowBegun(sent, was) && v.outbox == was.outbox && (verb.Open? || v == was)
    ensures WindowBegun(sent, Queue(v, verb).(disposed := disposed))
  {
    var before, op := sent + was.outbox, NextOp(v, verb);
    var next := Queue(v, verb).(disposed := disposed);
    assert sent + next.outbox == before + [op];
    if Real(op) && !verb.Open? {
      var i :| 0 <= i < |before| && SameRound(before[i], NextOp(was, Status));
      assert SameRound(before[i], op);
    }
    OpensFirstGrows(before, op);
    hide OpensFirst;
    if next.generation > 0 {
      if verb.Open? {
        assert Real(op) ==> SameRound((before + [op])[|before|], NextOp(next, Status));
      } else {
        var i :| 0 <= i < |before| && SameRound(before[i], NextOp(was, Status));
        assert (before + [op])[i] == before[i] && SameRound(before[i], NextOp(next, Status));
      }
    }
  }

  lemma QueueStaysSerial(d: World, w: nat, v: Window, verb: Verb, slots: map<nat, Lease>, disposed: bool)
    requires Serial(d) && w in d.windows && v.outbox == d.windows[w].outbox
    requires verb.Open? || (v == d.windows[w])
    ensures Serial(d.(slots := slots, windows := d.windows[w := Queue(v, verb).(disposed := disposed)]))
  {
    QueuedStaysBegun(d.sent, d.windows[w], v, verb, disposed);
    hide WindowBegun, OpensFirst, Answered, Queue;
  }

  // Another window's operation is transmitted first.
  lemma InsertStaysBegun(sent: seq<Operation>, op: Operation, w: Window)
    requires WindowBegun(sent, w) && OpensFirst(sent + [op])
    ensures WindowBegun(sent + [op], w)
  {
    var before, after := sent + w.outbox, sent + [op] + w.outbox;
    forall i | 0 <= i < |after| && Real(after[i]) && !after[i].verb.Open? ensures Begun(after[..i], after[i]) {
      if i <= |sent| {
        assert after[..i] == (sent + [op])[..i] && after[i] == (sent + [op])[i];
      } else {
        assert after[i] == before[i - 1];
        var k :| 0 <= k < |before[..i - 1]| && SameRound(before[..i - 1][k], before[i - 1]);
        assert after[..i][if k < |sent| then k else k + 1] == before[k];
      }
    }
    if w.generation > 0 {
      var k :| 0 <= k < |before| && SameRound(before[k], NextOp(w, Status));
      assert after[if k < |sent| then k else k + 1] == before[k];
    }
  }

  lemma PrefixOpensFirst(ops: seq<Operation>, n: nat)
    requires OpensFirst(ops) && n <= |ops|
    ensures OpensFirst(ops[..n])
  {
    forall i | 0 <= i < n && Real(ops[i]) && !ops[i].verb.Open? ensures Begun(ops[..n][..i], ops[i]) {
      assert ops[..n][..i] == ops[..i];
    }
  }

  // The window that transmits has the same operations sent and queued as before.
  lemma TransmittedStaysBegun(sent: seq<Operation>, v: Window)
    requires WindowBegun(sent, v) && v.outbox != []
    ensures OpensFirst(sent + [v.outbox[0]])
    ensures WindowBegun(sent + [v.outbox[0]], v.(outbox := v.outbox[1..], inFlight := true))
  {
    var op, next := v.outbox[0], v.(outbox := v.outbox[1..], inFlight := true);
    var all := sent + v.outbox;
    assert all == sent + [op] + next.outbox;
    PrefixOpensFirst(all, |sent| + 1);
    assert all[..|sent| + 1] == sent + [op];
    hide OpensFirst;
    if v.generation > 0 {
      var k :| 0 <= k < |all| && SameRound(all[k], NextOp(v, Status));
      assert SameRound(all[k], NextOp(next, Status));
    }
  }

  lemma TransmitsStaysSerial(d: World, t: Turn)
    requires Serial(d) && t.Transmits? && t.window in d.windows && d.windows[t.window].outbox != []
    ensures Serial(Next(d, t))
  {
    var v := d.windows[t.window];
    if !v.inFlight {
      var op := v.outbox[0];
      TransmittedStaysBegun(d.sent, v);
      hide WindowBegun, OpensFirst;
      forall u | u in d.windows && u != t.window ensures WindowBegun(d.sent + [op], d.windows[u]) {
        InsertStaysBegun(d.sent, op, d.windows[u]);
      }
      assert (d.sent + [op])[..d.delivered] == d.sent[..d.delivered];
    }
  }

  lemma DeliversStaysSerial(d: World)
    requires Sound(d) && Serial(d) && d.delivered < |d.sent|
    ensures Serial(Deliver(d, false))
  {
    hide PairsSound, WindowsSound, AllSent, WindowBegun;
    var op, arrived := d.sent[d.delivered], d.sent[..d.delivered];
    var e := Deliver(d, false);
    assert d.sent[..d.delivered + 1] == arrived + [op];
    if Real(op) {
      NextIsNeverStale(d);
      if !op.verb.Open? {
        assert Begun(arrived, op);
        var k :| 0 <= k < |arrived| && SameRound(arrived[k], op);
        assert op.key in d.entries && op.generation <= d.entries[op.key].generation;
      }
    }
  }

  lemma MountStaysSerial(d: World, t: Turn)
    requires Serial(d) && t.Mount?
    ensures Serial(Next(d, t))
  {
    if MayLease(d, t) { assert d.sent + Next(d, t).windows[t.window].outbox == d.sent; }
  }

  lemma OpensStaysSerial(d: World, t: Turn)
    requires Serial(d) && t.Opens?
    ensures Serial(Next(d, t))
  {
    var w := t.window;
    if w in d.windows && !d.windows[w].disposed && d.windows[w].surface in d.slots {
      var v := d.windows[w];
      var next := v.(generation := d.slots[v.surface].generation + 1, sequence := 0);
      hide Serial;
      QueueStaysSerial(d, w, next, Open(t.port), Next(d, t).slots, false);
      assert Queue(next, Open(t.port)) == Queue(next, Open(t.port)).(disposed := false);
    }
  }

  lemma NextStaysSerial(d: World, t: Turn)
    requires Sound(d) && Serial(d) && t != Delivers(true)
    ensures Serial(Next(d, t))
  {
    match t
    case Mount(_, _, _, _) => MountStaysSerial(d, t);
    case Opens(_, _) => OpensStaysSerial(d, t);
    case Sends(w, verb) =>
      if w in d.windows && !d.windows[w].disposed && !verb.Open? && !verb.Close? {
        QueueStaysSerial(d, w, d.windows[w], verb, d.slots, false);
        assert Queue(d.windows[w], verb) == Queue(d.windows[w], verb).(disposed := false);
      }
    case Disposes(w) =>
      if w in d.windows && !d.windows[w].disposed && d.windows[w].generation > 0 {
        QueueStaysSerial(d, w, d.windows[w], Close, d.slots, true);
      }
    case Transmits(w) => if w in d.windows && d.windows[w].outbox != [] { TransmitsStaysSerial(d, t); }
    case Settles(_) =>
    case Delivers(_) => if d.delivered < |d.sent| { DeliversStaysSerial(d); }
  }

  lemma {:induction false} EveryRunIsSerial(turns: seq<Turn>)
    requires Delivers(true) !in turns
    ensures Serial(RunWorld(turns))
  {
    if turns == [] {
    } else {
      var before := turns[..|turns| - 1];
      EveryRunIsSerial(before);
      EveryWorldIsSound(before);
      NextStaysSerial(RunWorld(before), turns[|turns| - 1]);
    }
  }

  /**
   * With no grant refusals, the lifecycle turns away nothing a window sends after its first open: a status, a layout
   * or a close never overtakes the open of its generation, whichever windows share or reuse the surface.
   */
  lemma NothingOvertakesItsOpen(turns: seq<Turn>)
    requires Delivers(true) !in turns
    ensures RunWorld(turns).refusals == []
  {
    EveryRunIsSerial(turns);
  }

  // --- The host in a run is the lifecycle table ---------------------------------------------------------------------

  // The operations that reach the table in a run, refused or not.
  function Heard(turns: seq<Turn>): seq<Operation> {
    if turns == [] then []
    else
      var before, t := turns[..|turns| - 1], turns[|turns| - 1];
      var d := RunWorld(before);
      if t == Delivers(false) && d.delivered < |d.sent| && Real(d.sent[d.delivered])
          then Heard(before) + [d.sent[d.delivered]]
      else Heard(before)
  }

  lemma OnlyDeliveriesReachTheTable(d: World, t: Turn, log: seq<Operation>)
    ensures Next(d, t).entries
         == if t == Delivers(false) && d.delivered < |d.sent| && Real(d.sent[d.delivered])
            then Offer(Host(d.entries, log), d.sent[d.delivered]).entries else d.entries
  {
    hide Queue, MayLease;
  }

  /** So what any stream of operations keeps, the host keeps in every run against any windows. */
  lemma {:induction false} HostRunsTheLifecycle(turns: seq<Turn>)
    ensures RunWorld(turns).entries == OfferAll(Heard(turns)).entries
    ensures HostSound(OfferAll(Heard(turns)))
  {
    AcceptedInOrder(Heard(turns));
    if turns == [] {
    } else {
      var before := turns[..|turns| - 1];
      HostRunsTheLifecycle(before);
      OnlyDeliveriesReachTheTable(RunWorld(before), turns[|turns| - 1], OfferAll(Heard(before)).log);
      var more := Heard(turns);
      if more != Heard(before) { assert more[..|more| - 1] == Heard(before); }
      hide HostSound, Judge, Next, Offer, Real;
    }
  }
}
