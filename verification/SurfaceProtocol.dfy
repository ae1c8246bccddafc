/**
 * The renderer's side of the surface protocol (shell/ezil/native-runtime.js) joined to the host by a FIFO channel:
 * windows lease surface slots, queue operations, and free their slot when their close has settled.
 */
module SurfaceProtocol {
  import opened Options
  import opened Surfaces

  datatype Lease = Lease(workspace: string, kind: Kind, generation: nat, busy: bool)

  // One mounted surface object. `outbox` is its promise queue; `released` once its slot is free again.
  datatype Window = Window(
    surface: nat, workspace: string, kind: Kind, generation: nat, sequence: nat,
    disposed: bool, outbox: seq<Operation>, inFlight: bool, released: bool)

  // `sent[..delivered]` has reached the host. `refusals` are the host's answers to operations that a window sent after
  // its first open and that the lifecycle turned away.
  datatype World = World(
    slots: map<nat, Lease>, windows: map<nat, Window>, sent: seq<Operation>, delivered: nat,
    entries: map<Key, Entry>, refusals: seq<Refusal>)

  datatype Turn =
    | Mount(window: nat, workspace: string, kind: Kind, slot: nat)
    | Opens(window: nat, port: Option<nat>)
    | Sends(window: nat, verb: Verb)
    | Disposes(window: nat)
    | Transmits(window: nat)
    | Settles(window: nat)
    | Delivers(refused: bool)

  function Queue(w: Window, verb: Verb): Window {
    w.(sequence := w.sequence + 1,
       outbox := w.outbox + [Operation(Key(w.workspace, w.surface), w.generation, w.sequence + 1, w.kind, verb)])
  }

  // A free slot of this workspace and kind if there is one, else a new id.
  predicate MayLease(d: World, t: Turn)
    requires t.Mount?
  {
    && t.window !in d.windows
    && if t.slot in d.slots then
         !d.slots[t.slot].busy && d.slots[t.slot].workspace == t.workspace && d.slots[t.slot].kind == t.kind
       else
         forall id :: id in d.slots && d.slots[id].workspace == t.workspace && d.slots[id].kind == t.kind
             ==> d.slots[id].busy
  }

  // The parser refuses a generation or a sequence below 1 before anything else.
  predicate Real(op: Operation) {
    op.generation >= 1 && op.sequence >= 1
  }

  function Deliver(d: World, refused: bool): World
    requires d.delivered < |d.sent|
  {
    var op := d.sent[d.delivered];
    var d := d.(delivered := d.delivered + 1);
    if refused || !Real(op) then d
    else
      match Judge(Look(d.entries, op.key), op)
      case Ok(entry) => d.(entries := d.entries[op.key := entry])
      case Err(why) => d.(refusals := d.refusals + [why])
  }

  // A turn that cannot happen changes nothing.
  function Next(d: World, t: Turn): World {
    match t
    case Mount(w, workspace, kind, slot) =>
      if !MayLease(d, t) then d
      else
        d.(slots := d.slots[slot :=
            Lease(workspace, kind, if slot in d.slots then d.slots[slot].generation else 0, true)],
           windows := d.windows[w := Window(slot, workspace, kind, 0, 0, false, [], false, false)])
    case Opens(w, port) =>
      if w !in d.windows || d.windows[w].disposed || d.windows[w].surface !in d.slots then d
      else
        var s := d.windows[w].surface;
        var generation := d.slots[s].generation + 1;
        d.(slots := d.slots[s := d.slots[s].(generation := generation)],
           windows := d.windows[w := Queue(d.windows[w].(generation := generation, sequence := 0), Open(port))])
    case Sends(w, verb) =>
      if w !in d.windows || d.windows[w].disposed || verb.Open? || verb.Close? then d
      else d.(windows := d.windows[w := Queue(d.windows[w], verb)])
    case Disposes(w) =>
      if w !in d.windows || d.windows[w].disposed || d.windows[w].surface !in d.slots then d
      else if d.windows[w].generation > 0 then
        d.(windows := d.windows[w := Queue(d.windows[w], Close).(disposed := true)])
      else
        var s := d.windows[w].surface;
        d.(windows := d.windows[w := d.windows[w].(disposed := true, released := true)],
           slots := d.slots[s := d.slots[s].(busy := false)])
    case Transmits(w) =>
      if w !in d.windows || d.windows[w].inFlight || d.windows[w].outbox == [] then d
      else
        d.(sent := d.sent + [d.windows[w].outbox[0]],
           windows := d.windows[w := d.windows[w].(outbox := d.windows[w].outbox[1..], inFlight := true)])
    case Settles(w) =>
      // A reply or a timeout; that of the close frees the slot.
      if w !in d.windows || !d.windows[w].inFlight || d.windows[w].surface !in d.slots then d
      else
        var v := d.windows[w].(inFlight := false);
        if v.disposed && v.outbox == [] && !v.released then
          d.(windows := d.windows[w := v.(released := true)],
             slots := d.slots[v.surface := d.slots[v.surface].(busy := false)])
        else
          d.(windows := d.windows[w := v])
    case Delivers(refused) => if d.delivered < |d.sent| then Deliver(d, refused) else d
  }

  function RunWorld(turns: seq<Turn>): World {
    if turns == [] then World(map[], map[], [], 0, map[], [])
        else Next(RunWorld(turns[..|turns| - 1]), turns[|turns| - 1])
  }

  // --- The invariant ------------------------------------------------------------------------------------------------

  // `op` is at or before the last operation `w` has numbered; a close of its generation is its last.
  predicate Reached(op: Operation, w: Window) {
    op.generation < w.generation
        || (op.generation == w.generation && op.sequence <= w.sequence && (op.verb.Close? ==> w.disposed))
  }

  ghost predicate WindowSound(slots: map<nat, Lease>, w: Window) {
    && w.surface in slots
    && slots[w.surface].workspace == w.workspace && slots[w.surface].kind == w.kind
    && w.generation <= slots[w.surface].generation
    && (!w.disposed ==> !w.released)
    && (!w.released ==> slots[w.surface].busy)
    && (!w.released && w.generation > 0 ==> w.generation == slots[w.surface].generation)
    && (forall i :: 0 <= i < |w.outbox| ==> QueuedSound(w, w.outbox[i]))
    && (forall i, j :: 0 <= i < j < |w.outbox| && Real(w.outbox[i]) && Real(w.outbox[j])
          ==> InOrder(w.outbox[i], w.outbox[j]))
  }

  ghost predicate QueuedSound(w: Window, op: Operation) {
    && op.key == Key(w.workspace, w.surface) && op.kind == w.kind && 0 <= op.generation <= w.generation
    && op.sequence >= 1
    && (Real(op) ==> Reached(op, w) && !w.released)
  }

  ghost predicate SentSound(slots: map<nat, Lease>, op: Operation) {
    Real(op) ==>
      && op.key.surface in slots
      && slots[op.key.surface].workspace == op.key.workspace && slots[op.key.surface].kind == op.kind
      && op.generation <= slots[op.key.surface].generation
  }

  // What a sent operation and a window have to do with each other.
  ghost predicate PairSound(op: Operation, w: Window) {
    Real(op) ==>
      && (op.key.surface == w.surface && !w.released && w.generation > 0 ==> Reached(op, w))
      && (forall j :: 0 <= j < |w.outbox| && Real(w.outbox[j]) ==> InOrder(op, w.outbox[j]))
  }

  ghost predicate EntrySent(arrived: seq<Operation>, key: Key, e: Entry) {
    exists i :: 0 <= i < |arrived| && Real(arrived[i])
      && var op := arrived[i];
         op.key == key && op.generation == e.generation && op.sequence == e.sequence && op.kind == e.kind
             && op.verb.Close? == e.closed
  }

  ghost predicate WindowsSound(slots: map<nat, Lease>, windows: map<nat, Window>) {
    forall w :: w in windows ==> WindowSound(slots, windows[w])
  }

  ghost predicate Apart(windows: map<nat, Window>) {
    forall v, w :: v in windows && w in windows && v != w && !windows[v].released && !windows[w].released ==>
      windows[v].surface != windows[w].surface
  }

  ghost predicate AllSent(slots: map<nat, Lease>, sent: seq<Operation>) {
    && (forall i :: 0 <= i < |sent| ==> SentSound(slots, sent[i]))
    && (forall i, j :: 0 <= i < j < |sent| && Real(sent[i]) && Real(sent[j]) ==> InOrder(sent[i], sent[j]))
  }

  ghost predicate PairsSound(sent: seq<Operation>, windows: map<nat, Window>) {
    forall i, w :: 0 <= i < |sent| && w in windows ==> PairSound(sent[i], windows[w])
  }

  ghost predicate EntriesSound(arrived: seq<Operation>, entries: map<Key, Entry>) {
    forall key :: key in entries ==> EntrySent(arrived, key, entries[key])
  }

  ghost predicate Sound(d: World) {
    && WindowsSound(d.slots, d.windows) && Apart(d.windows)
    && AllSent(d.slots, d.sent) && PairsSound(d.sent, d.windows)
    && d.delivered <= |d.sent| && EntriesSound(d.sent[..d.delivered], d.entries)
    && StaleSurface !in d.refusals
  }

  // A window queues one more operation under its own generation, after what `d` already holds of its surface.
  lemma QueueKeepsSound(d: World, w: nat, v: Window, verb: Verb)
    requires Sound(d) && w in d.windows && !d.windows[w].disposed && !verb.Close?
    requires v == d.windows[w] && (v.generation > 0 ==> !verb.Open?)
    ensures Sound(d.(windows := d.windows[w := Queue(v, verb)]))
  {
    assert WindowSound(d.slots, v);
    QueuedWindowIsSound(d.slots, v, verb);
    forall i | 0 <= i < |d.sent| ensures PairSound(d.sent[i], Queue(v, verb)) {
      assert PairSound(d.sent[i], v);
      assert SentSound(d.slots, d.sent[i]);
    }
    hide WindowSound, AllSent, EntriesSound, PairSound;
  }

  lemma QueuedWindowIsSound(slots: map<nat, Lease>, v: Window, verb: Verb)
    requires WindowSound(slots, v) && !v.disposed && !verb.Close? && (v.generation > 0 ==> !verb.Open?)
    ensures WindowSound(slots, Queue(v, verb))
  {
  }

  // What a mount makes of the slots and the windows.
  function Mounted(slots: map<nat, Lease>, t: Turn): map<nat, Lease>
    requires t.Mount?
  {
    slots[t.slot := Lease(t.workspace, t.kind, if t.slot in slots then slots[t.slot].generation else 0, true)]
  }

  function Fresh(t: Turn): Window
    requires t.Mount?
  {
    Window(t.slot, t.workspace, t.kind, 0, 0, false, [], false, false)
  }

  lemma MountKeepsWindows(d: World, t: Turn)
    requires WindowsSound(d.slots, d.windows) && Apart(d.windows) && t.Mount? && MayLease(d, t)
    ensures WindowsSound(Mounted(d.slots, t), d.windows[t.window := Fresh(t)]) && Apart(d.windows[t.window := Fresh(t)])
  {
    var slots, windows := Mounted(d.slots, t), d.windows[t.window := Fresh(t)];
    hide QueuedSound, InOrder;
    forall u | u in windows ensures WindowSound(slots, windows[u]) {
      if u != t.window { assert WindowSound(d.slots, d.windows[u]); }
    }
    forall v | v in d.windows && !d.windows[v].released ensures d.windows[v].surface != t.slot {
      assert WindowSound(d.slots, d.windows[v]);
    }
  }

  lemma MountKeepsSent(d: World, t: Turn)
    requires AllSent(d.slots, d.sent) && PairsSound(d.sent, d.windows) && t.Mount? && MayLease(d, t)
    ensures AllSent(Mounted(d.slots, t), d.sent) && PairsSound(d.sent, d.windows[t.window := Fresh(t)])
  {
    var slots, windows := Mounted(d.slots, t), d.windows[t.window := Fresh(t)];
    hide InOrder, Reached;
    forall i | 0 <= i < |d.sent| ensures SentSound(slots, d.sent[i]) {
      assert SentSound(d.slots, d.sent[i]);
    }
    forall i, u | 0 <= i < |d.sent| && u in windows ensures PairSound(d.sent[i], windows[u]) {
      if u != t.window { assert PairSound(d.sent[i], d.windows[u]); }
    }
  }

  lemma MountKeepsSound(d: World, t: Turn)
    requires Sound(d) && t.Mount? && MayLease(d, t)
    ensures Sound(Next(d, t))
  {
    MountKeepsWindows(d, t);
    MountKeepsSent(d, t);
    hide WindowsSound, Apart, AllSent, PairsSound, EntriesSound, MayLease;
  }

  // What an open makes of the slots and of its window: a new generation of both.
  function Begun(slots: map<nat, Lease>, v: Window): map<nat, Lease>
    requires v.surface in slots
  {
    slots[v.surface := slots[v.surface].(generation := slots[v.surface].generation + 1)]
  }

  function Reopened(slots: map<nat, Lease>, v: Window, port: Option<nat>): Window
    requires v.surface in slots
  {
    Queue(v.(generation := slots[v.surface].generation + 1, sequence := 0), Open(port))
  }

  lemma OpenKeepsWindows(slots: map<nat, Lease>, windows: map<nat, Window>, w: nat, port: Option<nat>)
    requires w in windows && !windows[w].disposed && WindowsSound(slots, windows) && Apart(windows)
    ensures windows[w].surface in slots
    ensures var after := windows[w := Reopened(slots, windows[w], port)];
      WindowsSound(Begun(slots, windows[w]), after) && Apart(after)
  {
    var v := windows[w];
    assert WindowSound(slots, v);
    var begun, after := Begun(slots, v), windows[w := Reopened(slots, v, port)];
    hide InOrder;
    forall u | u in after && u != w ensures WindowSound(begun, after[u]) {
      assert WindowSound(slots, windows[u]);
    }
    ReopenedIsSound(slots, v, port);
  }

  lemma ReopenedIsSound(slots: map<nat, Lease>, v: Window, port: Option<nat>)
    requires WindowSound(slots, v) && !v.disposed
    ensures WindowSound(Begun(slots, v), Reopened(slots, v, port))
  {
    var next := Reopened(slots, v, port);
    forall i | 0 <= i < |next.outbox| ensures QueuedSound(next, next.outbox[i]) {
      if i < |v.outbox| { assert QueuedSound(v, v.outbox[i]); }
    }
    forall i | 0 <= i < |v.outbox| && Real(v.outbox[i]) ensures InOrder(v.outbox[i], next.outbox[|v.outbox|]) {
      assert QueuedSound(v, v.outbox[i]);
    }
  }

  lemma OpenKeepsSent(slots: map<nat, Lease>, windows: map<nat, Window>, sent: seq<Operation>, w: nat,
                      port: Option<nat>)
    requires w in windows && WindowSound(slots, windows[w]) && !windows[w].disposed
    requires AllSent(slots, sent) && PairsSound(sent, windows)
    ensures AllSent(Begun(slots, windows[w]), sent)
    ensures PairsSound(sent, windows[w := Reopened(slots, windows[w], port)])
  {
    var v := windows[w];
    forall i | 0 <= i < |sent|
      ensures SentSound(Begun(slots, v), sent[i]) && PairSound(sent[i], Reopened(slots, v, port))
    {
      assert SentSound(slots, sent[i]);
      assert PairSound(sent[i], v);
    }
  }

  // The new generation is above every generation the surface has seen.
  lemma OpensKeepsSound(d: World, t: Turn)
    requires Sound(d) && t.Opens? && t.window in d.windows && !d.windows[t.window].disposed
    ensures Sound(Next(d, t))
  {
    assert WindowSound(d.slots, d.windows[t.window]);
    hide WindowsSound, Apart, AllSent, PairsSound, EntriesSound, Next;
    OpenKeepsWindows(d.slots, d.windows, t.window, t.port);
    OpenKeepsSent(d.slots, d.windows, d.sent, t.window, t.port);
    OpensIs(d, t);
    hide WindowSound, Begun, Reopened;
  }

  lemma OpensIs(d: World, t: Turn)
    requires t.Opens? && t.window in d.windows && !d.windows[t.window].disposed
        && d.windows[t.window].surface in d.slots
    ensures var v := d.windows[t.window];
      Next(d, t) == d.(slots := Begun(d.slots, v), windows := d.windows[t.window := Reopened(d.slots, v, t.port)])
  {
    hide Queue;
  }

  // A window with nothing real left to send frees its slot: every other window on the surface has been released.
  lemma FreeKeepsSound(slots: map<nat, Lease>, windows: map<nat, Window>, sent: seq<Operation>, w: nat, inFlight: bool)
    requires w in windows && WindowsSound(slots, windows) && Apart(windows) && PairsSound(sent, windows)
        && AllSent(slots, sent)
    requires !windows[w].released && windows[w].surface in slots
    requires forall i :: 0 <= i < |windows[w].outbox| ==> !Real(windows[w].outbox[i])
    ensures var s := windows[w].surface;
      var after := windows[w := windows[w].(inFlight := inFlight, disposed := true, released := true)];
      var freed := slots[s := slots[s].(busy := false)];
      WindowsSound(freed, after) && Apart(after) && PairsSound(sent, after) && AllSent(freed, sent)
  {
    hide InOrder, Reached;
    var s := windows[w].surface;
    var freed := slots[s := slots[s].(busy := false)];
    var after := windows[w := windows[w].(inFlight := inFlight, disposed := true, released := true)];
    forall u | u in after ensures WindowSound(freed, after[u]) {
      assert WindowSound(slots, windows[u]);
      if u == w {
        forall i | 0 <= i < |after[w].outbox| ensures QueuedSound(after[w], after[w].outbox[i]) {
          assert QueuedSound(windows[w], windows[w].outbox[i]);
        }
      }
    }
    forall i | 0 <= i < |sent| ensures SentSound(freed, sent[i]) { assert SentSound(slots, sent[i]); }
    forall i, u | 0 <= i < |sent| && u in after
      ensures PairSound(sent[i], after[u])
    {
      assert PairSound(sent[i], windows[u]);
    }
  }

  // The close is the last operation of its generation.
  lemma CloseKeepsSound(slots: map<nat, Lease>, windows: map<nat, Window>, sent: seq<Operation>, w: nat)
    requires w in windows && WindowsSound(slots, windows) && Apart(windows) && PairsSound(sent, windows)
        && AllSent(slots, sent)
    requires !windows[w].disposed
    ensures var after := windows[w := Queue(windows[w], Close).(disposed := true)];
      WindowsSound(slots, after) && Apart(after) && PairsSound(sent, after)
  {
    var after := windows[w := Queue(windows[w], Close).(disposed := true)];
    assert WindowSound(slots, windows[w]);
    forall i | 0 <= i < |sent| ensures PairSound(sent[i], after[w]) {
      assert SentSound(slots, sent[i]);
      assert PairSound(sent[i], windows[w]);
    }
  }

  lemma DisposesKeepsSound(d: World, t: Turn)
    requires Sound(d) && t.Disposes? && t.window in d.windows && !d.windows[t.window].disposed
    ensures Sound(Next(d, t))
  {
    var w := t.window;
    assert WindowSound(d.slots, d.windows[w]);
    if d.windows[w].generation > 0 {
      CloseKeepsSound(d.slots, d.windows, d.sent, w);
    } else {
      forall i | 0 <= i < |d.windows[w].outbox| ensures !Real(d.windows[w].outbox[i]) {
        assert QueuedSound(d.windows[w], d.windows[w].outbox[i]);
      }
      FreeKeepsSound(d.slots, d.windows, d.sent, w, d.windows[w].inFlight);
      assert Next(d, t).windows[w]
          == d.windows[w].(inFlight := d.windows[w].inFlight, disposed := true, released := true);
    }
    hide WindowsSound, WindowSound, Apart, AllSent, PairsSound, EntriesSound;
  }

  lemma TransmitKeepsPairs(slots: map<nat, Lease>, windows: map<nat, Window>, sent: seq<Operation>, w: nat, v: Window)
    requires WindowsSound(slots, windows) && Apart(windows) && AllSent(slots, sent) && PairsSound(sent, windows)
    requires w in windows && windows[w].outbox != []
    requires v == windows[w].(outbox := windows[w].outbox[1..], inFlight := true)
    ensures PairsSound(sent + [windows[w].outbox[0]], windows[w := v])
  {
    var op := windows[w].outbox[0];
    assert WindowSound(slots, windows[w]) && QueuedSound(windows[w], op);
    forall i | 0 <= i < |sent| ensures PairSound(sent[i], v) {
      assert PairSound(sent[i], windows[w]);
    }
    forall u | u in windows && u != w ensures PairSound(op, windows[u]) {
      assert WindowSound(slots, windows[u]);
      forall j | 0 <= j < |windows[u].outbox| && Real(windows[u].outbox[j]) && Real(op)
        ensures InOrder(op, windows[u].outbox[j])
      {
        assert QueuedSound(windows[u], windows[u].outbox[j]);
      }
    }
    assert PairSound(op, v);
  }

  lemma TransmitKeepsOrder(slots: map<nat, Lease>, sent: seq<Operation>, v: Window)
    requires AllSent(slots, sent) && WindowSound(slots, v) && v.outbox != []
    requires forall i :: 0 <= i < |sent| ==> PairSound(sent[i], v)
    ensures AllSent(slots, sent + [v.outbox[0]])
    ensures WindowSound(slots, v.(outbox := v.outbox[1..], inFlight := true))
  {
    assert QueuedSound(v, v.outbox[0]);
    var next := v.(outbox := v.outbox[1..], inFlight := true);
    forall i | 0 <= i < |next.outbox| ensures QueuedSound(next, next.outbox[i]) {
      assert QueuedSound(v, v.outbox[i + 1]);
    }
  }

  lemma TransmitsKeepsSound(d: World, t: Turn)
    requires Sound(d) && t.Transmits? && t.window in d.windows && d.windows[t.window].outbox != []
    ensures Sound(Next(d, t))
  {
    hide PairSound, WindowSound, AllSent, EntriesSound;
    if !d.windows[t.window].inFlight {
      var v := d.windows[t.window];
      TransmitKeepsOrder(d.slots, d.sent, v);
      TransmitKeepsPairs(d.slots, d.windows, d.sent, t.window, v.(outbox := v.outbox[1..], inFlight := true));
      assert (d.sent + [v.outbox[0]])[..d.delivered] == d.sent[..d.delivered];
    }
  }

  // Freeing a slot: every other window on the surface has been released already.
  lemma SettlesKeepsSound(d: World, t: Turn)
    requires Sound(d) && t.Settles? && t.window in d.windows
    ensures Sound(Next(d, t))
  {
    var w := t.window;
    if d.windows[w].inFlight && d.windows[w].surface in d.slots {
      var v := d.windows[w].(inFlight := false);
      if v.disposed && v.outbox == [] && !v.released {
        FreeKeepsSound(d.slots, d.windows, d.sent, w, false);
        assert v.(released := true) == d.windows[w].(inFlight := false, disposed := true, released := true);
      } else {
        AnswerKeepsSound(d.slots, d.windows, d.sent, w);
      }
      hide WindowsSound, Apart, AllSent, PairsSound, EntriesSound;
    }
  }

  lemma AnswerKeepsSound(slots: map<nat, Lease>, windows: map<nat, Window>, sent: seq<Operation>, w: nat)
    requires w in windows && WindowsSound(slots, windows) && Apart(windows) && PairsSound(sent, windows)
    ensures var after := windows[w := windows[w].(inFlight := false)];
      WindowsSound(slots, after) && Apart(after) && PairsSound(sent, after)
  {
    hide InOrder;
    var v := windows[w].(inFlight := false);
    assert WindowSound(slots, windows[w]);
    forall i | 0 <= i < |v.outbox|
      ensures QueuedSound(v, v.outbox[i])
    {
      assert QueuedSound(windows[w], windows[w].outbox[i]);
    }
    forall i | 0 <= i < |sent| ensures PairSound(sent[i], v) { assert PairSound(sent[i], windows[w]); }
  }

  // The entry came from an operation sent earlier, so the next one is never stale.
  lemma NextIsNeverStale(d: World)
    requires Sound(d) && d.delivered < |d.sent| && Real(d.sent[d.delivered])
    ensures Judge(Look(d.entries, d.sent[d.delivered].key), d.sent[d.delivered]) != Err(StaleSurface)
  {
    var op := d.sent[d.delivered];
    if op.key in d.entries { assert EntrySent(d.sent[..d.delivered], op.key, d.entries[op.key]); }
  }

  lemma EntriesStaySound(arrived: seq<Operation>, entries: map<Key, Entry>, op: Operation)
    requires EntriesSound(arrived, entries)
    ensures EntriesSound(arrived + [op], entries)
    ensures Real(op) ==> EntriesSound(arrived + [op], entries[op.key := Opened(Look(entries, op.key), op)])
  {
    var after := arrived + [op];
    forall key | key in entries ensures EntrySent(after, key, entries[key]) {
      var i :| 0 <= i < |arrived| && Real(arrived[i])
        && arrived[i].key == key && arrived[i].generation == entries[key].generation
        && arrived[i].sequence == entries[key].sequence
        && arrived[i].kind == entries[key].kind && arrived[i].verb.Close? == entries[key].closed;
      assert after[i] == arrived[i];
    }
    assert after[|arrived|] == op;
  }

  lemma DeliversKeepsSound(d: World, refused: bool)
    requires Sound(d) && d.delivered < |d.sent|
    ensures Sound(Deliver(d, refused))
  {
    var op := d.sent[d.delivered];
    assert d.sent[..d.delivered + 1] == d.sent[..d.delivered] + [op];
    EntriesStaySound(d.sent[..d.delivered], d.entries, op);
    if Real(op) { NextIsNeverStale(d); }
  }

  lemma NextKeepsSound(d: World, t: Turn)
    requires Sound(d)
    ensures Sound(Next(d, t))
  {
    hide Sound;
    match t
    case Mount(_, _, _, _) => if MayLease(d, t) { MountKeepsSound(d, t); }
    case Opens(w, _) => if w in d.windows && !d.windows[w].disposed { OpensKeepsSound(d, t); }
    case Sends(w, verb) =>
      if w in d.windows && !d.windows[w].disposed && !verb.Open? && !verb.Close? {
        QueueKeepsSound(d, w, d.windows[w], verb);
      }
    case Disposes(w) => if w in d.windows && !d.windows[w].disposed { DisposesKeepsSound(d, t); }
    case Transmits(w) => if w in d.windows && d.windows[w].outbox != [] { TransmitsKeepsSound(d, t); }
    case Settles(w) => if w in d.windows { SettlesKeepsSound(d, t); }
    case Delivers(refused) => if d.delivered < |d.sent| { DeliversKeepsSound(d, refused); }
  }

  lemma {:induction false} EveryWorldIsSound(turns: seq<Turn>)
    ensures Sound(RunWorld(turns))
  {
    if turns == [] {
    } else {
      EveryWorldIsSound(turns[..|turns| - 1]);
      NextKeepsSound(RunWorld(turns[..|turns| - 1]), turns[|turns| - 1]);
    }
  }

  /**
   * In every run of any number of windows against the host: no operation sent after a window's first open is refused
   * as stale, and no two windows that still hold their slot share a surface.
   */
  lemma {:induction false} LiveWindowsNeverCollide(turns: seq<Turn>)
    ensures var d := RunWorld(turns);
      && StaleSurface !in d.refusals
      && forall v, w ::
           v in d.windows && w in d.windows && v != w && !d.windows[v].released && !d.windows[w].released ==>
             d.windows[v].surface != d.windows[w].surface
  {
    EveryWorldIsSound(turns);
  }
}
