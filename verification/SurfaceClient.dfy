/**
 * The renderer's surface objects as the source keeps them: slots shared by every window, and one object per mounted
 * window (shell/ezil/native-runtime.js). Every method is a turn of the protocol's state machine.
 */
module SurfaceClient {
  import opened Options
  import opened Surfaces
  import opened SurfaceProtocol

  datatype SlotKey = SlotKey(workspace: string, kind: Kind)

  // A world of one window, for stating what a method does as a turn of the whole machine.
  ghost function Solo(slots: map<nat, Lease>, w: Window): World {
    World(slots, map[0 := w], [], 0, map[], [])
  }

  function KeyOf(slot: Lease): SlotKey {
    SlotKey(slot.workspace, slot.kind)
  }

  // The lists hold exactly the slots of their workspace and kind.
  ghost predicate Listed(slots: map<nat, Lease>, listed: map<SlotKey, seq<nat>>) {
    && (forall key, id :: key in listed && id in listed[key] ==> id in slots && KeyOf(slots[id]) == key)
    && (forall id :: id in slots ==> KeyOf(slots[id]) in listed && id in listed[KeyOf(slots[id])])
  }

  lemma ListNothing(slots: map<nat, Lease>, listed: map<SlotKey, seq<nat>>, key: SlotKey)
    requires Listed(slots, listed) && key !in listed
    ensures Listed(slots, listed[key := []])
  {
  }

  lemma LeaseAgain(slots: map<nat, Lease>, listed: map<SlotKey, seq<nat>>, id: nat)
    requires Listed(slots, listed) && id in slots
    ensures Listed(slots[id := slots[id].(busy := true)], listed)
  {
  }

  lemma LeaseNew(slots: map<nat, Lease>, listed: map<SlotKey, seq<nat>>, id: nat, slot: Lease)
    requires Listed(slots, listed) && id !in slots && KeyOf(slot) in listed
    ensures Listed(slots[id := slot], listed[KeyOf(slot) := listed[KeyOf(slot)] + [id]])
  {
  }

  lemma NoneIsFree(slots: map<nat, Lease>, listed: map<SlotKey, seq<nat>>, key: SlotKey)
    requires Listed(slots, listed) && key in listed && forall k :: 0 <= k < |listed[key]| ==> slots[listed[key][k]].busy
    ensures forall id :: id in slots && slots[id].workspace == key.workspace && slots[id].kind == key.kind
             ==> slots[id].busy
  {
  }

  class SurfaceSlots {
    var slots: map<nat, Lease>
    var listed: map<SlotKey, seq<nat>>

    ghost predicate Valid()
      reads this
    {
      Listed(slots, listed)
    }

    constructor ()
      ensures Valid() && slots == map[]
    {
      slots, listed := map[], map[];
    }

    // The first of these that is not busy.
    method FirstFree(ids: seq<nat>) returns (free: Option<nat>)
      requires forall k :: 0 <= k < |ids| ==> ids[k] in slots
      ensures match free
        case Some(id) =>
            exists i :: 0 <= i < |ids| && ids[i] == id && !slots[id].busy
                && forall k :: 0 <= k < i ==> slots[ids[k]].busy
        case None => forall k :: 0 <= k < |ids| ==> slots[ids[k]].busy
    {
      for i := 0 to |ids|
        invariant forall k :: 0 <= k < i ==> slots[ids[k]].busy
      {
        if !slots[ids[i]].busy { return Some(ids[i]); }
      }
      return None;
    }

    // A free slot of this workspace and kind, else a fresh one.
    method Lease(workspace: string, kind: Kind, newId: nat) returns (slot: nat)
      requires Valid() && newId !in slots
      modifies this
      ensures Valid()
      ensures MayLease(World(old(slots), map[], [], 0, map[], []), Mount(0, workspace, kind, slot))
      ensures slot == newId || slot in old(slots)
      ensures slots == Mounted(old(slots), Mount(0, workspace, kind, slot))
    {
      var key := SlotKey(workspace, kind);
      if key !in listed {
        ListNothing(slots, listed, key);
        listed := listed[key := []];
      }
      var ids := listed[key];
      assert forall k :: 0 <= k < |ids| ==> ids[k] in slots && KeyOf(slots[ids[k]]) == key;
      hide Listed;
      var free := FirstFree(ids);
      if free.Some? {
        slot := free.value;
        LeaseAgain(slots, listed, slot);
        slots := slots[slot := slots[slot].(busy := true)];
      } else {
        slot := newId;
        var leased := SurfaceProtocol.Lease(workspace, kind, 0, true);
        NoneIsFree(slots, listed, key);
        LeaseNew(slots, listed, slot, leased);
        slots := slots[slot := leased];
        listed := listed[key := ids + [slot]];
      }
    }
  }

  class Surface {
    const slots: SurfaceSlots
    const surface: nat
    const workspace: string
    const kind: Kind
    var generation: nat
    var sequence: nat
    var epoch: nat
    var disposed: bool
    var outbox: seq<Operation>
    var inFlight: bool
    var released: bool

    ghost function State(): Window
      reads this
    {
      Window(surface, workspace, kind, generation, sequence, disposed, outbox, inFlight, released)
    }

    ghost predicate Valid()
      reads this, slots
    {
      surface in slots.slots
    }

    constructor (slots: SurfaceSlots, workspace: string, kind: Kind, surface: nat)
      ensures State() == Window(surface, workspace, kind, 0, 0, false, [], false, false)
      ensures this.slots == slots
    {
      this.slots, this.surface, this.workspace, this.kind := slots, surface, workspace, kind;
      generation, sequence, epoch, disposed, outbox, inFlight, released := 0, 0, 0, false, [], false, false;
    }

    method Send(verb: Verb)
      requires Valid()
      modifies this`sequence, this`outbox
      ensures State() == Queue(old(State()), verb)
    {
      sequence := sequence + 1;
      outbox := outbox + [Operation(Key(workspace, surface), generation, sequence, kind, verb)];
    }

    method Begin(port: Option<nat>)
      requires Valid() && !disposed
      modifies this, slots
      ensures Valid() && slots.listed == old(slots.listed) && epoch == old(epoch)
      ensures Solo(slots.slots, State()) == Next(old(Solo(slots.slots, State())), Opens(0, port))
    {
      generation := slots.slots[surface].generation + 1;
      slots.slots := slots.slots[surface := slots.slots[surface].(generation := generation)];
      sequence := 0;
      Send(Verb.Open(port));
    }

    // An open bumps the epoch; a preview then waits for the list of registered ports.
    method Open() returns (began: bool)
      requires Valid()
      modifies this, slots
      ensures Valid()
      ensures began == (!old(disposed) && kind != Preview)
      ensures began ==> Solo(slots.slots, State()) == Next(old(Solo(slots.slots, State())), Opens(0, None))
      ensures !began ==> slots.slots == old(slots.slots) && State() == old(State())
      ensures epoch == if old(disposed) then old(epoch) else old(epoch) + 1
    {
      if disposed { return false; }
      epoch := epoch + 1;
      if kind == Preview { return false; }
      Begin(None);
      return true;
    }

    // The list came back: the open goes on unless the window was disposed or opened again, or its port is not listed.
    method Listed(asked: nat, requested: Option<nat>, ports: seq<nat>) returns (began: bool)
      requires Valid() && kind == Preview
      modifies this, slots
      ensures Valid() && epoch == old(epoch)
      ensures var port := if requested.Some? || ports == [] then requested else Some(ports[0]);
        && (began <==> !old(disposed) && old(epoch) == asked && port.Some? && port.value in ports)
        && (began ==> Solo(slots.slots, State()) == Next(old(Solo(slots.slots, State())), Opens(0, port)))
      ensures !began ==> slots.slots == old(slots.slots) && State() == old(State())
    {
      var port := requested;
      if requested.None? && |ports| > 0 { port := Some(ports[0]); }
      if disposed || epoch != asked || port.None? || port.value !in ports { return false; }
      Begin(port);
      return true;
    }

    // Asks for the state, before the first open too.
    method Confirm() returns (asked: bool)
      requires Valid()
      modifies this`sequence, this`outbox
      ensures asked == !disposed
      ensures Solo(slots.slots, State()) == Next(old(Solo(slots.slots, State())), Sends(0, Status))
    {
      if disposed { return false; }
      Send(Status);
      return true;
    }

    // Layout, focus, navigation and the toolbar: a browser's, after its first open.
    method Act(name: string) returns (queued: bool)
      requires Valid()
      modifies this`sequence, this`outbox
      ensures queued == (!disposed && generation > 0 && kind == Browser)
      ensures queued ==> Solo(slots.slots, State()) == Next(old(Solo(slots.slots, State())), Sends(0, Command(name)))
      ensures !queued ==> State() == old(State())
    {
      if disposed || generation == 0 || kind != Browser { return false; }
      Send(Command(name));
      return true;
    }

    method Dispose()
      requires Valid()
      modifies this, slots
      ensures Valid() && slots.listed == old(slots.listed)
      ensures Solo(slots.slots, State()) == Next(old(Solo(slots.slots, State())), Disposes(0))
    {
      if disposed { return; }
      disposed := true;
      if generation > 0 {
        Send(Close);
      } else {
        released := true;
        slots.slots := slots.slots[surface := slots.slots[surface].(busy := false)];
      }
    }

    // The operation in flight has been answered, or its deadline passed.
    method Settle()
      requires Valid() && inFlight
      modifies this, slots
      ensures Valid() && slots.listed == old(slots.listed)
      ensures Solo(slots.slots, State()) == Next(old(Solo(slots.slots, State())), Settles(0))
    {
      inFlight := false;
      if disposed && outbox == [] && !released {
        released := true;
        slots.slots := slots.slots[surface := slots.slots[surface].(busy := false)];
      }
    }
  }
}
