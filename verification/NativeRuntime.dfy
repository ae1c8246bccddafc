/**
 * The native helper as the source keeps it: a store, the pending handoffs, the capabilities and the surface entries,
 * each updated in place, and the request handler over them. Every method computes its function in NativeHelper.
 */
module NativeRuntime {
  import opened Options
  import opened Surfaces
  import opened NativeHelper
  import opened NativeIntegrity
  import opened NativeGrants
  import opened NativeRemovals

  // What every turn keeps: references to workspaces that exist, grants that rest on beats, removals after closures.
  ghost predicate Kept(h: Helper) {
    Whole(h) && Earned(h) && Careful(h)
  }

  lemma NextKeepsKept(h: Helper, t: Turn)
    requires Kept(h)
    ensures Kept(Next(h, t))
  {
    NextKeepsWhole(h, t);
    NextKeepsEarned(h, t);
    NextKeepsCareful(h, t);
    hide Whole, Earned, Careful, Next;
  }

  function AdminOnly(admin: nat): map<nat, Capability> {
    map[admin := Capability(Admin, None, None)]
  }

  // A new process knows the new admin's token only.
  lemma RestartKeepsKept(h: Helper, admin: nat)
    requires Kept(h)
    ensures Kept(Restart(h).(caps := AdminOnly(admin)))
  {
    var g := Restart(h);
    NextKeepsKept(h, Restarts);
    assert CapsSound(g.store.editors, AdminOnly(admin)) && Next(h, Restarts) == g;
    hide Restart, StoreSound, PreviewsSound, PendingSound, EntriesSound, CapsSound, PortsEarned, BeatsKept,
        GrantsJustified,
         ClosuresKept, RemovalsKept;
  }

  lemma RestartIs(h: Helper)
    ensures var g := Restart(h);
      && g == Helper(g.store, Previews(map[], map[]), map[], map[], g.caps, map[], h.clock, h.log + [Restarted])
      && g.store.selected == h.store.selected
      && g.store.editors == map id | id in h.store.editors :: if h.store.editors[id] == Active then Unknown
            else h.store.editors[id]
  {
  }

  // What a request is told: why it was refused, or what the state it left says.
  ghost predicate Answers(h: Helper, r: Request, reply: Reply, answer: Result<Telling, Code>) {
    && h == reply.state && answer.Ok? == reply.answer.Ok?
    && (answer.Err? ==> answer.error == reply.answer.error)
    && (answer.Ok? ==>
          && (WorkspaceOf(r).Some? && !r.Remove? ==> WorkspaceOf(r).value in h.store.editors)
          && (r.Create? ==> r.newId in h.store.editors)
          && answer.value == Tell(h, r))
  }

  class WorkspaceStore {
    var editors: map<string, Editor>
    var selected: Option<string>

    ghost function Value(): Store
      reads this
    {
      Store(editors, selected)
    }

    // Restart cannot prove that an editor exited.
    constructor (editors: map<string, Editor>, selected: Option<string>)
      ensures this.selected == selected
      ensures this.editors == map id | id in editors :: if editors[id] == Active then Unknown else editors[id]
    {
      this.editors, this.selected := editors, selected;
      new;
      var rest := editors.Keys;
      while rest != {}
        invariant rest <= editors.Keys
        invariant this.editors.Keys == editors.Keys && this.selected == selected
        invariant forall id :: id in editors ==>
          this.editors[id] == if id !in rest && editors[id] == Active then Unknown else editors[id]
      {
        var id :| id in rest;
        if this.editors[id] == Active { SetEditor(id, Unknown); }
        rest := rest - {id};
      }
    }

    method SetEditor(id: string, state: Editor)
      requires id in editors
      modifies this`editors
      ensures editors == old(editors)[id := state]
    {
      editors := editors[id := state];
    }

    method Select(id: string)
      requires id in editors
      modifies this`selected
      ensures selected == Some(id)
    {
      selected := Some(id);
    }

    method Create(newId: string) returns (answer: Result<(), Code>)
      requires newId !in editors
      modifies this
      ensures answer == if |old(editors)| >= WORKSPACE_LIMIT then Err(WorkspaceLimit) else Ok(())
      ensures answer.Err? ==> Value() == old(Value())
      ensures answer.Ok? ==> editors == old(editors)[newId := Editor.Closed]
                             && selected == if old(selected).Some? then old(selected) else Some(newId)
    {
      if |editors| >= WORKSPACE_LIMIT { return Err(WorkspaceLimit); }
      editors := editors[newId := Editor.Closed];
      if selected.None? { Select(newId); }
      return Ok(());
    }

    method Remove(id: string) returns (answer: Result<(), Code>)
      requires id in editors
      modifies this
      ensures answer == if old(editors)[id] == Editor.Closed then Ok(()) else Err(EditorNotClosed)
      ensures answer.Err? ==> Value() == old(Value())
      ensures answer.Ok?
          ==> editors == old(editors) - {id} && selected == if old(selected) == Some(id) then None else old(selected)
    {
      if editors[id] != Editor.Closed { return Err(EditorNotClosed); }
      editors := editors - {id};
      if selected == Some(id) { selected := None; }
      return Ok(());
    }
  }

  class Handoffs {
    var pending: map<nat, Handoff>

    constructor ()
      ensures pending == map[]
    {
      pending := map[];
    }

    method Open(k: nat, asked: Handoff) returns (answer: Result<(), Code>)
      requires k !in pending
      modifies this
      ensures answer == if |old(pending)| >= HANDOFF_LIMIT then Err(HandoffBusy) else Ok(())
      ensures pending == if answer.Ok? then old(pending)[k := asked] else old(pending)
    {
      if |pending| >= HANDOFF_LIMIT { return Err(HandoffBusy); }
      pending := pending[k := asked];
      return Ok(());
    }

    // Marks every request delivered, and hands out those that were not.
    method Take() returns (requests: set<nat>)
      modifies this
      ensures pending == map k | k in old(pending) :: old(pending)[k].(delivered := true)
      ensures requests == set k | k in old(pending) && !old(pending)[k].delivered
    {
      requests := {};
      var rest := pending.Keys;
      while rest != {}
        invariant rest <= pending.Keys == old(pending).Keys
        invariant forall k :: k in pending ==>
          pending[k] == if k in rest then old(pending)[k] else old(pending)[k].(delivered := true)
        invariant requests == set k | k in old(pending) && k !in rest && !old(pending)[k].delivered
      {
        var k :| k in rest;
        if !pending[k].delivered {
          pending := pending[k := pending[k].(delivered := true)];
          requests := requests + {k};
        }
        rest := rest - {k};
      }
    }

    // An answer or the timeout.
    method Finish(k: nat)
      modifies this
      ensures pending == old(pending) - {k}
    {
      pending := pending - {k};
    }

    method Complete(k: nat) returns (answer: Result<(), Code>)
      modifies this
      ensures answer == if k in old(pending) && old(pending)[k].delivered then Ok(()) else Err(HandoffNotFound)
      ensures answer.Err? ==> pending == old(pending)
      ensures answer.Ok? ==> pending == old(pending) - {k}
    {
      if k !in pending || !pending[k].delivered { return Err(HandoffNotFound); }
      Finish(k);
      return Ok(());
    }
  }

  class Authority {
    var caps: map<nat, Capability>

    constructor (admin: nat)
      ensures caps == AdminOnly(admin)
    {
      caps := map[admin := Capability(Admin, None, None)];
    }

    method Prune(now: nat)
      modifies this
      ensures caps == NativeHelper.Prune(old(caps), now)
    {
      var rest := caps.Keys;
      while rest != {}
        invariant rest <= caps.Keys
        invariant forall token :: token in caps ==> token in old(caps) && caps[token] == old(caps)[token]
        invariant forall token :: token in old(caps) && token !in rest
                   ==> (token in caps <==> Live(old(caps)[token], now))
        invariant forall token :: token in rest ==> token in caps
      {
        var token :| token in rest;
        if !Live(caps[token], now) { caps := caps - {token}; }
        rest := rest - {token};
      }
    }

    method Mint(role: Role, id: string, token: nat, now: nat) returns (answer: Result<(), Code>)
      requires role != Admin && token !in caps
      modifies this
      ensures var kept := NativeHelper.Prune(old(caps), now);
        if |kept| >= CAPABILITY_LIMIT then answer == Err(CapabilityLimit) && caps == kept
        else
          var expires := now + if role == Shell then SHELL_MS else CONNECTOR_MS;
          answer == Ok(()) && caps == kept[token := Capability(role, Some(id), Some(expires))]
    {
      Prune(now);
      if |caps| >= CAPABILITY_LIMIT { return Err(CapabilityLimit); }
      var expires := now + if role == Shell then SHELL_MS else CONNECTOR_MS;
      caps := caps[token := Capability(role, Some(id), Some(expires))];
      return Ok(());
    }

    method Authenticate(token: nat, now: nat) returns (cap: Option<Capability>)
      modifies this
      ensures caps == NativeHelper.Prune(old(caps), now)
      ensures cap == if token in caps then Some(caps[token]) else None
    {
      Prune(now);
      return if token in caps then Some(caps[token]) else None;
    }

    method RevokeWorkspace(id: string)
      modifies this
      ensures caps == Revoke(old(caps), id)
    {
      var rest := caps.Keys;
      while rest != {}
        invariant rest <= caps.Keys
        invariant forall token :: token in caps ==> token in old(caps) && caps[token] == old(caps)[token]
        invariant forall token :: token in old(caps) && token !in rest ==>
          (token in caps <==> old(caps)[token].workspace != Some(id))
        invariant forall token :: token in rest ==> token in caps
      {
        var token :| token in rest;
        if caps[token].workspace == Some(id) { caps := caps - {token}; }
        rest := rest - {token};
      }
    }
  }

  class Runtime {
    const store: WorkspaceStore
    const handoffs: Handoffs
    const authority: Authority
    const surfaces: SurfaceLifecycle
    var ports: map<string, set<nat>>
    var seen: map<string, nat>
    var requests: map<nat, Capability>
    var clock: nat
    ghost var log: seq<Event>

    ghost function Contents(): Helper
      reads this, store, handoffs, authority, surfaces
    {
      Helper(Store(store.editors, store.selected), Previews(seen, ports), surfaces.entries, handoffs.pending,
             authority.caps,
             requests, clock, log)
    }

    // The helper this object is stands as any run leaves it.
    ghost predicate Valid()
      reads this, store, handoffs, authority, surfaces
    {
      Kept(Contents())
    }

    // Every grant in its history rests on beats, and every removal waited for a closure.
    lemma HistoryIsRight(i: nat, k: nat)
      requires Valid() && k < |log|
      ensures log[k].Granted? ==> Justified(log, k)
      ensures i < k && log[i].CodeAsked? && log[k] == Removed(log[i].workspace)
          ==> ClosedAfter(log[..k], i, log[i].workspace)
    {
    }

    // The process starts again over the store that `before` left behind, with a new admin token.
    constructor (editors: map<string, Editor>, selected: Option<string>, admin: nat, clock: nat, ghost before: Helper)
      requires before.store == Store(editors, selected) && before.clock == clock && Kept(before)
      ensures fresh(store) && fresh(handoffs) && fresh(authority) && fresh(surfaces)
      ensures Valid() && Contents() == Restart(before).(caps := AdminOnly(admin))
    {
      hide Kept, Restart, AdminOnly;
      RestartKeepsKept(before, admin);
      RestartIs(before);
      store := new WorkspaceStore(editors, selected);
      handoffs := new Handoffs();
      authority := new Authority(admin);
      surfaces := new SurfaceLifecycle();
      ports, seen, requests, this.clock, log := map[], map[], map[], clock, before.log + [Restarted];
    }

    method RefreshEditor(id: string) returns (editor: Editor)
      requires id in store.editors
      modifies this, store
      ensures Contents() == Refresh(old(Contents()), id)
      ensures id in store.editors && editor == store.editors[id]
    {
      var heard := if id in seen then seen[id] else 0;
      if store.editors[id] == Active && clock - heard >= EDITOR_MS {
        ports := ports - {id};
        store.SetEditor(id, Unknown);
      }
      return store.editors[id];
    }

    method RemoveOne(id: string) returns (answer: Result<(), Code>)
      requires id in store.editors
      modifies this, store, authority
      ensures Reply(Contents(), answer) == RemoveWorkspace(old(Contents()), id)
    {
      if HandoffFor(handoffs.pending, id) || OpenIn(surfaces.entries, id) { return Err(HandoffPending); }
      answer := store.Remove(id);
      if answer.Err? { return; }
      authority.RevokeWorkspace(id);
      ports := ports - {id};
      seen := seen - {id};
      log := log + [Removed(id)];
    }

    method HearEditor(id: string, state: Editor, ghost role: Role, took: nat)
      requires id in store.editors
      modifies this, store
      ensures Contents() == SetReport(old(Contents()), id, state, role, took)
    {
      store.SetEditor(id, state);
      ghost var arrived := clock;
      clock := clock + took;
      if state == Active {
        seen := seen[id := clock];
      } else {
        seen := seen - {id};
        ports := ports - {id};
      }
      log := log + [Reported(id, state, role, arrived, clock)];
    }

    method SetPort(id: string, port: nat, own: nat, register: bool) returns (answer: Result<(), Code>)
      requires id in store.editors
      modifies this
      ensures Reply(Contents(), answer)
        == if register then RegisterPort(old(Contents()), id, port, own)
            else UnregisterPort(old(Contents()), id, port, own)
    {
      if port == own { return Err(InvalidPreviewPort); }
      var held := if id in ports then ports[id] else {};
      if register {
        if store.editors[id] != Active { return Err(EditorNotReady); }
        if |held| >= PORT_LIMIT && port !in held { return Err(PreviewLimit); }
        ports := ports[id := held + {port}];
        log := log + [Registered(id, port, clock)];
      } else {
        if id in ports { ports := ports[id := held - {port}]; }
        log := log + [Unregistered(id, port)];
      }
      return Ok(());
    }

    method Launch(id: string, target: Target, k: nat) returns (answer: Result<(), Code>)
      requires id in store.editors && k !in handoffs.pending
      modifies this, store, handoffs
      ensures Reply(Contents(), answer) == LaunchSurface(old(Contents()), id, target, k)
    {
      if target == CodeTarget && store.editors[id] == Editor.Closed { store.SetEditor(id, Unknown); }
      if target == CodeTarget { log := log + [CodeAsked(id)]; }
      answer := handoffs.Open(k, Handoff(id, target, if id in ports then ports[id] else {}, false));
    }

    method Surface(op: Operation) returns (answer: Result<(), Code>)
      modifies this, surfaces
      ensures Reply(Contents(), answer) == AcceptSurface(old(Contents()), op)
    {
      var id := op.key.workspace;
      if op.kind == Preview && (op.verb.Open? || op.verb.Status?) {
        var port := if op.verb.Open? then op.verb.port else PortOf(surfaces.entries, op.key);
        if port.None? || id !in ports || port.value !in ports[id] { return Err(PreviewNotRegistered); }
        log := log + [Granted(id, port.value, clock)];
      }
      var refused := surfaces.Accept(op);
      return if refused.Some? then Err(Code.Refusal(refused.value)) else Ok(());
    }

    // A request that is allowed, its workspace refreshed.
    method Act(cap: Capability, r: Request, own: nat, took: nat) returns (answer: Result<(), Code>)
      requires Drawable(Contents(), r) && (WorkspaceOf(r).Some? ==> WorkspaceOf(r).value in store.editors)
      modifies this, store, handoffs, authority, surfaces
      ensures Reply(Contents(), answer) == Operate(old(Contents()), cap, r, own, took)
    {
      hide RefreshAll, SetReport, RegisterPort, UnregisterPort, LaunchSurface, AcceptSurface, RemoveWorkspace;
      match r
      case List => ListAll(); answer := Ok(());
      case Create(newId) => answer := store.Create(newId);
      case Get(_) => answer := Ok(());
      case Rename(_) => answer := Ok(());
      case Select(id) => store.Select(id); answer := Ok(());
      case Remove(id) => answer := RemoveOne(id);
      case Report(id, state) => HearEditor(id, state, cap.role, took); answer := Ok(());
      case Register(id, port) => answer := SetPort(id, port, own, true);
      case Unregister(id, port) => answer := SetPort(id, port, own, false);
      case ListPorts(_) => answer := Ok(());
      case Launch(id, target, k) => answer := Launch(id, target, k);
      case OnSurface(op) => answer := Surface(op);
    }

    // The synchronous section of one request.
    method Dispatch(cap: Capability, r: Request, own: nat, took: nat) returns (answer: Result<(), Code>)
      requires Drawable(Contents(), r)
      modifies this, store, handoffs, authority, surfaces
      ensures Reply(Contents(), answer) == Perform(old(Contents()), cap, r, own, took)
    {
      hide Refresh, Operate, Authorizes;
      if !Authorizes(cap, r) { return Err(Forbidden); }
      var id := WorkspaceOf(r);
      if id.Some? {
        if id.value !in store.editors { return Err(WorkspaceNotFound); }
        var _ := RefreshEditor(id.value);
      }
      answer := Act(cap, r, own, took);
    }

    lemma ReportStays(h: Helper, id: string, state: Editor, role: Role, took: nat)
      requires id in h.store.editors
      ensures id in SetReport(h, id, state, role, took).store.editors
    {
    }

    lemma PortsStay(h: Helper, id: string, port: nat, own: nat)
      requires id in h.store.editors
      ensures RegisterPort(h, id, port, own).state.store == h.store == UnregisterPort(h, id, port, own).state.store
    {
    }

    lemma LaunchStays(h: Helper, id: string, target: Target, handoff: nat)
      requires id in h.store.editors && handoff !in h.pending
      ensures id in LaunchSurface(h, id, target, handoff).state.store.editors
    {
    }

    lemma NewRecord(h: Helper, newId: string)
      requires newId !in h.store.editors && CreateWorkspace(h, newId).answer.Ok?
      ensures newId in CreateWorkspace(h, newId).state.store.editors
    {
    }

    lemma AcceptKeepsStore(h: Helper, op: Operation)
      ensures AcceptSurface(h, op).state.store == h.store
    {
    }

    // The state a request leaves has what its answer tells of.
    lemma OperateTells(g: Helper, cap: Capability, r: Request, own: nat, took: nat)
      requires Drawable(g, r) && (WorkspaceOf(r).Some? ==> WorkspaceOf(r).value in g.store.editors)
      requires Operate(g, cap, r, own, took).answer.Ok?
      ensures var h := Operate(g, cap, r, own, took).state;
        && (WorkspaceOf(r).Some? && !r.Remove? ==> WorkspaceOf(r).value in h.store.editors)
        && (r.Create? ==> r.newId in h.store.editors)
    {
      hide SetReport, RegisterPort, UnregisterPort, LaunchSurface, AcceptSurface, RemoveWorkspace, CreateWorkspace,
          RefreshAll;
      match r
      case Create(newId) => NewRecord(g, newId);
      case Report(id, state) => ReportStays(g, id, state, cap.role, took);
      case Register(id, port) => PortsStay(g, id, port, own);
      case Unregister(id, port) => PortsStay(g, id, port, own);
      case Launch(id, target, handoff) => LaunchStays(g, id, target, handoff);
      case OnSurface(op) => AcceptKeepsStore(g, op);
      case _ =>
    }

    lemma Tellable(h: Helper, cap: Capability, r: Request, own: nat, took: nat)
      requires Drawable(h, r) && Perform(h, cap, r, own, took).answer.Ok?
      ensures var g := Perform(h, cap, r, own, took).state;
        && (WorkspaceOf(r).Some? && !r.Remove? ==> WorkspaceOf(r).value in g.store.editors)
        && (r.Create? ==> r.newId in g.store.editors)
    {
      hide Operate, Authorizes, Refresh;
      OperateTells(Refreshed(h, r), cap, r, own, took);
    }

    // One request, with what it is told.
    method Handle(cap: Capability, r: Request, own: nat, took: nat) returns (answer: Result<Telling, Code>)
      requires Drawable(Contents(), r)
      modifies this, store, handoffs, authority, surfaces
      ensures Answers(Contents(), r, Perform(old(Contents()), cap, r, own, took), answer)
    {
      ghost var before := Contents();
      hide Perform;
      var done := Dispatch(cap, r, own, took);
      if done.Err? { return Err(done.error); }
      Tellable(before, cap, r, own, took);
      var told := TellOf(r);
      answer := Ok(told);
    }

    // What the state says to the request that left it.
    method TellOf(r: Request) returns (told: Telling)
      requires WorkspaceOf(r).Some? && !r.Remove? ==> WorkspaceOf(r).value in store.editors
      requires r.Create? ==> r.newId in store.editors
      ensures told == Tell(Contents(), r)
    {
      match r
      case List => told := Editors(store.editors);
      case Create(id) => told := Workspace(id, store.editors[id]);
      case Get(id) => told := Workspace(id, store.editors[id]);
      case Rename(id) => told := Workspace(id, store.editors[id]);
      case Select(id) => told := Workspace(id, store.editors[id]);
      case Report(_, state) => told := EditorIs(state);
      case Register(_, port) => told := PortIs(port);
      case Unregister(_, port) => told := PortIs(port);
      case ListPorts(id) => told := PortsHeld(if id in ports then ports[id] else {});
      case _ => told := Nothing;
    }

    // --- The turns ------------------------------------------------------------------------------------------------

    // The body of a request that was authenticated has arrived.
    method Serve(request: nat, r: Request, own: nat, took: nat) returns (answer: Result<Telling, Code>)
      requires Valid() && request in requests && Drawable(Contents(), r)
      modifies this, store, handoffs, authority, surfaces
      ensures Valid() && Contents() == Next(old(Contents()), Performs(request, r, own, took))
      ensures Answers(Contents(), r,
                Perform(old(Contents()).(requests := old(requests) - {request}), old(requests)[request], r, own, took),
                    answer)
    {
      NextKeepsKept(Contents(), Performs(request, r, own, took));
      PerformsIs(Contents(), request, r, own, took);
      hide Kept, Perform, Next, Tell;
      var cap := requests[request];
      requests := requests - {request};
      answer := Handle(cap, r, own, took);
    }

    method Wait(ms: nat)
      requires Valid()
      modifies this`clock
      ensures Valid() && Contents() == Next(old(Contents()), Passes(ms))
    {
      NextKeepsKept(Contents(), Passes(ms));
      ShowsIs(Contents(), "", ms);
      hide Kept, Next;
      clock := clock + ms;
    }

    // The admin's page for a workspace.
    method Show(id: string) returns (editor: Option<Editor>)
      requires Valid()
      modifies this, store
      ensures Valid() && Contents() == Next(old(Contents()), Shows(id))
      ensures editor == if id in store.editors then Some(store.editors[id]) else None
    {
      NextKeepsKept(Contents(), Shows(id));
      ShowsIs(Contents(), id, 0);
      hide Kept, Refresh, Next;
      if id !in store.editors { return None; }
      var state := RefreshEditor(id);
      editor := Some(state);
    }

    method MintFor(role: Role, id: string, token: nat) returns (answer: Result<(), Code>)
      requires role != Admin && token !in authority.caps
      modifies authority
      ensures Reply(Contents(), answer) == Mint(old(Contents()), role, id, token)
    {
      hide NativeHelper.Prune;
      if id !in store.editors { return Err(WorkspaceNotFound); }
      answer := authority.Mint(role, id, token, clock);
    }

    method MintCapability(role: Role, id: string, token: nat) returns (answer: Result<(), Code>)
      requires Valid() && role != Admin && token !in authority.caps
      modifies authority
      ensures Valid() && Contents() == Next(old(Contents()), Mints(role, id, token))
      ensures answer == Mint(old(Contents()), role, id, token).answer
    {
      NextKeepsKept(Contents(), Mints(role, id, token));
      MintsIs(Contents(), role, id, token);
      hide Kept, Next, Mint;
      answer := MintFor(role, id, token);
    }

    method AuthenticateRequest(request: nat, token: nat) returns (answer: Result<(), Code>)
      requires Valid()
      modifies this`requests, authority
      ensures Valid() && Contents() == Next(old(Contents()), Authenticates(request, token))
      ensures answer == Authenticate(old(Contents()), request, token).answer
    {
      NextKeepsKept(Contents(), Authenticates(request, token));
      AuthenticatesIs(Contents(), request, token);
      hide Kept, Next, NativeHelper.Prune;
      var cap := authority.Authenticate(token, clock);
      if cap.None? { return Err(Unauthorized); }
      requests := requests[request := cap.value];
      return Ok(());
    }

    method TakePending() returns (taken: set<nat>)
      modifies handoffs
      ensures Contents() == NativeHelper.Take(old(Contents()))
      ensures taken == set k | k in old(handoffs.pending) && !old(handoffs.pending)[k].delivered
    {
      taken := handoffs.Take();
    }

    method TakeHandoffs() returns (taken: set<nat>)
      requires Valid()
      modifies handoffs
      ensures Valid() && Contents() == Next(old(Contents()), Takes)
      ensures taken == set k | k in old(handoffs.pending) && !old(handoffs.pending)[k].delivered
    {
      NextKeepsKept(Contents(), Takes);
      HandoffTurnsAre(Contents(), 0);
      hide Kept, Next;
      taken := TakePending();
    }

    method AcknowledgeHandoff(k: nat) returns (answer: Result<(), Code>)
      requires Valid()
      modifies handoffs
      ensures Valid() && Contents() == Next(old(Contents()), Acknowledges(k))
      ensures answer == Acknowledge(old(Contents()), k).answer
    {
      NextKeepsKept(Contents(), Acknowledges(k));
      HandoffTurnsAre(Contents(), k);
      hide Kept, Next;
      answer := handoffs.Complete(k);
    }

    method TimeOut(k: nat)
      requires Valid()
      modifies handoffs
      ensures Valid() && Contents() == Next(old(Contents()), TimesOut(k))
    {
      NextKeepsKept(Contents(), TimesOut(k));
      HandoffTurnsAre(Contents(), k);
      hide Kept, Next;
      handoffs.Finish(k);
    }

    // All but those in `rest` are refreshed.
    function RefreshBut(h: Helper, rest: set<string>): Helper {
      var late := set id | id in h.store.editors && id !in rest && Overdue(h, id);
      h.(store := h.store.(editors :=
           map id | id in h.store.editors :: if id in late then Unknown else h.store.editors[id]),
         previews := h.previews.(ports := h.previews.ports - late))
    }

    lemma RefreshNone(h: Helper)
      ensures RefreshBut(h, h.store.editors.Keys) == h
    {
      assert h.previews.ports - {} == h.previews.ports;
      assert (map id | id in h.store.editors :: h.store.editors[id]) == h.store.editors;
    }

    lemma RefreshEvery(h: Helper)
      ensures RefreshBut(h, {}) == RefreshAll(h)
    {
      var g, k := RefreshBut(h, {}), RefreshAll(h);
      assert g.store.editors == k.store.editors && g.previews.ports == k.previews.ports;
    }

    lemma RefreshOneMore(h: Helper, rest: set<string>, id: string)
      requires id in rest && rest <= h.store.editors.Keys
      ensures var g := RefreshBut(h, rest); id in g.store.editors && Refresh(g, id) == RefreshBut(h, rest - {id})
    {
      var g, k := RefreshBut(h, rest), RefreshBut(h, rest - {id});
      assert Overdue(g, id) == Overdue(h, id);
      assert Refresh(g, id).store.editors == k.store.editors;
      assert Refresh(g, id).previews.ports == k.previews.ports;
    }

    method ListAll()
      modifies this, store
      ensures Contents() == RefreshAll(old(Contents()))
    {
      hide Refresh, RefreshBut, RefreshAll;
      var rest := store.editors.Keys;
      ghost var before := Contents();
      RefreshNone(before);
      while rest != {}
        invariant rest <= before.store.editors.Keys
        invariant Contents() == RefreshBut(before, rest)
      {
        var id :| id in rest;
        RefreshOneMore(before, rest, id);
        var _ := RefreshEditor(id);
        rest := rest - {id};
      }
      RefreshEvery(before);
    }
  }
}
