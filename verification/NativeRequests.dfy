/**
 * What each request that is not forbidden does, and when it is refused: told by the workspace's editor, once seen to be
 * overdue, and by its ports, handoffs and surfaces.
 */
module NativeRequests {
  import opened Options
  import opened Surfaces
  import opened NativeHelper
  import opened NativeScopes

  ghost predicate MayAsk(h: Helper, cap: Capability, r: Request, id: string) {
    && Drawable(h, r) && IsAbout(r, id) && id in h.store.editors
    && (cap.role == Admin || Listed(cap.role, cap.workspace, r))
  }

  // The workspace's ports, once its editor is seen to be overdue.
  function PortsNow(h: Helper, id: string): set<nat> {
    if OverdueNow(h, id) || PortsAt(h, id).None? then {} else PortsAt(h, id).value
  }

  lemma Granted(h: Helper, cap: Capability, r: Request, id: string, own: nat, took: nat)
    requires MayAsk(h, cap, r, id)
    ensures WorkspaceOf(r) == Some(id)
    ensures Drawable(Refresh(h, id), r) && id in Refresh(h, id).store.editors
    ensures Perform(h, cap, r, own, took) == Operate(Refresh(h, id), cap, r, own, took)
  {
    hide Operate;
    AuthorizesListed(cap, r);
    AboutIs(r);
    hide Authorizes, Listed, IsAbout;
  }

  // Everything but the workspace's editor and its ports, as a request finds it.
  predicate Beside(h: Helper, g: Helper) {
    && g.entries == h.entries && g.pending == h.pending && g.caps == h.caps && g.requests == h.requests
  }

  lemma Found(h: Helper, id: string)
    requires id in h.store.editors
    ensures var g := Refresh(h, id);
      && Beside(h, g) && g.clock == h.clock && g.log == h.log && g.store.selected == h.store.selected
      && g.store.editors.Keys == h.store.editors.Keys
      && EditorOf(g, id) == EditorNow(h, id) && Ports(g.previews, id) == PortsNow(h, id)
      && HeardAt(g, id) == HeardAt(h, id)
  {
  }

  /** A selection selects, and nothing else. */
  lemma SelectDoes(h: Helper, cap: Capability, id: string, own: nat, took: nat)
    requires MayAsk(h, cap, Select(id), id)
    ensures var reply := Perform(h, cap, Select(id), own, took); var g := reply.state;
      && reply.answer.Ok? && g.store.selected == Some(id)
      && Beside(h, g) && EditorOf(g, id) == EditorNow(h, id)
  {
    hide Refresh, OverdueNow, Perform;
    Granted(h, cap, Select(id), id, own, took);
    Found(h, id);
  }

  /** A report is the editor's state: an active one is heard now and keeps its ports, any other loses them. */
  lemma ReportDoes(h: Helper, cap: Capability, id: string, state: Editor, own: nat, took: nat)
    requires MayAsk(h, cap, Report(id, state), id)
    ensures var reply := Perform(h, cap, Report(id, state), own, took); var g := reply.state;
      && reply.answer.Ok? && EditorOf(g, id) == Some(state)
      && HeardAt(g, id) == (if state == Active then Some(h.clock + took) else None)
      && Ports(g.previews, id) == (if state == Active then PortsNow(h, id) else {})
      && Beside(h, g) && g.store.selected == h.store.selected
  {
    hide Refresh, OverdueNow, Perform;
    Granted(h, cap, Report(id, state), id, own, took);
    Found(h, id);
  }

  /** A port is held from its registration on, if the editor is active, up to sixteen, and never the helper's own. */
  lemma RegisterDoes(h: Helper, cap: Capability, id: string, port: nat, own: nat, took: nat)
    requires MayAsk(h, cap, Register(id, port), id)
    ensures var reply := Perform(h, cap, Register(id, port), own, took); var g := reply.state;
      && reply.answer == (if port == own then Err(InvalidPreviewPort)
                          else if EditorNow(h, id) != Some(Active) then Err(EditorNotReady)
                          else if |PortsNow(h, id)| >= 16 && port !in PortsNow(h, id) then Err(PreviewLimit)
                          else Ok(()))
      && Ports(g.previews, id) == (if reply.answer.Ok? then PortsNow(h, id) + {port} else PortsNow(h, id))
      && EditorOf(g, id) == EditorNow(h, id) && Beside(h, g) && g.store.selected == h.store.selected
  {
    hide Refresh, OverdueNow, Perform;
    Granted(h, cap, Register(id, port), id, own, took);
    Found(h, id);
  }

  lemma UnregisterDoes(h: Helper, cap: Capability, id: string, port: nat, own: nat, took: nat)
    requires MayAsk(h, cap, Unregister(id, port), id)
    ensures var reply := Perform(h, cap, Unregister(id, port), own, took); var g := reply.state;
      && reply.answer == (if port == own then Err(InvalidPreviewPort) else Ok(()))
      && Ports(g.previews, id) == (if port == own then PortsNow(h, id) else PortsNow(h, id) - {port})
      && EditorOf(g, id) == EditorNow(h, id) && Beside(h, g) && g.store.selected == h.store.selected
  {
    hide Refresh, OverdueNow, Perform;
    Granted(h, cap, Unregister(id, port), id, own, took);
    Found(h, id);
  }

  /**
   * A launch queues one handoff that carries the ports held now, unless sixteen are queued; a closed editor asked for
   * Code is unknown from then on, queued or not.
   */
  lemma LaunchDoes(h: Helper, cap: Capability, id: string, target: Target, handoff: nat, own: nat, took: nat)
    requires MayAsk(h, cap, Launch(id, target, handoff), id)
    ensures var reply := Perform(h, cap, Launch(id, target, handoff), own, took); var g := reply.state;
      && reply.answer == (if |h.pending| >= 16 then Err(HandoffBusy) else Ok(()))
      && g.pending == (if |h.pending| >= 16 then h.pending
                       else h.pending[handoff := Handoff(id, target, PortsNow(h, id), false)])
      && EditorOf(g, id) == (if target == CodeTarget && EditorNow(h, id) == Some(Editor.Closed) then Some(Unknown)
                             else EditorNow(h, id))
      && g.entries == h.entries && g.caps == h.caps && g.store.selected == h.store.selected
  {
    hide Refresh, OverdueNow, Perform;
    Granted(h, cap, Launch(id, target, handoff), id, own, took);
    Found(h, id);
  }

  // The workspace has a handoff queued or a surface open.
  ghost predicate InUse(h: Helper, id: string) {
    || (exists k :: HandoffOf(h, id, k).Some?)
    || (exists key: Key :: key.workspace == id && Look(h.entries, key).Some? && !Look(h.entries, key).value.closed)
  }

  /**
   * A workspace is removed exactly when nothing of it is in use and its editor closed, with its capabilities and ports
   * and the selection of it.
   */
  lemma RemoveDoes(h: Helper, cap: Capability, id: string, own: nat, took: nat)
    requires MayAsk(h, cap, Remove(id), id)
    ensures var reply := Perform(h, cap, Remove(id), own, took); var g := reply.state;
      && reply.answer == (if InUse(h, id) then Err(HandoffPending)
                          else if EditorNow(h, id) != Some(Editor.Closed) then Err(EditorNotClosed)
                          else Ok(()))
      && g.store.editors.Keys == (if reply.answer.Ok? then h.store.editors.Keys - {id} else h.store.editors.Keys)
      && (reply.answer.Ok? ==>
            && HeardAt(g, id).None? && PortsAt(g, id).None?
            && g.store.selected == (if h.store.selected == Some(id) then None else h.store.selected)
            && (forall n :: n in g.caps <==> n in h.caps && h.caps[n].workspace != Some(id))
            && (forall n :: n in g.caps ==> g.caps[n] == h.caps[n])
            && g.entries == h.entries && g.pending == h.pending)
      && (reply.answer.Err? ==> Beside(h, g) && g.store.selected == h.store.selected)
  {
    hide Refresh, OverdueNow, Perform;
    Granted(h, cap, Remove(id), id, own, took);
    Found(h, id);
    InUseIs(h, id);
  }

  lemma InUseIs(h: Helper, id: string)
    ensures InUse(h, id) <==> HandoffFor(h.pending, id) || OpenIn(h.entries, id)
  {
    if HandoffFor(h.pending, id) {
      var k :| k in h.pending && h.pending[k].workspace == id;
      assert HandoffOf(h, id, k).Some?;
    }
    if OpenIn(h.entries, id) {
      var key :| key in h.entries && key.workspace == id && !h.entries[key].closed;
      assert Look(h.entries, key).Some?;
    }
  }

  /** A new workspace starts closed, up to a hundred of them, and is selected if none was. */
  lemma CreateDoes(h: Helper, cap: Capability, newId: string, own: nat, took: nat)
    requires Drawable(h, Create(newId)) && cap.role == Admin
    ensures var reply := Perform(h, cap, Create(newId), own, took); var g := reply.state;
      && reply.answer == (if |h.store.editors| >= 100 then Err(WorkspaceLimit) else Ok(()))
      && (if reply.answer.Ok? then
            && g.store.editors == h.store.editors[newId := Editor.Closed]
            && g.store.selected == (if h.store.selected.None? then Some(newId) else h.store.selected)
            && g.previews == h.previews && Beside(h, g)
          else g == h)
  {
  }

  /** A list shows every editor as it is now, and so drops the ports of those overdue. */
  lemma ListDoes(h: Helper, cap: Capability, own: nat, took: nat)
    requires cap.role == Admin
    ensures var reply := Perform(h, cap, List, own, took); var g := reply.state;
      && reply.answer.Ok? && Beside(h, g) && g.store.selected == h.store.selected
      && (forall id :: EditorOf(g, id) == EditorNow(h, id) && Ports(g.previews, id) == PortsNow(h, id))
  {
  }

  // A preview's open or status, and the port it wants.
  predicate WantsPort(op: Operation) {
    op.kind == Preview && (op.verb.Open? || op.verb.Status?)
  }

  function PortWanted(h: Helper, op: Operation): Option<nat> {
    match op.verb
    case Open(port) => port
    case _ => if op.key in h.entries then h.entries[op.key].port else None
  }

  /** A surface operation reaches its surface exactly when a preview's wanted port is held now, and is judged there. */
  lemma SurfaceDoes(h: Helper, cap: Capability, op: Operation, own: nat, took: nat)
    requires MayAsk(h, cap, OnSurface(op), op.key.workspace)
    ensures var id := op.key.workspace;
      var reply, judged := Perform(h, cap, OnSurface(op), own, took), Judge(Look(h.entries, op.key), op);
      var held := PortWanted(h, op).Some? && PortWanted(h, op).value in PortsNow(h, id);
      && reply.answer == (if WantsPort(op) && !held then Err(PreviewNotRegistered)
                          else if judged.Err? then Err(Refusal(judged.error)) else Ok(()))
      && reply.state.entries == (if reply.answer.Ok? then h.entries[op.key := judged.value] else h.entries)
      && reply.state.pending == h.pending && reply.state.caps == h.caps
      && EditorOf(reply.state, id) == EditorNow(h, id)
      && reply.state.store.selected == h.store.selected
  {
    hide Refresh, OverdueNow, Perform, Judge;
    Granted(h, cap, OnSurface(op), op.key.workspace, own, took);
    Found(h, op.key.workspace);
  }

  // --- What a granted request is told -------------------------------------------------------------------------------

  lemma ToldAfter(h: Helper, cap: Capability, r: Request, id: string, own: nat, took: nat)
    requires MayAsk(h, cap, r, id) && (r.Get? || r.Rename? || r.ListPorts?)
    ensures var reply := Perform(h, cap, r, own, took); var g := reply.state;
      && reply.answer.Ok? && id in g.store.editors
      && EditorOf(g, id) == EditorNow(h, id) && Ports(g.previews, id) == PortsNow(h, id)
  {
    hide Refresh, OverdueNow, Perform;
    Granted(h, cap, r, id, own, took);
    Found(h, id);
  }

  /** A shell that asks is told its workspace's editor, or the ports held, as they are now. */
  lemma AsksAreTold(h: Helper, cap: Capability, id: string, own: nat, took: nat)
    ensures MayAsk(h, cap, Get(id), id) ==>
              var g := Perform(h, cap, Get(id), own, took).state;
              id in g.store.editors && EditorNow(h, id).Some?
              && Tell(g, Get(id)) == Workspace(id, EditorNow(h, id).value)
    ensures MayAsk(h, cap, ListPorts(id), id) ==>
              var g := Perform(h, cap, ListPorts(id), own, took).state;
              id in g.store.editors && Tell(g, ListPorts(id)) == PortsHeld(PortsNow(h, id))
  {
    hide Perform, OverdueNow;
    if MayAsk(h, cap, Get(id), id) {
      ToldAfter(h, cap, Get(id), id, own, took);
    }
    if MayAsk(h, cap, ListPorts(id), id) {
      ToldAfter(h, cap, ListPorts(id), id, own, took);
    }
  }

  /** The admin is told every workspace's editor as it is now; a report, its state; a port's change, the port. */
  lemma ChangesAreTold(h: Helper, cap: Capability, id: string, state: Editor, port: nat, own: nat, took: nat)
    requires id in h.store.editors
    ensures cap.role == Admin ==>
              var told := Tell(Perform(h, cap, List, own, took).state, List);
              told.Editors? && forall i :: i in told.editors <==> i in h.store.editors
    ensures cap.role == Admin ==>
              var told := Tell(Perform(h, cap, List, own, took).state, List);
              forall i :: i in told.editors ==> Some(told.editors[i]) == EditorNow(h, i)
    ensures Tell(h, Report(id, state)) == EditorIs(state)
    ensures Tell(h, Register(id, port)) == Tell(h, Unregister(id, port)) == PortIs(port)
  {
    if cap.role == Admin {
      ListDoes(h, cap, own, took);
      var g := Perform(h, cap, List, own, took).state;
      assert forall i :: EditorOf(g, i) == EditorNow(h, i);
      hide Perform;
      assert forall i :: i in g.store.editors <==> EditorOf(g, i).Some?;
      assert forall i :: i in h.store.editors <==> EditorNow(h, i).Some?;
    }
  }
}
