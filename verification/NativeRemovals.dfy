/**
 * A Code launch and a removal never race: once a workspace's Code has been asked for, it is removed only after the
 * admin has reported its editor closed.
 */
module NativeRemovals {
  import opened Surfaces
  import opened NativeHelper

  predicate ClosedByAdmin(e: Event, id: string) {
    e.Reported? && e.workspace == id && e.state == Editor.Closed && e.role == Admin
  }

  ghost predicate ClosedAfter(log: seq<Event>, i: nat, id: string) {
    exists j :: i < j < |log| && ClosedByAdmin(log[j], id)
  }

  // A workspace that is closed or gone has been reported closed since its Code was last asked for.
  ghost predicate ClosuresKept(editors: map<string, Editor>, log: seq<Event>) {
    forall i :: 0 <= i < |log| && log[i].CodeAsked? ==>
      (log[i].workspace !in editors || editors[log[i].workspace] == Editor.Closed)
          ==> ClosedAfter(log, i, log[i].workspace)
  }

  ghost predicate RemovalsKept(log: seq<Event>) {
    forall i, k :: 0 <= i < k < |log| && log[i].CodeAsked? && log[k] == Removed(log[i].workspace) ==>
      ClosedAfter(log[..k], i, log[i].workspace)
  }

  ghost predicate Careful(h: Helper) {
    ClosuresKept(h.store.editors, h.log) && RemovalsKept(h.log)
  }

  lemma ClosedAfterGrows(log: seq<Event>, e: Event, i: nat, id: string)
    requires ClosedAfter(log, i, id)
    ensures ClosedAfter(log + [e], i, id)
  {
    var j :| i < j < |log| && ClosedByAdmin(log[j], id);
    assert ClosedByAdmin((log + [e])[j], id);
  }

  lemma RemovalsGrow(log: seq<Event>, e: Event)
    requires RemovalsKept(log)
    requires e.Removed? ==> forall i :: 0 <= i < |log| && log[i] == CodeAsked(e.workspace)
                             ==> ClosedAfter(log, i, e.workspace)
    ensures RemovalsKept(log + [e])
  {
    var after := log + [e];
    forall i, k | 0 <= i < k < |after| && after[i].CodeAsked? && after[k] == Removed(after[i].workspace)
      ensures ClosedAfter(after[..k], i, after[i].workspace)
    {
      assert after[..k] == if k < |log| then log[..k] else log;
      if k < |log| { assert log[k] == after[k] && log[i] == after[i]; }
    }
  }

  // No editor becomes closed and no workspace goes, except on an admin's report or when it was closed before.
  lemma EventKeepsCareful(h: Helper, g: Helper, e: Event)
    requires Careful(h) && g.log == h.log + [e]
    requires e.CodeAsked? ==> e.workspace in g.store.editors && g.store.editors[e.workspace] != Editor.Closed
    requires e.Removed? ==> e.workspace in h.store.editors && h.store.editors[e.workspace] == Editor.Closed
    requires forall id :: (id !in g.store.editors || g.store.editors[id] == Editor.Closed) ==>
      id !in h.store.editors || h.store.editors[id] == Editor.Closed || ClosedByAdmin(e, id)
    ensures Careful(g)
  {
    forall i | 0 <= i < |g.log| && g.log[i].CodeAsked?
        && (g.log[i].workspace !in g.store.editors || g.store.editors[g.log[i].workspace] == Editor.Closed)
      ensures ClosedAfter(g.log, i, g.log[i].workspace)
    {
      var id := g.log[i].workspace;
      assert i < |h.log| && h.log[i] == g.log[i];
      if ClosedByAdmin(e, id) {
        assert ClosedByAdmin(g.log[|h.log|], id);
      } else {
        ClosedAfterGrows(h.log, e, i, id);
      }
    }
    RemovalsGrow(h.log, e);
  }

  lemma QuietKeepsCareful(h: Helper, g: Helper)
    requires Careful(h) && g.log == h.log
    requires forall id :: (id !in g.store.editors || g.store.editors[id] == Editor.Closed) ==>
      id !in h.store.editors || h.store.editors[id] == Editor.Closed
    ensures Careful(g)
  {
  }

  lemma LaunchKeepsCareful(h: Helper, id: string, target: Target, handoff: nat)
    requires Careful(h) && id in h.store.editors && handoff !in h.pending
    ensures Careful(LaunchSurface(h, id, target, handoff).state)
  {
    hide Careful;
    var g := LaunchSurface(h, id, target, handoff).state;
    if target == CodeTarget { EventKeepsCareful(h, g, CodeAsked(id)); } else { QuietKeepsCareful(h, g); }
  }

  lemma AcceptKeepsCareful(h: Helper, op: Operation)
    requires Careful(h)
    ensures Careful(AcceptSurface(h, op).state)
  {
    hide Careful;
    var g := AcceptSurface(h, op).state;
    if g.log == h.log {
      QuietKeepsCareful(h, g);
    } else {
      EventKeepsCareful(h, g, Granted(op.key.workspace, WantedPort(h, op).value, h.clock));
    }
  }

  lemma OperateKeepsCareful(h: Helper, cap: Capability, r: Request, own: nat, took: nat)
    requires Careful(h) && Drawable(h, r) && (WorkspaceOf(r).Some? ==> WorkspaceOf(r).value in h.store.editors)
    requires Authorizes(cap, r)
    ensures Careful(Operate(h, cap, r, own, took).state)
  {
    hide Careful, AcceptSurface, LaunchSurface, RemoveWorkspace, SetReport, RegisterPort, UnregisterPort, RefreshAll;
    var after := Operate(h, cap, r, own, took).state;
    match r
    case List => RefreshAllKeepsCareful(h);
    case Create(_) => QuietKeepsCareful(h, after);
    case Get(_) =>
    case Rename(_) =>
    case Select(_) => QuietKeepsCareful(h, after);
    case Remove(id) => RemoveKeepsCareful(h, id);
    case Report(id, state) => ReportKeepsCareful(h, id, state, cap.role, took);
    case Register(id, port) => PortsKeepCareful(h, id, port, own);
    case Unregister(id, port) => PortsKeepCareful(h, id, port, own);
    case ListPorts(_) =>
    case Launch(id, target, handoff) => LaunchKeepsCareful(h, id, target, handoff);
    case OnSurface(op) => AcceptKeepsCareful(h, op);
  }

  lemma PerformKeepsCareful(h: Helper, cap: Capability, r: Request, own: nat, took: nat)
    requires Careful(h) && Drawable(h, r)
    ensures Careful(Perform(h, cap, r, own, took).state)
  {
    hide Careful, Operate, Authorizes, Refresh;
    if !Refused(h, cap, r) {
      if WorkspaceOf(r).Some? { RefreshKeepsCareful(h, WorkspaceOf(r).value); }
      OperateKeepsCareful(Refreshed(h, r), cap, r, own, took);
    }
  }

  lemma RefreshKeepsCareful(h: Helper, id: string)
    requires Careful(h) && id in h.store.editors
    ensures Careful(Refresh(h, id)) && id in Refresh(h, id).store.editors && Refresh(h, id).pending == h.pending
  {
    hide Careful;
    QuietKeepsCareful(h, Refresh(h, id));
  }

  lemma RefreshAllKeepsCareful(h: Helper)
    requires Careful(h)
    ensures Careful(RefreshAll(h))
  {
    hide Careful;
    QuietKeepsCareful(h, RefreshAll(h));
  }

  lemma RemoveKeepsCareful(h: Helper, id: string)
    requires Careful(h) && id in h.store.editors
    ensures Careful(RemoveWorkspace(h, id).state)
  {
    hide Careful;
    var g := RemoveWorkspace(h, id).state;
    if g != h { EventKeepsCareful(h, g, Removed(id)); }
  }

  lemma ReportKeepsCareful(h: Helper, id: string, state: Editor, role: Role, took: nat)
    requires Careful(h) && id in h.store.editors && (state == Editor.Closed ==> role == Admin)
    ensures Careful(SetReport(h, id, state, role, took))
  {
    hide Careful;
    EventKeepsCareful(h, SetReport(h, id, state, role, took), Reported(id, state, role, h.clock, h.clock + took));
  }

  lemma PortsKeepCareful(h: Helper, id: string, port: nat, own: nat)
    requires Careful(h) && id in h.store.editors
    ensures Careful(RegisterPort(h, id, port, own).state) && Careful(UnregisterPort(h, id, port, own).state)
  {
    hide Careful;
    var g, k := RegisterPort(h, id, port, own).state, UnregisterPort(h, id, port, own).state;
    if g != h { EventKeepsCareful(h, g, Registered(id, port, h.clock)); }
    if k != h { EventKeepsCareful(h, k, Unregistered(id, port)); }
  }

  lemma ServingKeepsCareful(h: Helper, request: nat, r: Request, own: nat, took: nat)
    requires Careful(h)
    ensures Careful(Next(h, Performs(request, r, own, took)))
  {
    hide Careful, Next, Perform;
    if request in h.requests && Drawable(h, r) {
      var g := h.(requests := h.requests - {request});
      QuietKeepsCareful(h, g);
      PerformsIs(h, request, r, own, took);
      PerformKeepsCareful(g, h.requests[request], r, own, took);
    } else {
      IdlePerforms(h, request, r, own, took);
    }
  }

  lemma RestartKeepsCareful(h: Helper)
    requires Careful(h)
    ensures Careful(Restart(h))
  {
    hide Careful;
    EventKeepsCareful(h, Restart(h), Restarted);
  }

  lemma NextKeepsCareful(h: Helper, t: Turn)
    requires Careful(h)
    ensures Careful(Next(h, t))
  {
    hide Careful, Perform, Restart, Refresh, Prune;
    match t
    case Restarts => RestartKeepsCareful(h);
    case Shows(id) => if id in h.store.editors { RefreshKeepsCareful(h, id); }
    case Performs(request, r, own, took) => ServingKeepsCareful(h, request, r, own, took);
    case _ => QuietKeepsCareful(h, Next(h, t));
  }

  lemma {:induction false} EveryHistoryIsCareful(admin: nat, turns: seq<Turn>)
    ensures Careful(RunHelper(admin, turns))
  {
    if turns == [] {
    } else {
      EveryHistoryIsCareful(admin, turns[..|turns| - 1]);
      NextKeepsCareful(RunHelper(admin, turns[..|turns| - 1]), turns[|turns| - 1]);
    }
  }

  /**
   * In every run: between asking for a workspace's Code, queued or refused as busy, and removing that workspace, the
   * admin reports its editor closed. A connector cannot make that report.
   */
  lemma RemovalAwaitsClosure(admin: nat, turns: seq<Turn>, i: nat, k: nat)
    requires i < k < |RunHelper(admin, turns).log|
    requires var log := RunHelper(admin, turns).log; log[i].CodeAsked? && log[k] == Removed(log[i].workspace)
    ensures var log := RunHelper(admin, turns).log;
      exists j :: i < j < k && ClosedByAdmin(log[j], log[i].workspace)
  {
    EveryHistoryIsCareful(admin, turns);
    var log := RunHelper(admin, turns).log;
    assert ClosedAfter(log[..k], i, log[i].workspace);
    var j :| i < j < k && ClosedByAdmin(log[..k][j], log[i].workspace);
    assert log[j] == log[..k][j];
  }
}
