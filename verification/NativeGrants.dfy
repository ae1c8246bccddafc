/**
 * What the native helper's history says about each preview grant and each removal.
 */
module NativeGrants {
  import opened Options
  import opened Surfaces
  import opened NativeHelper
  import opened NativeIntegrity

  // What ends every grant of a workspace.
  predicate Ends(e: Event, id: string) {
    e == Removed(id) || e == Restarted || (e.Reported? && e.workspace == id && e.state != Active)
  }

  predicate Quiet(log: seq<Event>, after: int, id: string)
    requires -1 <= after
  {
    forall k :: after < k < |log| ==> !Ends(log[k], id)
  }

  // The active beat at `b` keeps the editor alive at moment `u`: it had begun to arrive, and was less than 45 s old.
  predicate Beats(log: seq<Event>, b: nat, id: string, u: nat)
    requires b < |log|
  {
    && log[b].Reported? && log[b].workspace == id && log[b].state == Active && Quiet(log, b, id)
    && log[b].from <= u < log[b].at + EDITOR_MS
  }

  ghost predicate Alive(log: seq<Event>, id: string, u: nat) {
    exists b: nat :: b < |log| && Beats(log, b, id, u)
  }

  // The port registered at `r` is still held, and its editor was alive from then on, up to but not at `until`.
  ghost predicate Held(log: seq<Event>, r: nat, id: string, port: nat, until: nat)
    requires r < |log|
  {
    && log[r].Registered? && log[r].workspace == id && log[r].port == port
    && (forall k :: r < k < |log| ==> !Ends(log[k], id) && log[k] != Unregistered(id, port))
    && (forall u: nat :: log[r].at <= u < until ==> Alive(log, id, u))
  }

  ghost predicate HeldUntil(log: seq<Event>, id: string, port: nat, until: nat) {
    exists r: nat :: r < |log| && Held(log, r, id, port, until)
  }

  // A grant at `k`: the port had been registered, and its editor alive at every moment from then to the grant.
  ghost predicate Justified(log: seq<Event>, k: nat)
    requires k < |log| && log[k].Granted?
  {
    HeldUntil(log[..k], log[k].workspace, log[k].port, log[k].at + 1)
  }

  // The last beat of an active editor.
  ghost predicate LastBeat(log: seq<Event>, id: string, at: nat, clock: nat) {
    exists b: nat :: b < |log| && log[b].Reported? && log[b].workspace == id && log[b].state == Active
        && Quiet(log, b, id)
      && log[b].at == at && log[b].from <= clock
  }

  ghost predicate PortsEarned(p: Previews, log: seq<Event>) {
    forall id, port :: id in p.ports && port in p.ports[id] ==> HeldUntil(log, id, port, Seen(p, id) + EDITOR_MS)
  }

  ghost predicate BeatsKept(editors: map<string, Editor>, p: Previews, log: seq<Event>, clock: nat) {
    forall id :: id in editors && editors[id] == Active ==> LastBeat(log, id, Seen(p, id), clock)
  }

  ghost predicate GrantsJustified(log: seq<Event>) {
    forall k :: 0 <= k < |log| && log[k].Granted? ==> Justified(log, k)
  }

  ghost predicate Earned(h: Helper) {
    && PortsEarned(h.previews, h.log)
    && BeatsKept(h.store.editors, h.previews, h.log, h.clock)
    && GrantsJustified(h.log)
  }

  // --- How one more event leaves what the history says --------------------------------------------------------------

  lemma AliveGrows(log: seq<Event>, e: Event, id: string, u: nat)
    requires Alive(log, id, u) && !Ends(e, id)
    ensures Alive(log + [e], id, u)
  {
    var b: nat :| b < |log| && Beats(log, b, id, u);
    assert Beats(log + [e], b, id, u);
  }

  lemma HeldGrows(log: seq<Event>, e: Event, id: string, port: nat, until: nat)
    requires HeldUntil(log, id, port, until) && !Ends(e, id) && e != Unregistered(id, port)
    ensures HeldUntil(log + [e], id, port, until)
  {
    var r: nat :| r < |log| && Held(log, r, id, port, until);
    var after := log + [e];
    forall u: nat | after[r].at <= u < until ensures Alive(after, id, u) {
      assert Alive(log, id, u);
      AliveGrows(log, e, id, u);
    }
    assert Held(after, r, id, port, until);
  }

  // A beat in time extends what its editor's ports are good for.
  lemma BeatExtends(log: seq<Event>, id: string, port: nat, until: nat, role: Role, from: nat, at: nat)
    requires HeldUntil(log, id, port, until) && from < until && from <= at
    ensures HeldUntil(log + [Reported(id, Active, role, from, at)], id, port, at + EDITOR_MS)
  {
    var e := Reported(id, Active, role, from, at);
    var after := log + [e];
    HeldGrows(log, e, id, port, until);
    var r: nat :| r < |after| && Held(after, r, id, port, until);
    forall u: nat | after[r].at <= u < at + EDITOR_MS ensures Alive(after, id, u) {
      if until <= u { assert Beats(after, |log|, id, u); }
    }
    assert Held(after, r, id, port, at + EDITOR_MS);
  }

  lemma LastBeatGrows(log: seq<Event>, e: Event, id: string, at: nat, clock: nat, later: nat)
    requires LastBeat(log, id, at, clock) && !Ends(e, id) && clock <= later
    ensures LastBeat(log + [e], id, at, later)
  {
    var b: nat :| b < |log| && log[b].Reported? && log[b].workspace == id && log[b].state == Active && Quiet(log, b, id)
      && log[b].at == at && log[b].from <= clock;
    assert (log + [e])[b] == log[b] && Quiet(log + [e], b, id);
  }

  lemma JustifiedGrows(log: seq<Event>, e: Event)
    requires GrantsJustified(log)
    requires e.Granted? ==> HeldUntil(log, e.workspace, e.port, e.at + 1)
    ensures GrantsJustified(log + [e])
  {
    var after := log + [e];
    forall k | 0 <= k < |after| && after[k].Granted? ensures Justified(after, k) {
      if k < |log| {
        assert Justified(log, k);
        assert after[..k] == log[..k];
      } else {
        assert after[..k] == log;
      }
    }
  }

  // A new registration is good for as long as the last beat.
  lemma RegistrationHeld(log: seq<Event>, id: string, port: nat, at: nat, now: nat)
    requires LastBeat(log, id, at, now)
    ensures HeldUntil(log + [Registered(id, port, now)], id, port, at + EDITOR_MS)
  {
    var e := Registered(id, port, now);
    var after := log + [e];
    var b: nat :| b < |log| && log[b].Reported? && log[b].workspace == id && log[b].state == Active && Quiet(log, b, id)
      && log[b].at == at && log[b].from <= now;
    assert Quiet(after, b, id);
    forall u: nat | now <= u < at + EDITOR_MS ensures Alive(after, id, u) {
      assert Beats(after, b, id, u);
    }
    assert Held(after, |log|, id, port, at + EDITOR_MS);
  }

  // An event that ends nothing leaves the ports and the beats as they were.
  lemma MildEvent(h: Helper, e: Event)
    requires Earned(h)
    requires (e.CodeAsked? || e.Registered?) || (e.Granted? && HeldUntil(h.log, e.workspace, e.port, e.at + 1))
    ensures PortsEarned(h.previews, h.log + [e])
    ensures BeatsKept(h.store.editors, h.previews, h.log + [e], h.clock)
    ensures GrantsJustified(h.log + [e])
  {
    forall id, port | id in h.previews.ports && port in h.previews.ports[id]
      ensures HeldUntil(h.log + [e], id, port, Seen(h.previews, id) + EDITOR_MS)
    {
      HeldGrows(h.log, e, id, port, Seen(h.previews, id) + EDITOR_MS);
    }
    forall id | id in h.store.editors && h.store.editors[id] == Active
      ensures LastBeat(h.log + [e], id, Seen(h.previews, id), h.clock)
    {
      LastBeatGrows(h.log, e, id, Seen(h.previews, id), h.clock, h.clock);
    }
    JustifiedGrows(h.log, e);
  }

  lemma HeldSooner(log: seq<Event>, id: string, port: nat, until: nat, sooner: nat)
    requires HeldUntil(log, id, port, until) && sooner <= until
    ensures HeldUntil(log, id, port, sooner)
  {
    var r: nat :| r < |log| && Held(log, r, id, port, until);
    assert Held(log, r, id, port, sooner);
  }

  // --- Each operation -----------------------------------------------------------------------------------------------

  lemma RefreshKeepsEarned(h: Helper, id: string)
    requires Earned(h) && id in h.store.editors
    ensures Earned(Refresh(h, id))
    ensures var g := Refresh(h, id);
      id in g.store.editors && (g.store.editors[id] == Active ==> g.clock < Seen(g.previews, id) + EDITOR_MS)
  {
    hide HeldUntil, LastBeat, GrantsJustified;
  }

  lemma RefreshAllKeepsEarned(h: Helper)
    requires Earned(h)
    ensures Earned(RefreshAll(h))
  {
    hide HeldUntil, LastBeat, GrantsJustified;
  }

  lemma BeatKeepsPorts(h: Helper, id: string, role: Role, took: nat)
    requires PortsEarned(h.previews, h.log) && (id in h.previews.ports ==> h.clock < Seen(h.previews, id) + EDITOR_MS)
    ensures PortsEarned(h.previews.(seen := h.previews.seen[id := h.clock + took]),
                        h.log + [Reported(id, Active, role, h.clock, h.clock + took)])
  {
    hide HeldUntil;
    var p := h.previews.(seen := h.previews.seen[id := h.clock + took]);
    var e := Reported(id, Active, role, h.clock, h.clock + took);
    forall i, port | i in p.ports && port in p.ports[i]
      ensures HeldUntil(h.log + [e], i, port, Seen(p, i) + EDITOR_MS)
    {
      if i == id {
        BeatExtends(h.log, id, port, Seen(h.previews, id) + EDITOR_MS, role, h.clock, h.clock + took);
      } else {
        HeldGrows(h.log, e, i, port, Seen(h.previews, i) + EDITOR_MS);
      }
    }
  }

  lemma BeatKeepsBeats(h: Helper, id: string, role: Role, took: nat)
    requires BeatsKept(h.store.editors, h.previews, h.log, h.clock)
    ensures BeatsKept(h.store.editors[id := Active], h.previews.(seen := h.previews.seen[id := h.clock + took]),
                      h.log + [Reported(id, Active, role, h.clock, h.clock + took)], h.clock + took)
  {
    hide LastBeat;
    var p := h.previews.(seen := h.previews.seen[id := h.clock + took]);
    var e := Reported(id, Active, role, h.clock, h.clock + took);
    var editors := h.store.editors[id := Active];
    forall i | i in editors && editors[i] == Active ensures LastBeat(h.log + [e], i, Seen(p, i), h.clock + took) {
      if i == id {
        FirstBeat(h.log, e);
      } else {
        LastBeatGrows(h.log, e, i, Seen(h.previews, i), h.clock, h.clock + took);
      }
    }
  }

  // An editor that is not overdue, and holds ports, was heard less than 45 s ago.
  lemma HeldInTime(h: Helper, id: string)
    requires Whole(h) && id in h.store.editors && !Overdue(h, id) && id in h.previews.ports
    ensures h.clock < Seen(h.previews, id) + EDITOR_MS
  {
    assert h.store.editors[id] == Active;
    hide StoreSound, PendingSound, EntriesSound, CapsSound;
  }

  lemma ActiveReportKeepsEarned(h: Helper, id: string, role: Role, took: nat)
    requires Earned(h) && Whole(h) && id in h.store.editors && !Overdue(h, id)
    ensures Earned(SetReport(h, id, Active, role, took))
  {
    hide PortsEarned, BeatsKept, GrantsJustified, Whole, Overdue, Seen;
    if id in h.previews.ports { HeldInTime(h, id); }
    BeatKeepsPorts(h, id, role, took);
    BeatKeepsBeats(h, id, role, took);
    JustifiedGrows(h.log, Reported(id, Active, role, h.clock, h.clock + took));
  }

  lemma FirstBeat(log: seq<Event>, e: Event)
    requires e.Reported? && e.state == Active && e.from <= e.at
    ensures LastBeat(log + [e], e.workspace, e.at, e.at)
  {
    assert (log + [e])[|log|] == e && Quiet(log + [e], |log|, e.workspace);
  }

  // An event that ends the grants of `id` alone, whose ports are gone.
  lemma EndingEvent(h: Helper, g: Helper, id: string, e: Event)
    requires Earned(h) && g.log == h.log + [e] && h.clock <= g.clock && !e.Granted? && !e.Unregistered?
    requires forall i :: i != id ==> !Ends(e, i)
    requires g.previews == Previews(h.previews.seen - {id}, h.previews.ports - {id})
    requires forall i :: i in g.store.editors && g.store.editors[i] == Active ==>
      i != id && i in h.store.editors && h.store.editors[i] == Active
    ensures Earned(g)
  {
    hide HeldUntil, LastBeat, GrantsJustified;
    forall i, port | i in g.previews.ports && port in g.previews.ports[i]
      ensures HeldUntil(g.log, i, port, Seen(g.previews, i) + EDITOR_MS)
    {
      HeldGrows(h.log, e, i, port, Seen(h.previews, i) + EDITOR_MS);
    }
    forall i | i in g.store.editors && g.store.editors[i] == Active
      ensures LastBeat(g.log, i, Seen(g.previews, i), g.clock)
    {
      LastBeatGrows(h.log, e, i, Seen(h.previews, i), h.clock, g.clock);
    }
    JustifiedGrows(h.log, e);
  }

  lemma ReportKeepsEarned(h: Helper, id: string, state: Editor, role: Role, took: nat)
    requires Earned(h) && Whole(h) && id in h.store.editors && !Overdue(h, id)
    ensures Earned(SetReport(h, id, state, role, took))
  {
    hide Earned, Whole;
    if state == Active {
      ActiveReportKeepsEarned(h, id, role, took);
    } else {
      EndingEvent(h, SetReport(h, id, state, role, took), id, Reported(id, state, role, h.clock, h.clock + took));
    }
  }

  lemma RemoveKeepsEarned(h: Helper, id: string)
    requires Earned(h) && id in h.store.editors
    ensures Earned(RemoveWorkspace(h, id).state)
  {
    var g := RemoveWorkspace(h, id).state;
    if g != h { EndingEvent(h, g, id, Removed(id)); }
  }

  lemma RegisterKeepsEarned(h: Helper, id: string, port: nat, own: nat)
    requires Earned(h) && id in h.store.editors
    ensures Earned(RegisterPort(h, id, port, own).state)
  {
    hide HeldUntil, LastBeat, GrantsJustified;
    var g := RegisterPort(h, id, port, own).state;
    if g != h {
      var e := Registered(id, port, h.clock);
      MildEvent(h, e);
      RegistrationHeld(h.log, id, port, Seen(h.previews, id), h.clock);
      forall i, p | i in g.previews.ports && p in g.previews.ports[i]
        ensures HeldUntil(g.log, i, p, Seen(g.previews, i) + EDITOR_MS)
      {
        if (i, p) != (id, port) { assert i in h.previews.ports && p in h.previews.ports[i]; }
      }
    }
  }

  lemma UnregisterKeepsEarned(h: Helper, id: string, port: nat, own: nat)
    requires Earned(h)
    ensures Earned(UnregisterPort(h, id, port, own).state)
  {
    hide HeldUntil, LastBeat, GrantsJustified;
    var g := UnregisterPort(h, id, port, own).state;
    if g != h {
      var e := Unregistered(id, port);
      forall i, p | i in g.previews.ports && p in g.previews.ports[i]
        ensures HeldUntil(g.log, i, p, Seen(g.previews, i) + EDITOR_MS)
      {
        assert i in h.previews.ports && p in h.previews.ports[i] && (i, p) != (id, port);
        HeldGrows(h.log, e, i, p, Seen(h.previews, i) + EDITOR_MS);
      }
      forall i | i in g.store.editors && g.store.editors[i] == Active
        ensures LastBeat(g.log, i, Seen(g.previews, i), g.clock)
      {
        LastBeatGrows(h.log, e, i, Seen(h.previews, i), h.clock, h.clock);
      }
      JustifiedGrows(h.log, e);
    }
  }

  lemma LaunchKeepsEarned(h: Helper, id: string, target: Target, handoff: nat)
    requires Earned(h) && id in h.store.editors && handoff !in h.pending
    ensures Earned(LaunchSurface(h, id, target, handoff).state)
  {
    hide HeldUntil, LastBeat, GrantsJustified;
    MildEvent(h, CodeAsked(id));
  }

  // The grant check passes only for a port its workspace holds, and only an active editor's workspace holds ports.
  lemma AcceptKeepsEarned(h: Helper, op: Operation)
    requires Earned(h) && Whole(h) && op.key.workspace in h.store.editors && !Overdue(h, op.key.workspace)
    ensures Earned(AcceptSurface(h, op).state)
  {
    hide HeldUntil, LastBeat, GrantsJustified;
    var id, port := op.key.workspace, WantedPort(h, op);
    if NeedsGrant(op) && port.Some? && port.value in Ports(h.previews, id) {
      HeldSooner(h.log, id, port.value, Seen(h.previews, id) + EDITOR_MS, h.clock + 1);
      MildEvent(h, Granted(id, port.value, h.clock));
    }
  }

  lemma OperateKeepsEarned(h: Helper, cap: Capability, r: Request, own: nat, took: nat)
    requires Earned(h) && Whole(h) && Drawable(h, r)
    requires WorkspaceOf(r).Some? ==> WorkspaceOf(r).value in h.store.editors && !Overdue(h, WorkspaceOf(r).value)
    ensures Earned(Operate(h, cap, r, own, took).state)
  {
    hide AcceptSurface, RemoveWorkspace, CreateWorkspace, LaunchSurface, RegisterPort, UnregisterPort, SetReport,
        RefreshAll,
         Whole, Earned, Overdue;
    match r
    case List => RefreshAllKeepsEarned(h);
    case Create(newId) => CreateKeepsEarned(h, newId);
    case Get(_) =>
    case Rename(_) =>
    case Select(id) => SelectKeepsEarned(h, id);
    case Remove(id) => RemoveKeepsEarned(h, id);
    case Report(id, state) => ReportKeepsEarned(h, id, state, cap.role, took);
    case Register(id, port) => RegisterKeepsEarned(h, id, port, own);
    case Unregister(id, port) => UnregisterKeepsEarned(h, id, port, own);
    case ListPorts(_) =>
    case Launch(id, target, handoff) => LaunchKeepsEarned(h, id, target, handoff);
    case OnSurface(op) => AcceptKeepsEarned(h, op);
  }

  lemma PerformKeepsEarned(h: Helper, cap: Capability, r: Request, own: nat, took: nat)
    requires Earned(h) && Whole(h) && Drawable(h, r)
    ensures Earned(Perform(h, cap, r, own, took).state)
  {
    hide Whole, Earned, Operate, Authorizes;
    if !Refused(h, cap, r) {
      if WorkspaceOf(r).Some? {
        RefreshKeepsEarned(h, WorkspaceOf(r).value);
        RefreshKeepsWhole(h, WorkspaceOf(r).value);
      }
      OperateKeepsEarned(Refreshed(h, r), cap, r, own, took);
    }
  }

  lemma CreateKeepsEarned(h: Helper, newId: string)
    requires Earned(h) && newId !in h.store.editors
    ensures Earned(CreateWorkspace(h, newId).state)
  {
    hide HeldUntil, LastBeat, GrantsJustified;
  }

  lemma SelectKeepsEarned(h: Helper, id: string)
    requires Earned(h)
    ensures Earned(h.(store := h.store.(selected := Some(id))))
  {
  }

  // Nothing that the history speaks of changes but the time.
  lemma PassingKeepsEarned(h: Helper, g: Helper)
    requires Earned(h) && g.store == h.store && g.previews == h.previews && g.log == h.log && g.clock >= h.clock
    ensures Earned(g)
  {
    hide PortsEarned, GrantsJustified;
    forall id | id in g.store.editors && g.store.editors[id] == Active
      ensures LastBeat(g.log, id, Seen(g.previews, id), g.clock)
    {
      assert LastBeat(h.log, id, Seen(h.previews, id), h.clock);
    }
  }

  lemma RestartKeepsEarned(h: Helper)
    requires Earned(h)
    ensures Earned(Restart(h))
  {
    JustifiedGrows(h.log, Restarted);
    hide HeldUntil, LastBeat, GrantsJustified;
  }

  lemma ServingKeepsEarned(h: Helper, request: nat, r: Request, own: nat, took: nat)
    requires Earned(h) && Whole(h)
    ensures Earned(Next(h, Performs(request, r, own, took)))
  {
    hide Earned, Next, Perform, StoreSound, PreviewsSound, PendingSound, EntriesSound, CapsSound;
    if request in h.requests && Drawable(h, r) {
      var g := h.(requests := h.requests - {request});
      assert Whole(g);
      hide Whole;
      PassingKeepsEarned(h, g);
      PerformsIs(h, request, r, own, took);
      PerformKeepsEarned(g, h.requests[request], r, own, took);
    } else {
      IdlePerforms(h, request, r, own, took);
    }
  }

  lemma NextKeepsEarned(h: Helper, t: Turn)
    requires Earned(h) && Whole(h)
    ensures Earned(Next(h, t))
  {
    hide Earned, Whole, Refresh, Restart, Perform, Prune;
    match t
    case Restarts => RestartKeepsEarned(h);
    case Shows(id) => if id in h.store.editors { RefreshKeepsEarned(h, id); }
    case Performs(request, r, own, took) => ServingKeepsEarned(h, request, r, own, took);
    case _ => PassingKeepsEarned(h, Next(h, t));
  }

  lemma {:induction false} EveryHistoryIsEarned(admin: nat, turns: seq<Turn>)
    ensures Earned(RunHelper(admin, turns))
  {
    if turns == [] {
    } else {
      EveryHistoryIsEarned(admin, turns[..|turns| - 1]);
      HelperStaysWhole(admin, turns[..|turns| - 1]);
      NextKeepsEarned(RunHelper(admin, turns[..|turns| - 1]), turns[|turns| - 1]);
    }
  }

  /**
   * In every run, a preview port is granted only if it was registered earlier, has not been unregistered since, and at
   * every moment from its registration to the grant an active beat less than 45 s old stood, with no other report, no
   * removal and no restart after it.
   */
  lemma GrantsRestOnBeats(admin: nat, turns: seq<Turn>, k: nat)
    requires k < |RunHelper(admin, turns).log| && RunHelper(admin, turns).log[k].Granted?
    ensures Justified(RunHelper(admin, turns).log, k)
  {
    EveryHistoryIsEarned(admin, turns);
  }

  /** A beat that comes 45 s late revives the editor without the ports it had. */
  lemma LateBeatRevokes(h: Helper, cap: Capability, id: string, own: nat, took: nat)
    requires id in h.store.editors && Overdue(h, id) && Authorizes(cap, Report(id, Active))
    ensures var g := Perform(h, cap, Report(id, Active), own, took).state;
      id in g.store.editors && g.store.editors[id] == Active && Ports(g.previews, id) == {}
  {
    var g := Refresh(h, id);
    assert id !in g.previews.ports && id !in SetReport(g, id, Active, cap.role, took).previews.ports;
  }
}
