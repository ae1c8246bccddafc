/**
 * What a shell's or a connector's capability may do: it acts on its own workspace alone, with the requests listed for
 * its role and no others.
 */
module NativeScopes {
  import opened Options
  import opened Surfaces
  import opened NativeHelper

  // --- What one workspace has ---------------------------------------------------------------------------------------

  function EditorOf(h: Helper, id: string): Option<Editor> {
    if id in h.store.editors then Some(h.store.editors[id]) else None
  }

  function HeardAt(h: Helper, id: string): Option<nat> {
    if id in h.previews.seen then Some(h.previews.seen[id]) else None
  }

  function PortsAt(h: Helper, id: string): Option<set<nat>> {
    if id in h.previews.ports then Some(h.previews.ports[id]) else None
  }

  function HandoffOf(h: Helper, id: string, k: nat): Option<Handoff> {
    if k in h.pending && h.pending[k].workspace == id then Some(h.pending[k]) else None
  }

  // The workspace's editor, its ports, its surfaces and its handoffs are as they were.
  ghost predicate Untouched(h: Helper, g: Helper, id: string) {
    && EditorOf(g, id) == EditorOf(h, id)
    && HeardAt(g, id) == HeardAt(h, id)
    && PortsAt(g, id) == PortsAt(h, id)
    && (forall key: Key :: key.workspace == id ==> Look(g.entries, key) == Look(h.entries, key))
    && (forall k :: HandoffOf(g, id, k) == HandoffOf(h, id, k))
  }

  // Nothing but this one workspace was acted on, none appeared or disappeared, and no capability changed.
  ghost predicate StaysWithin(h: Helper, g: Helper, own: Option<string>) {
    && (forall id :: Some(id) != own ==> Untouched(h, g, id))
    && g.store.editors.Keys == h.store.editors.Keys
    && (g.store.selected == h.store.selected || (own.Some? && g.store.selected == own))
    && g.caps == h.caps && g.requests == h.requests
    && (forall k :: k in h.pending ==> k in g.pending && g.pending[k] == h.pending[k])
  }

  // --- What a role may ask ------------------------------------------------------------------------------------------

  // The requests listed for a shell and for a connector of workspace `own`.
  predicate Listed(role: Role, own: Option<string>, r: Request) {
    match r
    case List => false
    case Create(_) => false
    case Rename(_) => false
    case Remove(_) => false
    case Get(id) => role == Shell && own == Some(id)
    case Select(id) => role == Shell && own == Some(id)
    case ListPorts(id) => role == Shell && own == Some(id)
    case Launch(id, _, _) => role == Shell && own == Some(id)
    case Report(id, state) => role == Connector && own == Some(id) && state in {Active, Unknown}
    case Register(id, _) => role == Connector && own == Some(id)
    case Unregister(id, _) => role == Connector && own == Some(id)
    case OnSurface(op) =>
      && role == Shell && own == Some(op.key.workspace)
      && (match op.kind
          case Code => true
          case Preview => true
          case Browser => op.verb != Status)
  }

  // The workspace a request is about, if it is about one.
  predicate IsAbout(r: Request, id: string) {
    match r
    case List => false
    case Create(_) => false
    case Get(i) => i == id
    case Rename(i) => i == id
    case Select(i) => i == id
    case Remove(i) => i == id
    case Report(i, _) => i == id
    case Register(i, _) => i == id
    case Unregister(i, _) => i == id
    case ListPorts(i) => i == id
    case Launch(i, _, _) => i == id
    case OnSurface(op) => op.key.workspace == id
  }

  lemma OperateNeverForbids(h: Helper, cap: Capability, r: Request, own: nat, took: nat)
    requires Drawable(h, r) && (WorkspaceOf(r).Some? ==> WorkspaceOf(r).value in h.store.editors)
    ensures Operate(h, cap, r, own, took).answer !in {Err(Forbidden), Err(WorkspaceNotFound)}
  {
  }

  /**
   * A request is forbidden exactly when a shell or a connector asks what is not listed for it, or of a workspace not
   * its own; it then changes nothing. What is not forbidden is refused for want of its workspace exactly when that does
   * not exist.
   */
  lemma ForbiddenExactly(h: Helper, cap: Capability, r: Request, own: nat, took: nat)
    requires Drawable(h, r)
    ensures var reply := Perform(h, cap, r, own, took);
      && (reply.answer == Err(Forbidden) <==> cap.role in {Shell, Connector} && !Listed(cap.role, cap.workspace, r))
      && (reply.answer == Err(Forbidden) ==> reply.state == h)
      && (reply.answer == Err(WorkspaceNotFound) <==>
            (cap.role == Admin || Listed(cap.role, cap.workspace, r))
            && exists id :: IsAbout(r, id) && id !in h.store.editors)
  {
    hide Operate, Refreshed;
    AuthorizesListed(cap, r);
    AboutIs(r);
    if Authorizes(cap, r) && (WorkspaceOf(r).Some? ==> WorkspaceOf(r).value in h.store.editors) {
      OperateNeverForbids(Refreshed(h, r), cap, r, own, took);
    }
    hide Authorizes, Listed, IsAbout, WorkspaceOf;
  }

  lemma AuthorizesListed(cap: Capability, r: Request)
    ensures Authorizes(cap, r) <==> cap.role == Admin || Listed(cap.role, cap.workspace, r)
  {
  }

  lemma AboutIs(r: Request)
    ensures forall id :: IsAbout(r, id) <==> WorkspaceOf(r) == Some(id)
  {
  }

  // --- What a scoped request changes --------------------------------------------------------------------------------

  // What leaves every other workspace's part of each table alone stays within one workspace.
  lemma PartsStay(h: Helper, g: Helper, id: string)
    requires g.store.editors.Keys == h.store.editors.Keys && g.store.editors - {id} == h.store.editors - {id}
    requires g.store.selected == h.store.selected && g.caps == h.caps && g.requests == h.requests
    requires g.previews.seen - {id} == h.previews.seen - {id} && g.previews.ports - {id} == h.previews.ports - {id}
    requires forall key: Key :: key.workspace != id ==> Look(g.entries, key) == Look(h.entries, key)
    requires forall k :: k in h.pending ==> k in g.pending && g.pending[k] == h.pending[k]
    requires forall k :: k in g.pending && k !in h.pending ==> g.pending[k].workspace == id
    ensures StaysWithin(h, g, Some(id))
  {
    hide Look;
    forall other | other != id
      ensures Untouched(h, g, other)
    {
      assert EditorOf(g, other) == EditorOf(h, other) by { SameElsewhere(g.store.editors, h.store.editors, id, other); }
      assert HeardAt(g, other) == HeardAt(h, other) by { SameElsewhere(g.previews.seen, h.previews.seen, id, other); }
      assert PortsAt(g, other) == PortsAt(h, other) by { SameElsewhere(g.previews.ports, h.previews.ports, id, other); }
    }
  }

  lemma SameElsewhere<T>(a: map<string, T>, b: map<string, T>, id: string, other: string)
    requires a - {id} == b - {id} && other != id
    ensures (other in a <==> other in b) && (other in a ==> a[other] == b[other])
  {
    assert other in a <==> other in a - {id};
    assert other in b <==> other in b - {id};
    assert other in a ==> (a - {id})[other] == a[other];
    assert other in b ==> (b - {id})[other] == b[other];
  }

  lemma RefreshStays(h: Helper, id: string)
    requires id in h.store.editors
    ensures StaysWithin(h, Refresh(h, id), Some(id))
  {
    PartsStay(h, Refresh(h, id), id);
    hide StaysWithin, Look;
  }

  lemma ReportStays(h: Helper, id: string, state: Editor, role: Role, took: nat)
    requires id in h.store.editors
    ensures StaysWithin(h, SetReport(h, id, state, role, took), Some(id))
  {
    hide StaysWithin, Look;
    PartsStay(h, SetReport(h, id, state, role, took), id);
  }

  predicate PortsOnly(h: Helper, g: Helper, id: string) {
    && g == h.(previews := g.previews, log := g.log)
    && (g.previews == h.previews
        || (id in g.previews.ports
            && g.previews == h.previews.(ports := h.previews.ports[id := g.previews.ports[id]])))
  }

  lemma PortsAre(h: Helper, id: string, port: nat, own: nat)
    requires id in h.store.editors
    ensures PortsOnly(h, RegisterPort(h, id, port, own).state, id)
    ensures PortsOnly(h, UnregisterPort(h, id, port, own).state, id)
  {
    hide Ports;
  }

  lemma PortsStay(h: Helper, id: string, port: nat, own: nat)
    requires id in h.store.editors
    ensures StaysWithin(h, RegisterPort(h, id, port, own).state, Some(id))
    ensures StaysWithin(h, UnregisterPort(h, id, port, own).state, Some(id))
  {
    hide StaysWithin, Look, RegisterPort, UnregisterPort;
    PortsAre(h, id, port, own);
    PartsStay(h, RegisterPort(h, id, port, own).state, id);
    PartsStay(h, UnregisterPort(h, id, port, own).state, id);
  }

  lemma LaunchStays(h: Helper, id: string, target: Target, handoff: nat)
    requires id in h.store.editors && handoff !in h.pending
    ensures StaysWithin(h, LaunchSurface(h, id, target, handoff).state, Some(id))
  {
    hide StaysWithin, Look, LaunchSurface;
    LaunchIs(h, id, target, handoff);
    PartsStay(h, LaunchSurface(h, id, target, handoff).state, id);
  }

  lemma LaunchIs(h: Helper, id: string, target: Target, handoff: nat)
    requires id in h.store.editors && handoff !in h.pending
    ensures var g := LaunchSurface(h, id, target, handoff).state;
      && g == h.(store := g.store, pending := g.pending, log := g.log) && g.store.selected == h.store.selected
      && (g.store.editors == h.store.editors || g.store.editors == h.store.editors[id := Unknown])
      && (g.pending == h.pending
          || (handoff in g.pending && g.pending == h.pending[handoff := g.pending[handoff]]
              && g.pending[handoff].workspace == id))
  {
    hide Ports;
  }

  lemma SurfaceStays(h: Helper, op: Operation)
    ensures StaysWithin(h, AcceptSurface(h, op).state, Some(op.key.workspace))
  {
    hide StaysWithin, AcceptSurface;
    SurfaceIs(h, op);
    PartsStay(h, AcceptSurface(h, op).state, op.key.workspace);
  }

  lemma SurfaceIs(h: Helper, op: Operation)
    ensures var g := AcceptSurface(h, op).state;
      && g == h.(entries := g.entries, log := g.log)
      && (g.entries == h.entries || (op.key in g.entries && g.entries == h.entries[op.key := g.entries[op.key]]))
  {
    hide WantedPort, Judge, Ports, Look;
  }

  lemma SurfaceIsQuiet(h: Helper, op: Operation)
    ensures QuietOnPorts(h, AcceptSurface(h, op).state)
  {
    hide WantedPort, Judge, Ports, Look;
  }

  lemma SelectStays(h: Helper, id: string)
    requires id in h.store.editors
    ensures StaysWithin(h, h.(store := h.store.(selected := Some(id))), Some(id))
  {
    hide Look;
  }

  lemma OperateStays(h: Helper, cap: Capability, r: Request, id: string, own: nat, took: nat)
    requires Drawable(h, r) && WorkspaceOf(r) == Some(id) && id in h.store.editors && !r.Remove?
    ensures StaysWithin(h, Operate(h, cap, r, own, took).state, Some(id))
  {
    hide StaysWithin, SetReport, RegisterPort, UnregisterPort, LaunchSurface, AcceptSurface;
    SameStays(h, Some(id));
    match r
    case Select(_) => SelectStays(h, id);
    case Report(_, state) => ReportStays(h, id, state, cap.role, took);
    case Register(_, port) => PortsStay(h, id, port, own);
    case Unregister(_, port) => PortsStay(h, id, port, own);
    case Launch(_, target, handoff) => LaunchStays(h, id, target, handoff);
    case OnSurface(op) => SurfaceStays(h, op);
    case _ =>
  }

  lemma StaysTwice(a: Helper, b: Helper, c: Helper, own: Option<string>)
    requires StaysWithin(a, b, own) && StaysWithin(b, c, own)
    ensures StaysWithin(a, c, own)
  {
    hide EditorOf, HeardAt, PortsAt, HandoffOf, Look;
  }

  /** Whatever a shell or a connector asks, it touches no workspace but its own, and makes and removes none. */
  lemma ScopedStaysWithin(h: Helper, cap: Capability, r: Request, own: nat, took: nat)
    requires Drawable(h, r) && cap.role in {Shell, Connector}
    ensures StaysWithin(h, Perform(h, cap, r, own, took).state, cap.workspace)
  {
    hide StaysWithin, Refresh, Operate, Listed;
    AuthorizesListed(cap, r);
    if Listed(cap.role, cap.workspace, r) && cap.workspace.Some? && cap.workspace.value in h.store.editors {
      ListedIsOwn(cap.role, cap.workspace, r);
      hide Authorizes;
      var id := cap.workspace.value;
      RefreshStays(h, id);
      OperateStays(Refreshed(h, r), cap, r, id, own, took);
      StaysTwice(h, Refreshed(h, r), Operate(Refreshed(h, r), cap, r, own, took).state, cap.workspace);
    } else {
      if Listed(cap.role, cap.workspace, r) {
        ListedIsOwn(cap.role, cap.workspace, r);
      }
      SameStays(h, cap.workspace);
    }
  }

  lemma SameStays(h: Helper, own: Option<string>)
    ensures StaysWithin(h, h, own)
  {
  }

  // --- What each role leaves alone ----------------------------------------------------------------------------------

  // No editor was reported, no port registered or taken back, no workspace removed.
  ghost predicate QuietOnPorts(h: Helper, g: Helper) {
    && h.log <= g.log
    && forall i :: |h.log| <= i < |g.log| ==>
         !g.log[i].Reported? && !g.log[i].Registered? && !g.log[i].Unregistered? && !g.log[i].Removed?
  }

  predicate OverdueNow(h: Helper, id: string) {
    && EditorOf(h, id) == Some(Active)
    && h.clock >= (if HeardAt(h, id).Some? then HeardAt(h, id).value else 0) + 45_000
  }

  // The workspace's editor, once seen to be overdue.
  function EditorNow(h: Helper, id: string): Option<Editor> {
    if OverdueNow(h, id) then Some(Unknown) else EditorOf(h, id)
  }

  lemma RefreshShows(h: Helper, id: string)
    requires id in h.store.editors
    ensures var g := Refresh(h, id);
      && g == h.(store := g.store, previews := g.previews) && g.store.selected == h.store.selected
      && g.previews.seen == h.previews.seen
      && EditorOf(g, id) == EditorNow(h, id)
      && PortsAt(g, id) == if OverdueNow(h, id) then None else PortsAt(h, id)
  {
  }

  lemma ShellOperates(h: Helper, cap: Capability, r: Request, id: string, own: nat, took: nat)
    requires Drawable(h, r) && WorkspaceOf(r) == Some(id) && id in h.store.editors && Listed(Shell, Some(id), r)
    ensures var g := Operate(h, cap, r, own, took).state;
      && QuietOnPorts(h, g) && g.previews == h.previews
      && EditorOf(g, id)
         == if r.Launch? && r.target == CodeTarget && h.store.editors[id] == Editor.Closed then Some(Unknown)
            else EditorOf(h, id)
  {
    hide AcceptSurface, LaunchSurface;
    match r
    case OnSurface(op) => SurfaceIs(h, op); SurfaceIsQuiet(h, op);
    case Launch(_, target, handoff) => LaunchShows(h, id, target, handoff);
    case _ =>
  }

  lemma LaunchShows(h: Helper, id: string, target: Target, handoff: nat)
    requires id in h.store.editors && handoff !in h.pending
    ensures var g := LaunchSurface(h, id, target, handoff).state;
      && QuietOnPorts(h, g) && g.previews == h.previews
      && EditorOf(g, id)
         == if target == CodeTarget && h.store.editors[id] == Editor.Closed then Some(Unknown) else EditorOf(h, id)
  {
    hide Ports;
  }

  /**
   * A shell never reports an editor and never adds or takes back a port: the ports of its own workspace go only because
   * its editor has not been heard for 45 s, and the editor becomes unknown only then, or when it was closed and Code is
   * launched.
   */
  lemma ShellLeavesPorts(h: Helper, cap: Capability, r: Request, id: string, own: nat, took: nat)
    requires Drawable(h, r) && cap.role == Shell && cap.workspace == Some(id) && id in h.store.editors
    requires Listed(Shell, Some(id), r)
    ensures var g := Perform(h, cap, r, own, took).state;
      && QuietOnPorts(h, g)
      && g.previews.seen == h.previews.seen
      && PortsAt(g, id) == (if OverdueNow(h, id) then None else PortsAt(h, id))
      && EditorOf(g, id) == (if r.Launch? && r.target == CodeTarget && h.store.editors[id] == Editor.Closed
                             then Some(Unknown) else EditorNow(h, id))
  {
    hide Refresh, Operate, Listed, OverdueNow;
    AuthorizesListed(cap, r);
    ListedIsOwn(Shell, Some(id), r);
    RefreshShows(h, id);
    ShellOperates(Refreshed(h, r), cap, r, id, own, took);
    hide Authorizes;
  }

  lemma ListedIsOwn(role: Role, own: Option<string>, r: Request)
    requires Listed(role, own, r)
    ensures own.Some? && WorkspaceOf(r) == own && !r.Remove?
  {
  }

  lemma ConnectorOperates(h: Helper, cap: Capability, r: Request, id: string, own: nat, took: nat)
    requires Drawable(h, r) && WorkspaceOf(r) == Some(id) && id in h.store.editors && Listed(Connector, Some(id), r)
    ensures var reply := Operate(h, cap, r, own, took); var g := reply.state;
      && g.store.selected == h.store.selected && g.entries == h.entries && g.pending == h.pending
      && EditorOf(g, id) == (if r.Report? then Some(r.state) else EditorOf(h, id))
      && (r.Report? ==> reply.answer.Ok?)
  {
    hide Ports;
  }

  /**
   * A connector selects nothing and touches no surface and no handoff. Its report is the editor's state, which is never
   * that it closed.
   */
  lemma ConnectorOnlyReports(h: Helper, cap: Capability, r: Request, id: string, own: nat, took: nat)
    requires Drawable(h, r) && cap.role == Connector && cap.workspace == Some(id) && id in h.store.editors
    requires Listed(Connector, Some(id), r)
    ensures var reply := Perform(h, cap, r, own, took); var g := reply.state;
      && g.store.selected == h.store.selected && g.entries == h.entries && g.pending == h.pending
      && EditorOf(g, id) == (if r.Report? then Some(r.state) else EditorNow(h, id))
      && (r.Report? ==> reply.answer.Ok? && r.state in {Active, Unknown})
  {
    AuthorizesListed(cap, r);
    ListedIsOwn(Connector, Some(id), r);
    hide Refresh, Operate, OverdueNow, Authorizes;
    RefreshShows(h, id);
    ConnectorOperates(Refreshed(h, r), cap, r, id, own, took);
  }

  // --- Every run ----------------------------------------------------------------------------------------------------

  // Whoever may ask: the admin, or a shell or connector of one workspace.
  ghost predicate Scoped(caps: map<nat, Capability>) {
    forall n :: n in caps ==> caps[n].role == Admin || caps[n].workspace.Some?
  }

  lemma NextKeepsScoped(h: Helper, t: Turn)
    requires Scoped(h.caps) && Scoped(h.requests)
    ensures Scoped(Next(h, t).caps) && Scoped(Next(h, t).requests)
  {
    if t.Performs? {
      if t.request in h.requests && Drawable(h, t.r) {
        hide Perform, Next;
        PerformsIs(h, t.request, t.r, t.own, t.took);
        PerformKeepsCaps(h.(requests := h.requests - {t.request}), h.requests[t.request], t.r, t.own, t.took);
      }
    } else if t.Mints? || t.Authenticates? {
      TokensKeepScoped(h, t);
    } else {
      hide Perform, Refresh;
    }
  }

  lemma TokensKeepScoped(h: Helper, t: Turn)
    requires Scoped(h.caps) && Scoped(h.requests) && (t.Mints? || t.Authenticates?)
    ensures Scoped(Next(h, t).caps) && Scoped(Next(h, t).requests)
  {
    assert Scoped(Prune(h.caps, h.clock));
    hide Prune;
  }

  ghost predicate NoNewCaps(h: Helper, g: Helper) {
    g.requests == h.requests && forall n :: n in g.caps ==> n in h.caps && g.caps[n] == h.caps[n]
  }

  lemma PerformKeepsCaps(h: Helper, cap: Capability, r: Request, own: nat, took: nat)
    requires Drawable(h, r)
    ensures NoNewCaps(h, Perform(h, cap, r, own, took).state)
  {
    hide Authorizes, Refresh, Operate, StaysWithin;
    if WorkspaceOf(r).Some? ==> WorkspaceOf(r).value in h.store.editors {
      RefreshKeepsCaps(h, r);
      OperateKeepsCaps(Refreshed(h, r), cap, r, own, took);
    }
  }

  lemma RefreshKeepsCaps(h: Helper, r: Request)
    requires Drawable(h, r) && (WorkspaceOf(r).Some? ==> WorkspaceOf(r).value in h.store.editors)
    ensures Refreshed(h, r).caps == h.caps && Refreshed(h, r).requests == h.requests
  {
  }

  lemma OperateKeepsCaps(h: Helper, cap: Capability, r: Request, own: nat, took: nat)
    requires Drawable(h, r) && (WorkspaceOf(r).Some? ==> WorkspaceOf(r).value in h.store.editors)
    ensures NoNewCaps(h, Operate(h, cap, r, own, took).state)
  {
    if WorkspaceOf(r).Some? && !r.Remove? {
      OperateStays(h, cap, r, WorkspaceOf(r).value, own, took);
      hide Operate, Untouched;
    } else {
      hide RefreshAll;
      assert RefreshAll(h).caps == h.caps && RefreshAll(h).requests == h.requests by { AllKeepsCaps(h); }
    }
  }

  lemma AllKeepsCaps(h: Helper)
    ensures RefreshAll(h).caps == h.caps && RefreshAll(h).requests == h.requests
  {
  }

  lemma {:induction false} EveryRunIsScoped(admin: nat, turns: seq<Turn>)
    ensures Scoped(RunHelper(admin, turns).caps) && Scoped(RunHelper(admin, turns).requests)
  {
    if turns == [] {
    } else {
      EveryRunIsScoped(admin, turns[..|turns| - 1]);
      NextKeepsScoped(RunHelper(admin, turns[..|turns| - 1]), turns[|turns| - 1]);
    }
  }

  // A turn that is not of workspace `id`: time, capabilities, and what others' shells and connectors ask.
  ghost predicate Elsewhere(h: Helper, t: Turn, id: string) {
    match t
    case Passes(_) => true
    case Mints(_, _, _) => true
    case Authenticates(_, _) => true
    case Shows(other) => other != id
    case Performs(request, _, _, _) =>
      request in h.requests ==> h.requests[request].role != Admin && h.requests[request].workspace != Some(id)
    case _ => false
  }

  ghost predicate AllElsewhere(h: Helper, turns: seq<Turn>, id: string) {
    turns == [] || (AllElsewhere(h, turns[..|turns| - 1], id)
                    && Elsewhere(After(h, turns[..|turns| - 1]), turns[|turns| - 1], id))
  }

  function After(h: Helper, turns: seq<Turn>): Helper {
    if turns == [] then h else Next(After(h, turns[..|turns| - 1]), turns[|turns| - 1])
  }

  ghost predicate Kept(h: Helper, g: Helper, id: string) {
    Untouched(h, g, id) && (h.store.selected == Some(id) || g.store.selected != Some(id))
  }

  lemma ElsewhereKeeps(h: Helper, t: Turn, id: string)
    requires Elsewhere(h, t, id)
    ensures Kept(h, Next(h, t), id)
  {
    match t
    case Performs(request, r, own, took) =>
      if request in h.requests && Drawable(h, r) {
        OthersRequestKeeps(h, request, r, own, took, id);
      } else {
        IdlePerforms(h, request, r, own, took);
        hide Next;
      }
    case Shows(other) =>
      ShowsIs(h, other, 0);
      if other in h.store.editors {
        hide Next, Refresh;
        RefreshStays(h, other);
        RefreshShows(h, other);
      }
    case _ => OnlyTimeOrCaps(h, t, id);
  }

  lemma OnlyTimeOrCaps(h: Helper, t: Turn, id: string)
    requires t.Passes? || t.Mints? || t.Authenticates?
    ensures var g := Next(h, t); g == h.(caps := g.caps, requests := g.requests, clock := g.clock)
    ensures Kept(h, Next(h, t), id)
  {
    hide Prune, Look;
  }

  lemma OthersRequestKeeps(h: Helper, request: nat, r: Request, own: nat, took: nat, id: string)
    requires request in h.requests && Drawable(h, r)
    requires h.requests[request].role != Admin && h.requests[request].workspace != Some(id)
    ensures Kept(h, Next(h, Performs(request, r, own, took)), id)
  {
    hide Perform, Next;
    PerformsIs(h, request, r, own, took);
    ScopedStaysWithin(h.(requests := h.requests - {request}), h.requests[request], r, own, took);
    hide Look;
  }

  /**
   * However long others' shells and connectors ask, and however much time passes, a workspace's editor, ports, surfaces
   * and handoffs stay what they were, and it is not selected.
   */
  lemma {:induction false} OthersCannotTouch(h: Helper, turns: seq<Turn>, id: string)
    requires AllElsewhere(h, turns, id)
    ensures Kept(h, After(h, turns), id)
  {
    if turns == [] {
    } else {
      OthersCannotTouch(h, turns[..|turns| - 1], id);
      ElsewhereKeeps(After(h, turns[..|turns| - 1]), turns[|turns| - 1], id);
      hide Next, Elsewhere, Look, EditorOf, HeardAt, PortsAt, HandoffOf;
    }
  }

  /** In every run, a request held under a shell's or a connector's capability touches its one workspace alone. */
  lemma EveryScopedRequest(admin: nat, turns: seq<Turn>, request: nat, r: Request, own: nat, took: nat)
    requires request in RunHelper(admin, turns).requests && RunHelper(admin, turns).requests[request].role != Admin
    requires Drawable(RunHelper(admin, turns), r)
    ensures var h := RunHelper(admin, turns);
      && h.requests[request].workspace.Some?
      && StaysWithin(h.(requests := h.requests - {request}),
                     RunHelper(admin, turns + [Performs(request, r, own, took)]),
                     h.requests[request].workspace)
  {
    var h := RunHelper(admin, turns);
    EveryRunIsScoped(admin, turns);
    assert (turns + [Performs(request, r, own, took)])[..|turns|] == turns;
    hide Next, Perform, StaysWithin;
    PerformsIs(h, request, r, own, took);
    ScopedStaysWithin(h.(requests := h.requests - {request}), h.requests[request], r, own, took);
  }
}
