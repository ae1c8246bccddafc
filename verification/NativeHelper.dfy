/**
 * The native helper's state and what each request does to it (native/src/server.ts, workspaces.ts, handoff.ts,
 * auth.ts). Requests interleave at their awaits: between a request's authentication and its body, while the host
 * completes a surface operation, and while a handoff is pending.
 */
module NativeHelper {
  import opened Options
  import opened Surfaces

  const EDITOR_MS: nat := 45000
  const HANDOFF_LIMIT: nat := 16
  const PORT_LIMIT: nat := 16
  const WORKSPACE_LIMIT: nat := 100
  const CAPABILITY_LIMIT: nat := 256
  const SHELL_MS: nat := 300000
  const CONNECTOR_MS: nat := 900000

  datatype Editor = Active | Closed | Unknown

  datatype Target = CodeTarget | BrowserTarget

  datatype Role = Admin | Shell | Connector

  // The admin's capability has no workspace and never expires.
  datatype Capability = Capability(role: Role, workspace: Option<string>, expires: Option<nat>)

  datatype Handoff = Handoff(workspace: string, target: Target, ports: set<nat>, delivered: bool)

  datatype Store = Store(editors: map<string, Editor>, selected: Option<string>)

  // When each editor was last heard, and the ports registered for each workspace.
  datatype Previews = Previews(seen: map<string, nat>, ports: map<string, set<nat>>)

  datatype Event =
    | Reported(workspace: string, state: Editor, role: Role, from: nat, at: nat)
    | Registered(workspace: string, port: nat, at: nat)
    | Unregistered(workspace: string, port: nat)
    | Granted(workspace: string, port: nat, at: nat)
    | CodeAsked(workspace: string)
    | Removed(workspace: string)
    | Restarted

  datatype Helper = Helper(
    store: Store, previews: Previews, entries: map<Key, Entry>, pending: map<nat, Handoff>,
    caps: map<nat, Capability>, requests: map<nat, Capability>, clock: nat, log: seq<Event>)

  datatype Code =
    | Forbidden | Unauthorized | WorkspaceNotFound | WorkspaceLimit | HandoffPending | EditorNotClosed | EditorNotReady
    | InvalidPreviewPort | PreviewLimit | PreviewNotRegistered | HandoffBusy | HandoffNotFound | CapabilityLimit
    | Refusal(why: Refusal)

  // What a request asks for. Ids that the helper draws at random are given with the request that draws them.
  datatype Request =
    | List
    | Create(newId: string)
    | Get(id: string) | Rename(id: string) | Select(id: string) | Remove(id: string)
    | Report(id: string, state: Editor)
    | Register(id: string, port: nat) | Unregister(id: string, port: nat) | ListPorts(id: string)
    | Launch(id: string, target: Target, handoff: nat)
    | OnSurface(op: Operation)

  datatype Reply = Reply(state: Helper, answer: Result<(), Code>)

  function Done(h: Helper): Reply { Reply(h, Ok(())) }

  function Refuse(h: Helper, code: Code): Reply { Reply(h, Err(code)) }

  function WorkspaceOf(r: Request): Option<string> {
    match r
    case List => None
    case Create(_) => None
    case Get(id) => Some(id)
    case Rename(id) => Some(id)
    case Select(id) => Some(id)
    case Remove(id) => Some(id)
    case Report(id, _) => Some(id)
    case Register(id, _) => Some(id)
    case Unregister(id, _) => Some(id)
    case ListPorts(id) => Some(id)
    case Launch(id, _, _) => Some(id)
    case OnSurface(op) => Some(op.key.workspace)
  }

  // --- Capabilities -------------------------------------------------------------------------------------------------

  predicate Live(cap: Capability, clock: nat) {
    cap.expires.None? || cap.expires.value > clock
  }

  function Prune(caps: map<nat, Capability>, clock: nat): map<nat, Capability> {
    map token | token in caps && Live(caps[token], clock) :: caps[token]
  }

  predicate Authorizes(cap: Capability, r: Request) {
    cap.role == Admin
    || (WorkspaceOf(r).Some? && WorkspaceOf(r) == cap.workspace
        && if cap.role == Shell then
             r.Get? || r.Select? || r.ListPorts? || r.Launch?
                 || (r.OnSurface? && !(r.op.kind == Browser && r.op.verb.Status?))
           else (r.Report? && r.state != Editor.Closed) || r.Register? || r.Unregister?)
  }

  function Mint(h: Helper, role: Role, id: string, token: nat): Reply
    requires role != Admin && token !in h.caps
  {
    if id !in h.store.editors then Refuse(h, WorkspaceNotFound)
    else
      var caps := Prune(h.caps, h.clock);
      var expires := h.clock + if role == Shell then SHELL_MS else CONNECTOR_MS;
      if |caps| >= CAPABILITY_LIMIT then Refuse(h.(caps := caps), CapabilityLimit)
      else Done(h.(caps := caps[token := Capability(role, Some(id), Some(expires))]))
  }

  // A request is authenticated before its body has arrived; what it was allowed then is what it is allowed later.
  function Authenticate(h: Helper, request: nat, token: nat): Reply {
    var caps := Prune(h.caps, h.clock);
    if token in caps then Done(h.(caps := caps, requests := h.requests[request := caps[token]]))
    else Refuse(h.(caps := caps), Unauthorized)
  }

  function Revoke(caps: map<nat, Capability>, id: string): map<nat, Capability> {
    map token | token in caps && caps[token].workspace != Some(id) :: caps[token]
  }

  // --- Editors and previews -----------------------------------------------------------------------------------------

  function Seen(p: Previews, id: string): nat {
    if id in p.seen then p.seen[id] else 0
  }

  function Ports(p: Previews, id: string): set<nat> {
    if id in p.ports then p.ports[id] else {}
  }

  predicate Overdue(h: Helper, id: string)
    requires id in h.store.editors
  {
    h.store.editors[id] == Active && h.clock - Seen(h.previews, id) >= EDITOR_MS
  }

  // An active editor not heard for 45 s becomes unknown and loses its ports.
  function Refresh(h: Helper, id: string): Helper
    requires id in h.store.editors
  {
    if Overdue(h, id) then
      h.(store := h.store.(editors := h.store.editors[id := Unknown]),
         previews := h.previews.(ports := h.previews.ports - {id}))
    else h
  }

  function RefreshAll(h: Helper): Helper {
    h.(store := h.store.(editors :=
         map id | id in h.store.editors :: if Overdue(h, id) then Unknown else h.store.editors[id]),
       previews := h.previews.(ports :=
         map id | id in h.previews.ports && !(id in h.store.editors && Overdue(h, id)) :: h.previews.ports[id]))
  }

  function SetReport(h: Helper, id: string, state: Editor, role: Role, took: nat): Helper
    requires id in h.store.editors
  {
    var at := h.clock + took;
    h.(store := h.store.(editors := h.store.editors[id := state]),
       previews := if state == Active then h.previews.(seen := h.previews.seen[id := at])
                   else Previews(h.previews.seen - {id}, h.previews.ports - {id}),
       clock := at,
       log := h.log + [Reported(id, state, role, h.clock, at)])
  }

  function RegisterPort(h: Helper, id: string, port: nat, own: nat): Reply
    requires id in h.store.editors
  {
    var ports := Ports(h.previews, id);
    if port == own then Refuse(h, InvalidPreviewPort)
    else if h.store.editors[id] != Active then Refuse(h, EditorNotReady)
    else if |ports| >= PORT_LIMIT && port !in ports then Refuse(h, PreviewLimit)
    else Done(h.(previews := h.previews.(ports := h.previews.ports[id := ports + {port}]),
                 log := h.log + [Registered(id, port, h.clock)]))
  }

  function UnregisterPort(h: Helper, id: string, port: nat, own: nat): Reply {
    if port == own then Refuse(h, InvalidPreviewPort)
    else Done(h.(previews := if id in h.previews.ports
                             then h.previews.(ports := h.previews.ports[id := h.previews.ports[id] - {port}])
                             else h.previews,
                 log := h.log + [Unregistered(id, port)]))
  }

  // --- Workspaces ---------------------------------------------------------------------------------------------------

  function CreateWorkspace(h: Helper, newId: string): Reply
    requires newId !in h.store.editors
  {
    if |h.store.editors| >= WORKSPACE_LIMIT then Refuse(h, WorkspaceLimit)
    else Done(h.(store := Store(h.store.editors[newId := Editor.Closed],
                                if h.store.selected.Some? then h.store.selected else Some(newId))))
  }

  predicate HandoffFor(pending: map<nat, Handoff>, id: string) {
    exists k :: k in pending && pending[k].workspace == id
  }

  function RemoveWorkspace(h: Helper, id: string): Reply
    requires id in h.store.editors
  {
    if HandoffFor(h.pending, id) || OpenIn(h.entries, id) then Refuse(h, HandoffPending)
    else if h.store.editors[id] != Editor.Closed then Refuse(h, EditorNotClosed)
    else
      Done(h.(store := Store(h.store.editors - {id}, if h.store.selected == Some(id) then None else h.store.selected),
              caps := Revoke(h.caps, id),
              previews := Previews(h.previews.seen - {id}, h.previews.ports - {id}),
              log := h.log + [Removed(id)]))
  }

  // --- Handoffs -----------------------------------------------------------------------------------------------------

  // A Code launch makes a closed editor unknown before the request is queued.
  function LaunchSurface(h: Helper, id: string, target: Target, handoff: nat): Reply
    requires id in h.store.editors && handoff !in h.pending
  {
    var unsure := if target == CodeTarget && h.store.editors[id] == Editor.Closed
                  then h.(store := h.store.(editors := h.store.editors[id := Unknown])) else h;
    var asked := if target == CodeTarget then unsure.(log := unsure.log + [CodeAsked(id)]) else unsure;
    if |h.pending| >= HANDOFF_LIMIT then Refuse(asked, HandoffBusy)
    else Done(asked.(pending := h.pending[handoff := Handoff(id, target, Ports(h.previews, id), false)]))
  }

  function Take(h: Helper): Helper {
    h.(pending := map k | k in h.pending :: h.pending[k].(delivered := true))
  }

  function Acknowledge(h: Helper, handoff: nat): Reply {
    if handoff in h.pending && h.pending[handoff].delivered then Done(h.(pending := h.pending - {handoff}))
    else Refuse(h, HandoffNotFound)
  }

  // --- Surface operations -------------------------------------------------------------------------------------------

  // The port whose grant a preview's open or status needs.
  function WantedPort(h: Helper, op: Operation): Option<nat> {
    if op.verb.Open? then op.verb.port else PortOf(h.entries, op.key)
  }

  predicate NeedsGrant(op: Operation) {
    op.kind == Preview && (op.verb.Open? || op.verb.Status?)
  }

  function AcceptSurface(h: Helper, op: Operation): Reply {
    var port := WantedPort(h, op);
    if NeedsGrant(op) && (port.None? || port.value !in Ports(h.previews, op.key.workspace))
        then Refuse(h, PreviewNotRegistered)
    else
      var granted := if NeedsGrant(op) then h.(log := h.log + [Granted(op.key.workspace, port.value, h.clock)]) else h;
      match Judge(Look(h.entries, op.key), op)
      case Ok(entry) => Done(granted.(entries := h.entries[op.key := entry]))
      case Err(why) => Refuse(granted, Refusal(why))
  }

  // --- Requests and runs --------------------------------------------------------------------------------------------

  // Random ids are new.
  predicate Drawable(h: Helper, r: Request) {
    (r.Create? ==> r.newId !in h.store.editors) && (r.Launch? ==> r.handoff !in h.pending)
  }

  // What a request that is allowed does, its workspace refreshed.
  function Operate(h: Helper, cap: Capability, r: Request, own: nat, took: nat): Reply
    requires Drawable(h, r) && (WorkspaceOf(r).Some? ==> WorkspaceOf(r).value in h.store.editors)
  {
    match r
    case List => Done(RefreshAll(h))
    case Create(newId) => CreateWorkspace(h, newId)
    case Get(_) => Done(h)
    case Rename(_) => Done(h)
    case Select(id) => Done(h.(store := h.store.(selected := Some(id))))
    case Remove(id) => RemoveWorkspace(h, id)
    case Report(id, state) => Done(SetReport(h, id, state, cap.role, took))
    case Register(id, port) => RegisterPort(h, id, port, own)
    case Unregister(id, port) => UnregisterPort(h, id, port, own)
    case ListPorts(_) => Done(h)
    case Launch(id, target, handoff) => LaunchSurface(h, id, target, handoff)
    case OnSurface(op) => AcceptSurface(h, op)
  }

  predicate Refused(h: Helper, cap: Capability, r: Request) {
    !Authorizes(cap, r) || (WorkspaceOf(r).Some? && WorkspaceOf(r).value !in h.store.editors)
  }

  // The state in which a request that is not refused does its work.
  function Refreshed(h: Helper, r: Request): (g: Helper)
    requires Drawable(h, r) && (WorkspaceOf(r).Some? ==> WorkspaceOf(r).value in h.store.editors)
    ensures Drawable(g, r) && (WorkspaceOf(r).Some? ==> WorkspaceOf(r).value in g.store.editors)
  {
    if WorkspaceOf(r).Some? then Refresh(h, WorkspaceOf(r).value) else h
  }

  // One request's synchronous section: authorisation, the refresh of its workspace, then the operation.
  function Perform(h: Helper, cap: Capability, r: Request, own: nat, took: nat): Reply
    requires Drawable(h, r)
  {
    if !Authorizes(cap, r) then Refuse(h, Forbidden)
    else if WorkspaceOf(r).Some? && WorkspaceOf(r).value !in h.store.editors then Refuse(h, WorkspaceNotFound)
    else Operate(Refreshed(h, r), cap, r, own, took)
  }

  // What a granted request is told, beyond that it was. A launch and a surface operation are answered by the host
  // later.
  datatype Telling =
    | Nothing | Editors(editors: map<string, Editor>) | Workspace(id: string, editor: Editor)
    | PortsHeld(ports: set<nat>)
    | EditorIs(state: Editor) | PortIs(port: nat)

  // It is told of the state its request left.
  function Tell(h: Helper, r: Request): Telling
    requires WorkspaceOf(r).Some? && !r.Remove? ==> WorkspaceOf(r).value in h.store.editors
    requires r.Create? ==> r.newId in h.store.editors
  {
    match r
    case List => Editors(h.store.editors)
    case Create(newId) => Workspace(newId, h.store.editors[newId])
    case Get(id) => Workspace(id, h.store.editors[id])
    case Rename(id) => Workspace(id, h.store.editors[id])
    case Select(id) => Workspace(id, h.store.editors[id])
    case Report(_, state) => EditorIs(state)
    case Register(_, port) => PortIs(port)
    case Unregister(_, port) => PortIs(port)
    case ListPorts(id) => PortsHeld(Ports(h.previews, id))
    case _ => Nothing
  }

  datatype Turn =
    | Passes(ms: nat)
    | Restarts
    | Shows(id: string)
    | Mints(role: Role, id: string, token: nat)
    | Authenticates(request: nat, token: nat)
    | Performs(request: nat, r: Request, own: nat, took: nat)
    | Takes
    | Acknowledges(handoff: nat)
    | TimesOut(handoff: nat)

  // A restart keeps the store, and no longer believes that any editor is active.
  function Restart(h: Helper): Helper {
    var editors := map id | id in h.store.editors ::
      if h.store.editors[id] == Active then Unknown else h.store.editors[id];
    var caps := map token | token in h.caps && h.caps[token].role == Admin :: h.caps[token];
    Helper(Store(editors, h.store.selected), Previews(map[], map[]), map[], map[], caps, map[], h.clock,
           h.log + [Restarted])
  }

  // A turn that cannot happen changes nothing.
  function Next(h: Helper, t: Turn): Helper {
    match t
    case Passes(ms) => h.(clock := h.clock + ms)
    case Restarts => Restart(h)
    case Shows(id) => if id in h.store.editors then Refresh(h, id) else h
    case Mints(role, id, token) => if role == Admin || token in h.caps then h else Mint(h, role, id, token).state
    case Authenticates(request, token) => Authenticate(h, request, token).state
    case Performs(request, r, own, took) =>
      if request !in h.requests || !Drawable(h, r) then h
      else Perform(h.(requests := h.requests - {request}), h.requests[request], r, own, took).state
    case Takes => Take(h)
    case Acknowledges(handoff) => Acknowledge(h, handoff).state
    case TimesOut(handoff) => h.(pending := h.pending - {handoff})
  }

  function Start(admin: nat): Helper {
    Helper(Store(map[], None), Previews(map[], map[]), map[], map[], map[admin := Capability(Admin, None, None)], map[],
           0, [])
  }

  function RunHelper(admin: nat, turns: seq<Turn>): Helper {
    if turns == [] then Start(admin) else Next(RunHelper(admin, turns[..|turns| - 1]), turns[|turns| - 1])
  }

  // --- What each turn is ---------------------------------------------------------------------------------------------

  lemma IdlePerforms(h: Helper, request: nat, r: Request, own: nat, took: nat)
    requires request !in h.requests || !Drawable(h, r)
    ensures Next(h, Performs(request, r, own, took)) == h
  {
  }

  lemma PerformsIs(h: Helper, request: nat, r: Request, own: nat, took: nat)
    requires request in h.requests && Drawable(h, r)
    ensures var g := h.(requests := h.requests - {request});
      Drawable(g, r) && Next(h, Performs(request, r, own, took)) == Perform(g, h.requests[request], r, own, took).state
  {
    hide Perform;
  }

  lemma MintsIs(h: Helper, role: Role, id: string, token: nat)
    requires role != Admin && token !in h.caps
    ensures Next(h, Mints(role, id, token)) == Mint(h, role, id, token).state
  {
    hide Mint;
  }

  lemma AuthenticatesIs(h: Helper, request: nat, token: nat)
    ensures Next(h, Authenticates(request, token)) == Authenticate(h, request, token).state
  {
    hide Authenticate;
  }

  lemma HandoffTurnsAre(h: Helper, k: nat)
    ensures Next(h, Takes) == Take(h)
    ensures Next(h, Acknowledges(k)) == Acknowledge(h, k).state
    ensures Next(h, TimesOut(k)) == h.(pending := h.pending - {k})
  {
    hide Take, Acknowledge;
  }

  lemma ShowsIs(h: Helper, id: string, ms: nat)
    ensures Next(h, Shows(id)) == if id in h.store.editors then Refresh(h, id) else h
    ensures Next(h, Passes(ms)) == h.(clock := h.clock + ms)
  {
    hide Refresh;
  }
}
