/**
 * Across every interleaving of requests, whatever the native helper still holds for a workspace refers to a workspace
 * that exists, and its tables keep their limits.
 */
module NativeIntegrity {
  import opened Options
  import opened Surfaces
  import opened NativeHelper

  ghost predicate StoreSound(s: Store) {
    && (s.selected.Some? ==> s.selected.value in s.editors)
    && |s.editors| <= WORKSPACE_LIMIT
  }

  // Only an active editor that has been heard holds ports.
  ghost predicate PreviewsSound(editors: map<string, Editor>, p: Previews) {
    && (forall id :: id in p.seen ==> id in editors)
    && (forall id :: id in p.ports ==> id in editors && editors[id] == Active && |p.ports[id]| <= PORT_LIMIT)
    && (forall id :: id in editors && editors[id] == Active ==> id in p.seen)
  }

  ghost predicate PendingSound(editors: map<string, Editor>, pending: map<nat, Handoff>) {
    && (forall k :: k in pending ==> pending[k].workspace in editors)
    && |pending| <= HANDOFF_LIMIT
  }

  ghost predicate EntriesSound(editors: map<string, Editor>, entries: map<Key, Entry>) {
    forall key :: key in entries && !entries[key].closed ==> key.workspace in editors
  }

  ghost predicate CapsSound(editors: map<string, Editor>, caps: map<nat, Capability>) {
    && (forall token :: token in caps && caps[token].workspace.Some? ==> caps[token].workspace.value in editors)
    && |caps| <= CAPABILITY_LIMIT
  }

  ghost predicate Whole(h: Helper) {
    && StoreSound(h.store)
    && PreviewsSound(h.store.editors, h.previews)
    && PendingSound(h.store.editors, h.pending)
    && EntriesSound(h.store.editors, h.entries)
    && CapsSound(h.store.editors, h.caps)
  }

  lemma SubsetSize<T>(a: set<T>, b: set<T>)
    requires a <= b
    ensures |a| <= |b|
  {
    assert b == a + (b - a);
  }

  lemma PruneKeepsCaps(editors: map<string, Editor>, caps: map<nat, Capability>, clock: nat)
    requires CapsSound(editors, caps)
    ensures CapsSound(editors, Prune(caps, clock))
  {
    SubsetSize(Prune(caps, clock).Keys, caps.Keys);
  }

  lemma NewCapability(editors: map<string, Editor>, caps: map<nat, Capability>, token: nat, cap: Capability)
    requires CapsSound(editors, caps) && token !in caps && |caps| < CAPABILITY_LIMIT
    requires cap.workspace.Some? ==> cap.workspace.value in editors
    ensures CapsSound(editors, caps[token := cap])
  {
  }

  lemma MintKeepsCaps(editors: map<string, Editor>, caps: map<nat, Capability>, clock: nat, token: nat, cap: Capability)
    requires CapsSound(editors, caps) && token !in caps && cap.workspace.Some? && cap.workspace.value in editors
    ensures var kept := Prune(caps, clock);
      CapsSound(editors, kept) && (|kept| < CAPABILITY_LIMIT ==> CapsSound(editors, kept[token := cap]))
  {
    PruneKeepsCaps(editors, caps, clock);
    var kept := Prune(caps, clock);
    assert token !in kept;
    if |kept| < CAPABILITY_LIMIT { NewCapability(editors, kept, token, cap); }
    hide CapsSound, Prune;
  }

  lemma SameButCaps(h: Helper, caps: map<nat, Capability>)
    requires Whole(h) && CapsSound(h.store.editors, caps)
    ensures Whole(h.(caps := caps))
  {
    hide StoreSound, PreviewsSound, PendingSound, EntriesSound, CapsSound;
  }

  lemma MintChangesCaps(h: Helper, role: Role, id: string, token: nat)
    requires role != Admin && token !in h.caps && CapsSound(h.store.editors, h.caps)
    ensures var caps := Mint(h, role, id, token).state.caps;
      Mint(h, role, id, token).state == h.(caps := caps) && CapsSound(h.store.editors, caps)
  {
    if id in h.store.editors {
      var expires := h.clock + if role == Shell then SHELL_MS else CONNECTOR_MS;
      hide Prune, CapsSound;
      MintKeepsCaps(h.store.editors, h.caps, h.clock, token, Capability(role, Some(id), Some(expires)));
    }
  }

  lemma MintKeepsWhole(h: Helper, role: Role, id: string, token: nat)
    requires Whole(h) && role != Admin && token !in h.caps
    ensures Whole(Mint(h, role, id, token).state)
  {
    hide Mint, CapsSound, StoreSound, PreviewsSound, PendingSound, EntriesSound;
    MintChangesCaps(h, role, id, token);
    SameButCaps(h, Mint(h, role, id, token).state.caps);
  }

  // Changing the state of editors keeps everything but what depends on who is active.
  lemma SameWorkspaces(h: Helper, editors: map<string, Editor>)
    requires Whole(h) && editors.Keys == h.store.editors.Keys
    ensures StoreSound(h.store.(editors := editors))
    ensures PendingSound(editors, h.pending)
    ensures EntriesSound(editors, h.entries)
    ensures CapsSound(editors, h.caps)
  {
    assert |editors| == |editors.Keys| == |h.store.editors.Keys|;
  }

  lemma DoubtKeepsPreviews(editors: map<string, Editor>, p: Previews, id: string)
    requires PreviewsSound(editors, p) && id in editors
    ensures PreviewsSound(editors[id := Unknown], p.(ports := p.ports - {id}))
  {
  }

  lemma RefreshKeepsWhole(h: Helper, id: string)
    requires Whole(h) && id in h.store.editors
    ensures Whole(Refresh(h, id)) && Refresh(h, id).store.editors.Keys == h.store.editors.Keys
    ensures Refresh(h, id).pending == h.pending && Refresh(h, id).caps == h.caps && Refresh(h, id).entries == h.entries
  {
    if Overdue(h, id) {
      var editors := h.store.editors[id := Unknown];
      assert editors.Keys == h.store.editors.Keys;
      SameWorkspaces(h, editors);
      DoubtKeepsPreviews(h.store.editors, h.previews, id);
      hide StoreSound, PendingSound, EntriesSound, CapsSound, PreviewsSound;
    }
  }

  lemma RefreshAllKeepsWhole(h: Helper)
    requires Whole(h)
    ensures Whole(RefreshAll(h))
  {
    var g := RefreshAll(h);
    assert g.store.editors.Keys == h.store.editors.Keys;
    assert |g.store.editors| == |g.store.editors.Keys|;
  }

  lemma ReportKeepsPreviews(editors: map<string, Editor>, p: Previews, id: string, state: Editor, at: nat)
    requires PreviewsSound(editors, p) && id in editors
    ensures PreviewsSound(editors[id := state],
      if state == Active then p.(seen := p.seen[id := at]) else Previews(p.seen - {id}, p.ports - {id}))
  {
  }

  lemma ReportKeepsWhole(h: Helper, id: string, state: Editor, role: Role, took: nat)
    requires Whole(h) && id in h.store.editors
    ensures Whole(SetReport(h, id, state, role, took))
  {
    var editors := h.store.editors[id := state];
    assert editors.Keys == h.store.editors.Keys;
    SameWorkspaces(h, editors);
    ReportKeepsPreviews(h.store.editors, h.previews, id, state, h.clock + took);
    hide StoreSound, PreviewsSound, PendingSound, EntriesSound, CapsSound;
  }

  lemma RegisterKeepsWhole(h: Helper, id: string, port: nat, own: nat)
    requires Whole(h) && id in h.store.editors
    ensures Whole(RegisterPort(h, id, port, own).state)
  {
    var ports := Ports(h.previews, id);
    assert port in ports ==> ports + {port} == ports;
  }

  lemma UnregisterKeepsWhole(h: Helper, id: string, port: nat, own: nat)
    requires Whole(h)
    ensures Whole(UnregisterPort(h, id, port, own).state)
  {
    if id in h.previews.ports { SubsetSize(h.previews.ports[id] - {port}, h.previews.ports[id]); }
  }

  lemma CreateKeepsWhole(h: Helper, newId: string)
    requires Whole(h) && newId !in h.store.editors
    ensures Whole(CreateWorkspace(h, newId).state)
  {
  }

  // A removal takes everything that refers to the workspace with it, or is refused.
  lemma RemoveKeepsWhole(h: Helper, id: string)
    requires Whole(h) && id in h.store.editors
    ensures Whole(RemoveWorkspace(h, id).state)
  {
    var g := RemoveWorkspace(h, id).state;
    if g != h {
      SubsetSize(g.store.editors.Keys, h.store.editors.Keys);
      SubsetSize(g.caps.Keys, h.caps.Keys);
      assert CapsSound(g.store.editors, g.caps);
      forall key | key in g.entries && !g.entries[key].closed ensures key.workspace in g.store.editors {
        assert key.workspace != id;
      }
      forall k | k in g.pending ensures g.pending[k].workspace in g.store.editors {
        assert g.pending[k].workspace != id;
      }
    }
  }

  lemma QueueKeepsPending(editors: map<string, Editor>, pending: map<nat, Handoff>, k: nat, asked: Handoff)
    requires PendingSound(editors, pending) && k !in pending && |pending| < HANDOFF_LIMIT && asked.workspace in editors
    ensures PendingSound(editors, pending[k := asked])
  {
  }

  // A closed editor holds no ports, so doubting it costs none.
  lemma DoubtClosedKeepsPreviews(editors: map<string, Editor>, p: Previews, id: string)
    requires PreviewsSound(editors, p) && id in editors && editors[id] == Editor.Closed
    ensures PreviewsSound(editors[id := Unknown], p)
  {
  }

  lemma LaunchKeepsWhole(h: Helper, id: string, target: Target, handoff: nat)
    requires Whole(h) && id in h.store.editors && handoff !in h.pending
    ensures Whole(LaunchSurface(h, id, target, handoff).state)
  {
    hide StoreSound, PendingSound, EntriesSound, CapsSound, PreviewsSound;
    var editors := h.store.editors;
    if target == CodeTarget && editors[id] == Editor.Closed {
      DoubtClosedKeepsPreviews(editors, h.previews, id);
      editors := editors[id := Unknown];
    }
    assert editors.Keys == h.store.editors.Keys;
    SameWorkspaces(h, editors);
    if |h.pending| < HANDOFF_LIMIT {
      QueueKeepsPending(editors, h.pending, handoff, Handoff(id, target, Ports(h.previews, id), false));
    }
    assert LaunchSurface(h, id, target, handoff).state.store == h.store.(editors := editors);
  }

  lemma NewEntry(editors: map<string, Editor>, entries: map<Key, Entry>, key: Key, entry: Entry)
    requires EntriesSound(editors, entries) && key.workspace in editors
    ensures EntriesSound(editors, entries[key := entry])
  {
  }

  lemma AcceptKeepsWhole(h: Helper, op: Operation)
    requires Whole(h) && op.key.workspace in h.store.editors
    ensures Whole(AcceptSurface(h, op).state)
  {
    var judged := Judge(Look(h.entries, op.key), op);
    if judged.Ok? { NewEntry(h.store.editors, h.entries, op.key, judged.value); }
    hide StoreSound, PreviewsSound, PendingSound, EntriesSound, CapsSound, Judge, Look, NeedsGrant, WantedPort;
  }

  lemma OperateKeepsWhole(h: Helper, cap: Capability, r: Request, own: nat, took: nat)
    requires Whole(h) && Drawable(h, r) && (WorkspaceOf(r).Some? ==> WorkspaceOf(r).value in h.store.editors)
    ensures Whole(Operate(h, cap, r, own, took).state)
  {
    hide Whole, AcceptSurface, RemoveWorkspace, CreateWorkspace, LaunchSurface, RegisterPort, UnregisterPort, SetReport,
         RefreshAll;
    match r
    case List => RefreshAllKeepsWhole(h);
    case Create(newId) => CreateKeepsWhole(h, newId);
    case Get(_) =>
    case Rename(_) =>
    case Select(id) => SelectKeepsWhole(h, id);
    case Remove(id) => RemoveKeepsWhole(h, id);
    case Report(id, state) => ReportKeepsWhole(h, id, state, cap.role, took);
    case Register(id, port) => RegisterKeepsWhole(h, id, port, own);
    case Unregister(id, port) => UnregisterKeepsWhole(h, id, port, own);
    case ListPorts(_) =>
    case Launch(id, target, handoff) => LaunchKeepsWhole(h, id, target, handoff);
    case OnSurface(op) => AcceptKeepsWhole(h, op);
  }

  lemma PerformKeepsWhole(h: Helper, cap: Capability, r: Request, own: nat, took: nat)
    requires Whole(h) && Drawable(h, r)
    ensures Whole(Perform(h, cap, r, own, took).state)
  {
    hide Whole, Operate, Authorizes, Refresh;
    if !Refused(h, cap, r) {
      if WorkspaceOf(r).Some? { RefreshKeepsWhole(h, WorkspaceOf(r).value); }
      OperateKeepsWhole(Refreshed(h, r), cap, r, own, took);
    }
  }

  lemma SelectKeepsWhole(h: Helper, id: string)
    requires Whole(h) && id in h.store.editors
    ensures Whole(h.(store := h.store.(selected := Some(id))))
  {
  }

  lemma HandoffTurnsKeepWhole(h: Helper, t: Turn)
    requires Whole(h) && (t.Takes? || t.Acknowledges? || t.TimesOut?)
    ensures Whole(Next(h, t))
  {
    var g := Next(h, t);
    SubsetSize(g.pending.Keys, h.pending.Keys);
    assert |g.pending| == |g.pending.Keys|;
  }

  lemma RestartKeepsWhole(h: Helper)
    requires Whole(h)
    ensures Whole(Restart(h))
  {
    var g := Restart(h);
    assert g.store.editors.Keys == h.store.editors.Keys;
    SubsetSize(g.store.editors.Keys, h.store.editors.Keys);
    SubsetSize(g.caps.Keys, h.caps.Keys);
    assert |g.store.editors| == |g.store.editors.Keys|;
    assert CapsSound(g.store.editors, g.caps);
  }

  lemma ServingKeepsWhole(h: Helper, request: nat, r: Request, own: nat, took: nat)
    requires Whole(h)
    ensures Whole(Next(h, Performs(request, r, own, took)))
  {
    hide Next, Perform, StoreSound, PreviewsSound, PendingSound, EntriesSound, CapsSound;
    if request in h.requests && Drawable(h, r) {
      var g := h.(requests := h.requests - {request});
      assert Whole(g);
      hide Whole;
      PerformsIs(h, request, r, own, took);
      PerformKeepsWhole(g, h.requests[request], r, own, took);
    } else {
      IdlePerforms(h, request, r, own, took);
    }
  }

  lemma AuthenticatingKeepsWhole(h: Helper, request: nat, token: nat)
    requires Whole(h)
    ensures Whole(Authenticate(h, request, token).state)
  {
    PruneKeepsCaps(h.store.editors, h.caps, h.clock);
    hide StoreSound, PreviewsSound, PendingSound, EntriesSound, CapsSound;
  }

  lemma PassingKeepsWhole(h: Helper, ms: nat)
    requires Whole(h)
    ensures Whole(h.(clock := h.clock + ms))
  {
    hide StoreSound, PreviewsSound, PendingSound, EntriesSound, CapsSound;
  }

  lemma NextKeepsWhole(h: Helper, t: Turn)
    requires Whole(h)
    ensures Whole(Next(h, t))
  {
    hide Whole, Mint, Authenticate, Refresh, Restart, Perform;
    match t
    case Passes(ms) => PassingKeepsWhole(h, ms);
    case Restarts => RestartKeepsWhole(h);
    case Shows(id) => if id in h.store.editors { RefreshKeepsWhole(h, id); }
    case Mints(role, id, token) => if role != Admin && token !in h.caps { MintKeepsWhole(h, role, id, token); }
    case Authenticates(request, token) => AuthenticatingKeepsWhole(h, request, token);
    case Performs(request, r, own, took) => ServingKeepsWhole(h, request, r, own, took);
    case Takes => HandoffTurnsKeepWhole(h, t);
    case Acknowledges(_) => HandoffTurnsKeepWhole(h, t);
    case TimesOut(_) => HandoffTurnsKeepWhole(h, t);
  }

  /**
   * In every run: the selection, every pending handoff, every surface not closed, every heard editor, every port set
   * and every scoped capability names an existing workspace; at most 100 workspaces, 16 handoffs, 256 capabilities and
   * 16 ports a workspace are held; and only an active editor holds ports.
   */
  lemma {:induction false} HelperStaysWhole(admin: nat, turns: seq<Turn>)
    ensures Whole(RunHelper(admin, turns))
  {
    if turns == [] {
    } else {
      HelperStaysWhole(admin, turns[..|turns| - 1]);
      NextKeepsWhole(RunHelper(admin, turns[..|turns| - 1]), turns[|turns| - 1]);
    }
  }
}
