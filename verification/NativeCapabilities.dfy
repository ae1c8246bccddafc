/**
 * The life of a capability and of a handoff: who gets one, for how long, and what a request may be held under, in every
 * run.
 */
module NativeCapabilities {
  import opened Options
  import opened NativeHelper
  import NativeScopes

  // The capability lasts up to its end, which is not included.
  predicate InTime(cap: Capability, clock: nat) {
    cap.expires.Some? ==> clock < cap.expires.value
  }

  // Exactly the capabilities still in time are left.
  ghost predicate Swept(caps: map<nat, Capability>, left: map<nat, Capability>, clock: nat) {
    && (forall token :: token in left <==> token in caps && InTime(caps[token], clock))
    && (forall token :: token in left ==> left[token] == caps[token])
  }

  // Five minutes for a shell, fifteen for a connector.
  function Scope(role: Role, id: string, now: nat): Capability {
    Capability(role, Some(id), Some(now + if role == Shell then 300_000 else 900_000))
  }

  function BesideCaps(h: Helper): Helper {
    h.(caps := map[], requests := map[])
  }

  /**
   * A capability is made for a workspace that exists, for five or fifteen minutes, unless 256 are in time; the expired
   * ones go first.
   */
  lemma MintDoes(h: Helper, role: Role, id: string, token: nat)
    requires role != Admin && token !in h.caps
    ensures var reply := Mint(h, role, id, token); var g := reply.state;
      && BesideCaps(g) == BesideCaps(h) && g.requests == h.requests
      && if id !in h.store.editors then reply.answer == Err(WorkspaceNotFound) && g.caps == h.caps
         else exists left :: Swept(h.caps, left, h.clock)
                && (if |left| >= 256 then reply.answer == Err(CapabilityLimit) && g.caps == left
                    else reply.answer.Ok? && g.caps == left[token := Scope(role, id, h.clock)])
  {
    PruneSweeps(h.caps, h.clock);
    hide Prune, Swept;
  }

  lemma PruneSweeps(caps: map<nat, Capability>, clock: nat)
    ensures Swept(caps, Prune(caps, clock), clock)
  {
  }

  /** A request is held under its token's capability exactly when there is one and it is in time. */
  lemma AuthenticateDoes(h: Helper, request: nat, token: nat)
    ensures var reply := Authenticate(h, request, token); var g := reply.state;
      && BesideCaps(g) == BesideCaps(h) && Swept(h.caps, g.caps, h.clock)
      && if token in h.caps && InTime(h.caps[token], h.clock) then
           reply.answer.Ok? && g.requests == h.requests[request := h.caps[token]]
         else reply.answer == Err(Unauthorized) && g.requests == h.requests
  {
  }

  /** A restart leaves the workspaces and the admin alone: no capability, request, port, handoff or surface survives. */
  lemma RestartDoes(h: Helper)
    ensures var g := Next(h, Restarts);
      && (forall token :: token in g.caps <==> token in h.caps && h.caps[token].role.Admin?)
      && (forall token :: token in g.caps ==> g.caps[token] == h.caps[token])
      && g.requests == map[] && g.pending == map[] && g.entries == map[]
      && g.previews == Previews(map[], map[]) && g.store.selected == h.store.selected && g.clock == h.clock
      && g.store.editors.Keys == h.store.editors.Keys
      && forall id :: id in g.store.editors ==>
           g.store.editors[id] == if h.store.editors[id] == Active then Unknown else h.store.editors[id]
  {
  }

  function BesideHandoffs(h: Helper): Helper {
    h.(pending := map[])
  }

  /**
   * Taking the handoffs delivers all there are and loses none; one is acknowledged exactly after it was delivered, and
   * is then gone.
   */
  lemma HandoffsDo(h: Helper, k: nat)
    ensures var g := Next(h, Takes);
      && BesideHandoffs(g) == BesideHandoffs(h) && g.pending.Keys == h.pending.Keys
      && (forall i :: i in g.pending ==>
            var was, now := h.pending[i], g.pending[i];
            now == Handoff(was.workspace, was.target, was.ports, true))
    ensures var reply := Acknowledge(h, k);
      if k in h.pending && h.pending[k].delivered then
        && reply.answer.Ok? && BesideHandoffs(reply.state) == BesideHandoffs(h)
        && (forall i :: i in reply.state.pending <==> i in h.pending && i != k)
        && (forall i :: i in reply.state.pending ==> reply.state.pending[i] == h.pending[i])
      else reply.answer == Err(HandoffNotFound) && reply.state == h
    ensures var g := Next(h, TimesOut(k));
      && BesideHandoffs(g) == BesideHandoffs(h)
      && (forall i :: i in g.pending <==> i in h.pending && i != k)
      && (forall i :: i in g.pending ==> g.pending[i] == h.pending[i])
  {
  }

  // --- Every run ----------------------------------------------------------------------------------------------------

  // The `k`th turn made this capability.
  ghost predicate MintedAt(admin: nat, turns: seq<Turn>, k: nat, token: nat, cap: Capability)
    requires k < |turns|
  {
    var t, h := turns[k], RunHelper(admin, turns[..k]);
    t.Mints? && t.token == token && t.role != Admin && t.id in h.store.editors && cap == Scope(t.role, t.id, h.clock)
  }

  ghost predicate Rightful(admin: nat, turns: seq<Turn>, token: nat, cap: Capability) {
    || (token == admin && cap == Capability(Admin, None, None))
    || exists k :: 0 <= k < |turns| && MintedAt(admin, turns, k, token, cap)
  }

  // The `k`th turn found the request's token in time; the token was rightful.
  ghost predicate AuthenticatedAt(admin: nat, turns: seq<Turn>, k: nat, request: nat, cap: Capability)
    requires k < |turns|
  {
    var t, h := turns[k], RunHelper(admin, turns[..k]);
    && t.Authenticates? && t.request == request && InTime(cap, h.clock)
    && Rightful(admin, turns[..k], t.token, cap)
  }

  ghost predicate Admitted(admin: nat, turns: seq<Turn>, request: nat, cap: Capability) {
    exists k :: 0 <= k < |turns| && AuthenticatedAt(admin, turns, k, request, cap)
  }

  ghost predicate AllRightful(admin: nat, turns: seq<Turn>, h: Helper) {
    && (forall token :: token in h.caps ==> Rightful(admin, turns, token, h.caps[token]))
    && (forall request :: request in h.requests ==> Admitted(admin, turns, request, h.requests[request]))
  }

  lemma RightfulStays(admin: nat, turns: seq<Turn>, t: Turn, token: nat, cap: Capability)
    requires Rightful(admin, turns, token, cap)
    ensures Rightful(admin, turns + [t], token, cap)
  {
    hide RunHelper;
    if k :| 0 <= k < |turns| && MintedAt(admin, turns, k, token, cap) {
      assert (turns + [t])[..k] == turns[..k] && (turns + [t])[k] == turns[k];
      assert MintedAt(admin, turns + [t], k, token, cap);
    }
  }

  lemma AdmittedStays(admin: nat, turns: seq<Turn>, t: Turn, request: nat, cap: Capability)
    requires Admitted(admin, turns, request, cap)
    ensures Admitted(admin, turns + [t], request, cap)
  {
    hide RunHelper, Rightful;
    var k :| 0 <= k < |turns| && AuthenticatedAt(admin, turns, k, request, cap);
    assert (turns + [t])[..k] == turns[..k] && (turns + [t])[k] == turns[k];
    assert AuthenticatedAt(admin, turns + [t], k, request, cap);
  }

  // Nothing but a mint adds a capability, nothing but an authentication a request.
  lemma TurnAdds(h: Helper, t: Turn)
    ensures var g := Next(h, t);
      && (forall token :: token in g.caps ==>
            || (token in h.caps && g.caps[token] == h.caps[token])
            || (t.Mints? && t.token == token && t.role != Admin && t.id in h.store.editors
                && g.caps[token] == Scope(t.role, t.id, h.clock)))
      && (forall request :: request in g.requests ==>
            || (request in h.requests && g.requests[request] == h.requests[request])
            || (t.Authenticates? && t.request == request && t.token in h.caps
                && g.requests[request] == h.caps[t.token] && InTime(h.caps[t.token], h.clock)))
  {
    match t
    case Performs(request, r, own, took) =>
      if request in h.requests && Drawable(h, r) {
        hide Perform;
        var k := h.(requests := h.requests - {request});
        PerformsIs(h, request, r, own, took);
        NativeScopes.PerformKeepsCaps(k, h.requests[request], r, own, took);
        hide Next;
      }
    case Mints(role, id, token) =>
      if role != Admin && token !in h.caps {
        MintsIs(h, role, id, token);
        MintDoes(h, role, id, token);
        hide Next, Mint;
      }
    case Authenticates(request, token) =>
      AuthenticatesIs(h, request, token);
      AuthenticateDoes(h, request, token);
      hide Next, Authenticate;
    case Restarts => RestartDoes(h); hide Next;
    case Shows(id) => ShowsIs(h, id, 0); hide Next;
    case Passes(ms) => ShowsIs(h, "", ms); hide Next;
    case Takes => HandoffTurnsAre(h, 0); hide Next;
    case Acknowledges(k) => HandoffTurnsAre(h, k); hide Next;
    case TimesOut(k) => HandoffTurnsAre(h, k); hide Next;
  }

  /**
   * In every run, each capability is the admin's or was made at some moment for a workspace that existed, to last five
   * or fifteen minutes from then; and each request is held under one so made whose time had not run out when it was
   * authenticated.
   */
  lemma {:induction false} EveryCapabilityIsRightful(admin: nat, turns: seq<Turn>)
    ensures AllRightful(admin, turns, RunHelper(admin, turns))
  {
    if turns == [] {
    } else {
      var init, t := turns[..|turns| - 1], turns[|turns| - 1];
      assert init + [t] == turns;
      EveryCapabilityIsRightful(admin, init);
      TurnKeepsRightful(admin, init, t);
    }
  }

  lemma TurnKeepsRightful(admin: nat, turns: seq<Turn>, t: Turn)
    requires AllRightful(admin, turns, RunHelper(admin, turns))
    ensures AllRightful(admin, turns + [t], Next(RunHelper(admin, turns), t))
  {
    hide Next, RunHelper, Rightful, Admitted;
    var h, g, n := RunHelper(admin, turns), Next(RunHelper(admin, turns), t), |turns|;
    var after := turns + [t];
    TurnAdds(h, t);
    assert after[..n] == turns && after[n] == t;
    forall token | token in g.caps
      ensures Rightful(admin, after, token, g.caps[token])
    {
      if token in h.caps && g.caps[token] == h.caps[token] {
        RightfulStays(admin, turns, t, token, h.caps[token]);
      } else {
        NowMinted(admin, turns, t, token, g.caps[token]);
      }
    }
    forall request | request in g.requests
      ensures Admitted(admin, after, request, g.requests[request])
    {
      if request in h.requests && g.requests[request] == h.requests[request] {
        AdmittedStays(admin, turns, t, request, h.requests[request]);
      } else {
        NowAdmitted(admin, turns, t, request, g.requests[request]);
      }
    }
  }

  lemma NowMinted(admin: nat, turns: seq<Turn>, t: Turn, token: nat, cap: Capability)
    requires var h := RunHelper(admin, turns);
      t.Mints? && t.token == token && t.role != Admin && t.id in h.store.editors && cap == Scope(t.role, t.id, h.clock)
    ensures Rightful(admin, turns + [t], token, cap)
  {
    hide RunHelper;
    var after := turns + [t];
    assert after[..|turns|] == turns && after[|turns|] == t;
    assert MintedAt(admin, after, |turns|, token, cap);
  }

  lemma NowAdmitted(admin: nat, turns: seq<Turn>, t: Turn, request: nat, cap: Capability)
    requires t.Authenticates? && t.request == request && InTime(cap, RunHelper(admin, turns).clock)
    requires Rightful(admin, turns, t.token, cap)
    ensures Admitted(admin, turns + [t], request, cap)
  {
    hide RunHelper, Rightful;
    var after := turns + [t];
    assert after[..|turns|] == turns && after[|turns|] == t;
    assert AuthenticatedAt(admin, after, |turns|, request, cap);
  }
}
