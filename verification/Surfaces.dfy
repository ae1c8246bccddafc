/**
 * The host's side of the surface protocol (native/src/surfaces.ts, and the reply gate in native/src/server.ts):
 * which operations are accepted, and which completions are returned.
 */
module Surfaces {
  import opened Options

  datatype Kind = Code | Preview | Browser

  // `Open` is code.open, preview.open or browser.attach; `Close` is code.close, preview.close or browser.detach.
  datatype Verb = Open(port: Option<nat>) | Status | Command(name: string) | Close

  // A surface id is unique; the host's key is the pair of the workspace and the surface.
  datatype Key = Key(workspace: string, surface: nat)

  datatype Operation = Operation(key: Key, generation: int, sequence: int, kind: Kind, verb: Verb)

  datatype Entry = Entry(generation: int, sequence: int, kind: Kind, closed: bool, port: Option<nat>)

  datatype Refusal = StaleSurface | SurfaceRequired

  function Opened(prev: Option<Entry>, op: Operation): Entry {
    Entry(op.generation, op.sequence, op.kind, op.verb.Close?,
          if op.verb.Open? && op.kind == Preview then op.verb.port else if prev.Some? then prev.value.port else None)
  }

  function Judge(prev: Option<Entry>, op: Operation): Result<Entry, Refusal> {
    if prev.Some? && (op.generation < prev.value.generation
                      || (op.generation == prev.value.generation
                          && (op.sequence <= prev.value.sequence || prev.value.closed || prev.value.kind != op.kind)))
    then Err(StaleSurface)
    else if (prev.None? || op.generation > prev.value.generation) && !op.verb.Open? then Err(SurfaceRequired)
    else Ok(Opened(prev, op))
  }

  function Look(entries: map<Key, Entry>, key: Key): Option<Entry> {
    if key in entries then Some(entries[key]) else None
  }

  predicate CurrentOp(entries: map<Key, Entry>, op: Operation) {
    op.key in entries && entries[op.key].generation == op.generation && entries[op.key].sequence == op.sequence
  }

  function PortOf(entries: map<Key, Entry>, key: Key): Option<nat> {
    if key in entries then entries[key].port else None
  }

  predicate OpenIn(entries: map<Key, Entry>, workspace: string) {
    exists key :: key in entries && key.workspace == workspace && !entries[key].closed
  }

  class SurfaceLifecycle {
    var entries: map<Key, Entry>

    constructor ()
      ensures entries == map[]
    {
      entries := map[];
    }

    // Reserves the sequence number before the host is awaited.
    method Accept(op: Operation) returns (refusal: Option<Refusal>)
      modifies this
      ensures match Judge(Look(old(entries), op.key), op)
              case Ok(entry) => refusal.None? && entries == old(entries)[op.key := entry]
              case Err(why) => refusal == Some(why) && entries == old(entries)
    {
      var known := op.key in entries;
      if known {
        var prev := entries[op.key];
        if op.generation < prev.generation
           || (op.generation == prev.generation
                 && (op.sequence <= prev.sequence || prev.closed || prev.kind != op.kind)) {
          return Some(StaleSurface);
        }
      }
      if (!known || op.generation > entries[op.key].generation) && !op.verb.Open? {
        return Some(SurfaceRequired);
      }
      var port := if op.verb.Open? && op.kind == Preview then op.verb.port
                  else if known then entries[op.key].port else None;
      entries := entries[op.key := Entry(op.generation, op.sequence, op.kind, op.verb.Close?, port)];
      return None;
    }
  }

  // --- Any stream of operations -------------------------------------------------------------------------------------

  // The entries, and every operation accepted so far.
  datatype Host = Host(entries: map<Key, Entry>, log: seq<Operation>)

  function Offer(h: Host, op: Operation): Host {
    match Judge(Look(h.entries, op.key), op)
    case Ok(entry) => Host(h.entries[op.key := entry], h.log + [op])
    case Err(_) => h
  }

  function OfferAll(ops: seq<Operation>): Host {
    if ops == [] then Host(map[], []) else Offer(OfferAll(ops[..|ops| - 1]), ops[|ops| - 1])
  }

  predicate Before(a: Operation, b: Operation) {
    a.generation < b.generation || (a.generation == b.generation && a.sequence < b.sequence)
  }

  // What two accepted operations on one surface satisfy, the earlier first.
  predicate InOrder(a: Operation, b: Operation) {
    a.key == b.key ==> Before(a, b) && (a.generation == b.generation ==> a.kind == b.kind && !a.verb.Close?)
  }

  ghost predicate OpensItsGeneration(log: seq<Operation>, i: nat)
    requires i < |log|
  {
    log[i].verb.Open? || exists j :: 0 <= j < i && log[j].key == log[i].key && log[j].generation == log[i].generation
  }

  // The port of the last accepted `preview.open` on this surface.
  function LastPort(log: seq<Operation>, key: Key): Option<nat> {
    if log == [] then None
    else
      var op := log[|log| - 1];
      if op.key == key && op.verb.Open? && op.kind == Preview then op.verb.port else LastPort(log[..|log| - 1], key)
  }

  // The entry of a surface is its last accepted operation.
  ghost predicate EntryIsLast(h: Host, key: Key) {
    if key in h.entries then
      exists i :: 0 <= i < |h.log| && IsLastOn(h.log, i, key)
        && var op, e := h.log[i], h.entries[key];
           op.generation == e.generation && op.sequence == e.sequence && op.kind == e.kind && op.verb.Close? == e.closed
    else
      forall i :: 0 <= i < |h.log| ==> h.log[i].key != key
  }

  ghost predicate IsLastOn(log: seq<Operation>, i: nat, key: Key)
    requires i < |log|
  {
    log[i].key == key && forall j :: i < j < |log| ==> log[j].key != key
  }

  ghost predicate HostSound(h: Host) {
    && (forall key :: EntryIsLast(h, key))
    && (forall key :: PortOf(h.entries, key) == LastPort(h.log, key))
    && (forall i, j :: 0 <= i < j < |h.log| ==> InOrder(h.log[i], h.log[j]))
    && (forall i :: 0 <= i < |h.log| ==> OpensItsGeneration(h.log, i))
  }

  lemma OfferKeepsOrder(h: Host, op: Operation, i: nat)
    requires EntryIsLast(h, op.key) && Offer(h, op) != h && i < |h.log|
    requires forall j, k :: 0 <= j < k < |h.log| ==> InOrder(h.log[j], h.log[k])
    ensures InOrder(h.log[i], op)
  {
    if h.log[i].key == op.key {
      var last :| 0 <= last < |h.log| && IsLastOn(h.log, last, op.key);
      assert i <= last;
    }
  }

  lemma OfferKeepsOpens(h: Host, op: Operation, i: nat)
    requires EntryIsLast(h, op.key) && Offer(h, op) != h && i <= |h.log|
        && (i < |h.log| ==> OpensItsGeneration(h.log, i))
    ensures OpensItsGeneration(Offer(h, op).log, i)
  {
    var g := Offer(h, op);
    if i < |h.log| {
      if !h.log[i].verb.Open? {
        var j :| 0 <= j < i && h.log[j].key == h.log[i].key && h.log[j].generation == h.log[i].generation;
        assert g.log[j].key == g.log[i].key && g.log[j].generation == g.log[i].generation;
      }
    } else if !op.verb.Open? {
      var last :| 0 <= last < |h.log| && IsLastOn(h.log, last, op.key);
      assert g.log[last].key == op.key && g.log[last].generation == op.generation;
    }
  }

  lemma OfferKeepsEntry(h: Host, op: Operation, key: Key)
    requires EntryIsLast(h, key) && Offer(h, op) != h
    ensures EntryIsLast(Offer(h, op), key)
  {
    var g := Offer(h, op);
    if key == op.key {
      assert IsLastOn(g.log, |h.log|, key);
    } else if key in h.entries {
      var last :| 0 <= last < |h.log| && IsLastOn(h.log, last, key)
        && var o, e := h.log[last], h.entries[key];
           o.generation == e.generation && o.sequence == e.sequence && o.kind == e.kind && o.verb.Close? == e.closed;
      assert IsLastOn(g.log, last, key);
    }
  }

  lemma OfferKeepsSound(h: Host, op: Operation)
    requires HostSound(h)
    ensures HostSound(Offer(h, op))
  {
    var g := Offer(h, op);
    if g != h {
      assert EntryIsLast(h, op.key);
      assert g.log[..|g.log| - 1] == h.log;
      forall i: nat | i < |h.log| ensures InOrder(h.log[i], op) { OfferKeepsOrder(h, op, i); }
      forall i: nat | i < |g.log| ensures OpensItsGeneration(g.log, i) { OfferKeepsOpens(h, op, i); }
      forall key ensures EntryIsLast(g, key) { OfferKeepsEntry(h, op, key); }
    }
  }

  /**
   * Whatever operations arrive, those accepted on one surface strictly increase in generation and sequence, every
   * generation of a surface starts with an open, and nothing is accepted after a close until a higher generation.
   */
  lemma {:induction false} AcceptedInOrder(ops: seq<Operation>)
    ensures HostSound(OfferAll(ops))
  {
    if ops == [] {
    } else {
      AcceptedInOrder(ops[..|ops| - 1]);
      OfferKeepsSound(OfferAll(ops[..|ops| - 1]), ops[|ops| - 1]);
    }
  }

  // --- Completions --------------------------------------------------------------------------------------------------

  datatype SurfaceState = Starting | Ready | Failed | Closed | Unavailable

  // What the host hands back: whether it says ok for this very operation, its state, and the port of a frame URL.
  datatype HostResult = HostResult(ok: bool, mine: bool, state: SurfaceState, urlPort: Option<nat>, validUrl: bool)

  datatype ReplyError = Stale | InvalidResult | InvalidUrl

  function Reply(entries: map<Key, Entry>, op: Operation, r: HostResult): Result<HostResult, ReplyError> {
    if !CurrentOp(entries, op) then Err(Stale)
    else if !r.ok || !r.mine then Err(InvalidResult)
    else if r.urlPort.Some? && (!r.validUrl || r.urlPort.value < 1024 || r.urlPort.value > 65535) then Err(InvalidUrl)
    else if r.urlPort.Some? && op.kind == Preview && r.urlPort != PortOf(entries, op.key) then Err(InvalidUrl)
    else Ok(r)
  }

  /** An accepted operation is current exactly until a later one on its surface is accepted. */
  lemma CurrentIffLatest(ops: seq<Operation>, i: nat)
    requires i < |OfferAll(ops).log|
    ensures var h := OfferAll(ops);
      CurrentOp(h.entries, h.log[i]) <==> forall j :: i < j < |h.log| ==> h.log[j].key != h.log[i].key
  {
    AcceptedInOrder(ops);
    var h := OfferAll(ops);
    assert EntryIsLast(h, h.log[i].key);
    var last :| 0 <= last < |h.log| && IsLastOn(h.log, last, h.log[i].key)
      && h.log[last].generation == h.entries[h.log[i].key].generation
      && h.log[last].sequence == h.entries[h.log[i].key].sequence;
    assert i <= last;
  }

  // The last accepted `preview.open` of the surface asked for this port.
  ghost predicate LastOpenedWith(log: seq<Operation>, key: Key, port: nat) {
    exists k :: 0 <= k < |log| && OpensPreview(log[k], key) && log[k].verb.port == Some(port)
      && forall m :: k < m < |log| ==> !OpensPreview(log[m], key)
  }

  predicate OpensPreview(op: Operation, key: Key) {
    op.key == key && op.kind == Preview && op.verb.Open?
  }

  lemma {:induction false} LastPortIs(log: seq<Operation>, key: Key, port: nat)
    ensures LastPort(log, key) == Some(port) <==> LastOpenedWith(log, key, port)
  {
    if log == [] {
    } else {
      var before := log[..|log| - 1];
      LastPortIs(before, key, port);
      if !OpensPreview(log[|log| - 1], key) {
        OtherKeepsLastOpened(before, log[|log| - 1], key, port);
        assert before + [log[|log| - 1]] == log;
      }
    }
  }

  lemma OtherKeepsLastOpened(log: seq<Operation>, op: Operation, key: Key, port: nat)
    requires !OpensPreview(op, key)
    ensures LastOpenedWith(log + [op], key, port) <==> LastOpenedWith(log, key, port)
  {
    var after := log + [op];
    if LastOpenedWith(log, key, port) {
      var k :| 0 <= k < |log| && OpensPreview(log[k], key) && log[k].verb.port == Some(port)
        && forall m :: k < m < |log| ==> !OpensPreview(log[m], key);
      assert after[k] == log[k];
    }
    if LastOpenedWith(after, key, port) {
      var k :| 0 <= k < |after| && OpensPreview(after[k], key) && after[k].verb.port == Some(port)
        && forall m :: k < m < |after| ==> !OpensPreview(after[m], key);
      assert log[k] == after[k] && forall m :: k < m < |log| ==> after[m] == log[m];
    }
  }

  // The URL, if there is one, is a frame's, and that of a preview is of the port last opened.
  ghost predicate UrlServes(log: seq<Operation>, op: Operation, r: HostResult) {
    r.urlPort.Some? ==>
      && r.validUrl && 1024 <= r.urlPort.value <= 65535
      && (op.kind == Preview ==> LastOpenedWith(log, op.key, r.urlPort.value))
  }

  /**
   * A completion is returned as it is exactly when nothing later was accepted on its surface while it was pending, the
   * host says ok for this very operation, and its URL serves. Otherwise it is stale exactly when something was; then
   * the result comes before the URL.
   */
  lemma ReturnedRepliesAreCurrent(ops: seq<Operation>, i: nat, r: HostResult)
    requires i < |OfferAll(ops).log|
    ensures var h := OfferAll(ops); var op := h.log[i];
      Reply(h.entries, op, r)
      == if exists j :: i < j < |h.log| && h.log[j].key == op.key then Err(Stale)
         else if !(r.ok && r.mine) then Err(InvalidResult)
         else if !UrlServes(h.log, op, r) then Err(InvalidUrl)
         else Ok(r)
  {
    CurrentIffLatest(ops, i);
    AcceptedInOrder(ops);
    if r.urlPort.Some? {
      LastPortIs(OfferAll(ops).log, OfferAll(ops).log[i].key, r.urlPort.value);
    }
  }

  // No accepted operation of the surface stands in the way of `op`.
  ghost predicate Follows(log: seq<Operation>, op: Operation) {
    forall i :: 0 <= i < |log| && log[i].key == op.key ==>
      || log[i].generation < op.generation
      || (log[i].generation == op.generation && log[i].sequence < op.sequence && log[i].kind == op.kind
          && !log[i].verb.Close?)
  }

  ghost predicate HasGeneration(log: seq<Operation>, op: Operation) {
    exists i :: 0 <= i < |log| && log[i].key == op.key && log[i].generation == op.generation
  }

  /**
   * An operation is accepted exactly when it follows everything accepted on its surface and opens its generation or
   * finds it open. It is stale exactly when it does not follow.
   */
  lemma AcceptedExactly(ops: seq<Operation>, op: Operation)
    ensures var h := OfferAll(ops); var judged := Judge(Look(h.entries, op.key), op);
      && (judged.Ok? <==> Follows(h.log, op) && (op.verb.Open? || HasGeneration(h.log, op)))
      && (judged == Err(StaleSurface) <==> !Follows(h.log, op))
      && (judged == Err(SurfaceRequired) <==>
            Follows(h.log, op) && !op.verb.Open? && !HasGeneration(h.log, op))
      && OfferAll(ops + [op]).log == (if judged.Ok? then h.log + [op] else h.log)
  {
    AcceptedInOrder(ops);
    var h := OfferAll(ops);
    assert (ops + [op])[..|ops|] == ops;
    assert EntryIsLast(h, op.key);
    if op.key in h.entries {
      var last :| 0 <= last < |h.log| && IsLastOn(h.log, last, op.key)
        && var o, e := h.log[last], h.entries[op.key];
           o.generation == e.generation && o.sequence == e.sequence && o.kind == e.kind && o.verb.Close? == e.closed;
      assert forall i :: 0 <= i < last ==> InOrder(h.log[i], h.log[last]);
      hide HostSound, EntryIsLast, OfferAll;
      FollowsTheLast(h.log, last, op);
    } else {
      hide HostSound, OfferAll;
    }
  }

  lemma FollowsTheLast(log: seq<Operation>, last: nat, op: Operation)
    requires last < |log| && IsLastOn(log, last, op.key)
    requires forall i :: 0 <= i < last ==> InOrder(log[i], log[last])
    ensures Follows(log, op) <==>
              || log[last].generation < op.generation
              || (log[last].generation == op.generation && log[last].sequence < op.sequence && log[last].kind == op.kind
                  && !log[last].verb.Close?)
    ensures Follows(log, op) ==> (HasGeneration(log, op) <==> log[last].generation == op.generation)
  {
    assert forall i :: 0 <= i < |log| && log[i].key == op.key ==> i <= last;
  }
}
