/**
 * Ordering the backlog: prerequisites before what needs them, always the smallest available id (tools/issues.ts).
 */
module TopoOrder {
  import opened Options

  // `prereq` is empty, or the id of the one issue that comes first.
  datatype Issue = Issue(id: string, prereq: string)

  datatype BacklogError = DuplicateId(id: string) | Dangling(id: string, prereq: string)
    | CycleAmong(members: set<string>)

  // --- The order of ids ---------------------------------------------------------------------------------------------

  // By code units, the shorter of two first if it is a prefix.
  predicate Less(a: string, b: string) {
    b != "" && (a == "" || a[0] < b[0] || (a[0] == b[0] && Less(a[1..], b[1..])))
  }

  lemma {:induction false} LessIsTotal(a: string, b: string)
    ensures Less(a, b) || a == b || Less(b, a)
    ensures !(Less(a, b) && Less(b, a)) && (a == b ==> !Less(a, b))
  {
    if a != "" && b != "" && a[0] == b[0] {
      LessIsTotal(a[1..], b[1..]);
      assert a == [a[0]] + a[1..] && b == [b[0]] + b[1..];
    } else {
    }
  }

  lemma {:induction false} LessIsTransitive(a: string, b: string, c: string)
    requires Less(a, b) && Less(b, c)
    ensures Less(a, c)
  {
    if a != "" && a[0] == b[0] && b[0] == c[0] {
      LessIsTransitive(a[1..], b[1..], c[1..]);
    } else {
    }
  }

  predicate AtMost(a: string, b: string) {
    a == b || Less(a, b)
  }

  // --- Orders of a backlog ------------------------------------------------------------------------------------------

  predicate Unique(issues: seq<Issue>) {
    forall i, j :: 0 <= i < j < |issues| ==> issues[i].id != issues[j].id
  }

  // The first issue, in input order, whose id was there before.
  ghost predicate FirstRepeat(issues: seq<Issue>, id: string) {
    exists i, j :: 0 <= i < j < |issues| && issues[i].id == issues[j].id == id && Unique(issues[..j])
  }

  // The first issue, in input order, whose prerequisite is not an issue.
  ghost predicate FirstDangling(issues: seq<Issue>, id: string, prereq: string) {
    exists i :: 0 <= i < |issues| && issues[i] == Issue(id, prereq) && Hangs(issues, issues[i])
      && forall k :: 0 <= k < i ==> !Hangs(issues, issues[k])
  }

  predicate Hangs(issues: seq<Issue>, issue: Issue) {
    issue.prereq != "" && issue.prereq !in Table(issues)
  }

  predicate Has(issues: seq<Issue>, id: string) {
    exists i :: 0 <= i < |issues| && issues[i].id == id
  }

  lemma HasLast(issues: seq<Issue>)
    requires issues != []
    ensures forall id :: Has(issues, id) <==> id == issues[|issues| - 1].id || Has(issues[..|issues| - 1], id)
  {
    var last, before := issues[|issues| - 1], issues[..|issues| - 1];
    forall id ensures Has(issues, id) <==> id == last.id || Has(before, id) {
      if Has(before, id) {
        var i :| 0 <= i < |before| && before[i].id == id;
        assert issues[i] == before[i];
      }
      if Has(issues, id) {
        var i :| 0 <= i < |issues| && issues[i].id == id;
        if i < |before| { assert before[i] == issues[i]; }
      }
    }
  }

  lemma UniqueBefore(issues: seq<Issue>)
    requires issues != []
    ensures forall i :: 0 <= i < |issues| - 1 ==> issues[..|issues| - 1][i] == issues[i]
    ensures Unique(issues) ==> Unique(issues[..|issues| - 1])
  {
  }

  function Table(issues: seq<Issue>): (table: map<string, string>)
    ensures forall id :: id in table <==> Has(issues, id)
    ensures Unique(issues) ==> forall i :: 0 <= i < |issues|
                                ==> Has(issues, issues[i].id) && table[issues[i].id] == issues[i].prereq
  {
    if issues == [] then map[]
    else
      var last := issues[|issues| - 1];
      var before := issues[..|issues| - 1];
      HasLast(issues);
      UniqueBefore(issues);
      Table(before)[last.id := last.prereq]
  }

  predicate Closed(table: map<string, string>) {
    forall id :: id in table ==> table[id] == "" || table[id] in table
  }

  // `id` may come next after `done`.
  predicate MayFollow(table: map<string, string>, done: seq<string>, id: string)
    requires id in table
  {
    table[id] == "" || table[id] in done
  }

  ghost predicate Begins(table: map<string, string>, order: seq<string>) {
    && (forall k :: 0 <= k < |order| ==> order[k] in table && MayFollow(table, order[..k], order[k]))
    && (forall j, k :: 0 <= j < k < |order| ==> order[j] != order[k])
  }

  // Every issue once, each after its prerequisite.
  ghost predicate IsOrder(table: map<string, string>, order: seq<string>) {
    Begins(table, order) && forall id :: id in table ==> id in order
  }

  // Each id is the smallest that could have come there.
  ghost predicate Greedy(table: map<string, string>, order: seq<string>) {
    forall k, id :: 0 <= k < |order| && id in table && id !in order[..k] && MayFollow(table, order[..k], id)
        ==> AtMost(order[k], id)
  }

  ghost predicate Earlier(a: seq<string>, b: seq<string>) {
    exists k :: 0 <= k < |a| && k < |b| && a[..k] == b[..k] && Less(a[k], b[k])
  }

  ghost predicate IsLeastOrder(table: map<string, string>, order: seq<string>) {
    IsOrder(table, order) && forall other :: IsOrder(table, other) ==> other == order || Earlier(order, other)
  }

  function IdsOf(issues: seq<Issue>): (ids: seq<string>)
    ensures |ids| == |issues| && forall i :: 0 <= i < |issues| ==> ids[i] == issues[i].id
  {
    seq(|issues|, i requires 0 <= i < |issues| => issues[i].id)
  }

  // The first place where two orders differ.
  lemma {:induction false} FirstDifference(a: seq<string>, b: seq<string>) returns (k: nat)
    ensures k <= |a| && k <= |b| && a[..k] == b[..k]
    ensures k < |a| && k < |b| ==> a[k] != b[k]
    ensures k == |a| || k == |b| || (k < |a| && k < |b|)
  {
    if a == [] || b == [] || a[0] != b[0] {
      k := 0;
    } else {
      var rest := FirstDifference(a[1..], b[1..]);
      k := rest + 1;
      assert a[..k] == [a[0]] + a[1..][..rest] && b[..k] == [b[0]] + b[1..][..rest];
    }
  }

  // An order has everything, so no order goes on past another.
  lemma OrdersEndTogether(table: map<string, string>, short: seq<string>, long: seq<string>)
    requires IsOrder(table, short) && IsOrder(table, long) && |short| <= |long| && long[..|short|] == short
    ensures long == short
  {
  }

  lemma GreedyIsEarlier(table: map<string, string>, order: seq<string>, other: seq<string>)
    requires IsOrder(table, order) && Greedy(table, order) && IsOrder(table, other)
    ensures other == order || Earlier(order, other)
  {
    var k := FirstDifference(order, other);
    if k == |other| {
      assert other[..k] == other;
      OrdersEndTogether(table, other, order);
    } else if k == |order| {
      assert order[..k] == order;
      OrdersEndTogether(table, order, other);
    } else {
      var id := other[k];
      assert MayFollow(table, other[..k], id) && id !in other[..k];
      assert id !in order[..k] && MayFollow(table, order[..k], id);
      assert AtMost(order[k], id);
    }
  }

  lemma GreedyIsLeast(table: map<string, string>, order: seq<string>)
    requires IsOrder(table, order) && Greedy(table, order)
    ensures IsLeastOrder(table, order)
  {
    forall other | IsOrder(table, other) ensures other == order || Earlier(order, other) {
      GreedyIsEarlier(table, order, other);
    }
  }

  lemma EarlierIsAsymmetric(a: seq<string>, b: seq<string>)
    requires Earlier(a, b)
    ensures !Earlier(b, a)
  {
    if Earlier(b, a) {
      var j :| 0 <= j < |a| && j < |b| && a[..j] == b[..j] && Less(a[j], b[j]);
      var k :| 0 <= k < |a| && k < |b| && b[..k] == a[..k] && Less(b[k], a[k]);
      LessIsTotal(a[j], b[j]);
      LessIsTotal(a[k], b[k]);
      hide Less;
    }
  }

  /** The least order depends only on the issues, not on where they stand in the input. */
  lemma LeastOrderIsUnique(table: map<string, string>, a: seq<string>, b: seq<string>)
    requires IsLeastOrder(table, a) && IsLeastOrder(table, b)
    ensures a == b
  {
    hide IsOrder, Earlier;
    if a != b { EarlierIsAsymmetric(a, b); }
  }

  lemma SameIssuesSameTable(a: seq<Issue>, b: seq<Issue>)
    requires Unique(a) && Unique(b) && forall issue :: issue in a <==> issue in b
    ensures Table(a) == Table(b)
  {
    forall id | id in Table(a) ensures id in Table(b) && Table(a)[id] == Table(b)[id] {
      var i :| 0 <= i < |a| && a[i].id == id;
      assert a[i] in b;
    }
    forall id | id in Table(b) ensures id in Table(a) {
      var i :| 0 <= i < |b| && b[i].id == id;
      assert b[i] in a;
    }
  }

  // --- Cycles -------------------------------------------------------------------------------------------------------

  // Each of these needs another of these.
  predicate Trapped(table: map<string, string>, s: set<string>) {
    forall id :: id in s ==> id in table && table[id] != "" && table[id] in s
  }

  lemma {:induction false} NoOrderOfTheTrapped(table: map<string, string>, s: set<string>, order: seq<string>, n: nat)
    requires Trapped(table, s) && Begins(table, order) && n <= |order|
    ensures forall k :: 0 <= k < n ==> order[k] !in s
  {
    if n == 0 {
    } else {
      NoOrderOfTheTrapped(table, s, order, n - 1);
    }
  }

  // --- The algorithm ------------------------------------------------------------------------------------------------

  lemma IndexIsTable(issues: seq<Issue>, byId: map<string, Issue>)
    requires Unique(issues) && forall id :: id in byId ==> byId[id].id == id && byId[id] in issues
    requires forall i :: 0 <= i < |issues| ==> issues[i].id in byId && byId[issues[i].id] == issues[i]
    ensures byId.Keys == Table(issues).Keys && forall id :: id in byId ==> byId[id].prereq == Table(issues)[id]
  {
    hide Table;
    forall id | id in byId ensures id in Table(issues) && byId[id].prereq == Table(issues)[id] {
      var i :| 0 <= i < |issues| && issues[i] == byId[id];
    }
  }

  method Index(issues: seq<Issue>) returns (r: Result<map<string, Issue>, BacklogError>)
    ensures r.Ok? <==> Unique(issues)
    ensures r.Ok? ==> r.value.Keys == Table(issues).Keys
    ensures r.Ok? ==>
      forall id :: id in r.value
          ==> r.value[id] in issues && r.value[id].id == id && r.value[id].prereq == Table(issues)[id]
    ensures r.Err? ==> r.error.DuplicateId? && FirstRepeat(issues, r.error.id)
  {
    var byId: map<string, Issue> := map[];
    for n := 0 to |issues|
      invariant Unique(issues[..n])
      invariant forall id :: id in byId ==> byId[id].id == id && byId[id] in issues[..n]
      invariant forall i :: 0 <= i < n ==> issues[i].id in byId && byId[issues[i].id] == issues[i]
    {
      var issue := issues[n];
      if issue.id in byId {
        assert byId[issue.id] in issues[..n];
        return Err(DuplicateId(issue.id));
      }
      byId := byId[issue.id := issue];
    }
    assert issues[..|issues|] == issues;
    IndexIsTable(issues, byId);
    hide Table;
    return Ok(byId);
  }

  // The first `n` issues are listed under their prerequisites, and counted.
  ghost predicate Listed(issues: seq<Issue>, n: nat, dependents: map<string, seq<string>>)
    requires n <= |issues|
  {
    && (forall p, x :: p in dependents && x in dependents[p]
          ==> p != "" && exists i :: 0 <= i < n && issues[i] == Issue(x, p))
    && (forall i :: 0 <= i < n && issues[i].prereq != "" && issues[i].prereq in dependents
          ==> issues[i].id in dependents[issues[i].prereq])
    && (forall p :: p in dependents ==> Distinct(dependents[p]))
  }

  lemma ListOne(issues: seq<Issue>, n: nat, dependents: map<string, seq<string>>)
    requires Unique(issues) && n < |issues| && Listed(issues, n, dependents)
    requires issues[n].prereq != "" && issues[n].prereq in dependents
    ensures var p := issues[n].prereq;
      Listed(issues, n + 1, dependents[p := dependents[p] + [issues[n].id]])
  {
    var p, id := issues[n].prereq, issues[n].id;
    var after := dependents[p := dependents[p] + [id]];
    forall q, x | q in after && x in after[q] ensures exists i :: 0 <= i < n + 1 && issues[i] == Issue(x, q) {
      if q == p && x == id {
        assert issues[n] == Issue(x, q);
      } else {
        var i :| 0 <= i < n && issues[i] == Issue(x, q);
      }
    }
  }

  lemma ListNone(issues: seq<Issue>, n: nat, dependents: map<string, seq<string>>)
    requires n < |issues| && Listed(issues, n, dependents) && issues[n].prereq == ""
    ensures Listed(issues, n + 1, dependents)
  {
    forall p, x | p in dependents && x in dependents[p] ensures exists i :: 0 <= i < n + 1 && issues[i] == Issue(x, p) {
      var i :| 0 <= i < n && issues[i] == Issue(x, p);
    }
  }

  ghost predicate Counted(issues: seq<Issue>, n: nat, indegree: map<string, nat>)
    requires n <= |issues|
  {
    forall i :: 0 <= i < |issues| ==>
      issues[i].id in indegree && indegree[issues[i].id] == if i >= n || issues[i].prereq == "" then 0 else 1
  }

  lemma CountOne(issues: seq<Issue>, n: nat, indegree: map<string, nat>)
    requires Unique(issues) && n < |issues| && Counted(issues, n, indegree)
    ensures issues[n].prereq == "" ==> Counted(issues, n + 1, indegree)
    ensures issues[n].prereq != "" ==> Counted(issues, n + 1, indegree[issues[n].id := indegree[issues[n].id] + 1])
  {
  }

  lemma NoneYet(issues: seq<Issue>, indegree: map<string, nat>, dependents: map<string, seq<string>>)
    requires forall i :: 0 <= i < |issues| ==> issues[i].id in indegree && indegree[issues[i].id] == 0
    requires forall p :: p in dependents ==> dependents[p] == []
    ensures Counted(issues, 0, indegree) && Listed(issues, 0, dependents)
  {
  }

  // Ids and prerequisites are all in the index.
  predicate Indexed<T>(issues: seq<Issue>, byId: map<string, T>) {
    forall n :: 0 <= n < |issues| ==> issues[n].id in byId && (issues[n].prereq != "" ==> issues[n].prereq in byId)
  }

  method Edges(issues: seq<Issue>, byId: map<string, Issue>) returns (indegree: map<string, nat>,
      dependents: map<string, seq<string>>)
    requires Unique(issues) && Indexed(issues, byId)
    ensures indegree.Keys == dependents.Keys == byId.Keys
    ensures Counted(issues, |issues|, indegree) && Listed(issues, |issues|, dependents)
  {
    hide Counted, Listed, Unique;
    indegree := map id | id in byId :: 0;
    dependents := map id | id in byId :: [];
    NoneYet(issues, indegree, dependents);
    for n := 0 to |issues|
      invariant indegree.Keys == dependents.Keys == byId.Keys
      invariant Counted(issues, n, indegree) && Listed(issues, n, dependents)
    {
      var issue := issues[n];
      CountOne(issues, n, indegree);
      if issue.prereq != "" {
        ListOne(issues, n, dependents);
        indegree := indegree[issue.id := indegree[issue.id] + 1];
        dependents := dependents[issue.prereq := dependents[issue.prereq] + [issue.id]];
      } else {
        ListNone(issues, n, dependents);
      }
    }
  }

  predicate Distinct(ids: seq<string>) {
    forall i, j :: 0 <= i < j < |ids| ==> ids[i] != ids[j]
  }

  // Sorting and taking the first: the smallest goes, and the others stay.
  method TakeLeast(available: seq<string>) returns (id: string, rest: seq<string>)
    requires available != [] && Distinct(available)
    ensures id in available && forall other :: other in available ==> AtMost(id, other)
    ensures Distinct(rest) && forall other :: other in rest <==> other in available && other != id
  {
    var at := 0;
    for n := 1 to |available|
      invariant 0 <= at < |available| && at < n
      invariant forall k :: 0 <= k < n ==> AtMost(available[at], available[k])
    {
      LessIsTotal(available[at], available[n]);
      if Less(available[n], available[at]) {
        forall k | 0 <= k < n ensures AtMost(available[n], available[k]) {
          if available[at] != available[k] { LessIsTransitive(available[n], available[at], available[k]); }
        }
        at := n;
      }
    }
    id, rest := available[at], available[..at] + available[at + 1..];
    forall other | other in available && other != id ensures other in rest {
      var k :| 0 <= k < |available| && available[k] == other;
      assert rest[if k < at then k else k - 1] == other;
    }
  }

  // The ids with nothing left to wait for, once `done` are emitted.
  predicate Open(table: map<string, string>, done: seq<string>, id: string) {
    id in table && id !in done && MayFollow(table, done, id)
  }

  ghost predicate Waiting(table: map<string, string>, done: seq<string>, indegree: map<string, nat>) {
    indegree.Keys == table.Keys
    && forall id :: id in table && id !in done ==> indegree[id] == if MayFollow(table, done, id) then 0 else 1
  }

  ghost predicate Offered(table: map<string, string>, done: seq<string>, available: seq<string>) {
    Distinct(available) && forall id :: id in available <==> Open(table, done, id)
  }

  lemma EmitLeast(table: map<string, string>, done: seq<string>, available: seq<string>, id: string)
    requires Begins(table, done) && Greedy(table, done) && Offered(table, done, available)
    requires id in available && forall other :: other in available ==> AtMost(id, other)
    ensures Begins(table, done + [id]) && Greedy(table, done + [id])
  {
    var after := done + [id];
    assert Open(table, done, id);
    forall k | 0 <= k < |after| ensures after[k] in table && MayFollow(table, after[..k], after[k]) {
      assert after[..k] == done[..k];
    }
    forall k, other | 0 <= k < |after| && other in table && other !in after[..k] && MayFollow(table, after[..k], other)
      ensures AtMost(after[k], other)
    {
      assert after[..k] == done[..k];
      if k == |done| { assert done[..k] == done && Open(table, done, other); }
    }
  }

  // Every dependent of an emitted issue has waited for it alone.
  lemma {:induction false} DependentsWait(table: map<string, string>, done: seq<string>, id: string, x: string)
    requires Begins(table, done) && x in table && table[x] == id && id != "" && id !in done
    ensures x !in done && !MayFollow(table, done, x)
  {
  }

  ghost predicate Waiters(table: map<string, string>, id: string, waiters: seq<string>) {
    Distinct(waiters) && forall x :: x in waiters <==> id != "" && x in table && table[x] == id
  }

  lemma Released(table: map<string, string>, done: seq<string>, id: string, waiters: seq<string>,
                 indegree: map<string, nat>,
                 counts: map<string, nat>, rest: seq<string>, available: seq<string>)
    requires Open(table, done, id) && Waiting(table, done, indegree) && Waiters(table, id, waiters)
    requires forall x :: x in rest <==> Open(table, done, x) && x != id
    requires counts.Keys == table.Keys
        && forall x :: x in table ==> counts[x] == if x in waiters then 0 else indegree[x]
    requires Distinct(available) && forall x :: x in available <==> x in rest || x in waiters
    requires forall x :: x in waiters ==> x !in done
    ensures Waiting(table, done + [id], counts) && Offered(table, done + [id], available)
  {
    var after := done + [id];
    forall x | x in table ensures MayFollow(table, after, x) <==> MayFollow(table, done, x) || x in waiters {}
    forall x ensures x in available <==> Open(table, after, x) {
      if x in table && x != id { assert x in after <==> x in done; }
    }
  }

  // These have been counted down to none, and made available.
  ghost predicate CountedDown(gone: seq<string>, indegree: map<string, nat>, counts: map<string, nat>,
                              rest: seq<string>,
                              available: seq<string>) {
    && counts.Keys == indegree.Keys
    && (forall x :: x in indegree ==> counts[x] == if x in gone then 0 else indegree[x])
    && Distinct(available) && forall x :: x in available <==> x in rest || x in gone
  }

  lemma CountDownOne(waiters: seq<string>, m: nat, indegree: map<string, nat>, counts: map<string, nat>,
                     rest: seq<string>,
                     available: seq<string>)
    requires m < |waiters| && Distinct(waiters) && CountedDown(waiters[..m], indegree, counts, rest, available)
    requires waiters[m] in indegree && indegree[waiters[m]] == 1 && waiters[m] !in rest
    ensures waiters[m] in counts && counts[waiters[m]] == 1
    ensures CountedDown(waiters[..m + 1], indegree, counts[waiters[m] := 0], rest, available + [waiters[m]])
  {
    assert waiters[..m + 1] == waiters[..m] + [waiters[m]];
    assert waiters[m] !in waiters[..m];
  }

  lemma WaitingCounts(table: map<string, string>, done: seq<string>, indegree: map<string, nat>)
    requires Waiting(table, done, indegree)
    ensures indegree.Keys == table.Keys
  {
  }

  method Release(ghost table: map<string, string>, ghost done: seq<string>, id: string, waiters: seq<string>,
                 indegree: map<string, nat>, rest: seq<string>) returns (counts: map<string, nat>,
                     available: seq<string>)
    requires Begins(table, done) && Open(table, done, id) && Waiting(table, done, indegree)
        && Waiters(table, id, waiters)
    requires Distinct(rest) && forall x :: x in rest <==> Open(table, done, x) && x != id
    ensures Waiting(table, done + [id], counts) && Offered(table, done + [id], available)
  {
    counts, available := indegree, rest;
    forall x | x in waiters
      ensures x in table && x !in done && indegree[x] == 1 && x !in rest
    {
      DependentsWait(table, done, id, x);
    }
    assert Distinct(waiters);
    hide Begins, Waiting, Open, Waiters;
    assert indegree.Keys == table.Keys by { WaitingCounts(table, done, indegree); }
    for m := 0 to |waiters|
      invariant CountedDown(waiters[..m], indegree, counts, rest, available)
    {
      CountDownOne(waiters, m, indegree, counts, rest, available);
      var dep := waiters[m];
      var next := counts[dep] - 1;
      counts := counts[dep := next];
      if next == 0 { available := available + [dep]; }
    }
    assert waiters[..|waiters|] == waiters;
    Released(table, done, id, waiters, indegree, counts, rest, available);
  }

  lemma AllEmitted(table: map<string, string>, done: seq<string>)
    requires Begins(table, done)
    ensures |done| <= |table| && (|done| == |table| <==> forall id :: id in table ==> id in done)
  {
    var emitted := set id | id in done;
    DistinctSize(done);
    assert emitted <= table.Keys;
    assert table.Keys == emitted + (table.Keys - emitted);
    if |done| == |table| { assert table.Keys - emitted == {}; }
    if forall id :: id in table ==> id in done { assert emitted == table.Keys; }
  }

  lemma {:induction false} DistinctSize(ids: seq<string>)
    requires Distinct(ids)
    ensures |set id | id in ids| == |ids|
  {
    if ids == [] {
    } else {
      DistinctSize(ids[1..]);
      assert (set id | id in ids) == {ids[0]} + set id | id in ids[1..];
    }
  }

  // What never became available is the largest set whose members wait for each other.
  lemma StuckAreTrapped(table: map<string, string>, done: seq<string>)
    requires Closed(table) && Begins(table, done) && forall id :: !Open(table, done, id)
    ensures var members := set id | id in table && id !in done;
      Trapped(table, members) && forall s :: Trapped(table, s) ==> s <= members
  {
    var members := set id | id in table && id !in done;
    forall id | id in members ensures table[id] != "" && table[id] in members { assert !Open(table, done, id); }
    forall s | Trapped(table, s) ensures s <= members {
      NoOrderOfTheTrapped(table, s, done, |done|);
    }
  }

  ghost predicate OrderedRight(issues: seq<Issue>, r: Result<seq<Issue>, BacklogError>) {
    match r
    case Ok(ordered) =>
      && Unique(issues) && Closed(Table(issues)) && IsLeastOrder(Table(issues), IdsOf(ordered))
      && forall k :: 0 <= k < |ordered| ==> ordered[k] in issues
    case Err(DuplicateId(id)) => FirstRepeat(issues, id)
    case Err(Dangling(id, prereq)) =>
      Unique(issues) && FirstDangling(issues, id, prereq)
    case Err(CycleAmong(members)) =>
      && Unique(issues) && Closed(Table(issues)) && members != {}
      && Trapped(Table(issues), members) && (forall s :: Trapped(Table(issues), s) ==> s <= members)
      && (forall order :: !IsOrder(Table(issues), order))
  }

  method FindDangling(issues: seq<Issue>, byId: map<string, Issue>) returns (r: Option<Issue>)
    ensures r.None? <==> forall n :: 0 <= n < |issues| ==> issues[n].prereq == "" || issues[n].prereq in byId
    ensures r.Some? && byId.Keys == Table(issues).Keys ==> FirstDangling(issues, r.value.id, r.value.prereq)
  {
    for n := 0 to |issues|
      invariant forall i :: 0 <= i < n ==> issues[i].prereq == "" || issues[i].prereq in byId
    {
      if issues[n].prereq != "" && issues[n].prereq !in byId {
        return Some(issues[n]);
      }
    }
    return None;
  }

  lemma AtTheStart(issues: seq<Issue>, byId: map<string, Issue>, indegree: map<string, nat>,
                   dependents: map<string, seq<string>>)
    requires Unique(issues) && Indexed(issues, byId)
        && byId.Keys == Table(issues).Keys == indegree.Keys == dependents.Keys
    requires Counted(issues, |issues|, indegree) && Listed(issues, |issues|, dependents)
    ensures Closed(Table(issues)) && Waiting(Table(issues), [], indegree)
    ensures forall id :: id in dependents ==> Waiters(Table(issues), id, dependents[id])
  {
    var table := Table(issues);
    forall id | id in table
      ensures (table[id] == "" || table[id] in table) && indegree[id] == if MayFollow(table, [], id) then 0 else 1
    {
      var i :| 0 <= i < |issues| && issues[i].id == id;
      assert table[issues[i].id] == issues[i].prereq;
    }
    forall id | id in dependents ensures Waiters(table, id, dependents[id]) {
      forall x ensures x in dependents[id] <==> id != "" && x in table && table[x] == id {
        if x in dependents[id] {
          var i :| 0 <= i < |issues| && issues[i] == Issue(x, id);
          assert table[issues[i].id] == issues[i].prereq;
        }
        if id != "" && x in table && table[x] == id {
          var i :| 0 <= i < |issues| && issues[i].id == x;
          assert table[issues[i].id] == issues[i].prereq;
        }
      }
    }
  }

  lemma FirstOffer(table: map<string, string>, indegree: map<string, nat>, available: seq<string>)
    requires Waiting(table, [], indegree) && Distinct(available)
    requires forall id :: id in available <==> id in table && indegree[id] == 0
    ensures Offered(table, [], available) && Begins(table, []) && Greedy(table, [])
  {
  }

  method Sources(byId: map<string, Issue>, issues: seq<Issue>,
                 indegree: map<string, nat>) returns (available: seq<string>)
    requires Unique(issues) && Indexed(issues, byId) && indegree.Keys == byId.Keys
    requires forall id :: id in byId ==> byId[id] in issues && byId[id].id == id
    ensures Distinct(available) && forall id :: id in available <==> id in byId && indegree[id] == 0
  {
    available := [];
    for n := 0 to |issues|
      invariant Distinct(available)
      invariant forall id :: id in available
                 <==> id in byId && indegree[id] == 0 && exists i :: 0 <= i < n && issues[i].id == id
    {
      if indegree[issues[n].id] == 0 { available := available + [issues[n].id]; }
    }
  }

  // What the loop keeps between rounds.
  ghost predicate Emitting(table: map<string, string>, done: seq<string>, counts: map<string, nat>,
                           available: seq<string>) {
    Begins(table, done) && Greedy(table, done) && Waiting(table, done, counts) && Offered(table, done, available)
  }

  lemma Chosen(table: map<string, string>, done: seq<string>, available: seq<string>, id: string)
    requires Begins(table, done) && Greedy(table, done) && Offered(table, done, available)
    requires id in available && forall other :: other in available ==> AtMost(id, other)
    ensures id in table && Open(table, done, id) && |done| < |table|
    ensures Begins(table, done + [id]) && Greedy(table, done + [id])
  {
    assert Open(table, done, id);
    EmitLeast(table, done, available, id);
    AllEmitted(table, done + [id]);
  }

  method Round(ghost table: map<string, string>, ghost done: seq<string>, dependents: map<string, seq<string>>,
               counts: map<string, nat>, available: seq<string>)
      returns (id: string, nextCounts: map<string, nat>, nextAvailable: seq<string>)
    requires Emitting(table, done, counts, available) && available != [] && dependents.Keys == table.Keys
    requires forall id :: id in dependents ==> Waiters(table, id, dependents[id])
    ensures id in table && |done| < |table|
    ensures Emitting(table, done + [id], nextCounts, nextAvailable)
  {
    hide Begins, Greedy, Waiting, Waiters, Open;
    var rest;
    id, rest := TakeLeast(available);
    Chosen(table, done, available, id);
    nextCounts, nextAvailable := Release(table, done, id, dependents[id], counts, rest);
  }

  // Kahn's algorithm over the index and the counts.
  method Kahn(ghost table: map<string, string>, byId: map<string, Issue>, indegree: map<string, nat>,
              dependents: map<string, seq<string>>, sources: seq<string>) returns (ordered: seq<Issue>)
    requires byId.Keys == dependents.Keys == table.Keys && forall id :: id in byId ==> byId[id].id == id
    requires Emitting(table, [], indegree, sources)
    requires forall id :: id in dependents ==> Waiters(table, id, dependents[id])
    ensures Begins(table, IdsOf(ordered)) && Greedy(table, IdsOf(ordered)) && Offered(table, IdsOf(ordered), [])
    ensures forall k :: 0 <= k < |ordered| ==> ordered[k].id in byId && ordered[k] == byId[ordered[k].id]
  {
    ordered := [];
    var counts, available := indegree, sources;
    ghost var done: seq<string> := [];
    hide Waiters, Begins, Greedy, Waiting, Offered;
    while |available| > 0
      invariant done == IdsOf(ordered) && Emitting(table, done, counts, available)
      invariant forall k :: 0 <= k < |ordered| ==> ordered[k].id in byId && ordered[k] == byId[ordered[k].id]
      decreases |table| - |done|
    {
      var id;
      id, counts, available := Round(table, done, dependents, counts, available);
      ordered := ordered + [byId[id]];
      done := done + [id];
    }
  }

  method TopoOrder(issues: seq<Issue>) returns (r: Result<seq<Issue>, BacklogError>)
    ensures OrderedRight(issues, r)
  {
    var index := Index(issues);
    if index.Err? { return Err(index.error); }
    var byId := index.value;
    var dangling := FindDangling(issues, byId);
    if dangling.Some? { return Err(Dangling(dangling.value.id, dangling.value.prereq)); }
    r := OrderIndexed(issues, byId);
  }

  method Prepare(issues: seq<Issue>, byId: map<string, Issue>)
      returns (indegree: map<string, nat>, dependents: map<string, seq<string>>, sources: seq<string>)
    requires Unique(issues) && Indexed(issues, byId) && byId.Keys == Table(issues).Keys
    requires forall id :: id in byId ==> byId[id].id == id && byId[id] in issues
    ensures Closed(Table(issues)) && Emitting(Table(issues), [], indegree, sources)
    ensures dependents.Keys == byId.Keys && forall id :: id in dependents ==> Waiters(Table(issues), id, dependents[id])
  {
    indegree, dependents := Edges(issues, byId);
    AtTheStart(issues, byId, indegree, dependents);
    hide Unique, Indexed, Table, Listed, Counted, Waiters;
    sources := Sources(byId, issues, indegree);
    FirstOffer(Table(issues), indegree, sources);
  }

  method OrderIndexed(issues: seq<Issue>, byId: map<string, Issue>) returns (r: Result<seq<Issue>, BacklogError>)
    requires Unique(issues) && Indexed(issues, byId) && byId.Keys == Table(issues).Keys
    requires forall id :: id in byId ==> byId[id].id == id && byId[id] in issues
    ensures OrderedRight(issues, r)
  {
    hide Waiters, Greedy, Waiting, Offered, Emitting, Unique, Closed, Indexed, Begins, Trapped, Table, IsOrder,
        IsLeastOrder;
    ghost var table := Table(issues);
    var indegree, dependents, sources := Prepare(issues, byId);
    var ordered := Kahn(table, byId, indegree, dependents, sources);
    assert |byId| == |byId.Keys| == |table|;
    if |ordered| != |byId| {
      var emitted := set k | 0 <= k < |ordered| :: ordered[k].id;
      var members := set id | id in byId && id !in emitted;
      CycleIsReal(table, IdsOf(ordered), members, emitted);
      return Err(CycleAmong(members));
    }
    OrderIsRight(issues, ordered);
    return Ok(ordered);
  }

  lemma TrappedHasNoOrder(table: map<string, string>, s: set<string>)
    requires Trapped(table, s) && s != {}
    ensures forall order :: !IsOrder(table, order)
  {
    var id :| id in s;
    forall order ensures !IsOrder(table, order) {
      if Begins(table, order) { NoOrderOfTheTrapped(table, s, order, |order|); }
    }
  }

  lemma CycleIsReal(table: map<string, string>, done: seq<string>, members: set<string>, emitted: set<string>)
    requires Closed(table) && Begins(table, done) && Offered(table, done, []) && |done| != |table|
    requires (forall id :: id in emitted <==> id in done) && members == set id | id in table && id !in emitted
    ensures members != {} && Trapped(table, members) && (forall s :: Trapped(table, s) ==> s <= members)
    ensures forall order :: !IsOrder(table, order)
  {
    forall id ensures !Open(table, done, id) { assert id !in []; }
    StuckAreTrapped(table, done);
    AllEmitted(table, done);
    hide Begins, Closed, Offered, Open, Trapped, IsOrder;
    assert members == set id | id in table && id !in done;
    var id :| id in table && id !in done;
    assert id in members;
    TrappedHasNoOrder(table, members);
  }

  lemma OrderIsRight(issues: seq<Issue>, ordered: seq<Issue>)
    requires Unique(issues) && Closed(Table(issues)) && |ordered| == |Table(issues)|
    requires Begins(Table(issues), IdsOf(ordered)) && Greedy(Table(issues), IdsOf(ordered))
    requires forall k :: 0 <= k < |ordered| ==> ordered[k] in issues
    ensures OrderedRight(issues, Ok(ordered))
  {
    AllEmitted(Table(issues), IdsOf(ordered));
    GreedyIsLeast(Table(issues), IdsOf(ordered));
  }

  /** The ordering succeeds exactly when ids are unique, every prerequisite is an issue, and some order exists. */
  lemma SucceedsIffOrderExists(issues: seq<Issue>, r: Result<seq<Issue>, BacklogError>)
    requires OrderedRight(issues, r)
    ensures r.Ok? <==> Unique(issues) && Closed(Table(issues)) && exists order :: IsOrder(Table(issues), order)
  {
    if r.Err? && r.error.Dangling? {
      var i :| 0 <= i < |issues| && issues[i] == Issue(r.error.id, r.error.prereq);
      assert Unique(issues) ==> Table(issues)[issues[i].id] == issues[i].prereq;
    }
  }

  lemma OnlyACycleFails(issues: seq<Issue>, r: Result<seq<Issue>, BacklogError>)
    requires Unique(issues) && Closed(Table(issues)) && OrderedRight(issues, r) && r.Err?
    ensures r.error.CycleAmong?
  {
    SucceedsIffOrderExists(issues, r);
  }

  // --- Other arrangements of the input ------------------------------------------------------------------------------

  lemma {:induction false} TwoOfOne(issues: seq<Issue>, x: Issue)
    ensures multiset(issues)[x] >= 2 <==> exists i, j :: 0 <= i < j < |issues| && issues[i] == issues[j] == x
  {
    if issues == [] {
    } else {
      var before, last := issues[..|issues| - 1], issues[|issues| - 1];
      assert issues == before + [last];
      TwoOfOne(before, x);
      if x == last && x in before {
        var i :| 0 <= i < |before| && before[i] == x;
        assert issues[i] == issues[|before|] == x;
      }
      if i, j :| 0 <= i < j < |issues| && issues[i] == issues[j] == x {
        if j < |before| {
          assert before[i] == before[j] == x;
        } else {
          assert before[i] == x && x in before;
          assert multiset(before)[x] >= 1;
        }
      }
    }
  }

  lemma SameIssues(a: seq<Issue>, b: seq<Issue>)
    requires multiset(a) == multiset(b)
    ensures forall issue :: issue in a <==> issue in b
    ensures Unique(a) ==> Unique(b)
  {
    forall issue ensures issue in a <==> issue in b {
      assert issue in a <==> issue in multiset(a);
    }
    if Unique(a) {
      forall i, j | 0 <= i < j < |b| ensures b[i].id != b[j].id {
        assert b[i] in a && b[j] in a;
        TwoOfOne(a, b[i]);
        TwoOfOne(b, b[i]);
      }
    }
  }

  // An error of one kind is an error of that kind for the other.
  lemma SameKindOfError(a: seq<Issue>, b: seq<Issue>, ra: Result<seq<Issue>, BacklogError>,
                        rb: Result<seq<Issue>, BacklogError>)
    requires multiset(a) == multiset(b) && OrderedRight(a, ra) && OrderedRight(b, rb) && ra.Err?
    ensures rb.Err?
    ensures ra.error.DuplicateId? ==> rb.error.DuplicateId?
    ensures ra.error.Dangling? ==> rb.error.Dangling?
    ensures ra.error.CycleAmong? ==> rb.error.CycleAmong?
  {
    SameIssues(a, b);
    SameIssues(b, a);
    match ra.error
    case DuplicateId(_) =>
    case Dangling(id, prereq) =>
      SameIssuesSameTable(a, b);
      assert Hangs(b, Issue(id, prereq)) && Issue(id, prereq) in b;
      var i :| 0 <= i < |b| && b[i] == Issue(id, prereq);
      assert Table(b)[b[i].id] == prereq;
    case CycleAmong(_) =>
      SameIssuesSameTable(a, b);
      SucceedsIffOrderExists(a, ra);
      SucceedsIffOrderExists(b, rb);
      OnlyACycleFails(b, rb);
  }

  /**
   * Two arrangements of the same issues, repeats included, give the same order or name the same cycle. If the backlog
   * is refused for a repeated id or a dangling prerequisite, both arrangements are refused for that; each reports the
   * first of these in its own order.
   */
  lemma InputOrderDoesNotMatter(a: seq<Issue>, b: seq<Issue>, ra: Result<seq<Issue>, BacklogError>,
                                rb: Result<seq<Issue>, BacklogError>)
    requires multiset(a) == multiset(b) && OrderedRight(a, ra) && OrderedRight(b, rb)
    ensures ra.Ok? || ra.error.CycleAmong? ==> rb == ra
    ensures ra.Err? && ra.error.DuplicateId? ==> rb.Err? && rb.error.DuplicateId? && FirstRepeat(b, rb.error.id)
    ensures ra.Err? && ra.error.Dangling?
        ==> rb.Err? && rb.error.Dangling? && FirstDangling(b, rb.error.id, rb.error.prereq)
  {
    SameIssues(a, b);
    if ra.Err? { SameKindOfError(a, b, ra, rb); }
    if rb.Err? { SameKindOfError(b, a, rb, ra); }
    if ra.Ok? {
      SameIssuesSameTable(a, b);
      SameOrder(a, b, ra.value, rb.value);
    } else if ra.error.CycleAmong? {
      SameIssuesSameTable(a, b);
      SameCycle(a, b, ra.error.members, rb.error.members);
    }
  }

  /** With two dangling prerequisites the one reported is that of the issue that comes first in the input. */
  lemma ReportDependsOnArrangement(ra: Result<seq<Issue>, BacklogError>, rb: Result<seq<Issue>, BacklogError>)
    requires OrderedRight([Issue("a", "x"), Issue("b", "y")], ra)
        && OrderedRight([Issue("b", "y"), Issue("a", "x")], rb)
    ensures ra == Err(Dangling("a", "x")) && rb == Err(Dangling("b", "y"))
  {
    TwoDangling(Issue("a", "x"), Issue("b", "y"), ra);
    TwoDangling(Issue("b", "y"), Issue("a", "x"), rb);
  }

  lemma TwoDangling(first: Issue, second: Issue, r: Result<seq<Issue>, BacklogError>)
    requires first.id != second.id && first.prereq != "" && first.prereq != first.id && first.prereq != second.id
    requires OrderedRight([first, second], r)
    ensures r == Err(Dangling(first.id, first.prereq))
  {
    var issues := [first, second];
    assert issues[0] == first && issues[1] == second;
    assert Unique(issues);
    assert Table(issues)[issues[0].id] == first.prereq;
    assert Hangs(issues, issues[0]);
  }

  lemma SameCycle(a: seq<Issue>, b: seq<Issue>, x: set<string>, y: set<string>)
    requires Table(a) == Table(b) && OrderedRight(a, Err(CycleAmong(x))) && OrderedRight(b, Err(CycleAmong(y)))
    ensures x == y
  {
    hide Trapped, IsOrder;
    assert x <= y && y <= x;
  }

  lemma SameOrder(a: seq<Issue>, b: seq<Issue>, x: seq<Issue>, y: seq<Issue>)
    requires Table(a) == Table(b) && OrderedRight(a, Ok(x)) && OrderedRight(b, Ok(y))
        && forall issue :: issue in b ==> issue in a
    ensures x == y
  {
    hide IsLeastOrder;
    LeastOrderIsUnique(Table(a), IdsOf(x), IdsOf(y));
    SameRows(a, x, y);
  }

  lemma SameRows(issues: seq<Issue>, x: seq<Issue>, y: seq<Issue>)
    requires Unique(issues) && IdsOf(x) == IdsOf(y)
    requires forall k :: 0 <= k < |x| ==> x[k] in issues
    requires forall k :: 0 <= k < |y| ==> y[k] in issues
    ensures x == y
  {
    forall k | 0 <= k < |x| ensures x[k] == y[k] {
      assert IdsOf(x)[k] == IdsOf(y)[k];
      assert x[k] in issues && y[k] in issues;
    }
  }
}
