/**
 * Checking a task plan before it is run (tools/waves.ts): the ownership overlap test, and what a plan with no problems
 * guarantees.
 */
module WavePlan {
  import opened Waves
  import opened WaveOrder
  import opened Paths

  // --- Ownership ----------------------------------------------------------------------------------------------------

  predicate Overlaps(a: string, b: string) {
    || a == b
    || (if |a| <= |b| then a + "/" <= b else b + "/" <= a)
  }

  // `inner` is `outer` or lies inside it.
  predicate Inside(outer: string, inner: string) {
    Segments(outer) <= Segments(inner)
  }

  lemma InsideIsPrefix(outer: string, inner: string)
    ensures Inside(outer, inner) <==> outer == inner || outer + "/" <= inner
  {
    if Inside(outer, inner) {
      var rest := Segments(inner)[|Segments(outer)|..];
      JoinedSegments(outer);
      JoinedSegments(inner);
      assert Segments(inner) == Segments(outer) + rest;
      if rest == [] {
        assert Segments(inner) == Segments(outer);
      } else {
        JoinedAppend(Segments(outer), rest);
      }
    }
    if outer + "/" <= inner {
      var rest := inner[|outer| + 1..];
      assert inner == outer + "/" + rest;
      SegmentsOfJoin(outer, rest);
    }
  }

  /** Two owned paths overlap exactly when, segment by segment, one is a prefix of the other. */
  lemma OverlapsIffInside(a: string, b: string)
    ensures Overlaps(a, b) <==> Inside(a, b) || Inside(b, a)
    ensures Overlaps(a, b) == Overlaps(b, a)
  {
    InsideIsPrefix(a, b);
    InsideIsPrefix(b, a);
  }

  // --- Problems -----------------------------------------------------------------------------------------------------

  datatype Problem =
    | DuplicateId(id: string)
    | UnknownDependency(id: string, dep: string)
    | Cycle(stuck: seq<string>)
    | Overlapping(wave: nat, left: string, right: string, a: string, b: string)

  ghost predicate Duplicated(tasks: seq<Task>, id: string) {
    exists i, j :: 0 <= i < j < |tasks| && tasks[i].id == tasks[j].id == id
  }

  ghost predicate Unknown(tasks: seq<Task>, id: string, dep: string) {
    dep !in ById(tasks) && exists i :: 0 <= i < |tasks| && tasks[i].id == id && dep in tasks[i].dependsOn
  }

  predicate Clashes(left: Task, right: Task, a: string, b: string) {
    a in left.owns && b in right.owns && Overlaps(a, b)
  }

  ghost predicate ClashIn(wave: seq<Task>, left: string, right: string, a: string, b: string) {
    exists i, j :: 0 <= i < j < |wave| && wave[i].id == left && wave[j].id == right && Clashes(wave[i], wave[j], a, b)
  }

  // Finished work owns nothing.
  function Dispatched(wave: seq<Task>): (left: seq<Task>)
    ensures forall t :: t in left <==> t in wave && t.status != "done"
  {
    if wave == [] then []
    else if wave[0].status != "done" then [wave[0]] + Dispatched(wave[1..]) else Dispatched(wave[1..])
  }

  function WavesOf(tasks: seq<Task>): seq<seq<Task>> {
    LayersAreWaiting(ById(tasks), Ids(tasks));
    AllRows(ById(tasks), Layers(ById(tasks), Ids(tasks)))
  }

  function LeftOver(tasks: seq<Task>): seq<string> {
    Stuck(ById(tasks), Ids(tasks))
  }

  // What is to be reported, problem by problem.
  ghost predicate Wrong(tasks: seq<Task>, p: Problem) {
    match p
    case DuplicateId(id) => Duplicated(tasks, id)
    case UnknownDependency(id, dep) => Unknown(tasks, id, dep)
    case Cycle(stuck) => stuck == LeftOver(tasks) && stuck != []
    case Overlapping(k, left, right, a, b) =>
      k < |WavesOf(tasks)| && ClashIn(Dispatched(WavesOf(tasks)[k]), left, right, a, b)
  }

  method FindDuplicates(tasks: seq<Task>) returns (seen: set<string>, problems: seq<Problem>)
    ensures seen == ById(tasks).Keys
    ensures forall p :: p in problems <==> p.DuplicateId? && Duplicated(tasks, p.id)
  {
    seen, problems := {}, [];
    for n := 0 to |tasks|
      invariant forall id :: id in seen <==> exists i :: 0 <= i < n && tasks[i].id == id
      invariant forall p :: p in problems <==> p.DuplicateId? && Duplicated(tasks[..n], p.id)
    {
      var id := tasks[n].id;
      assert tasks[..n + 1][..n] == tasks[..n];
      if id in seen { problems := problems + [DuplicateId(id)]; }
      seen := seen + {id};
      forall other
        ensures Duplicated(tasks[..n + 1], other)
            <==> Duplicated(tasks[..n], other) || (other == id && exists i :: 0 <= i < n && tasks[i].id == id)
      {
        OneMoreRow(tasks, n, other);
      }
    }
    assert tasks[..|tasks|] == tasks;
  }

  lemma OneMoreRow(tasks: seq<Task>, n: nat, id: string)
    requires n < |tasks|
    ensures Duplicated(tasks[..n + 1], id) <==>
            Duplicated(tasks[..n], id) || (id == tasks[n].id && exists i :: 0 <= i < n && tasks[i].id == id)
  {
    if Duplicated(tasks[..n + 1], id) {
      var i, j :| 0 <= i < j < n + 1 && tasks[..n + 1][i].id == tasks[..n + 1][j].id == id;
      if j < n { assert tasks[..n][i].id == tasks[..n][j].id == id; } else { assert tasks[i].id == id; }
    }
    if Duplicated(tasks[..n], id) {
      var i, j :| 0 <= i < j < n && tasks[..n][i].id == tasks[..n][j].id == id;
      assert tasks[..n + 1][i].id == tasks[..n + 1][j].id == id;
    }
    if id == tasks[n].id && exists i :: 0 <= i < n && tasks[i].id == id {
      var i :| 0 <= i < n && tasks[i].id == id;
      assert tasks[..n + 1][i].id == tasks[..n + 1][n].id == id;
    }
  }

  ghost predicate UnknownAmong(tasks: seq<Task>, n: nat, seen: set<string>, p: Problem)
    requires n <= |tasks|
  {
    p.UnknownDependency? && p.dep !in seen && exists i :: 0 <= i < n && tasks[i].id == p.id
                                               && p.dep in tasks[i].dependsOn
  }

  predicate UnknownHere(task: Task, m: nat, seen: set<string>, p: Problem)
    requires m <= |task.dependsOn|
  {
    p.UnknownDependency? && p.dep !in seen && p.id == task.id && p.dep in task.dependsOn[..m]
  }

  method FindUnknown(tasks: seq<Task>, seen: set<string>) returns (problems: seq<Problem>)
    requires seen == ById(tasks).Keys
    ensures forall p :: p in problems <==> p.UnknownDependency? && Unknown(tasks, p.id, p.dep)
  {
    problems := [];
    for n := 0 to |tasks|
      invariant forall p :: p in problems <==> UnknownAmong(tasks, n, seen, p)
    {
      var task := tasks[n];
      ghost var before := problems;
      for m := 0 to |task.dependsOn|
        invariant forall p :: p in problems <==> p in before || UnknownHere(task, m, seen, p)
      {
        var dep := task.dependsOn[m];
        assert task.dependsOn[..m + 1] == task.dependsOn[..m] + [dep];
        if dep !in seen { problems := problems + [UnknownDependency(task.id, dep)]; }
      }
      assert task.dependsOn[..|task.dependsOn|] == task.dependsOn;
    }
  }

  // --- Clashes in one wave ------------------------------------------------------------------------------------------

  // The clashes of two rows, over the left's first `n` paths.
  predicate PairAmong(k: nat, left: Task, right: Task, n: nat, p: Problem)
    requires n <= |left.owns|
  {
    p.Overlapping? && p.wave == k && p.left == left.id && p.right == right.id
    && p.a in left.owns[..n] && p.b in right.owns && Overlaps(p.a, p.b)
  }

  method FindPairClashes(k: nat, left: Task, right: Task) returns (problems: seq<Problem>)
    ensures forall p :: p in problems <==> PairAmong(k, left, right, |left.owns|, p)
  {
    problems := [];
    for n := 0 to |left.owns|
      invariant forall p :: p in problems <==> PairAmong(k, left, right, n, p)
    {
      var a := left.owns[n];
      ghost var before := problems;
      assert left.owns[..n + 1] == left.owns[..n] + [a];
      for m := 0 to |right.owns|
        invariant forall p :: p in problems <==>
                    p in before
                    || exists b ::
                         b in right.owns[..m] && Overlaps(a, b) && p == Overlapping(k, left.id, right.id, a, b)
      {
        var b := right.owns[m];
        assert right.owns[..m + 1] == right.owns[..m] + [b];
        if Overlaps(a, b) { problems := problems + [Overlapping(k, left.id, right.id, a, b)]; }
      }
      assert right.owns[..|right.owns|] == right.owns;
    }
    assert left.owns[..|left.owns|] == left.owns;
  }

  // The clashes of the pairs whose left row is before `i`, or is `i` with the right row before `j`.
  ghost predicate WaveAmong(k: nat, wave: seq<Task>, i: nat, j: nat, p: Problem) {
    exists x, y :: 0 <= x < y < |wave| && (x < i || (x == i && y < j))
        && PairAmong(k, wave[x], wave[y], |wave[x].owns|, p)
  }

  method FindWaveClashes(k: nat, dispatched: seq<Task>) returns (problems: seq<Problem>)
    ensures forall p :: p in problems <==>
      p.Overlapping? && p.wave == k && ClashIn(dispatched, p.left, p.right, p.a, p.b)
  {
    problems := [];
    for i := 0 to |dispatched|
      invariant forall p :: p in problems <==> WaveAmong(k, dispatched, i, 0, p)
    {
      for j := i + 1 to |dispatched|
        invariant forall p :: p in problems <==> WaveAmong(k, dispatched, i, j, p)
      {
        var found := FindPairClashes(k, dispatched[i], dispatched[j]);
        forall p ensures WaveAmong(k, dispatched, i, j + 1, p) <==> WaveAmong(k, dispatched, i, j, p) || p in found {
          NextPair(k, dispatched, i, j, p);
        }
        problems := problems + found;
      }
    }
    forall p ensures WaveAmong(k, dispatched, |dispatched|, 0, p)
                <==> p.Overlapping? && p.wave == k && ClashIn(dispatched, p.left, p.right, p.a, p.b)
    {
      AllPairs(k, dispatched, p);
    }
  }

  lemma NextPair(k: nat, wave: seq<Task>, i: nat, j: nat, p: Problem)
    requires i < j < |wave|
    ensures WaveAmong(k, wave, i, j + 1, p)
        <==> WaveAmong(k, wave, i, j, p) || PairAmong(k, wave[i], wave[j], |wave[i].owns|, p)
  {
  }

  lemma AllPairs(k: nat, wave: seq<Task>, p: Problem)
    ensures WaveAmong(k, wave, |wave|, 0, p)
        <==> p.Overlapping? && p.wave == k && ClashIn(wave, p.left, p.right, p.a, p.b)
  {
    if WaveAmong(k, wave, |wave|, 0, p) {
      var x, y :| 0 <= x < y < |wave| && PairAmong(k, wave[x], wave[y], |wave[x].owns|, p);
      assert Clashes(wave[x], wave[y], p.a, p.b);
    }
    if p.Overlapping? && p.wave == k && ClashIn(wave, p.left, p.right, p.a, p.b) {
      var x, y :| 0 <= x < y < |wave| && wave[x].id == p.left && wave[y].id == p.right
          && Clashes(wave[x], wave[y], p.a, p.b);
      assert wave[x].owns[..|wave[x].owns|] == wave[x].owns;
      assert PairAmong(k, wave[x], wave[y], |wave[x].owns|, p);
    }
  }

  // --- The whole check -----------------------------------------------------------------------------------------------

  ghost predicate ClashAmong(tasks: seq<Task>, n: nat, p: Problem) {
    p.Overlapping? && p.wave < n && p.wave < |WavesOf(tasks)|
    && ClashIn(Dispatched(WavesOf(tasks)[p.wave]), p.left, p.right, p.a, p.b)
  }

  method FindClashes(tasks: seq<Task>, waves: seq<seq<Task>>) returns (problems: seq<Problem>)
    requires waves == WavesOf(tasks)
    ensures forall p :: p in problems <==> ClashAmong(tasks, |waves|, p)
  {
    problems := [];
    for k := 0 to |waves|
      invariant forall p :: p in problems <==> ClashAmong(tasks, k, p)
    {
      var found := FindWaveClashes(k, Dispatched(waves[k]));
      problems := problems + found;
    }
  }

  method FindStuck(tasks: seq<Task>) returns (waves: seq<seq<Task>>, problems: seq<Problem>)
    ensures waves == WavesOf(tasks)
    ensures forall p :: p in problems <==> p.Cycle? && p.stuck == LeftOver(tasks) && p.stuck != []
  {
    var unscheduled;
    waves, unscheduled := ComputeWaves(tasks);
    var stuck := seq(|unscheduled|, i requires 0 <= i < |unscheduled| => unscheduled[i].id);
    assert stuck == LeftOver(tasks);
    problems := if |stuck| > 0 then [Cycle(stuck)] else [];
  }

  method Validate(tasks: seq<Task>) returns (problems: seq<Problem>)
    ensures forall p :: p in problems <==> Wrong(tasks, p)
  {
    hide Duplicated, Unknown, ClashIn, WavesOf, LeftOver, Dispatched, ById;
    var seen, duplicates := FindDuplicates(tasks);
    var unknown := FindUnknown(tasks, seen);
    var waves, stuck := FindStuck(tasks);
    var clashes := FindClashes(tasks, waves);
    problems := duplicates + unknown + stuck + clashes;
  }

  // What running a plan wave by wave relies on.
  ghost predicate Dispatchable(tasks: seq<Task>) {
    && (forall i, j :: 0 <= i < j < |tasks| ==> tasks[i].id != tasks[j].id)
    && (forall i, dep :: 0 <= i < |tasks| && dep in tasks[i].dependsOn ==> dep in ById(tasks))
    && (forall id :: id in ById(tasks) ==> !LeadsIntoCycle(ById(tasks), id))
    && (forall k :: 0 <= k < |WavesOf(tasks)| ==> Compatible(Dispatched(WavesOf(tasks)[k])))
  }

  // No two rows own, one a path and the other that path or one inside it.
  ghost predicate Compatible(wave: seq<Task>) {
    forall i, j, a, b :: 0 <= i < j < |wave| && a in wave[i].owns && b in wave[j].owns
        ==> !Inside(a, b) && !Inside(b, a)
  }

  lemma CompatibleIffNoClash(wave: seq<Task>)
    ensures Compatible(wave) <==> forall left, right, a, b :: !ClashIn(wave, left, right, a, b)
  {
    if Compatible(wave) {
      forall left, right, a, b ensures !ClashIn(wave, left, right, a, b) { OverlapsIffInside(a, b); }
    }
    if forall left, right, a, b :: !ClashIn(wave, left, right, a, b) {
      forall i, j, a, b | 0 <= i < j < |wave| && a in wave[i].owns && b in wave[j].owns
        ensures !Inside(a, b) && !Inside(b, a)
      {
        OverlapsIffInside(a, b);
        assert !ClashIn(wave, wave[i].id, wave[j].id, a, b);
      }
    }
  }

  /**
   * The check finds nothing exactly when ids are unique, every dependency is a row, no row leads into a cycle, and
   * in no wave do two unfinished rows own overlapping paths.
   */
  lemma NoProblemsIffDispatchable(tasks: seq<Task>)
    ensures (forall p :: !Wrong(tasks, p)) <==> Dispatchable(tasks)
  {
    if forall p :: !Wrong(tasks, p) {
      forall i, j | 0 <= i < j < |tasks|
        ensures tasks[i].id != tasks[j].id
      {
        assert !Wrong(tasks, DuplicateId(tasks[i].id));
      }
      forall i, dep | 0 <= i < |tasks| && dep in tasks[i].dependsOn ensures dep in ById(tasks) {
        assert !Wrong(tasks, UnknownDependency(tasks[i].id, dep));
      }
      assert !Wrong(tasks, Cycle(LeftOver(tasks)));
      forall id | id in ById(tasks) ensures !LeadsIntoCycle(ById(tasks), id) {
        var n :| 0 <= n < |tasks| && tasks[n].id == id;
        StuckIffLeadsIntoCycle(tasks, n);
      }
      forall k | 0 <= k < |WavesOf(tasks)| ensures Compatible(Dispatched(WavesOf(tasks)[k])) {
        forall left, right, a, b ensures !ClashIn(Dispatched(WavesOf(tasks)[k]), left, right, a, b) {
          assert !Wrong(tasks, Overlapping(k, left, right, a, b));
        }
        CompatibleIffNoClash(Dispatched(WavesOf(tasks)[k]));
      }
    }
    if Dispatchable(tasks) {
      forall p ensures !Wrong(tasks, p) { NothingWrong(tasks, p); }
    }
  }

  lemma LeftOverLeads(tasks: seq<Task>, id: string)
    requires id in LeftOver(tasks)
    ensures id in ById(tasks) && LeadsIntoCycle(ById(tasks), id)
  {
    LayersAreWaiting(ById(tasks), Ids(tasks));
    assert id in ById(tasks);
    var n :| 0 <= n < |tasks| && tasks[n].id == id;
    hide Stuck, LeadsIntoCycle;
    StuckIffLeadsIntoCycle(tasks, n);
  }

  lemma NothingWrong(tasks: seq<Task>, p: Problem)
    requires Dispatchable(tasks)
    ensures !Wrong(tasks, p)
  {
    match p
    case DuplicateId(_) =>
    case UnknownDependency(_, _) =>
    case Cycle(stuck) =>
      if LeftOver(tasks) != [] { LeftOverLeads(tasks, LeftOver(tasks)[0]); }
    case Overlapping(k, left, right, a, b) =>
      if k < |WavesOf(tasks)| { CompatibleIffNoClash(Dispatched(WavesOf(tasks)[k])); }
  }
}
