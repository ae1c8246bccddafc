/**
 * The waves of a plan are exact: each row's wave is one above the highest of its dependencies, and the rows left over
 * are exactly those whose dependencies lead into a cycle (tools/waves.ts).
 */
module WaveOrder {
  import opened Waves

  // --- Every row is in its right layer, once ------------------------------------------------------------------------

  lemma FirstLayer(table: map<string, Task>, waiting: seq<string>)
    requires forall id :: id in waiting ==> id in table
    requires Layers(table, waiting) != []
    ensures Layers(table, waiting)[0] == Ready(table, waiting, waiting)
  {
  }

  lemma {:induction false} LayersAreRight(table: map<string, Task>, waiting: seq<string>)
    requires forall id :: id in waiting ==> id in table
    ensures AllIn(table, Layers(table, waiting))
    ensures RightLayers(table, waiting, Layers(table, waiting))
    decreases |waiting|
  {
    AllInLayers(table, waiting);
    var ready := Ready(table, waiting, waiting);
    if ready == [] {
    } else {
      assert ready[0] in ready;
      var left := Without(waiting, ready);
      LayersAreRight(table, left);
      forall k: nat, id | Placed(Layers(table, waiting), k, id)
        ensures RightLayer(table, waiting, Layers(table, waiting), k, id)
      {
        PlacedRight(table, waiting, ready, left, k, id);
      }
    }
  }

  lemma PlacedRight(table: map<string, Task>, waiting: seq<string>, ready: seq<string>, left: seq<string>, k: nat,
                    id: string)
    requires forall i :: i in waiting ==> i in table
    requires ready == Ready(table, waiting, waiting) != [] && left == Without(waiting, ready)
    requires AllIn(table, Layers(table, left)) && RightLayers(table, left, Layers(table, left))
    requires Placed(Layers(table, waiting), k, id) && id in table
    ensures RightLayer(table, waiting, Layers(table, waiting), k, id)
  {
    var rest := Layers(table, left);
    assert Layers(table, waiting) == [ready] + rest;
    if k == 0 {
      FreeIsFirst(table, waiting, [ready] + rest, id);
    } else {
      assert Placed(rest, k - 1, id);
      hide RightLayer, Layers, Ready, AllIn;
      OneAbove(table, waiting, ready, rest, k, id);
    }
  }

  lemma FreeIsFirst(table: map<string, Task>, waiting: seq<string>, layers: seq<seq<string>>, id: string)
    requires id in table && Free(table, waiting, id)
    ensures RightLayer(table, waiting, layers, 0, id)
  {
  }

  lemma OneAbove(table: map<string, Task>, waiting: seq<string>, ready: seq<string>, rest: seq<seq<string>>, k: nat,
                 id: string)
    requires forall i :: i in waiting ==> i in table
    requires k > 0 && id in table && ready == Ready(table, waiting, waiting)
    requires rest == Layers(table, Without(waiting, ready)) && Placed(rest, k - 1, id)
    requires RightLayer(table, Without(waiting, ready), rest, k - 1, id)
    ensures RightLayer(table, waiting, [ready] + rest, k, id)
  {
    DependenciesBelow(table, waiting, ready, rest, k, id);
    DependencyJustBelow(table, waiting, ready, rest, k, id);
  }

  lemma DependenciesBelow(table: map<string, Task>, waiting: seq<string>, ready: seq<string>, rest: seq<seq<string>>,
                          k: nat, id: string)
    requires k > 0 && id in table && RightLayer(table, Without(waiting, ready), rest, k - 1, id)
    ensures forall dep :: dep in table[id].dependsOn && dep in waiting
             ==> exists j: nat :: j < k && Placed([ready] + rest, j, dep)
  {
    forall dep | dep in table[id].dependsOn && dep in waiting
      ensures exists j: nat :: j < k && Placed([ready] + rest, j, dep)
    {
      if dep in ready {
        assert Placed([ready] + rest, 0, dep);
      } else {
        var j: nat :| j < k - 1 && Placed(rest, j, dep);
        assert Placed([ready] + rest, j + 1, dep);
      }
    }
  }

  lemma DependencyJustBelow(table: map<string, Task>, waiting: seq<string>, ready: seq<string>, rest: seq<seq<string>>,
                            k: nat, id: string)
    requires forall i :: i in waiting ==> i in table
    requires k > 0 && id in table && ready == Ready(table, waiting, waiting)
    requires rest == Layers(table, Without(waiting, ready)) && Placed(rest, k - 1, id)
    requires RightLayer(table, Without(waiting, ready), rest, k - 1, id)
    ensures exists dep :: dep in table[id].dependsOn && Placed([ready] + rest, k - 1, dep)
  {
    hide Layers, Ready, Without;
    if k == 1 {
      SecondLayerWaited(table, waiting, ready, id);
    } else {
      var dep :| dep in table[id].dependsOn && Placed(rest, k - 2, dep);
      PlacedBelow(ready, rest, k - 2, dep);
    }
  }

  lemma PlacedBelow(ready: seq<string>, rest: seq<seq<string>>, k: nat, id: string)
    requires Placed(rest, k, id)
    ensures Placed([ready] + rest, k + 1, id)
  {
    assert ([ready] + rest)[k + 1] == rest[k];
  }

  // A row that becomes free second waited for one that was free first.
  lemma SecondLayerWaited(table: map<string, Task>, waiting: seq<string>, ready: seq<string>, id: string)
    requires forall i :: i in waiting ==> i in table
    requires id in table && ready == Ready(table, waiting, waiting)
    requires var rest := Layers(table, Without(waiting, ready)); Placed(rest, 0, id)
    ensures exists dep :: dep in table[id].dependsOn && Placed([ready] + Layers(table, Without(waiting, ready)), 0, dep)
  {
    var left := Without(waiting, ready);
    var rest := Layers(table, left);
    FirstLayer(table, left);
    hide Layers, Without, Ready;
    assert id in Ready(table, left, left) && Free(table, left, id) && !Free(table, waiting, id);
    var dep := StuckDependency(table, waiting, id);
    assert dep in ready;
    assert ([ready] + rest)[0] == ready;
  }

  lemma AddLayer(waiting: seq<string>, ready: seq<string>, rest: seq<seq<string>>, stuck: seq<string>)
    requires forall id :: id in ready ==> id in waiting
    requires forall id :: id in stuck ==> id in Without(waiting, ready)
    requires EachOnce(Without(waiting, ready), rest, stuck)
    ensures EachOnce(waiting, [ready] + rest, stuck)
  {
    var layers := [ready] + rest;
    forall k: nat, id | Placed(layers, k, id) ensures id in waiting {
      if k > 0 { assert Placed(rest, k - 1, id); }
    }
    forall j: nat, k: nat, id | Placed(layers, j, id) && Placed(layers, k, id) ensures j == k {
      if j > 0 { assert Placed(rest, j - 1, id); }
      if k > 0 { assert Placed(rest, k - 1, id); }
    }
    forall id | id in waiting ensures id in stuck <==> !exists k: nat :: Placed(layers, k, id) {
      if id in ready {
        assert Placed(layers, 0, id);
      } else if exists k: nat :: Placed(layers, k, id) {
        var k: nat :| Placed(layers, k, id);
        assert Placed(rest, k - 1, id);
      } else if exists k: nat :: Placed(rest, k, id) {
        var k: nat :| Placed(rest, k, id);
        assert Placed(layers, k + 1, id);
      }
    }
  }

  lemma {:induction false} LayersAreOnce(table: map<string, Task>, waiting: seq<string>)
    requires forall id :: id in waiting ==> id in table
    ensures EachOnce(waiting, Layers(table, waiting), Stuck(table, waiting))
    decreases |waiting|
  {
    var ready := Ready(table, waiting, waiting);
    if ready == [] {
    } else {
      assert ready[0] in ready;
      var left := Without(waiting, ready);
      LayersAreOnce(table, left);
      LayersAreWaiting(table, left);
      hide EachOnce;
      AddLayer(waiting, ready, Layers(table, left), Stuck(table, left));
    }
  }

  /** Every row is in one wave or left over, never both; and its wave is one above the highest of its dependencies. */
  lemma WavesAreExact(tasks: seq<Task>)
    ensures var table, ids := ById(tasks), Ids(tasks);
      && AllIn(table, Layers(table, ids))
      && EachOnce(ids, Layers(table, ids), Stuck(table, ids))
      && RightLayers(table, ids, Layers(table, ids))
  {
    LayersAreOnce(ById(tasks), Ids(tasks));
    LayersAreRight(ById(tasks), Ids(tasks));
  }

  // --- Cycles -------------------------------------------------------------------------------------------------------

  // Each step goes from a row to one of its dependencies in the plan.
  predicate Walk(table: map<string, Task>, path: seq<string>) {
    && |path| > 0 && (forall i :: 0 <= i < |path| ==> path[i] in table)
    && (forall i :: 0 <= i < |path| - 1 ==> path[i + 1] in table[path[i]].dependsOn)
  }

  predicate Repeats(path: seq<string>) {
    exists i, j :: 0 <= i < j < |path| && path[i] == path[j]
  }

  ghost predicate LeadsIntoCycle(table: map<string, Task>, id: string) {
    exists path :: Walk(table, path) && path[0] == id && Repeats(path)
  }

  lemma {:induction false} NothingStuckIsFree(table: map<string, Task>, waiting: seq<string>)
    requires forall id :: id in waiting ==> id in table
    ensures forall id :: id in Stuck(table, waiting) ==> id in table && !Free(table, Stuck(table, waiting), id)
    decreases |waiting|
  {
    var ready := Ready(table, waiting, waiting);
    if ready == [] {
    } else {
      assert ready[0] in ready;
      NothingStuckIsFree(table, Without(waiting, ready));
    }
  }

  // From a stuck row one can go on to stuck rows for any number of steps.
  lemma StuckDependency(table: map<string, Task>, stuck: seq<string>, id: string) returns (dep: string)
    requires id in table && !Free(table, stuck, id)
    ensures dep in table[id].dependsOn && dep in stuck
  {
    dep :| dep in table[id].dependsOn && dep in stuck;
  }

  lemma LongerWalk(table: map<string, Task>, id: string, path: seq<string>)
    requires Walk(table, path) && id in table && path[0] in table[id].dependsOn
    ensures Walk(table, [id] + path)
  {
    var longer := [id] + path;
    forall i | 0 <= i < |longer| - 1 ensures longer[i] in table && longer[i + 1] in table[longer[i]].dependsOn {
      if i > 0 { assert longer[i] == path[i - 1]; }
    }
  }

  lemma {:induction false} StuckWalk(table: map<string, Task>, stuck: seq<string>, id: string,
                                     n: nat) returns (path: seq<string>)
    requires forall i :: i in stuck ==> i in table && !Free(table, stuck, i)
    requires id in stuck
    decreases n
    ensures |path| == n + 1 && path[0] == id && Walk(table, path) && forall i :: 0 <= i < |path| ==> path[i] in stuck
  {
    if n == 0 {
      path := [id];
    } else {
      var dep := StuckDependency(table, stuck, id);
      var rest := StuckWalk(table, stuck, dep, n - 1);
      hide Walk, Free;
      LongerWalk(table, id, rest);
      path := [id] + rest;
    }
  }

  // A path longer than the list its rows come from passes one of them twice.
  lemma {:induction false} Pigeonhole(path: seq<string>, pool: seq<string>)
    requires |path| > |pool| && forall i :: 0 <= i < |path| ==> path[i] in pool
    ensures Repeats(path)
  {
    assert path[0] in pool;
    if pool == [] {
    } else {
      var rest := path[1..];
      if path[0] in rest {
        var j :| 0 <= j < |rest| && rest[j] == path[0];
        assert path[0] == path[j + 1];
      } else {
        var k :| 0 <= k < |pool| && pool[k] == path[0];
        var smaller := pool[..k] + pool[k + 1..];
        forall i | 0 <= i < |rest| ensures rest[i] in smaller {
          assert rest[i] == path[i + 1] && rest[i] != path[0];
          var m :| 0 <= m < |pool| && pool[m] == rest[i];
          assert smaller[if m < k then m else m - 1] == rest[i];
        }
        Pigeonhole(rest, smaller);
        var i, j :| 0 <= i < j < |rest| && rest[i] == rest[j];
        assert path[i + 1] == path[j + 1];
      }
    }
  }

  lemma OneDown(table: map<string, Task>, ids: seq<string>, layers: seq<seq<string>>, id: string, dep: string, k: nat)
      returns (lower: nat)
    requires AllIn(table, layers) && RightLayers(table, ids, layers)
    requires Placed(layers, k, id) && id in table && dep in table[id].dependsOn && dep in ids
    ensures lower < k && Placed(layers, lower, dep)
  {
    assert RightLayer(table, ids, layers, k, id);
    lower :| lower < k && Placed(layers, lower, dep);
  }

  // Along a walk from a placed row, layers go strictly down.
  lemma {:induction false} WalkDescends(table: map<string, Task>, ids: seq<string>, layers: seq<seq<string>>,
                                        path: seq<string>,
                                        i: nat, j: nat, k: nat) returns (lower: nat)
    requires AllIn(table, layers) && RightLayers(table, ids, layers) && forall id :: id in table ==> id in ids
    requires Walk(table, path) && i < j < |path| && Placed(layers, k, path[i])
    ensures lower < k && Placed(layers, lower, path[j])
    decreases j
  {
    hide AllIn, RightLayers, Placed;
    if i == j - 1 {
      lower := OneDown(table, ids, layers, path[i], path[j], k);
    } else {
      var above := WalkDescends(table, ids, layers, path, i, j - 1, k);
      lower := OneDown(table, ids, layers, path[j - 1], path[j], above);
    }
  }

  lemma PlacedNeverRepeats(table: map<string, Task>, ids: seq<string>, layers: seq<seq<string>>, stuck: seq<string>,
                           path: seq<string>, k: nat)
    requires AllIn(table, layers) && RightLayers(table, ids, layers) && EachOnce(ids, layers, stuck)
    requires forall id :: id in table ==> id in ids
    requires Walk(table, path) && Placed(layers, k, path[0])
    ensures !Repeats(path)
  {
    if Repeats(path) {
      var i, j :| 0 <= i < j < |path| && path[i] == path[j];
      var at := k;
      if i > 0 { at := WalkDescends(table, ids, layers, path, 0, i, k); }
      var lower := WalkDescends(table, ids, layers, path, i, j, at);
      assert false;
    }
  }

  /** The rows left over are exactly those whose dependencies lead into a cycle. */
  lemma StuckIffLeadsIntoCycle(tasks: seq<Task>, n: nat)
    requires n < |tasks|
    ensures tasks[n].id in Stuck(ById(tasks), Ids(tasks)) <==> LeadsIntoCycle(ById(tasks), tasks[n].id)
  {
    var table, ids, id := ById(tasks), Ids(tasks), tasks[n].id;
    var layers, stuck := Layers(table, ids), Stuck(table, ids);
    WavesAreExact(tasks);
    if id in stuck {
      NothingStuckIsFree(table, ids);
      var path := StuckWalk(table, stuck, id, |stuck|);
      Pigeonhole(path, stuck);
    }
    if id !in stuck {
      var k: nat :| Placed(layers, k, id);
      forall path | Walk(table, path) && path[0] == id ensures !Repeats(path) {
        PlacedNeverRepeats(table, ids, layers, stuck, path, k);
      }
    }
  }
}
