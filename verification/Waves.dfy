/**
 * Grouping a task plan into waves (tools/waves.ts): Kahn's algorithm, layer by layer, and what its waves and its
 * leftovers are.
 */
module Waves {

  datatype Task = Task(id: string, dependsOn: seq<string>, owns: seq<string>, status: string)

  // The row of each id, the last of that id; and the ids in the order they first appear.
  function ById(tasks: seq<Task>): (table: map<string, Task>)
    ensures forall id :: id in table <==> exists i :: 0 <= i < |tasks| && tasks[i].id == id
    ensures forall id :: id in table ==> table[id] in tasks && table[id].id == id
  {
    if tasks == [] then map[]
    else
      var last := tasks[|tasks| - 1];
      ById(tasks[..|tasks| - 1])[last.id := last]
  }

  function Ids(tasks: seq<Task>): (ids: seq<string>)
    ensures forall id :: id in ids <==> id in ById(tasks)
    ensures forall i, j :: 0 <= i < j < |ids| ==> ids[i] != ids[j]
  {
    if tasks == [] then []
    else
      var ids, id := Ids(tasks[..|tasks| - 1]), tasks[|tasks| - 1].id;
      if id in ids then ids else ids + [id]
  }

  // --- Layers -------------------------------------------------------------------------------------------------------

  // None of its dependencies is still waiting.
  predicate Free(table: map<string, Task>, waiting: seq<string>, id: string)
    requires id in table
  {
    forall dep :: dep in table[id].dependsOn ==> dep !in waiting
  }

  function Ready(table: map<string, Task>, ids: seq<string>, waiting: seq<string>): (ready: seq<string>)
    requires forall id :: id in ids ==> id in table
    ensures forall id :: id in ready <==> id in ids && Free(table, waiting, id)
  {
    if ids == [] then []
    else
      var rest := Ready(table, ids[1..], waiting);
      if Free(table, waiting, ids[0]) then [ids[0]] + rest else rest
  }

  function Without(ids: seq<string>, gone: seq<string>): (left: seq<string>)
    ensures forall id :: id in left <==> id in ids && id !in gone
    ensures |left| <= |ids|
    ensures (exists id :: id in ids && id in gone) ==> |left| < |ids|
  {
    if ids == [] then []
    else
      var rest := Without(ids[1..], gone);
      if ids[0] in gone then rest else [ids[0]] + rest
  }

  // The layers below `waiting`, and what never becomes free.
  function Layers(table: map<string, Task>, waiting: seq<string>): seq<seq<string>>
    requires forall id :: id in waiting ==> id in table
    decreases |waiting|
  {
    var ready := Ready(table, waiting, waiting);
    if ready == [] then []
    else
      assert ready[0] in ready;
      [ready] + Layers(table, Without(waiting, ready))
  }

  function Stuck(table: map<string, Task>, waiting: seq<string>): seq<string>
    requires forall id :: id in waiting ==> id in table
    decreases |waiting|
  {
    var ready := Ready(table, waiting, waiting);
    if ready == [] then waiting
    else
      assert ready[0] in ready;
      Stuck(table, Without(waiting, ready))
  }

  function Rows(table: map<string, Task>, ids: seq<string>): (rows: seq<Task>)
    requires forall id :: id in ids ==> id in table
    ensures |rows| == |ids|
  {
    seq(|ids|, i requires 0 <= i < |ids| => table[ids[i]])
  }

  predicate AllIn(table: map<string, Task>, layers: seq<seq<string>>) {
    forall k, id :: 0 <= k < |layers| && id in layers[k] ==> id in table
  }

  function AllRows(table: map<string, Task>, layers: seq<seq<string>>): seq<seq<Task>>
    requires AllIn(table, layers)
  {
    seq(|layers|, k requires 0 <= k < |layers| => Rows(table, layers[k]))
  }

  // Every row of the layers is one of these.
  predicate Among(layers: seq<seq<string>>, ids: seq<string>) {
    forall k, id :: 0 <= k < |layers| && id in layers[k] ==> id in ids
  }

  lemma AmongMore(ready: seq<string>, rest: seq<seq<string>>, left: seq<string>, ids: seq<string>)
    requires Among(rest, left) && (forall id :: id in left ==> id in ids) && forall id :: id in ready ==> id in ids
    ensures Among([ready] + rest, ids)
  {
    var layers := [ready] + rest;
    forall k, id | 0 <= k < |layers| && id in layers[k] ensures id in ids {
      if k > 0 { assert layers[k] == rest[k - 1]; }
    }
  }

  lemma {:induction false} LayersAreWaiting(table: map<string, Task>, waiting: seq<string>)
    requires forall id :: id in waiting ==> id in table
    ensures Among(Layers(table, waiting), waiting)
    ensures forall id :: id in Stuck(table, waiting) ==> id in waiting
    decreases |waiting|
  {
    var ready := Ready(table, waiting, waiting);
    if ready == [] {
    } else {
      assert ready[0] in ready;
      var left := Without(waiting, ready);
      LayersAreWaiting(table, left);
      hide Among;
      AmongMore(ready, Layers(table, left), left, waiting);
    }
  }

  lemma AllRowsSnoc(table: map<string, Task>, layers: seq<seq<string>>, ready: seq<string>)
    requires AllIn(table, layers) && forall id :: id in ready ==> id in table
    ensures AllIn(table, layers + [ready])
    ensures AllRows(table, layers + [ready]) == AllRows(table, layers) + [Rows(table, ready)]
  {
  }

  lemma AllInLayers(table: map<string, Task>, waiting: seq<string>)
    requires forall id :: id in waiting ==> id in table
    ensures AllIn(table, Layers(table, waiting))
  {
    LayersAreWaiting(table, waiting);
  }

  // `layers` are done and become `waves`; `remaining` are still to be placed.
  ghost predicate Placing(table: map<string, Task>, ids: seq<string>, layers: seq<seq<string>>, remaining: seq<string>,
                          waves: seq<seq<Task>>)
    requires forall id :: id in ids + remaining ==> id in table
  {
    && Layers(table, ids) == layers + Layers(table, remaining)
    && Stuck(table, ids) == Stuck(table, remaining)
    && AllIn(table, layers) && waves == AllRows(table, layers)
  }

  lemma NothingPlaced(table: map<string, Task>, ids: seq<string>)
    requires forall id :: id in ids ==> id in table
    ensures Placing(table, ids, [], ids, [])
  {
    assert [] + Layers(table, ids) == Layers(table, ids);
    AllRowsNone(table);
  }

  lemma LayersUnfold(table: map<string, Task>, waiting: seq<string>)
    requires forall id :: id in waiting ==> id in table
    requires Ready(table, waiting, waiting) != []
    ensures var ready := Ready(table, waiting, waiting);
      && |Without(waiting, ready)| < |waiting|
      && Layers(table, waiting) == [ready] + Layers(table, Without(waiting, ready))
      && Stuck(table, waiting) == Stuck(table, Without(waiting, ready))
  {
    assert Ready(table, waiting, waiting)[0] in Ready(table, waiting, waiting);
  }

  lemma Regroup<T>(a: seq<T>, x: T, b: seq<T>)
    ensures a + ([x] + b) == (a + [x]) + b
  {
  }

  // One round: the free rows form the next layer.
  lemma OneLayer(table: map<string, Task>, ids: seq<string>, layers: seq<seq<string>>, remaining: seq<string>,
                 waves: seq<seq<Task>>)
    requires forall id :: id in ids + remaining ==> id in table
    requires Placing(table, ids, layers, remaining, waves) && Ready(table, remaining, remaining) != []
    ensures var ready := Ready(table, remaining, remaining);
      && |Without(remaining, ready)| < |remaining|
      && Placing(table, ids, layers + [ready], Without(remaining, ready), waves + [Rows(table, ready)])
  {
    var ready := Ready(table, remaining, remaining);
    LayersUnfold(table, remaining);
    AllRowsSnoc(table, layers, ready);
    Regroup(layers, ready, Layers(table, Without(remaining, ready)));
    hide Layers, Stuck, Ready, Without, AllRows, AllIn, Rows;
  }

  lemma AllPlaced(table: map<string, Task>, ids: seq<string>, layers: seq<seq<string>>, remaining: seq<string>,
                  waves: seq<seq<Task>>)
    requires forall id :: id in ids + remaining ==> id in table
    requires Placing(table, ids, layers, remaining, waves)
    requires remaining == [] || Ready(table, remaining, remaining) == []
    ensures AllIn(table, Layers(table, ids)) && waves == AllRows(table, Layers(table, ids))
        && Stuck(table, ids) == remaining
  {
    NothingLeft(table, remaining);
    assert layers + [] == layers;
  }

  method ComputeWaves(tasks: seq<Task>) returns (waves: seq<seq<Task>>, unscheduled: seq<Task>)
    ensures AllIn(ById(tasks), Layers(ById(tasks), Ids(tasks)))
    ensures waves == AllRows(ById(tasks), Layers(ById(tasks), Ids(tasks)))
    ensures forall id :: id in Stuck(ById(tasks), Ids(tasks)) ==> id in ById(tasks)
    ensures unscheduled == Rows(ById(tasks), Stuck(ById(tasks), Ids(tasks)))
  {
    hide *;
    var byId := ById(tasks);
    var remaining := Ids(tasks);
    waves := [];
    ghost var ids, layers := remaining, [];
    NothingPlaced(byId, ids);
    while |remaining| > 0
      invariant forall id :: id in ids + remaining ==> id in byId
      invariant Placing(byId, ids, layers, remaining, waves)
      decreases |remaining|
    {
      var ready := Ready(byId, remaining, remaining);
      if ready == [] { break; }
      OneLayer(byId, ids, layers, remaining, waves);
      remaining := Without(remaining, ready);
      waves := waves + [Rows(byId, ready)];
      layers := layers + [ready];
    }
    AllPlaced(byId, ids, layers, remaining, waves);
    unscheduled := Rows(byId, remaining);
  }

  lemma AllRowsNone(table: map<string, Task>)
    ensures AllIn(table, []) && AllRows(table, []) == []
  {
  }

  lemma NothingLeft(table: map<string, Task>, waiting: seq<string>)
    requires forall id :: id in waiting ==> id in table
    requires waiting == [] || Ready(table, waiting, waiting) == []
    ensures Layers(table, waiting) == [] && Stuck(table, waiting) == waiting
  {
  }

  // --- What the waves are -------------------------------------------------------------------------------------------

  predicate Placed(layers: seq<seq<string>>, k: nat, id: string) {
    k < |layers| && id in layers[k]
  }

  // `id` is one layer above the highest of its dependencies in the plan, and in the first if it has none there.
  ghost predicate RightLayer(table: map<string, Task>, waiting: seq<string>, layers: seq<seq<string>>, k: nat,
                             id: string)
    requires id in table
  {
    && (forall dep :: dep in table[id].dependsOn && dep in waiting ==> exists j: nat :: j < k && Placed(layers, j, dep))
    && (k > 0 ==> exists dep :: dep in table[id].dependsOn && Placed(layers, k - 1, dep))
  }

  ghost predicate RightLayers(table: map<string, Task>, waiting: seq<string>, layers: seq<seq<string>>)
    requires AllIn(table, layers)
  {
    forall k: nat, id :: Placed(layers, k, id) ==> RightLayer(table, waiting, layers, k, id)
  }

  ghost predicate EachOnce(waiting: seq<string>, layers: seq<seq<string>>, stuck: seq<string>) {
    && (forall id :: id in waiting ==> (id in stuck <==> !exists k: nat :: Placed(layers, k, id)))
    && (forall j: nat, k: nat, id :: Placed(layers, j, id) && Placed(layers, k, id) ==> j == k)
    && (forall k: nat, id :: Placed(layers, k, id) ==> id in waiting)
  }
}
