/** Why the queue drains: on an acyclic graph each recorded result takes more
    work away than it can bring back. */
module PipelineDraining {
  import opened Basics
  import Paths
  import opened PipelineGraph
  import opened TaskQueue
  import opened Orchestrator
  import opened Pipeline
  import opened Freshness
  import opened Sums

  /** No work flows back to where it came from. */
  ghost predicate Acyclic(tasks: seq<Task>)
  {
    forall n :: !IsDownstream(tasks, n, n)
  }

  ghost function Below(tasks: seq<Task>, n: string): set<string>
  {
    set d | d in Names(tasks) && IsDownstream(tasks, n, d)
  }

  lemma BelowHoldsDownstream(tasks: seq<Task>, n: string, d: string)
    ensures d in Below(tasks, n) <==> IsDownstream(tasks, n, d)
  {
    if IsDownstream(tasks, n, d) {
      var p :| Paths.Walk(Feeding(tasks), p, n, d) && |p| >= 2;
      assert Feeding(tasks)(p[|p| - 2], p[|p| - 2 + 1]);
    }
  }

  lemma BelowShrinks(tasks: seq<Task>, n: string, d: string)
    requires Acyclic(tasks) && d in Below(tasks, n)
    ensures Below(tasks, d) < Below(tasks, n) && |Below(tasks, d)| < |Below(tasks, n)|
  {
    var edge := Feeding(tasks);
    forall e | e in Below(tasks, d)
      ensures e in Below(tasks, n)
    {
      assert Paths.Reaches(edge, n, d) && Paths.Reaches(edge, d, e);
      Paths.ReachesTransitive(edge, n, d, e);
    }
    assert d !in Below(tasks, d);
    SubsetIsSmaller(Below(tasks, d), Below(tasks, n));
  }

  lemma SubsetIsSmaller(s: set<string>, t: set<string>)
    requires s < t
    ensures |s| < |t|
  {
    assert t == s + (t - s);
  }

  /** One more than all the work that can follow: itself and, for each task
      below, that task's own weight. */
  ghost function Weight(tasks: seq<Task>, n: string): (w: nat)
    requires Acyclic(tasks)
    ensures w >= 1
    decreases |Below(tasks, n)|
  {
    1 + Sum(Below(tasks, n), (d: string) => if |Below(tasks, d)| < |Below(tasks, n)| then Weight(tasks, d) else 0)
  }

  ghost function Weights(tasks: seq<Task>): string -> nat
    requires Acyclic(tasks)
  {
    n => Weight(tasks, n)
  }

  ghost function KeyWeights(tasks: seq<Task>): Key -> nat
    requires Acyclic(tasks)
  {
    (k: Key) => Weight(tasks, k.1)
  }

  lemma WeightOfBelow(tasks: seq<Task>, n: string)
    requires Acyclic(tasks)
    ensures Weight(tasks, n) == 1 + Sum(Below(tasks, n), Weights(tasks))
  {
    hide Below;
    forall d | d in Below(tasks, n)
      ensures |Below(tasks, d)| < |Below(tasks, n)|
    {
      BelowShrinks(tasks, n, d);
    }
    SumAgree(Below(tasks, n), (d: string) => if |Below(tasks, d)| < |Below(tasks, n)| then Weight(tasks, d)
      else 0, Weights(tasks));
  }

  function Copies(n: nat, w: nat): nat
  {
    if n == 0 then 0 else w + Copies(n - 1, w)
  }

  /** Rows of some tasks on some paths. */
  ghost function Grid(paths: seq<string>, names: set<string>): set<Key>
  {
    set p, d | p in paths && d in names :: (p, d)
  }

  lemma {:induction false} OnePathWeight(tasks: seq<Task>, path: string, names: set<string>)
    requires Acyclic(tasks)
    ensures Sum(Grid([path], names), KeyWeights(tasks)) == Sum(names, Weights(tasks))
  {
    hide Weight;
    if names == {} {
      assert Grid([path], names) == {};
    } else {
      var d :| d in names;
      OnePathWeight(tasks, path, names - {d});
      SumPick(names, Weights(tasks), d);
      SumPick(Grid([path], names), KeyWeights(tasks), (path, d));
      assert Grid([path], names) - {(path, d)} == Grid([path], names - {d});
    }
  }

  lemma {:induction false} GridWeight(tasks: seq<Task>, paths: seq<string>, names: set<string>)
    requires Acyclic(tasks)
    ensures Sum(Grid(paths, names), KeyWeights(tasks)) <= Copies(|paths|, Sum(names, Weights(tasks)))
    ensures DistinctPaths(paths) ==>
              Sum(Grid(paths, names), KeyWeights(tasks)) == Copies(|paths|, Sum(names, Weights(tasks)))
  {
    hide Weight, Sum;
    if paths == [] {
      assert Grid(paths, names) == {};
      SumOfNone(KeyWeights(tasks));
    } else {
      var n := |paths| - 1;
      var last := [paths[n]];
      assert paths == paths[..n] + last;
      GridWeight(tasks, paths[..n], names);
      OnePathWeight(tasks, paths[n], names);
      assert Grid(paths, names) == Grid(paths[..n], names) + Grid(last, names);
      SumUnion(Grid(paths[..n], names), Grid(last, names), KeyWeights(tasks));
      if DistinctPaths(paths) {
        assert Grid(paths[..n], names) * Grid(last, names) == {};
        SumOfNone(KeyWeights(tasks));
      }
    }
  }

  lemma SumOfNone(f: Key -> nat)
    ensures Sum({}, f) == 0
  {
  }


  ghost function Waiting(q: Rows): set<Key>
  {
    set k | k in q && q[k].status == Pending
  }

  function Left(b: Batch): nat
  {
    if b.next <= |b.paths| then |b.paths| - b.next else 0
  }

  /** A result to come weighs as much as its row did; a failure whose dependents
      are still to be reset weighs what they will. */
  ghost function BatchLoad(tasks: seq<Task>): Batch -> nat
    requires Acyclic(tasks)
  {
    (b: Batch) => Copies(Left(b), Weight(tasks, b.task.name)) + Copies(|b.failed|, Weight(tasks, b.task.name) - 1)
  }

  ghost function PerBatch(batches: map<nat, Batch>, f: Batch -> nat): nat
  {
    Sum(batches.Keys, Lookup(batches, f))
  }

  ghost function Lookup(batches: map<nat, Batch>, f: Batch -> nat): nat -> nat
  {
    (id: nat) => if id in batches then f(batches[id]) else 0
  }

  lemma OneBatchOf(batches: map<nat, Batch>, f: Batch -> nat, id: nat)
    requires id in batches
    ensures PerBatch(batches, f) == f(batches[id]) + PerBatch(batches - {id}, f)
  {
    SumPick(batches.Keys, Lookup(batches, f), id);
    assert (batches - {id}).Keys == batches.Keys - {id};
    SumAgree(batches.Keys - {id}, Lookup(batches, f), Lookup(batches - {id}, f));
  }

  lemma BatchReplaced(batches: map<nat, Batch>, f: Batch -> nat, id: nat, b: Batch)
    requires id in batches
    ensures PerBatch(batches[id := b], f) + f(batches[id]) == PerBatch(batches, f) + f(b)
  {
    OneBatchOf(batches, f, id);
    OneBatchOf(batches[id := b], f, id);
    assert batches[id := b] - {id} == batches - {id};
  }

  lemma BatchAdded(batches: map<nat, Batch>, f: Batch -> nat, id: nat, b: Batch)
    requires id !in batches
    ensures PerBatch(batches[id := b], f) == PerBatch(batches, f) + f(b)
  {
    OneBatchOf(batches[id := b], f, id);
    assert batches[id := b] - {id} == batches;
  }

  /** All the work the queue and the running batches can still give rise to. */
  ghost function Load(tasks: seq<Task>, q: Rows, batches: map<nat, Batch>): nat
    requires Acyclic(tasks)
  {
    Sum(Waiting(q), KeyWeights(tasks)) + PerBatch(batches, BatchLoad(tasks))
  }

  /** Queueing some rows of some tasks adds no more than their weight. */
  lemma QueueingWeighs(tasks: seq<Task>, q: Rows, r: Rows, paths: seq<string>, names: set<string>)
    requires Acyclic(tasks)
    requires forall k :: k in Waiting(r) ==> k in Waiting(q) || (k.0 in paths && k.1 in names)
    ensures Sum(Waiting(r), KeyWeights(tasks))
         <= Sum(Waiting(q), KeyWeights(tasks)) + Copies(|paths|, Sum(names, Weights(tasks)))
  {
    hide Weight, Sum, Waiting;
    var f, grid := KeyWeights(tasks), Grid(paths, names);
    SumSubset(Waiting(r), Waiting(q) + grid, f);
    SumUnion(Waiting(q), grid, f);
    GridWeight(tasks, paths, names);
  }

  lemma OneName(tasks: seq<Task>, n: string)
    requires Acyclic(tasks)
    ensures Sum({n}, Weights(tasks)) == Weight(tasks, n)
  {
    hide Weight;
    SumPick({n}, Weights(tasks), n);
    assert {n} - {n} == {};
  }

  /** A result without new files or other contents. */
  predicate Plain(result: TaskResult)
  {
    result.alsoContains == [] && result.discovered == []
  }

  lemma SameRows(q: Rows, r: Rows)
    requires OnlyQueues(q, r) && forall k :: !Changed(q, r, k)
    ensures q == r
  {
    assert forall k :: k in r ==> !Changed(q, r, k);
  }

  /** What a plain result can queue. */
  lemma QueuedByResult(tasks: seq<Task>, q: Rows, r: Rows, path: string, t: Task, result: TaskResult, failed: bool,
                       now: nat)
    requires t in tasks && Plain(result) && Recorded(tasks, q, r, path, t, result, failed, now)
    ensures forall k :: k in Waiting(r) ==>
              k in Waiting(q) || (k.0 == path && (if failed then false
                                                  else if DepsMet(tasks, q, path, t) then k.1 in Below(tasks, t.name)
                                                  else k.1 == t.name))
  {
    hide DepsMet, Told, Started;
    if !failed && DepsMet(tasks, q, path, t) {
      var mid := Close(q, path, t.name, Finished, now);
      var told, also :| Spread(tasks, mid, told, also, r, path, t, result);
      SameRows(told, also);
      SameRows(also, r);
      forall k | k in Waiting(r) && k !in Waiting(q)
        ensures k.0 == path && k.1 in Below(tasks, t.name)
      {
        assert Changed(mid, told, k);
        assert Feeds(tasks, t.name, k.1);
        FedIsDownstream(tasks, t.name, k.1);
        BelowHoldsDownstream(tasks, t.name, k.1);
      }
    }
  }

  /** Each result that is recorded lowers the load; one that is put back, because
      an input went away meanwhile, does not raise it. */
  lemma RecordingLowersLoad(tasks: seq<Task>, q: Rows, r: Rows, batches: map<nat, Batch>, id: nat,
                            result: TaskResult, failed: bool, now: nat)
    requires Acyclic(tasks) && BatchesOk(tasks, batches) && Plain(result)
    requires id in batches && batches[id].next < |batches[id].paths|
    requires Recorded(tasks, q, r, Current(batches[id]).0, batches[id].task, result, failed, now)
    ensures Load(tasks, r, batches[id := Advance(batches[id], failed)])
          + (if failed || DepsMet(tasks, q, Current(batches[id]).0, batches[id].task) then 1 else 0)
         <= Load(tasks, q, batches)
  {
    hide Weight, Sum, Recorded, DepsMet, Waiting, PerBatch;
    var b := batches[id];
    var path, t, w := b.paths[b.next], b.task, Weight(tasks, b.task.name);
    assert BatchOk(tasks, b);
    QueuedByResult(tasks, q, r, path, t, result, failed, now);
    var names := if failed then {} else if DepsMet(tasks, q, path, t) then Below(tasks, t.name) else {t.name};
    QueueingWeighs(tasks, q, r, [path], names);
    WeightOfBelow(tasks, t.name);
    OneName(tasks, t.name);
    NoNames(tasks);
    BatchReplaced(batches, BatchLoad(tasks), id, Advance(b, failed));
  }

  lemma NoNames(tasks: seq<Task>)
    requires Acyclic(tasks)
    ensures Sum({}, Weights(tasks)) == 0
  {
  }

  /** Resetting what depends on a batch's failures was accounted for. */
  lemma EndingKeepsLoad(tasks: seq<Task>, q: Rows, r: Rows, batches: map<nat, Batch>, id: nat, below: seq<string>)
    requires Acyclic(tasks) && BatchesOk(tasks, batches) && id in batches
    requires forall d :: d in below <==> IsDownstream(tasks, batches[id].task.name, d)
    requires r == ResetRows(q, below, batches[id].failed)
    ensures Load(tasks, r, batches - {id}) <= Load(tasks, q, batches)
  {
    hide Weight, Sum, PerBatch;
    var b := batches[id];
    assert BatchOk(tasks, b);
    forall d | d in below
      ensures d in Below(tasks, b.task.name)
    {
      BelowHoldsDownstream(tasks, b.task.name, d);
    }
    QueueingWeighs(tasks, q, r, b.failed, Below(tasks, b.task.name));
    WeightOfBelow(tasks, b.task.name);
    OneBatchOf(batches, BatchLoad(tasks), id);
  }

  lemma {:induction false} SiftedAreDistinct(tasks: seq<Task>, q: Rows, task: Task, paths: seq<string>, want: bool)
    requires DistinctPaths(paths)
    ensures DistinctPaths(Sift(tasks, q, task, paths, want))
  {
    if paths != [] {
      var n := |paths| - 1;
      SiftedAreDistinct(tasks, q, task, paths[..n], want);
      SiftOne(tasks, q, task, paths, want);
      hide DepsMet;
      assert forall p :: p in paths[..n] ==> p != paths[n];
    }
  }

  /** What a claim takes out of the queue. */
  ghost predicate Claimed(tasks: seq<Task>, q: Rows, r: Rows, task: Task, claimed: seq<string>, ready: seq<string>,
                          now: nat)
  {
    && DistinctPaths(claimed)
    && (forall p :: p in claimed ==> (p, task.name) in q && q[(p, task.name)].status == Pending)
    && ready == Sift(tasks, ClaimRows(q, task.name, claimed, now), task, claimed, true)
    && r == UnclaimRows(ClaimRows(q, task.name, claimed, now), task.name,
                        Sift(tasks, ClaimRows(q, task.name, claimed, now), task, claimed, false))
  }

  lemma WaitingAfterClaim(tasks: seq<Task>, q: Rows, r: Rows, task: Task, claimed: seq<string>, ready: seq<string>,
                          now: nat)
    requires Claimed(tasks, q, r, task, claimed, ready, now)
    ensures Waiting(r) + Grid(ready, {task.name}) == Waiting(q) && Waiting(r) * Grid(ready, {task.name}) == {}
    ensures DistinctPaths(ready)
  {
    hide DepsMet, Sift;
    SiftedAreDistinct(tasks, ClaimRows(q, task.name, claimed, now), task, claimed, true);
  }

  /** A claim moves weight from the queue into the batch. */
  lemma ClaimingKeepsLoad(tasks: seq<Task>, q: Rows, r: Rows, batches: map<nat, Batch>, id: nat, task: Task,
                          claimed: seq<string>, ready: seq<string>, now: nat)
    requires Acyclic(tasks) && id !in batches && Claimed(tasks, q, r, task, claimed, ready, now)
    ensures Load(tasks, r, if ready == [] then batches else batches[id := Batch(task, ready, 0, [])])
         == Load(tasks, q, batches)
  {
    hide Weight, Sum, PerBatch, Claimed;
    var f, grid := KeyWeights(tasks), Grid(ready, {task.name});
    WaitingAfterClaim(tasks, q, r, task, claimed, ready, now);
    SumUnion(Waiting(r), grid, f);
    SumOfNone(f);
    GridWeight(tasks, ready, {task.name});
    OneName(tasks, task.name);
    assert Sum(Waiting(q), f) == Sum(Waiting(r), f) + Copies(|ready|, Weight(tasks, task.name));
    hide Waiting, Grid;
    if ready == [] {
      assert Load(tasks, r, batches) == Load(tasks, q, batches);
    } else {
      var b := Batch(task, ready, 0, []);
      assert BatchLoad(tasks)(b) == Copies(|ready|, Weight(tasks, task.name));
      BatchAdded(batches, BatchLoad(tasks), id, b);
      assert Load(tasks, r, batches[id := b]) == Load(tasks, q, batches);
    }
  }

  // ---- No draining run goes on for ever ------------------------------------

  ghost predicate IsPathTask(tasks: seq<Task>, t: Task, name: string)
  {
    t in tasks && t.isPath && t.name == name
  }

  /** Queued rows whose inputs are there. */
  ghost function Ready(tasks: seq<Task>, q: Rows): set<Key>
  {
    set k | k in Waiting(q) && exists t :: IsPathTask(tasks, t, k.1) && DepsMet(tasks, q, k.0, t)
  }

  ghost function Lefts(): Batch -> nat
  {
    (b: Batch) => Left(b)
  }

  ghost function Failures(): Batch -> nat
  {
    (b: Batch) => |b.failed|
  }

  /** How far a draining run is from its end, in order of importance: the load,
      the failures still to be settled, the results and claims that can come
      before either changes, and the batches left to end. */
  datatype Measure = Measure(load: nat, failures: nat, rank: nat, batches: nat)

  ghost function Measured(tasks: seq<Task>, q: Rows, batches: map<nat, Batch>): Measure
    requires Acyclic(tasks)
  {
    Measure(Load(tasks, q, batches), PerBatch(batches, Failures()),
            2 * |Ready(tasks, q)| + PerBatch(batches, Lefts()), |batches|)
  }

  ghost predicate Lower(a: Measure, b: Measure)
  {
    || a.load < b.load
    || (a.load == b.load && a.failures < b.failures)
    || (a.load == b.load && a.failures == b.failures && a.rank < b.rank)
    || (a.load == b.load && a.failures == b.failures && a.rank == b.rank && a.batches < b.batches)
  }

  lemma DepsByDone(tasks: seq<Task>, q: Rows, r: Rows, path: string, t: Task)
    requires forall n :: Done(q, path, n) <==> Done(r, path, n)
    ensures DepsMet(tasks, q, path, t) <==> DepsMet(tasks, r, path, t)
  {
    hide Done, UpstreamOf;
  }

  lemma {:induction false} GridSize(paths: seq<string>, n: string)
    requires DistinctPaths(paths)
    ensures |Grid(paths, {n})| == |paths|
  {
    if paths == [] {
      assert Grid(paths, {n}) == {};
    } else {
      var k := |paths| - 1;
      GridSize(paths[..k], n);
      assert paths == paths[..k] + [paths[k]];
      assert Grid(paths, {n}) == Grid(paths[..k], {n}) + {(paths[k], n)};
    }
  }

  /** A claim touches no finished row, so no task's inputs. */
  lemma ClaimKeepsInputs(tasks: seq<Task>, q: Rows, r: Rows, task: Task, claimed: seq<string>, ready: seq<string>,
                         now: nat)
    requires Claimed(tasks, q, r, task, claimed, ready, now)
    ensures forall path, t :: DepsMet(tasks, q, path, t) <==> DepsMet(tasks, r, path, t)
    ensures forall p :: p in ready ==> DepsMet(tasks, q, p, task)
  {
    hide DepsMet;
    var taken := ClaimRows(q, task.name, claimed, now);
    assert forall path, n :: Done(q, path, n) <==> Done(r, path, n);
    assert forall path, n :: Done(q, path, n) <==> Done(taken, path, n);
    hide Done;
    forall path, t
      ensures DepsMet(tasks, q, path, t) <==> DepsMet(tasks, r, path, t)
      ensures DepsMet(tasks, q, path, t) <==> DepsMet(tasks, taken, path, t)
    {
      DepsByDone(tasks, q, r, path, t);
      DepsByDone(tasks, q, taken, path, t);
    }
  }

  /** Claimed rows are no longer ready, and nothing else changes readiness. */
  lemma ReadyAfterClaim(tasks: seq<Task>, q: Rows, r: Rows, task: Task, claimed: seq<string>, ready: seq<string>,
                        now: nat)
    requires task in tasks && task.isPath && Claimed(tasks, q, r, task, claimed, ready, now)
    ensures |Ready(tasks, r)| + |ready| <= |Ready(tasks, q)|
    ensures ready == [] ==> |Ready(tasks, r)| == |Ready(tasks, q)|
  {
    hide DepsMet;
    WaitingAfterClaim(tasks, q, r, task, claimed, ready, now);
    var grid := Grid(ready, {task.name});
    ClaimKeepsInputs(tasks, q, r, task, claimed, ready, now);
    hide Claimed;
    forall k | k in grid
      ensures k in Ready(tasks, q)
    {
      assert k.0 in ready && IsPathTask(tasks, task, k.1) && DepsMet(tasks, q, k.0, task);
    }
    assert Ready(tasks, r) == Ready(tasks, q) - grid;
    GridSize(ready, task.name);
  }

  /** A result put back makes nothing ready. */
  lemma ReadyAfterRequeue(tasks: seq<Task>, q: Rows, r: Rows, path: string, t: Task, now: nat)
    requires Registry(tasks) && t in tasks && !DepsMet(tasks, q, path, t)
    requires r == Requeued(q, path, t.name, now)
    ensures Ready(tasks, r) <= Ready(tasks, q)
  {
    hide DepsMet;
    GetByName(tasks, t);
    forall k | k in Ready(tasks, r)
      ensures k in Ready(tasks, q)
    {
      var u :| IsPathTask(tasks, u, k.1) && DepsMet(tasks, r, k.0, u);
      GetByName(tasks, u);
      DepsMetShrinks(tasks, q, r, k.0, u);
    }
  }

  lemma SubsetCount<T>(s: set<T>, t: set<T>)
    requires s <= t
    ensures |s| <= |t|
  {
    assert t == s + (t - s);
  }

  lemma ClaimingDescends(tasks: seq<Task>, q: Rows, r: Rows, batches: map<nat, Batch>, id: nat, task: Task,
                         claimed: seq<string>, ready: seq<string>, now: nat)
    requires Acyclic(tasks) && id !in batches && task in tasks && task.isPath
    requires Claimed(tasks, q, r, task, claimed, ready, now)
    ensures ready == [] ==> Measured(tasks, r, batches) == Measured(tasks, q, batches)
    ensures ready != [] ==> Lower(Measured(tasks, r, batches[id := Batch(task, ready, 0, [])]),
              Measured(tasks, q, batches))
    ensures ready != [] ==> Load(tasks, r, batches[id := Batch(task, ready, 0, [])]) == Load(tasks, q, batches)
  {
    hide Claimed, Load, PerBatch, Ready;
    ClaimingKeepsLoad(tasks, q, r, batches, id, task, claimed, ready, now);
    ReadyAfterClaim(tasks, q, r, task, claimed, ready, now);
    var b := Batch(task, ready, 0, []);
    BatchAdded(batches, Failures(), id, b);
    BatchAdded(batches, Lefts(), id, b);
  }

  lemma ProcessingDescends(tasks: seq<Task>, q: Rows, r: Rows, batches: map<nat, Batch>, id: nat,
                           result: TaskResult, failed: bool, now: nat)
    requires Registry(tasks) && Acyclic(tasks) && BatchesOk(tasks, batches) && Plain(result)
    requires id in batches && batches[id].next < |batches[id].paths|
    requires Recorded(tasks, q, r, Current(batches[id]).0, batches[id].task, result, failed, now)
    ensures Lower(Measured(tasks, r, batches[id := Advance(batches[id], failed)]), Measured(tasks, q, batches))
  {
    hide Load, PerBatch, Ready, DepsMet;
    var b := batches[id];
    assert BatchOk(tasks, b);
    hide BatchesOk;
    RecordingLowersLoad(tasks, q, r, batches, id, result, failed, now);
    if !failed && !DepsMet(tasks, q, b.paths[b.next], b.task) {
      ReadyAfterRequeue(tasks, q, r, b.paths[b.next], b.task, now);
      SubsetCount(Ready(tasks, r), Ready(tasks, q));
      hide Recorded;
      BatchReplaced(batches, Failures(), id, Advance(b, failed));
      BatchReplaced(batches, Lefts(), id, Advance(b, failed));
    }
  }

  lemma EndingDescends(tasks: seq<Task>, q: Rows, r: Rows, batches: map<nat, Batch>, id: nat, below: seq<string>)
    requires Acyclic(tasks) && BatchesOk(tasks, batches) && id in batches
    requires forall d :: d in below <==> IsDownstream(tasks, batches[id].task.name, d)
    requires r == ResetRows(q, below, batches[id].failed)
    ensures Lower(Measured(tasks, r, batches - {id}), Measured(tasks, q, batches))
    ensures Load(tasks, r, batches - {id}) <= Load(tasks, q, batches)
  {
    hide Load, PerBatch, Ready, IsDownstream, BatchesOk;
    EndingKeepsLoad(tasks, q, r, batches, id, below);
    OneBatchOf(batches, Failures(), id);
    OneBatchOf(batches, Lefts(), id);
    assert (batches - {id}).Keys == batches.Keys - {id};
    assert |batches - {id}| == |batches.Keys - {id}| && |batches| == |batches.Keys|;
    if batches[id].failed == [] {
      assert r == q;
    }
  }

  // ---- Draining runs ----------------------------------------------------------

  /** Steps of a run in which nothing new arrives and nobody interferes. */
  predicate Draining(step: Step)
  {
    step.Claim? || step.End? || (step.Process? && Plain(step.result))
  }

  ghost function MeasureOf(tasks: seq<Task>, a: Shot): Measure
    requires Acyclic(tasks)
  {
    Measured(tasks, a.rows, a.batches)
  }

  ghost function LoadOf(tasks: seq<Task>, a: Shot): nat
    requires Acyclic(tasks)
  {
    Load(tasks, a.rows, a.batches)
  }

  /** The same rows with the same status; times may differ. */
  ghost predicate SameStatus(q: Rows, r: Rows)
  {
    q.Keys == r.Keys && forall k :: k in q ==> q[k].status == r[k].status
  }

  predicate Closed(q: Rows, k: Key)
  {
    k in q && (q[k].status == Finished || q[k].status == Failed)
  }

  /** The step took up a result and its row is closed now. */
  predicate Closes(a: Shot, step: Step, b: Shot)
  {
    step.Process? && CanProcess(a, step.id) && Closed(b.rows, Current(a.batches[step.id]))
  }

  /** A step moves when it starts a batch, takes up a result or ends a batch. Then
      the measure is lower; else all stays. */
  ghost predicate Descends(tasks: seq<Task>, a: Shot, step: Step, b: Shot)
    requires Acyclic(tasks)
  {
    && BatchesOk(tasks, b.batches)
    && (if b.batches == a.batches then MeasureOf(tasks, b) == MeasureOf(tasks, a) && SameStatus(a.rows, b.rows)
        else Lower(MeasureOf(tasks, b), MeasureOf(tasks, a)))
    && LoadOf(tasks, b) + (if Closes(a, step, b) then 1 else 0) <= LoadOf(tasks, a)
  }

  lemma ClaimDescends(tasks: seq<Task>, a: Shot, step: Step, b: Shot, claimed: seq<string>)
    requires Acyclic(tasks) && BatchesOk(tasks, a.batches) && step.Claim? && CanClaim(tasks, a, step.task, step.id)
    requires Dispatched(tasks, a, step.task, step.servicesReady, step.id, b, claimed)
    ensures Descends(tasks, a, step, b)
  {
    hide Measured, Load, DepsMet, BestPending, Lower, Sift;
    var task := step.task;
    var ready := Sift(tasks, ClaimRows(a.rows, task.name, claimed, a.clock), task, claimed, true);
    ClaimedPending(a.rows, task.name, task.batchSize, claimed);
    ClaimingDescends(tasks, a.rows, b.rows, a.batches, step.id, task, claimed, ready, a.clock);
    ClaimingKeepsLoad(tasks, a.rows, b.rows, a.batches, step.id, task, claimed, ready, a.clock);
    if ready == [] { NoneReady(tasks, a.rows, b.rows, task, claimed, a.clock); }
  }

  lemma NoneReady(tasks: seq<Task>, q: Rows, r: Rows, task: Task, claimed: seq<string>, now: nat)
    requires forall p :: p in claimed ==> (p, task.name) in q && q[(p, task.name)].status == Pending
    requires Sift(tasks, ClaimRows(q, task.name, claimed, now), task, claimed, true) == []
    requires r == UnclaimRows(ClaimRows(q, task.name, claimed, now), task.name,
                              Sift(tasks, ClaimRows(q, task.name, claimed, now), task, claimed, false))
    ensures SameStatus(q, r)
  {
    hide DepsMet;
    var taken := ClaimRows(q, task.name, claimed, now);
    forall p | p in claimed
      ensures p in Sift(tasks, taken, task, claimed, false)
    {
      assert p !in Sift(tasks, taken, task, claimed, true);
    }
    hide Sift;
  }

  lemma ProcessDescends(tasks: seq<Task>, a: Shot, step: Step, b: Shot, failed: bool)
    requires Registry(tasks) && Acyclic(tasks) && BatchesOk(tasks, a.batches)
    requires step.Process? && Plain(step.result) && CanProcess(a, step.id)
              && Worked(tasks, a, step.id, step.result, b, failed)
    ensures Descends(tasks, a, step, b)
  {
    hide Measured, Load, DepsMet, Lower, Spread;
    var batch := a.batches[step.id];
    ProcessingDescends(tasks, a.rows, b.rows, a.batches, step.id, step.result, failed, a.clock);
    RecordingLowersLoad(tasks, a.rows, b.rows, a.batches, step.id, step.result, failed, a.clock);
    assert BatchOk(tasks, batch);
    assert b.batches[step.id].next != batch.next;
  }

  lemma EndDescends(tasks: seq<Task>, a: Shot, step: Step, b: Shot, below: seq<string>)
    requires Acyclic(tasks) && BatchesOk(tasks, a.batches)
    requires step.End? && step.id in a.batches && Ended(tasks, a, step.id, b, below)
    ensures Descends(tasks, a, step, b)
  {
    hide Measured, Load, Lower, IsDownstream;
    EndingDescends(tasks, a.rows, b.rows, a.batches, step.id, below);
    assert step.id !in b.batches;
  }

  lemma ClaimedPending(q: Rows, name: string, n: nat, claimed: seq<string>)
    requires claimed == [] || BestPending(q, name, n, set p | p in claimed)
    ensures forall p :: p in claimed ==> (p, name) in q && q[(p, name)].status == Pending
  {
    forall p | p in claimed
      ensures (p, name) in q && q[(p, name)].status == Pending
    {
      assert p in set o | o in claimed;
    }
  }

  /** Every draining step, whatever it finds, moves and descends or changes nothing,
      and lowers the load by one for a row it closes. */
  lemma DrainingDescends(tasks: seq<Task>, a: Shot, step: Step, b: Shot)
    requires Registry(tasks) && Acyclic(tasks) && BatchesOk(tasks, a.batches)
    requires Draining(step) && Stepped(tasks, a, step, b)
    ensures Descends(tasks, a, step, b)
  {
    hide Measured, Load, Lower, BatchesOk, Dispatched, Worked, Ended, Acyclic, Registry;
    match step
    case Claim(task, servicesReady, id) =>
      if CanClaim(tasks, a, task, id) {
        var claimed :| Dispatched(tasks, a, task, servicesReady, id, b, claimed);
        ClaimDescends(tasks, a, step, b, claimed);
        hide Descends;
      }
    case Process(id, result) =>
      if CanProcess(a, id) {
        var failed :| Worked(tasks, a, id, result, b, failed);
        ProcessDescends(tasks, a, step, b, failed);
        hide Descends;
      }
    case End(id) =>
      if id in a.batches {
        var below :| Ended(tasks, a, id, b, below);
        EndDescends(tasks, a, step, b, below);
        hide Descends;
      }
  }

  /** A series of states of a draining run, one step apart. */
  ghost predicate DrainingRun(tasks: seq<Task>, trail: seq<Shot>, schedule: seq<Step>)
  {
    |trail| == |schedule| + 1
    && forall i :: 0 <= i < |schedule| ==> Draining(schedule[i]) && Stepped(tasks, trail[i], schedule[i], trail[i + 1])
  }

  /** How many of the first `n` steps closed a row. */
  function Closings(trail: seq<Shot>, schedule: seq<Step>, n: nat): nat
    requires n <= |schedule| < |trail|
  {
    if n == 0 then 0
    else Closings(trail, schedule, n - 1) + if Closes(trail[n - 1], schedule[n - 1], trail[n]) then 1 else 0
  }

  /** A draining run of any length, with idle steps in it or not, closes no more rows
      than the load it began with. */
  lemma {:induction false} ClosingsBounded(tasks: seq<Task>, trail: seq<Shot>, schedule: seq<Step>, n: nat)
    requires Registry(tasks) && Acyclic(tasks) && DrainingRun(tasks, trail, schedule)
              && BatchesOk(tasks, trail[0].batches)
    requires n <= |schedule|
    ensures BatchesOk(tasks, trail[n].batches)
    ensures Closings(trail, schedule, n) + LoadOf(tasks, trail[n]) <= LoadOf(tasks, trail[0])
  {
    hide Stepped, LoadOf, MeasureOf, BatchesOk, Acyclic, Registry, Closes;
    if n > 0 {
      ClosingsBounded(tasks, trail, schedule, n - 1);
      DrainingDescends(tasks, trail[n - 1], schedule[n - 1], trail[n]);
    }
  }

  /** The dispatcher itself over a draining schedule of any length. */
  method Drain(d: Dispatcher, schedule: seq<Step>) returns (ghost trail: seq<Shot>)
    requires d.Valid() && Registry(d.graph.tasks) && Acyclic(d.graph.tasks)
    requires forall i :: 0 <= i < |schedule| ==> Draining(schedule[i])
    modifies d`clock, d`batches, d`free, d`paused, d`abandoned, d.db
    ensures d.Valid() && DrainingRun(d.graph.tasks, trail, schedule)
    ensures trail[0] == old(d.Now()) && trail[|schedule|] == d.Now()
    ensures Closings(trail, schedule, |schedule|) + LoadOf(d.graph.tasks, d.Now())
              <= LoadOf(d.graph.tasks, old(d.Now()))
  {
    hide Stepped, LoadOf, Acyclic, Registry, Closings, Inv, SlotsOk, Tracked, Owed;
    trail := [d.Now()];
    for i := 0 to |schedule|
      invariant d.Valid() && |trail| == i + 1 && trail[0] == old(d.Now()) && trail[i] == d.Now()
      invariant forall k :: 0 <= k < i ==> Stepped(d.graph.tasks, trail[k], schedule[k], trail[k + 1])
    {
      d.Take(schedule[i]);
      trail := trail + [d.Now()];
    }
    ClosingsBounded(d.graph.tasks, trail, schedule, |schedule|);
  }

  lemma LowerIsTransitive(a: Measure, b: Measure, c: Measure)
    requires (Lower(a, b) || a == b) && (Lower(b, c) || b == c)
    ensures Lower(a, c) || a == c
  {
  }

  lemma {:induction false} NeverRises(m: nat -> Measure, i: nat, j: nat)
    requires i <= j && forall k: nat :: Lower(m(k + 1), m(k)) || m(k + 1) == m(k)
    ensures Lower(m(j), m(i)) || m(j) == m(i)
  {
    hide Lower;
    if i < j {
      NeverRises(m, i, j - 1);
      LowerIsTransitive(m(j - 1 + 1), m(j - 1), m(i));
    }
  }

  /** A measure that never rises changes only finitely often. */
  lemma {:induction false} Settles(m: nat -> Measure, i: nat) returns (n: nat)
    requires forall k: nat :: Lower(m(k + 1), m(k)) || m(k + 1) == m(k)
    ensures forall k: nat :: k >= n ==> m(k) == m(n)
    decreases m(i).load, m(i).failures, m(i).rank, m(i).batches
  {
    n := i;
    if k: nat :| k >= i && m(k) != m(i) {
      NeverRises(m, i, k);
      n := Settles(m, k);
    }
  }

  /** The states of a draining run that goes on for ever. */
  ghost predicate EndlessRun(tasks: seq<Task>, trail: nat -> Shot, schedule: nat -> Step)
  {
    forall i: nat :: Draining(schedule(i)) && Stepped(tasks, trail(i), schedule(i), trail(i + 1))
  }

  lemma {:induction false} BatchesStayOk(tasks: seq<Task>, trail: nat -> Shot, schedule: nat -> Step, i: nat)
    requires Registry(tasks) && Acyclic(tasks) && EndlessRun(tasks, trail, schedule)
              && BatchesOk(tasks, trail(0).batches)
    ensures BatchesOk(tasks, trail(i).batches) && Descends(tasks, trail(i), schedule(i), trail(i + 1))
  {
    hide Stepped, LoadOf, MeasureOf, BatchesOk, Acyclic, Registry, Closes, SameStatus, Lower;
    if i > 0 { BatchesStayOk(tasks, trail, schedule, i - 1); }
    DrainingDescends(tasks, trail(i), schedule(i), trail(i + 1));
  }

  /** Along any schedule, idle steps in between or not, a draining run moves only
      finitely often: from some step on no batch starts, advances or ends, and no row
      changes its status. */
  lemma MovesComeToAnEnd(tasks: seq<Task>, trail: nat -> Shot, schedule: nat -> Step) returns (n: nat)
    requires Registry(tasks) && Acyclic(tasks) && EndlessRun(tasks, trail, schedule)
              && BatchesOk(tasks, trail(0).batches)
    ensures forall i: nat :: i >= n ==> trail(i).batches == trail(n).batches && SameStatus(trail(n).rows, trail(i).rows)
  {
    hide EndlessRun, LoadOf, MeasureOf, BatchesOk, Acyclic, Registry, Closes, SameStatus, Lower;
    var m: nat -> Measure := (i: nat) => MeasureOf(tasks, trail(i));
    forall k: nat
      ensures Lower(m(k + 1), m(k)) || m(k + 1) == m(k)
    {
      BatchesStayOk(tasks, trail, schedule, k);
    }
    n := Settles(m, 0);
    assert forall k: nat :: k >= n ==> MeasureOf(tasks, trail(k)) == m(k) == m(n) == MeasureOf(tasks, trail(n));
    forall i: nat | i >= n
      ensures trail(i).batches == trail(n).batches && SameStatus(trail(n).rows, trail(i).rows)
    {
      Unmoved(tasks, trail, schedule, n, i);
    }
  }

  lemma {:induction false} Unmoved(tasks: seq<Task>, trail: nat -> Shot, schedule: nat -> Step, n: nat, i: nat)
    requires Registry(tasks) && Acyclic(tasks) && EndlessRun(tasks, trail, schedule)
              && BatchesOk(tasks, trail(0).batches)
    requires i >= n && forall k: nat :: k >= n ==> MeasureOf(tasks, trail(k)) == MeasureOf(tasks, trail(n))
    ensures trail(i).batches == trail(n).batches && SameStatus(trail(n).rows, trail(i).rows)
  {
    hide EndlessRun, LoadOf, MeasureOf, BatchesOk, Acyclic, Registry, Closes;
    if i > n {
      Unmoved(tasks, trail, schedule, n, i - 1);
      BatchesStayOk(tasks, trail, schedule, i - 1);
      assert MeasureOf(tasks, trail(i - 1 + 1)) == MeasureOf(tasks, trail(i - 1));
      NotBelowItself(MeasureOf(tasks, trail(i)));
      hide Lower;
    }
  }

  lemma NotBelowItself(m: Measure)
    ensures !Lower(m, m)
  {
  }

  // ---- When nothing can move ----------------------------------------------------

  /** No draining step from here starts, advances or ends a batch. */
  ghost predicate Stuck(tasks: seq<Task>, a: Shot)
  {
    forall step, b :: Draining(step) && Stepped(tasks, a, step, b) ==> b.batches == a.batches
  }

  /** A claim the dispatcher may make of a task. */
  ghost predicate Claimable(tasks: seq<Task>, a: Shot, t: Task, claimed: seq<string>)
  {
    && t in tasks && t.isPath && MayClaim(a.free, a.paused, t, true) && DistinctPaths(claimed)
    && BestPending(a.rows, t.name, t.batchSize, set p | p in claimed)
  }

  ghost predicate ReadyAmong(tasks: seq<Task>, a: Shot, t: Task, claimed: seq<string>)
  {
    Sift(tasks, ClaimRows(a.rows, t.name, claimed, a.clock), t, claimed, true) != []
  }

  lemma {:induction false} ListOf(s: set<string>) returns (l: seq<string>)
    ensures DistinctPaths(l) && |l| == |s| && forall d :: d in l <==> d in s
  {
    if s == {} {
      l := [];
    } else {
      var d :| d in s;
      var rest := ListOf(s - {d});
      l := rest + [d];
      assert forall e :: e in l <==> e in rest || e == d;
    }
  }

  lemma EndMoves(tasks: seq<Task>, a: Shot, id: nat)
    requires id in a.batches && a.batches[id].task.name in a.free
    ensures !Stuck(tasks, a)
  {
    var below := ListOf(Below(tasks, a.batches[id].task.name));
    forall d
      ensures d in below <==> IsDownstream(tasks, a.batches[id].task.name, d)
    {
      BelowHoldsDownstream(tasks, a.batches[id].task.name, d);
    }
    var name := a.batches[id].task.name;
    var b := a.(rows := ResetRows(a.rows, below, a.batches[id].failed), batches := a.batches - {id},
                free := a.free[name := a.free[name] + 1]);
    hide IsDownstream;
    assert Ended(tasks, a, id, b, below);
    assert Stepped(tasks, a, End(id), b) && Draining(End(id));
    assert id !in b.batches;
  }

  lemma ClaimMoves(tasks: seq<Task>, a: Shot, t: Task, claimed: seq<string>)
    requires a.batches == map[] && Claimable(tasks, a, t, claimed) && ReadyAmong(tasks, a, t, claimed)
    ensures !Stuck(tasks, a)
  {
    hide Sift, BestPending;
    var taken := ClaimRows(a.rows, t.name, claimed, a.clock);
    var ready := Sift(tasks, taken, t, claimed, true);
    var b := a.(rows := UnclaimRows(taken, t.name, Sift(tasks, taken, t, claimed, false)),
                batches := a.batches[0 := Batch(t, ready, 0, [])], free := a.free[t.name := a.free[t.name] - 1]);
    assert Dispatched(tasks, a, t, true, 0, b, claimed);
    assert Stepped(tasks, a, Claim(t, true, 0), b) && Draining(Claim(t, true, 0));
    assert 0 in b.batches;
  }

  /** Nothing can move exactly when no batch is left and no claim the dispatcher may
      make holds a row whose inputs are there. */
  lemma StuckExactly(tasks: seq<Task>, a: Shot)
    requires BatchesOk(tasks, a.batches) && SlotsOk(tasks, a.free, a.batches)
    ensures Stuck(tasks, a) <==>
              a.batches == map[] && forall t, claimed :: Claimable(tasks, a, t, claimed) ==>
                !ReadyAmong(tasks, a, t, claimed)
  {
    hide Claimable, ReadyAmong, Stepped;
    if id :| id in a.batches {
      assert BatchOk(tasks, a.batches[id]);
      hide Stuck;
      EndMoves(tasks, a, id);
    } else if t, claimed :| Claimable(tasks, a, t, claimed) && ReadyAmong(tasks, a, t, claimed) {
      assert a.batches == map[];
      hide Stuck;
      ClaimMoves(tasks, a, t, claimed);
    } else {
      forall step, b | Draining(step) && Stepped(tasks, a, step, b)
        ensures b.batches == a.batches
      {
        NothingToClaim(tasks, a, step, b);
      }
    }
  }

  lemma NothingToClaim(tasks: seq<Task>, a: Shot, step: Step, b: Shot)
    requires a.batches == map[] && Draining(step) && Stepped(tasks, a, step, b)
    requires forall t, claimed :: Claimable(tasks, a, t, claimed) ==> !ReadyAmong(tasks, a, t, claimed)
    ensures b.batches == a.batches
  {
    hide BestPending;
    if step.Claim? && CanClaim(tasks, a, step.task, step.id) {
      var t := step.task;
      var claimed :| Dispatched(tasks, a, t, step.servicesReady, step.id, b, claimed);
      if MayClaim(a.free, a.paused, t, step.servicesReady) {
        assert Claimable(tasks, a, t, claimed);
        assert !ReadyAmong(tasks, a, t, claimed);
      } else {
        NothingSifted(tasks, ClaimRows(a.rows, t.name, [], a.clock), t);
      }
      hide Sift;
    }
  }

  ghost function PendingOf(q: Rows, name: string): set<string>
  {
    set k | k in q && k.1 == name && q[k].status == Pending :: k.0
  }

  /** Then a task that may be claimed, and whose pending rows fit into one batch, has
      only rows that wait for their inputs. */
  lemma StuckRowsWait(tasks: seq<Task>, a: Shot, t: Task)
    requires BatchesOk(tasks, a.batches) && SlotsOk(tasks, a.free, a.batches) && Stuck(tasks, a)
    requires t in tasks && t.isPath && MayClaim(a.free, a.paused, t, true) && |PendingOf(a.rows, t.name)| <= t.batchSize
    ensures forall p :: p in PendingOf(a.rows, t.name) ==> !DepsMet(tasks, a.rows, p, t)
  {
    StuckExactly(tasks, a);
    hide Stuck, DepsMet;
    var claimed := ListOf(PendingOf(a.rows, t.name));
    AllPendingAreBest(a.rows, t.name, t.batchSize, claimed);
    assert Claimable(tasks, a, t, claimed);
    assert !ReadyAmong(tasks, a, t, claimed);
    hide BestPending;
    var taken := ClaimRows(a.rows, t.name, claimed, a.clock);
    forall p | p in PendingOf(a.rows, t.name)
      ensures !DepsMet(tasks, a.rows, p, t)
    {
      assert p !in Sift(tasks, taken, t, claimed, true);
      DoneWhileClaimed(a.rows, t.name, claimed, a.clock, p);
      DepsByDone(tasks, a.rows, taken, p, t);
    }
  }

  lemma AllPendingAreBest(q: Rows, name: string, n: nat, claimed: seq<string>)
    requires |PendingOf(q, name)| <= n && forall p :: p in claimed <==> p in PendingOf(q, name)
    ensures BestPending(q, name, n, set p | p in claimed)
  {
    assert (set p | p in claimed) == PendingOf(q, name);
    forall p
      ensures p in PendingOf(q, name) <==> (p, name) in q && q[(p, name)].status == Pending
    {
      if (p, name) in q && q[(p, name)].status == Pending { assert (p, name).0 in PendingOf(q, name); }
    }
  }

  lemma DoneWhileClaimed(q: Rows, name: string, claimed: seq<string>, now: nat, path: string)
    requires forall p :: p in claimed ==> (p, name) in q && q[(p, name)].status == Pending
    ensures forall n :: Done(q, path, n) <==> Done(ClaimRows(q, name, claimed, now), path, n)
  {
  }

  const WRITER := Task("a", true, [], [], ["x"], true, 1, 1)
  const READER := Task("b", true, [], ["x"], [], true, 1, 1)

  /** The reader waits on "p", where the writer failed, and later on "q", where it
      is finished. */
  const LINED_UP: Rows := map[("p", "a") := Row(Failed, 0, 0, Some(1), Some(2)),
                              ("p", "b") := Row(Pending, 0, 1, None, None),
                              ("q", "a") := Row(Finished, 0, 2, Some(2), Some(3)),
                              ("q", "b") := Row(Pending, 0, 3, None, None)]

  lemma ReaderNeedsWriter(q: Rows, path: string)
    ensures DepsMet([WRITER, READER], q, path, READER) <==> Done(q, path, "a")
  {
    assert UpstreamOf([WRITER, READER], READER) == {"a"} by {
      assert "x" in READER.inputs && Producer([WRITER, READER], "x") == Some(WRITER);
    }
    hide UpstreamOf, Done;
  }

  lemma OnlyTheOldest(claimed: seq<string>)
    requires BestPending(LINED_UP, "b", 1, set p | p in claimed)
    ensures forall p :: p in claimed ==> p == "p"
  {
    var taken := set p | p in claimed;
    forall p | p in claimed
      ensures p == "p"
    {
      assert p in taken;
      assert ("p", "b") in LINED_UP && (p, "b") in LINED_UP && (p == "p" || p == "q");
      if p == "q" {
        assert !NotAfter(LINED_UP[("q", "b")], LINED_UP[("p", "b")]);
        assert {"p", "q"} <= taken;
        SubsetCount({"p", "q"}, taken);
      }
    }
  }

  lemma {:induction false} NothingReady(tasks: seq<Task>, q: Rows, t: Task, claimed: seq<string>)
    requires forall p :: p in claimed ==> !DepsMet(tasks, q, p, t)
    ensures Sift(tasks, q, t, claimed, true) == []
  {
    hide DepsMet, Sift;
    if claimed == [] {
      NothingSifted(tasks, q, t);
    } else {
      NothingReady(tasks, q, t, claimed[..|claimed| - 1]);
      SiftOne(tasks, q, t, claimed, true);
    }
  }

  lemma OldestAlone(shot: Shot, t: Task, claimed: seq<string>)
    requires shot.rows == LINED_UP && Claimable([WRITER, READER], shot, t, claimed)
    ensures !ReadyAmong([WRITER, READER], shot, t, claimed)
  {
    var tasks := [WRITER, READER];
    var taken := ClaimRows(LINED_UP, t.name, claimed, shot.clock);
    assert t == WRITER || t == READER;
    ClaimedPending(LINED_UP, t.name, t.batchSize, claimed);
    if t == READER { OnlyTheOldest(claimed); }
    hide BestPending;
    ReaderNeedsWriter(taken, "p");
    hide DepsMet;
    NothingReady(tasks, taken, t, claimed);
  }

  /** With more pending rows than fit into a batch that need not be so: an old row
      whose input failed keeps a ready one behind it from ever being claimed. */
  lemma ReadyRowBehindAWaitingOne()
    ensures Stuck([WRITER, READER], Shot(LINED_UP, map[], map["a" := 1, "b" := 1], {}, 4))
    ensures DepsMet([WRITER, READER], LINED_UP, "q", READER) && "q" in PendingOf(LINED_UP, "b")
  {
    var tasks, shot := [WRITER, READER], Shot(LINED_UP, map[], map["a" := 1, "b" := 1], {}, 4);
    ReaderNeedsWriter(LINED_UP, "q");
    assert ("q", "b").0 in PendingOf(LINED_UP, "b");
    hide DepsMet, Stuck, PendingOf, Claimable, ReadyAmong;
    assert Running(map[], "a") == {} && Running(map[], "b") == {};
    forall t, claimed | Claimable(tasks, shot, t, claimed)
      ensures !ReadyAmong(tasks, shot, t, claimed)
    {
      OldestAlone(shot, t, claimed);
    }
    StuckExactly(tasks, shot);
  }
}
