/** The background pipeline's dispatcher: builds the graph, claims queued work,
    runs it in batches and queues what depends on it. */
module Orchestrator {
  import opened Basics
  import Paths
  import opened PipelineGraph
  import opened TaskQueue
  import opened Freshness

  /** What a task reports for one path. */
  datatype TaskResult = TaskResult(
    success: bool,
    written: bool,                        // false when writing its rows raised an error
    alsoContains: seq<string>,
    discovered: seq<(string, string)>)    // path and modality of new files

  /** A claimed batch on a worker: `next` results are processed. */
  datatype Batch = Batch(task: Task, paths: seq<string>, next: nat, failed: seq<string>)

  /** Failures whose dependents the batch has still to reset. */
  ghost function Owed(batches: map<nat, Batch>): set<Key>
  {
    set id, p | id in batches && p in batches[id].failed :: (p, batches[id].task.name)
  }

  ghost function Running(batches: map<nat, Batch>, name: string): set<nat>
  {
    set id | id in batches && batches[id].task.name == name
  }

  lemma DepMetShrinks(q: Rows, r: Rows, path: string, ups: set<string>, all: bool)
    requires OnlyOpens(q, r) && DepMet(r, path, ups, all)
    ensures DepMet(q, path, ups, all)
  {
  }

  ghost predicate Changed(q: Rows, r: Rows, k: Key)
  {
    k in r && (k in q ==> r[k] != q[k])
  }

  ghost predicate Queued(q: Rows, path: string, name: string)
  {
    (path, name) in q && q[(path, name)].status == Pending
  }

  function Names(tasks: seq<Task>): set<string>
  {
    set t | t in tasks :: t.name
  }

  /** Each table is mapped to its first writer. */
  ghost predicate MapsToWriters(m: map<string, string>, tasks: seq<Task>)
  {
    && (forall table :: table in m <==> Producer(tasks, table).Some?)
    && (forall table :: table in m ==> m[table] == Producer(tasks, table).value.name)
  }

  lemma NoWriters()
    ensures MapsToWriters(map[], [])
  {
  }

  lemma OneMoreWriter(m: map<string, string>, n: map<string, string>, tasks: seq<Task>, t: Task)
    requires MapsToWriters(m, tasks)
    requires forall table :: table in n <==> table in m || table in t.outputs
    requires forall table :: table in n ==> n[table] == if table in m then m[table] else t.name
    ensures MapsToWriters(n, tasks + [t])
  {
    forall table
      ensures Producer(tasks + [t], table)
           == if table in m then Producer(tasks, table) else if table in t.outputs then Some(t) else None
    {
      ProducerSnoc(tasks, t, table);
    }
    hide Producer;
  }

  lemma AllNameSuppliers(tasks: seq<Task>)
    ensures forall t :: t in tasks ==> NamesSuppliers(tasks, t, UpstreamOf(tasks, t))
  {
    forall t | t in tasks
      ensures NamesSuppliers(tasks, t, UpstreamOf(tasks, t))
    {
      UpstreamNamesSuppliers(tasks, t);
    }
  }

  class Graph {
    var tasks: seq<Task>
    var tableProducers: map<string, string>
    var upstream: map<string, set<string>>
    var eventUpstream: map<string, set<string>>

    ghost predicate Built()
      reads this
    {
      && Registry(tasks)
      && (forall t :: t in tasks && t.isPath ==> t.name in upstream && upstream[t.name] == UpstreamOf(tasks, t))
    }

    constructor (tasks: seq<Task>)
      requires Registry(tasks)
      ensures Built() && this.tasks == tasks
    {
      this.tasks := tasks;
      tableProducers, upstream, eventUpstream := map[], map[], map[];
      new;
      BuildGraph();
    }

    method BuildGraph()
      requires Registry(tasks)
      modifies this
      ensures Built() && tasks == old(tasks)
      ensures forall t :: t in tasks && t.isPath ==>
                t.name in upstream && NamesSuppliers(tasks, t, upstream[t.name])
      ensures forall t :: t in tasks && !t.isPath ==>
                t.name in eventUpstream && NamesSuppliers(tasks, t, eventUpstream[t.name])
    {
      MapProducers();
      upstream, eventUpstream := map[], map[];
      hide Producer, UpstreamOf, MapsToWriters, NamesSuppliers;
      for i := 0 to |tasks|
        invariant tasks == old(tasks) && Mapped()
        invariant forall m :: 0 <= m < i && tasks[m].isPath ==>
                    tasks[m].name in upstream && upstream[tasks[m].name] == UpstreamOf(tasks, tasks[m])
        invariant forall m :: 0 <= m < i && !tasks[m].isPath ==>
                    tasks[m].name in eventUpstream && eventUpstream[tasks[m].name] == UpstreamOf(tasks, tasks[m])
      {
        var task := tasks[i];
        var deps := SameKindDeps(task);
        if task.isPath {
          upstream := upstream[task.name := deps];
        } else {
          eventUpstream := eventUpstream[task.name := deps];
        }
      }
      AllNameSuppliers(tasks);
    }

    ghost predicate Mapped()
      reads this
    {
      MapsToWriters(tableProducers, tasks)
    }

    method MapProducers()
      modifies this`tableProducers
      ensures Mapped()
    {
      hide MapsToWriters, Producer;
      tableProducers := map[];
      NoWriters();
      for i := 0 to |tasks|
        invariant MapsToWriters(tableProducers, tasks[..i])
      {
        ghost var before := tableProducers;
        AddWriter(tasks[i]);
        assert tasks[..i + 1] == tasks[..i] + [tasks[i]];
        OneMoreWriter(before, tableProducers, tasks[..i], tasks[i]);
      }
      assert tasks[..|tasks|] == tasks;
    }

    method AddWriter(task: Task)
      modifies this`tableProducers
      ensures forall table :: table in tableProducers <==> table in old(tableProducers) || table in task.outputs
      ensures forall table :: table in tableProducers ==>
                tableProducers[table] == if table in old(tableProducers) then old(tableProducers)[table] else task.name
    {
      for j := 0 to |task.outputs|
        invariant forall table :: table in tableProducers <==>
                  table in old(tableProducers) || table in task.outputs[..j]
        invariant forall table :: table in tableProducers ==>
                    tableProducers[table] == if table in old(tableProducers) then old(tableProducers)[table]
                      else task.name
      {
        var table := task.outputs[j];
        assert task.outputs[..j + 1] == task.outputs[..j] + [table];
        if table !in tableProducers {
          tableProducers := tableProducers[table := task.name];
        }
      }
      assert task.outputs[..|task.outputs|] == task.outputs;
    }

    method SameKindDeps(task: Task) returns (deps: set<string>)
      requires Registry(tasks) && Mapped()
      ensures deps == UpstreamOf(tasks, task) && NamesSuppliers(tasks, task, deps)
    {
      hide Producer, NamesSuppliers;
      deps := {};
      for j := 0 to |task.inputs|
        invariant deps == UpstreamOf(tasks, task.(inputs := task.inputs[..j]))
      {
        var table := task.inputs[j];
        assert task.inputs[..j + 1] == task.inputs[..j] + [table];
        if table in tableProducers {
          GetByName(tasks, Producer(tasks, table).value);
          var producer := Get(tasks, tableProducers[table]);
          if producer.Some? && producer.value.isPath == task.isPath {
            deps := deps + {tableProducers[table]};
          }
        }
      }
      assert task.inputs[..|task.inputs|] == task.inputs;
      UpstreamNamesSuppliers(tasks, task);
    }

    /** Add what `current` feeds and the list does not hold yet. */
    method Expand(current: Task, downstream: seq<string>, frontier: seq<string>)
      returns (more: seq<string>, later: seq<string>)
      requires current in tasks
      requires forall i, j :: 0 <= i < j < |downstream| ==> downstream[i] != downstream[j]
      ensures downstream <= more && later == frontier + more[|downstream|..]
      ensures forall i, j :: 0 <= i < j < |more| ==> more[i] != more[j]
      ensures forall d :: d in more[|downstream|..] ==> Feeds(tasks, current.name, d)
      ensures forall t :: t in tasks && t.isPath && Reads(t, current) ==> t.name in more
    {
      more, later := downstream, frontier;
      for i := 0 to |current.outputs|
        invariant downstream <= more && later == frontier + more[|downstream|..]
        invariant forall i, j :: 0 <= i < j < |more| ==> more[i] != more[j]
        invariant forall d :: d in more[|downstream|..] ==> Feeds(tasks, current.name, d)
        invariant forall t, n :: t in tasks && t.isPath && 0 <= n < i && current.outputs[n] in t.inputs ==>
                  t.name in more
      {
        var table := current.outputs[i];
        for j := 0 to |tasks|
          invariant downstream <= more && later == frontier + more[|downstream|..]
          invariant forall i, j :: 0 <= i < j < |more| ==> more[i] != more[j]
          invariant forall d :: d in more[|downstream|..] ==> Feeds(tasks, current.name, d)
          invariant forall t, n :: t in tasks && t.isPath && 0 <= n < i && current.outputs[n] in t.inputs ==>
                    t.name in more
          invariant forall m :: 0 <= m < j && tasks[m].isPath && table in tasks[m].inputs ==> tasks[m].name in more
        {
          var task := tasks[j];
          if !task.isPath {
            continue;
          }
          if table in task.inputs && task.name !in more {
            assert table in current.outputs && Reads(task, current);
            assert (more + [task.name])[|downstream|..] == more[|downstream|..] + [task.name];
            more, later := more + [task.name], later + [task.name];
          }
        }
      }
    }

    /** Exactly the path tasks reachable from `name` by one edge or more, each
        once, on cyclic graphs too. */
    method GetAllDownstream(name: string) returns (downstream: seq<string>)
      requires Registry(tasks)
      ensures forall i, j :: 0 <= i < j < |downstream| ==> downstream[i] != downstream[j]
      ensures Get(tasks, name).Some? && !Get(tasks, name).value.isPath ==> downstream == []
      ensures Get(tasks, name).None? || Get(tasks, name).value.isPath ==>
                forall d :: d in downstream <==> IsDownstream(tasks, name, d)
    {
      var root := Get(tasks, name);
      downstream := [];
      if root.Some? && !root.value.isPath {
        return;
      }
      var frontier := [name];
      ghost var edge := Feeding(tasks);
      Paths.ReachesSelf(edge, name);
      while frontier != []
        invariant forall i, j :: 0 <= i < j < |downstream| ==> downstream[i] != downstream[j]
        invariant forall d :: d in downstream ==> IsDownstream(tasks, name, d) && d in Names(tasks)
        invariant forall x :: x in frontier ==> x == name || x in downstream
        invariant forall x, y :: (x == name || x in downstream) && x !in frontier && Feeds(tasks, x, y) ==>
                  y in downstream
        decreases Names(tasks) - (set d | d in downstream), |frontier|
      {
        var current := frontier[|frontier| - 1];
        ghost var stack := frontier;
        frontier := frontier[..|frontier| - 1];
        assert stack == frontier + [current];
        var found := Get(tasks, current);
        if found.None? {
          continue;
        }
        var before := downstream;
        downstream, frontier := Expand(found.value, downstream, frontier);
        assert downstream == before + downstream[|before|..];
        forall d | d in downstream[|before|..]
          ensures IsDownstream(tasks, name, d) && d in Names(tasks)
        {
          assert Paths.Reaches(edge, name, current);
          Paths.ReachesEdge(edge, name, current, d);
        }
        forall x, y | (x == name || x in downstream) && x !in frontier && Feeds(tasks, x, y)
          ensures y in downstream
        {
          if x == current {
            var s, t :| s in tasks && t in tasks && s.name == x && t.name == y && t.isPath && Reads(t, s);
            GetByName(tasks, s);
          }
        }
        if |downstream| > |before| {
          var d := downstream[|before|];
          assert d in downstream[|before|..] && d in downstream && d !in before;
          assert d in Names(tasks) - (set x | x in before) && d !in Names(tasks) - (set x | x in downstream);
          assert Names(tasks) - (set x | x in downstream) <= Names(tasks) - (set x | x in before);
        } else {
          assert downstream == before && frontier == stack[..|stack| - 1];
        }
      }
      forall d | IsDownstream(tasks, name, d)
        ensures d in downstream
      {
        AllReachedAreListed(tasks, name, downstream, d);
      }
    }
  }

  lemma AllReachedAreListed(tasks: seq<Task>, name: string, downstream: seq<string>, d: string)
    requires IsDownstream(tasks, name, d)
    requires forall x, y :: (x == name || x in downstream) && Feeds(tasks, x, y) ==> y in downstream
    ensures d in downstream
  {
    var edge := Feeding(tasks);
    var p :| Paths.Walk(edge, p, name, d) && |p| >= 2;
    var s := set x | x in downstream;
    assert edge(p[0], p[1]);
    assert Paths.IsWalk(edge, p[1..]) by {
      forall i | 0 <= i < |p[1..]| - 1
        ensures edge(p[1..][i], p[1..][i + 1])
      {
        assert edge(p[i + 1], p[i + 1 + 1]);
      }
    }
    Paths.ClosedHoldsReached(edge, s, p[1..]);
  }
}
