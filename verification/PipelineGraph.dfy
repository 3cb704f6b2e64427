/** The dependency graph the orchestrator derives from what tasks read and write. */
module PipelineGraph {
  import opened Basics
  import Paths

  datatype Task = Task(
    name: string, isPath: bool, modalities: seq<string>,
    inputs: seq<string>, outputs: seq<string>, requireAll: bool,
    batchSize: nat, slots: nat)

  /** Tasks are kept by name, in registration order. */
  ghost predicate Registry(tasks: seq<Task>)
  {
    forall i, j :: 0 <= i < j < |tasks| ==> tasks[i].name != tasks[j].name
  }

  function Get(tasks: seq<Task>, name: string): (r: Option<Task>)
    ensures r.Some? ==> r.value in tasks && r.value.name == name
    ensures r.None? ==> forall i :: 0 <= i < |tasks| ==> tasks[i].name != name
  {
    if tasks == [] then None
    else if tasks[0].name == name then Some(tasks[0])
    else
      var r := Get(tasks[1..], name);
      assert forall i :: 0 < i < |tasks| ==> tasks[i] == tasks[1..][i - 1];
      r
  }

  lemma GetByName(tasks: seq<Task>, t: Task)
    requires Registry(tasks) && t in tasks
    ensures Get(tasks, t.name) == Some(t)
  {
    var u := Get(tasks, t.name).value;
    var i :| 0 <= i < |tasks| && tasks[i] == t;
    var j :| 0 <= j < |tasks| && tasks[j] == u;
  }

  /** The first task registered that writes the table. */
  function Producer(tasks: seq<Task>, table: string): (r: Option<Task>)
    ensures r.Some? ==> r.value in tasks && table in r.value.outputs
    ensures r.None? ==> forall i :: 0 <= i < |tasks| ==> table !in tasks[i].outputs
  {
    if tasks == [] then None
    else if table in tasks[0].outputs then Some(tasks[0])
    else
      var r := Producer(tasks[1..], table);
      assert forall i :: 0 < i < |tasks| ==> tasks[i] == tasks[1..][i - 1];
      r
  }

  lemma {:induction false} ProducerSnoc(tasks: seq<Task>, t: Task, table: string)
    ensures Producer(tasks + [t], table)
         == if Producer(tasks, table).Some? then Producer(tasks, table)
            else if table in t.outputs then Some(t) else None
  {
    if tasks == [] {
      assert (tasks + [t])[1..] == [];
    } else {
      assert (tasks + [t])[1..] == tasks[1..] + [t];
      ProducerSnoc(tasks[1..], t, table);
    }
  }

  /** The producers of what a task reads, of the task's own kind. */
  function UpstreamOf(tasks: seq<Task>, t: Task): set<string>
  {
    set table | table in t.inputs && Producer(tasks, table).Some? && Producer(tasks, table).value.isPath == t.isPath
      :: Producer(tasks, table).value.name
  }

  /** Task `i` writes the table, and none registered before it does. */
  ghost predicate FirstWriter(tasks: seq<Task>, i: int, table: string)
  {
    0 <= i < |tasks| && table in tasks[i].outputs && forall j :: 0 <= j < i ==> table !in tasks[j].outputs
  }

  /** Task `i` is the first writer of a table that `t` reads, and of its kind. */
  ghost predicate Supplies(tasks: seq<Task>, i: int, t: Task)
  {
    && 0 <= i < |tasks| && tasks[i].isPath == t.isPath
    && exists j :: 0 <= j < |t.inputs| && FirstWriter(tasks, i, t.inputs[j])
  }

  lemma {:induction false} ProducerIsFirst(tasks: seq<Task>, i: int, table: string)
    requires FirstWriter(tasks, i, table)
    ensures Producer(tasks, table) == Some(tasks[i])
  {
    if i > 0 {
      assert table !in tasks[0].outputs;
      assert FirstWriter(tasks[1..], i - 1, table);
      ProducerIsFirst(tasks[1..], i - 1, table);
    }
  }

  lemma {:induction false} FirstIsProducer(tasks: seq<Task>, table: string) returns (i: int)
    requires Producer(tasks, table).Some?
    ensures FirstWriter(tasks, i, table) && Producer(tasks, table) == Some(tasks[i])
  {
    if table in tasks[0].outputs {
      i := 0;
    } else {
      var k := FirstIsProducer(tasks[1..], table);
      i := k + 1;
    }
  }

  /** A task waits for exactly the tasks, of its own kind, that are the first writers of
      the tables it reads, of each of them. */
  lemma UpstreamExactly(tasks: seq<Task>, t: Task, u: string)
    ensures u in UpstreamOf(tasks, t) <==> exists i :: Supplies(tasks, i, t) && tasks[i].name == u
  {
    if u in UpstreamOf(tasks, t) {
      var table :| table in t.inputs && Producer(tasks, table).Some?
                   && Producer(tasks, table).value.isPath == t.isPath
                   && Producer(tasks, table).value.name == u;
      var j :| 0 <= j < |t.inputs| && t.inputs[j] == table;
      var i := FirstIsProducer(tasks, table);
      assert FirstWriter(tasks, i, t.inputs[j]);
      assert Supplies(tasks, i, t);
    }
    if i :| Supplies(tasks, i, t) && tasks[i].name == u {
      var j :| 0 <= j < |t.inputs| && FirstWriter(tasks, i, t.inputs[j]);
      ProducerIsFirst(tasks, i, t.inputs[j]);
    }
  }

  /** These are the names of the first writers, of the task's kind, of what it reads. */
  ghost predicate NamesSuppliers(tasks: seq<Task>, t: Task, names: set<string>)
  {
    forall u :: u in names <==> exists i :: Supplies(tasks, i, t) && tasks[i].name == u
  }

  lemma UpstreamNamesSuppliers(tasks: seq<Task>, t: Task)
    ensures NamesSuppliers(tasks, t, UpstreamOf(tasks, t))
  {
    forall u
      ensures u in UpstreamOf(tasks, t) <==> exists i :: Supplies(tasks, i, t) && tasks[i].name == u
    {
      UpstreamExactly(tasks, t, u);
    }
  }

  ghost predicate Supplied(tasks: seq<Task>, t: Task)
  {
    exists i :: Supplies(tasks, i, t)
  }

  lemma SuppliedHasUpstream(tasks: seq<Task>, t: Task)
    ensures Supplied(tasks, t) <==> UpstreamOf(tasks, t) != {}
  {
    if i :| Supplies(tasks, i, t) { UpstreamExactly(tasks, t, tasks[i].name); }
    if u :| u in UpstreamOf(tasks, t) { UpstreamExactly(tasks, t, u); }
  }

  /** `b` reads a table that `a` writes. */
  predicate Reads(b: Task, a: Task)
  {
    exists table :: table in a.outputs && table in b.inputs
  }

  /** The edges work flows along: a path task reads what the first task writes. */
  ghost predicate Feeds(tasks: seq<Task>, a: string, b: string)
  {
    exists s, t :: s in tasks && t in tasks && s.name == a && t.name == b && t.isPath && Reads(t, s)
  }

  ghost function Feeding(tasks: seq<Task>): (string, string) -> bool
  {
    (a, b) => Feeds(tasks, a, b)
  }

  /** Every task that waits on `a` is fed by `a`. */
  lemma UpstreamFeeds(tasks: seq<Task>, a: string, t: Task)
    requires Registry(tasks) && t in tasks && t.isPath && a in UpstreamOf(tasks, t)
    ensures Feeds(tasks, a, t.name)
    ensures Get(tasks, a).Some? && Get(tasks, a).value.isPath && Reads(t, Get(tasks, a).value)
  {
    var table :| table in t.inputs && Producer(tasks, table).Some?
                 && Producer(tasks, table).value.isPath == t.isPath
                 && Producer(tasks, table).value.name == a;
    GetByName(tasks, Producer(tasks, table).value);
  }

  /** All the path tasks work of `name` flows to, by one edge or more. */
  ghost predicate IsDownstream(tasks: seq<Task>, name: string, d: string)
  {
    Paths.ReachesBeyond(Feeding(tasks), name, d)
  }

  /** Nothing is downstream of tasks whose tables nobody reads. */
  lemma UnreadFeedsNothing(tasks: seq<Task>, name: string, d: string)
    requires forall s, t, table :: s in tasks && t in tasks && t.isPath && s.name == name && table in s.outputs ==>
                                     table !in t.inputs
    ensures !IsDownstream(tasks, name, d)
  {
    var edge := Feeding(tasks);
    assert forall b :: !edge(name, b);
    forall p | |p| >= 2
      ensures !Paths.Walk(edge, p, name, d)
    {
      assert !edge(name, p[1]);
    }
  }

  lemma FedIsDownstream(tasks: seq<Task>, a: string, b: string)
    requires Feeds(tasks, a, b)
    ensures IsDownstream(tasks, a, b)
  {
    Paths.ReachesSelf(Feeding(tasks), a);
    Paths.ReachesEdge(Feeding(tasks), a, a, b);
  }
}
