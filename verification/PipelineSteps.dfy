/** What the steps of the pipeline mean for single rows. */
module PipelineSteps {
  import opened Basics
  import opened PipelineGraph
  import opened TaskQueue
  import opened Freshness
  import opened Orchestrator
  import opened Pipeline

  lemma {:induction false} DistinctCount(paths: seq<string>)
    requires DistinctPaths(paths)
    ensures |set p | p in paths| == |paths|
  {
    if paths != [] {
      var n := |paths| - 1;
      DistinctCount(paths[..n]);
      assert (set p | p in paths) == (set p | p in paths[..n]) + {paths[n]};
    }
  }

  lemma {:induction false} SiftIsShorter(tasks: seq<Task>, q: Rows, task: Task, paths: seq<string>, want: bool)
    ensures |Sift(tasks, q, task, paths, want)| <= |paths|
  {
    hide DepsMet;
    if paths != [] { SiftIsShorter(tasks, q, task, paths[..|paths| - 1], want); }
  }

  /** The gates of a claim: a paused task, missing services or no free slot, and nothing
      happens. */
  lemma ClosedGatesStartNothing(tasks: seq<Task>, a: Shot, task: Task, servicesReady: bool, id: nat, b: Shot,
                                claimed: seq<string>)
    requires Dispatched(tasks, a, task, servicesReady, id, b, claimed)
    requires task.name in a.paused || !servicesReady || task.name !in a.free || a.free[task.name] == 0
    ensures b == a
  {
    assert claimed == [];
    NothingSifted(tasks, ClaimRows(a.rows, task.name, [], a.clock), task);
    assert ClaimRows(a.rows, task.name, [], a.clock) == a.rows && UnclaimRows(a.rows, task.name, []) == a.rows;
  }

  /** With the gates open the best pending rows are claimed, as many as a batch takes;
      those whose inputs are there start as one batch, the others go back. */
  lemma OpenGatesStartReady(tasks: seq<Task>, a: Shot, task: Task, id: nat, b: Shot, claimed: seq<string>)
    requires Dispatched(tasks, a, task, true, id, b, claimed)
    requires task.name !in a.paused && task.name in a.free && a.free[task.name] > 0
    ensures BestPending(a.rows, task.name, task.batchSize, set p | p in claimed)
    ensures (exists p :: p in claimed && InputsThere(tasks, a.rows, p, task)) ==>
              && id in b.batches && b.free == a.free[task.name := a.free[task.name] - 1]
              && forall p :: p in b.batches[id].paths <==> p in claimed && InputsThere(tasks, a.rows, p, task)
  {
    var taken := ClaimRows(a.rows, task.name, claimed, a.clock);
    SiftedExactly(tasks, taken, task, claimed, true);
    hide DepsMet, InputsThere, Sift, BestPending;
    forall p | p in claimed
      ensures DepsMet(tasks, taken, p, task) <==> InputsThere(tasks, a.rows, p, task)
    {
      DepsMetExactly(tasks, a.rows, p, task);
      ClaimedDepsExactly(tasks, a.rows, task, claimed, a.clock, p);
    }
  }

  lemma ClaimedDepsExactly(tasks: seq<Task>, q: Rows, task: Task, claimed: seq<string>, now: nat, path: string)
    requires BestPending(q, task.name, task.batchSize, set p | p in claimed)
    ensures DepsMet(tasks, ClaimRows(q, task.name, claimed, now), path, task) <==> DepsMet(tasks, q, path, task)
  {
    var taken := ClaimRows(q, task.name, claimed, now);
    var s := set p | p in claimed;
    assert forall p :: p in claimed ==> p in s;
    assert forall u :: Done(taken, path, u) <==> Done(q, path, u);
  }

  lemma {:induction false} SiftedExactly(tasks: seq<Task>, q: Rows, task: Task, paths: seq<string>, want: bool)
    ensures forall p :: p in Sift(tasks, q, task, paths, want) <==> p in paths && DepsMet(tasks, q, p, task) == want
  {
    hide DepsMet;
    if paths != [] {
      var n := |paths| - 1;
      SiftedExactly(tasks, q, task, paths[..n], want);
      assert paths == paths[..n] + [paths[n]];
    }
  }

  /** A batch of a task that was paused before its first result goes back to the queue and
      frees its slot; a batch that has begun, or is of a task not paused, stays. */
  lemma PausedBatchReturns(tasks: seq<Task>, a: Shot, id: nat, b: Shot)
    requires Stepped(tasks, a, Step.Return(id), b)
    ensures id in a.batches && a.batches[id].next == 0 && a.batches[id].task.name in a.paused ==>
              var name := a.batches[id].task.name;
              && b.batches == a.batches - {id}
              && name in a.free && name in b.free && b.free[name] == a.free[name] + 1
              && b.rows.Keys == a.rows.Keys
              && forall k :: k in a.rows ==>
                   if k.1 == name && k.0 in a.batches[id].paths then b.rows[k].status == Pending
                   else b.rows[k] == a.rows[k]
    ensures id !in a.batches || a.batches[id].next > 0 || a.batches[id].task.name !in a.paused ==> b == a
  {
  }

  /** A batch that starts: its task may run; its paths are at most as many as a batch
      takes, were pending, and have their inputs; they run from now, and a slot is taken. */
  lemma BatchStarts(tasks: seq<Task>, a: Shot, task: Task, servicesReady: bool, id: nat, b: Shot,
                    claimed: seq<string>)
    requires Dispatched(tasks, a, task, servicesReady, id, b, claimed) && id !in a.batches && id in b.batches
    ensures task.name !in a.paused && servicesReady
    ensures b.batches == a.batches[id := Batch(task, b.batches[id].paths, 0, [])]
    ensures task.name in a.free && a.free[task.name] > 0 && b.free == a.free[task.name := a.free[task.name] - 1]
    ensures 0 < |b.batches[id].paths| <= task.batchSize
    ensures forall p :: p in b.batches[id].paths ==>
              && (p, task.name) in a.rows && a.rows[(p, task.name)].status == Pending
              && InputsThere(tasks, a.rows, p, task)
              && (p, task.name) in b.rows && b.rows[(p, task.name)].status == Processing
              && b.rows[(p, task.name)].started == Some(a.clock)
  {
    var taken := ClaimRows(a.rows, task.name, claimed, a.clock);
    var ready := Sift(tasks, taken, task, claimed, true);
    NothingSifted(tasks, taken, task);
    DistinctCount(claimed);
    SiftIsShorter(tasks, taken, task, claimed, true);
    hide DepsMet, InputsThere, Sift;
    forall p | p in ready
      ensures (p, task.name) in a.rows && a.rows[(p, task.name)].status == Pending
      ensures InputsThere(tasks, a.rows, p, task)
    {
      assert p in set q | q in claimed;
      ClaimedDeps(tasks, a.rows, task, claimed, a.clock, p);
      DepsMetExactly(tasks, a.rows, p, task);
    }
  }

  lemma ClaimedDeps(tasks: seq<Task>, q: Rows, task: Task, claimed: seq<string>, now: nat, path: string)
    requires DepsMet(tasks, ClaimRows(q, task.name, claimed, now), path, task)
    ensures DepsMet(tasks, q, path, task)
  {
    DepMetShrinks(q, ClaimRows(q, task.name, claimed, now), path, UpstreamOf(tasks, task), task.requireAll);
  }

  /** Every task that reads what this one is the first to write, and whose inputs are
      there, is queued or runs. */
  ghost predicate Informed(tasks: seq<Task>, q: Rows, path: string, name: string)
  {
    forall b, i :: b in tasks && b.isPath && Supplies(tasks, i, b) && tasks[i].name == name ==>
                     (InputsThere(tasks, q, path, b) ==> Open(q, path, b.name))
  }

  /** A result that failed, or whose rows could not be written, fails the row and touches
      no other. A success whose inputs have gone puts it back. Otherwise the row is
      finished now, or queued again already, and whatever reads from it and has its
      inputs is queued. */
  lemma ResultIsRecorded(tasks: seq<Task>, q: Rows, r: Rows, path: string, t: Task, result: TaskResult, failed: bool,
                         now: nat)
    requires Registry(tasks) && t in tasks && t.isPath && (path, t.name) in q
    requires Recorded(tasks, q, r, path, t, result, failed, now)
    ensures failed <==> !result.success || !result.written
    ensures failed ==> SameBesides(q, r, t.name, {path})
                       && r[(path, t.name)] == q[(path, t.name)].(status := Failed, completed := Some(now))
    ensures !failed && !InputsThere(tasks, q, path, t) ==>
              SameBesides(q, r, t.name, {path}) && r[(path, t.name)].status == Pending
    ensures !failed && InputsThere(tasks, q, path, t) ==>
              && (path, t.name) in r
              && (r[(path, t.name)] == q[(path, t.name)].(status := Finished, completed := Some(now))
                  || r[(path, t.name)].status == Pending)
              && Informed(tasks, r, path, t.name)
  {
    DepsMetExactly(tasks, q, path, t);
    ClosedOne(q, path, t.name, Failed, now);
    QueuedOne(q, path, t.name, now);
    if !failed && InputsThere(tasks, q, path, t) {
      hide InputsThere, DepsMet, Notified, ContentTold, FilesQueued;
      var mid := Close(q, path, t.name, Finished, now);
      var told, also :| Spread(tasks, mid, told, also, r, path, t, result);
      SpreadIsTold(tasks, mid, told, also, r, path, t, result);
    }
  }

  lemma SpreadIsTold(tasks: seq<Task>, q: Rows, told: Rows, also: Rows, r: Rows, path: string, t: Task,
                     result: TaskResult)
    requires Registry(tasks) && t in tasks && t.isPath && Spread(tasks, q, told, also, r, path, t, result)
    ensures OnlyQueues(q, r) && Informed(tasks, r, path, t.name)
  {
    SpreadOnlyQueues(tasks, q, told, also, r, path, t, result);
    LaterOnlyQueues(tasks, told, also, r, path, result);
    hide InputsThere, DepsMet, ContentTold, FilesQueued;
    forall b, i | b in tasks && b.isPath && Supplies(tasks, i, b) && tasks[i].name == t.name
                  && InputsThere(tasks, r, path, b)
      ensures Open(r, path, b.name)
    {
      UpstreamExactly(tasks, b, t.name);
      UpstreamFeeds(tasks, t.name, b);
      GetByName(tasks, t);
      assert Told(tasks, told, path, b);
      ToldIsKept(tasks, told, r, path, b);
      DepsMetExactly(tasks, r, path, b);
    }
  }

  lemma LaterOnlyQueues(tasks: seq<Task>, told: Rows, also: Rows, r: Rows, path: string, result: TaskResult)
    requires ContentTold(tasks, told, also, path, result.alsoContains)
    requires FilesQueued(tasks, also, r, result.discovered)
    ensures OnlyQueues(told, r)
  {
    OnlyQueuesTransitive(told, also, r);
  }

  /** When a batch ends, every row below its failures is pending, no other row changes,
      and its slot is free again. */
  lemma FailuresResetBelow(tasks: seq<Task>, a: Shot, id: nat, b: Shot, below: seq<string>)
    requires id in a.batches && Ended(tasks, a, id, b, below)
    ensures var batch := a.batches[id];
            && b.rows.Keys == a.rows.Keys && b.batches == a.batches - {id}
            && batch.task.name in a.free && batch.task.name in b.free
            && b.free[batch.task.name] == a.free[batch.task.name] + 1
            && forall k :: k in a.rows ==>
                 if k.0 in batch.failed && IsDownstream(tasks, batch.task.name, k.1) then b.rows[k].status == Pending
                 else b.rows[k] == a.rows[k]
  {
    InvalidatedAll(a.rows, below, a.batches[id].failed);
    hide IsDownstream, ResetRows;
  }
}
