/** The running pipeline: file discovery, concurrent batches and resets, one
    path's result at a time, in any order. A result, from checking its inputs again
    to telling its readers, is one step; so is a claim with what it gives back. */
module Pipeline {
  import opened Basics
  import Paths
  import opened PipelineGraph
  import opened TaskQueue
  import opened Freshness
  import opened Orchestrator

  lemma DepsMetShrinks(tasks: seq<Task>, q: Rows, r: Rows, path: string, t: Task)
    requires OnlyQueues(q, r) && DepsMet(tasks, r, path, t)
    ensures DepsMet(tasks, q, path, t)
  {
    DepMetShrinks(q, r, path, UpstreamOf(tasks, t), t.requireAll);
  }

  /** The task is queued on the path, or its inputs are not there. */
  ghost predicate Told(tasks: seq<Task>, q: Rows, path: string, t: Task)
  {
    Queued(q, path, t.name) || !DepsMet(tasks, q, path, t)
  }

  lemma ToldIsKept(tasks: seq<Task>, q: Rows, r: Rows, path: string, t: Task)
    requires OnlyQueues(q, r) && Told(tasks, q, path, t)
    ensures Told(tasks, r, path, t)
  {
    if DepsMet(tasks, r, path, t) { DepsMetShrinks(tasks, q, r, path, t); }
  }

  lemma ReadsBy(b: Task, a: Task, table: string)
    requires table in a.outputs && table in b.inputs
    ensures Reads(b, a)
  {
  }

  /** What completing `a` does to the queue: every path task that reads from it
      is queued again unless it still waits for something, and nothing else
      changes. */
  ghost predicate Notified(tasks: seq<Task>, q: Rows, r: Rows, path: string, a: Task)
  {
    && OnlyQueues(q, r)
    && (forall b :: b in tasks && b.isPath && Reads(b, a) ==> Told(tasks, r, path, b))
    && (forall k :: Changed(q, r, k) ==> k.0 == path && Reader(tasks, q, path, a, k.1))
  }

  ghost predicate Reader(tasks: seq<Task>, q: Rows, path: string, a: Task, name: string)
  {
    exists b :: b in tasks && b.isPath && Reads(b, a) && b.name == name && DepsMet(tasks, q, path, b)
  }

  lemma ReaderIs(tasks: seq<Task>, q: Rows, path: string, a: Task, b: Task)
    requires b in tasks && b.isPath && Reads(b, a) && DepsMet(tasks, q, path, b)
    ensures Reader(tasks, q, path, a, b.name)
  {
  }

  /** What a discovered file does: every root task for its kind is under way
      unless its inputs are missing, below each row this opened no row is left
      closed, and nothing changes but idle roots and what lies below them. */
  ghost predicate Discovered(tasks: seq<Task>, q: Rows, r: Rows, path: string, modality: string)
  {
    && OnlyQueues(q, r)
    && (forall t :: t in tasks && t.isPath && modality in t.modalities ==> Started(tasks, r, path, t))
    && (forall k :: Changed(q, r, k) ==> k.0 == path && Roused(tasks, q, path, modality, k.1))
    && OpenedBelow(tasks, q, r, path)
  }

  ghost predicate Roused(tasks: seq<Task>, q: Rows, path: string, modality: string, name: string)
  {
    exists t :: t in tasks && t.isPath && modality in t.modalities && RousedBy(tasks, q, path, t, name)
  }

  ghost predicate RousedBy(tasks: seq<Task>, q: Rows, path: string, t: Task, name: string)
  {
    !Started(tasks, q, path, t) && (name == t.name || IsDownstream(tasks, t.name, name))
  }

  ghost predicate Started(tasks: seq<Task>, q: Rows, path: string, t: Task)
  {
    Open(q, path, t.name) || !DepsMet(tasks, q, path, t)
  }

  ghost predicate OpenedBelow(tasks: seq<Task>, q: Rows, r: Rows, path: string)
  {
    forall n, d :: Open(r, path, n) && !Open(q, path, n) && IsDownstream(tasks, n, d) && (path, d) in r
                   ==> Open(r, path, d)
  }

  lemma OpenedBelowReset(tasks: seq<Task>, q: Rows, mid: Rows, r: Rows, path: string, t: Task, now: nat,
                         below: seq<string>)
    requires OpenedBelow(tasks, q, mid, path) && OnlyQueues(q, mid)
    requires RestartedAs(tasks, mid, r, path, t, now, below)
    ensures OpenedBelow(tasks, q, r, path)
  {
    forall n, d | Open(r, path, n) && !Open(q, path, n) && IsDownstream(tasks, n, d) && (path, d) in r
      ensures Open(r, path, d)
    {
      if Open(mid, path, n) {
        assert (path, d) in mid ==> Open(mid, path, d);
      } else if n != t.name {
        assert n in below;
        assert Paths.ReachesBeyond(Feeding(tasks), t.name, n) && Paths.ReachesBeyond(Feeding(tasks), n, d);
        Paths.ReachesTransitive(Feeding(tasks), t.name, n, d);
        assert d in below;
      }
    }
  }

  lemma NothingOpened(tasks: seq<Task>, q: Rows, path: string)
    ensures OpenedBelow(tasks, q, q, path)
  {
  }

  /** One root task's turn in the discovery of a file: nothing if it is under
      way or has to wait, else it is queued again and all below it reset. */
  ghost predicate Restarted(tasks: seq<Task>, q: Rows, r: Rows, path: string, t: Task, now: nat)
  {
    if Started(tasks, q, path, t) then r == q
    else exists below :: RestartedAs(tasks, q, r, path, t, now, below)
  }

  ghost predicate RestartedAs(tasks: seq<Task>, q: Rows, r: Rows, path: string, t: Task, now: nat, below: seq<string>)
  {
    && (forall d :: d in below <==> IsDownstream(tasks, t.name, d))
    && r == ResetRows(Requeued(q, path, t.name, now), below, [path])
  }

  lemma RestartOnlyQueues(tasks: seq<Task>, q: Rows, r: Rows, path: string, t: Task, now: nat)
    requires Restarted(tasks, q, r, path, t, now)
    ensures OnlyQueues(q, r) && Started(tasks, r, path, t)
    ensures forall k :: Changed(q, r, k) ==> k.0 == path && RousedBy(tasks, q, path, t, k.1)
  {
    hide DepsMet, IsDownstream;
  }

  lemma StartedIsKept(tasks: seq<Task>, q: Rows, r: Rows, path: string)
    requires OnlyQueues(q, r)
    ensures forall u :: Started(tasks, q, path, u) ==> Started(tasks, r, path, u)
  {
    hide DepsMet;
    forall u | Started(tasks, q, path, u)
      ensures Started(tasks, r, path, u)
    {
      if DepsMet(tasks, r, path, u) { DepsMetShrinks(tasks, q, r, path, u); }
    }
  }

  lemma StepOfDiscovery(tasks: seq<Task>, q: Rows, mid: Rows, r: Rows, path: string, t: Task, now: nat)
    requires OnlyQueues(q, mid) && OpenedBelow(tasks, q, mid, path) && Restarted(tasks, mid, r, path, t, now)
    ensures OnlyQueues(q, r) && OpenedBelow(tasks, q, r, path)
    ensures Started(tasks, r, path, t)
    ensures forall u :: Started(tasks, mid, path, u) ==> Started(tasks, r, path, u)
    ensures forall k :: Changed(mid, r, k) ==> k.0 == path && RousedBy(tasks, q, path, t, k.1)
  {
    hide Started, IsDownstream, Changed;
    RestartOnlyQueues(tasks, mid, r, path, t, now);
    if !Started(tasks, mid, path, t) {
      var below :| RestartedAs(tasks, mid, r, path, t, now, below);
      OpenedBelowReset(tasks, q, mid, r, path, t, now, below);
    }
    hide OpenedBelow, Restarted;
    OnlyQueuesTransitive(q, mid, r);
    StartedIsKept(tasks, mid, r, path);
    StartedIsKept(tasks, q, mid, path);
  }

  lemma UnclaimingNone(q: Rows, name: string)
    ensures UnclaimRows(q, name, []) == q
  {
  }

  lemma NoInputsNoWait(tasks: seq<Task>, q: Rows, path: string, t: Task)
    requires t.inputs == []
    ensures DepsMet(tasks, q, path, t)
  {
    assert UpstreamOf(tasks, t) == {};
  }

  lemma NotifiedTellsReaders(tasks: seq<Task>, q: Rows, r: Rows, path: string, a: Task)
    requires Registry(tasks) && a in tasks && a.isPath && Notified(tasks, q, r, path, a)
    ensures OnlyOpens(q, r) && OnlyQueues(q, r) && ReadersTold(tasks, r, path, a.name)
  {
    hide DepsMet;
    GetByName(tasks, a);
    forall b | b in tasks && b.isPath && a.name in UpstreamOf(tasks, b) && DepsMet(tasks, r, path, b)
      ensures Open(r, path, b.name)
    {
      UpstreamFeeds(tasks, a.name, b);
      assert Told(tasks, r, path, b);
    }
  }

  /** What the other kinds of content in a file do: each task for one of them is
      queued again unless it has to wait. */
  ghost predicate ContentTold(tasks: seq<Task>, q: Rows, r: Rows, path: string, modalities: seq<string>)
  {
    && OnlyQueues(q, r)
    && (forall t, m :: t in tasks && t.isPath && m in modalities && m in t.modalities ==> Told(tasks, r, path, t))
    && (forall k :: Changed(q, r, k) ==> k.0 == path && TakesOneOf(tasks, modalities, k.1))
  }

  ghost predicate TakesOneOf(tasks: seq<Task>, modalities: seq<string>, name: string)
  {
    exists t, m :: t in tasks && t.isPath && m in modalities && m in t.modalities && t.name == name
  }

  /** What newly found files do: their root tasks get under way, and nothing
      but rows on their own paths is queued. */
  ghost predicate FilesQueued(tasks: seq<Task>, q: Rows, r: Rows, children: seq<(string, string)>)
  {
    && OnlyQueues(q, r)
    && (forall c, t :: c in children && t in tasks && t.isPath && c.1 in t.modalities ==> Started(tasks, r, c.0, t))
    && (forall k :: Changed(q, r, k) ==> exists c :: c in children && k.0 == c.0)
  }

  lemma TakesThis(tasks: seq<Task>, modalities: seq<string>, m: string, t: Task)
    requires t in tasks && t.isPath && m in modalities && m in t.modalities
    ensures TakesOneOf(tasks, modalities, t.name)
  {
  }

  /** What one result does to the queue. A failure, reported or met on writing
      the rows, closes the row and is remembered. A success is put back in the
      queue if an input has gone away meanwhile; otherwise it closes the row, and
      then its readers, its other contents and its new files are told. */
  ghost predicate Recorded(tasks: seq<Task>, q: Rows, r: Rows, path: string, t: Task, result: TaskResult,
                           failed: bool, now: nat)
  {
    && failed == Fails(result)
    && if failed then r == Close(q, path, t.name, Failed, now)
       else if !DepsMet(tasks, q, path, t) then r == Requeued(q, path, t.name, now)
       else exists told, also :: Spread(tasks, Close(q, path, t.name, Finished, now), told, also, r, path, t, result)
  }

  ghost predicate Spread(tasks: seq<Task>, q: Rows, told: Rows, also: Rows, r: Rows, path: string, t: Task,
                         result: TaskResult)
  {
    && Notified(tasks, q, told, path, t)
    && ContentTold(tasks, told, also, path, result.alsoContains)
    && FilesQueued(tasks, also, r, result.discovered)
  }

  /** Processing a result starts no work, and ends the work on its own row. */
  ghost predicate Handled(q: Rows, r: Rows, path: string, name: string)
  {
    forall k :: k in r && r[k].status == Processing ==>
                k != (path, name) && k in q && q[k].status == Processing
  }

  lemma RecordedIsHandled(tasks: seq<Task>, q: Rows, r: Rows, path: string, t: Task, result: TaskResult,
                          failed: bool, now: nat)
    requires Recorded(tasks, q, r, path, t, result, failed, now)
    ensures Handled(q, r, path, t.name)
  {
    hide DepsMet, Notified, ContentTold, FilesQueued;
    if !failed && DepsMet(tasks, q, path, t) {
      var mid := Close(q, path, t.name, Finished, now);
      var told, also :| Spread(tasks, mid, told, also, r, path, t, result);
      SpreadOnlyQueues(tasks, mid, told, also, r, path, t, result);
      hide Recorded;
    }
  }

  lemma SpreadOnlyQueues(tasks: seq<Task>, q: Rows, told: Rows, also: Rows, r: Rows, path: string, t: Task,
                         result: TaskResult)
    requires Spread(tasks, q, told, also, r, path, t, result)
    ensures OnlyQueues(q, r)
  {
    hide Told, Reader, TakesOneOf, Started, Changed;
    OnlyQueuesTransitive(q, told, also);
    OnlyQueuesTransitive(q, also, r);
  }

  function SlotsOf(t: Option<Task>): nat
  {
    match t
    case None => 0
    case Some(task) => task.slots
  }

  function FreeSlots(tasks: seq<Task>): map<string, nat>
  {
    map n | n in Names(tasks) :: SlotsOf(Get(tasks, n))
  }

  lemma FreeSlotsByName(tasks: seq<Task>)
    requires Registry(tasks)
    ensures forall t :: t in tasks ==> t.name in FreeSlots(tasks) && FreeSlots(tasks)[t.name] == t.slots
  {
    forall t | t in tasks
      ensures t.name in FreeSlots(tasks) && FreeSlots(tasks)[t.name] == t.slots
    {
      GetByName(tasks, t);
    }
  }

  // ---- The state of a run --------------------------------------------------

  ghost predicate BatchesOk(tasks: seq<Task>, batches: map<nat, Batch>)
  {
    forall id :: id in batches ==> BatchOk(tasks, batches[id])
  }

  ghost predicate BatchOk(tasks: seq<Task>, b: Batch)
  {
    b.task in tasks && b.task.isPath && |b.failed| <= b.next <= |b.paths|
  }

  /** Free slots and running batches add up to each task's limit. */
  ghost predicate SlotsOk(tasks: seq<Task>, free: map<string, nat>, batches: map<nat, Batch>)
  {
    forall t :: t in tasks && t.isPath ==> t.name in free && free[t.name] + |Running(batches, t.name)| == t.slots
  }

  /** A batch in flight has still to deal with this row. */
  ghost predicate InFlight(batches: map<nat, Batch>, id: nat, k: Key)
  {
    && id in batches && k.1 == batches[id].task.name
    && exists i :: batches[id].next <= i < |batches[id].paths| && batches[id].paths[i] == k.0
  }

  ghost predicate Held(batches: map<nat, Batch>, k: Key)
  {
    exists id :: InFlight(batches, id, k)
  }

  /** A row is marked as running only while a batch has still to deal with it. */
  ghost predicate Tracked(q: Rows, batches: map<nat, Batch>, abandoned: set<Key>)
  {
    forall k :: k in q && q[k].status == Processing ==> k in abandoned || Held(batches, k)
  }

  lemma StartingBatch(tasks: seq<Task>, free: map<string, nat>, batches: map<nat, Batch>, id: nat, b: Batch)
    requires BatchesOk(tasks, batches) && SlotsOk(tasks, free, batches)
    requires id !in batches && BatchOk(tasks, b) && b.failed == []
    requires b.task.name in free && free[b.task.name] > 0
    ensures BatchesOk(tasks, batches[id := b]) && Owed(batches[id := b]) == Owed(batches)
    ensures SlotsOk(tasks, free[b.task.name := free[b.task.name] - 1], batches[id := b])
  {
    hide InFlight;
    var more := batches[id := b];
    assert more - {id} == batches;
    assert Owed(more) == Owed(batches) by {
      OwedWithout(more, id);
    }
    RunningWithout(more, id);
    hide Running, Owed;
  }

  lemma RunningWithout(batches: map<nat, Batch>, id: nat)
    requires id in batches
    ensures forall name :: |Running(batches, name)|
                        == |Running(batches - {id}, name)| + if name == batches[id].task.name then 1 else 0
  {
    forall name
      ensures |Running(batches, name)|
           == |Running(batches - {id}, name)| + if name == batches[id].task.name then 1 else 0
    {
      assert Running(batches, name)
          == Running(batches - {id}, name) + if name == batches[id].task.name then {id} else {};
    }
  }

  /** A batch without failures owes nothing. */
  lemma OwedWithout(batches: map<nat, Batch>, id: nat)
    requires id in batches
    ensures Owed(batches) == Owed(batches - {id}) + set p | p in batches[id].failed :: (p, batches[id].task.name)
  {
    var less := batches - {id};
    forall k | k in Owed(batches)
      ensures k in Owed(less) || (k.1 == batches[id].task.name && k.0 in batches[id].failed)
    {
      var i, p :| i in batches && p in batches[i].failed && k == (p, batches[i].task.name);
      if i != id { assert i in less && less[i] == batches[i]; }
    }
    forall k | k in Owed(less)
      ensures k in Owed(batches)
    {
      var i, p :| i in less && p in less[i].failed && k == (p, less[i].task.name);
      assert i in batches && batches[i] == less[i];
    }
  }

  lemma HeldGrows(batches: map<nat, Batch>, id: nat, b: Batch, k: Key)
    requires id !in batches && Held(batches, k)
    ensures Held(batches[id := b], k)
  {
    var i :| InFlight(batches, i, k);
    assert InFlight(batches[id := b], i, k);
  }

  lemma HeldOnClaim(batches: map<nat, Batch>, id: nat, k: Key)
    requires id in batches && batches[id].next == 0 && k.1 == batches[id].task.name && k.0 in batches[id].paths
    ensures Held(batches, k)
  {
    var i :| 0 <= i < |batches[id].paths| && batches[id].paths[i] == k.0;
    assert InFlight(batches, id, k);
  }

  /** The row whose result a batch takes up next. */
  function Current(b: Batch): Key
    requires b.next < |b.paths|
  {
    (b.paths[b.next], b.task.name)
  }

  function Advance(b: Batch, failed: bool): Batch
    requires b.next < |b.paths|
  {
    b.(next := b.next + 1, failed := if failed then b.failed + [b.paths[b.next]] else b.failed)
  }

  lemma AdvancingBatch(tasks: seq<Task>, free: map<string, nat>, batches: map<nat, Batch>, id: nat, failed: bool)
    requires BatchesOk(tasks, batches) && SlotsOk(tasks, free, batches)
    requires id in batches && batches[id].next < |batches[id].paths|
    ensures BatchesOk(tasks, batches[id := Advance(batches[id], failed)])
    ensures SlotsOk(tasks, free, batches[id := Advance(batches[id], failed)])
    ensures Owed(batches[id := Advance(batches[id], failed)])
         == if failed then Owed(batches) + {Current(batches[id])} else Owed(batches)
  {
    var b, more := batches[id], batches[id := Advance(batches[id], failed)];
    forall name
      ensures Running(more, name) == Running(batches, name)
    {
    }
    hide Running;
    assert more - {id} == batches - {id};
    OwedWithout(more, id);
    OwedWithout(batches, id);
    if failed {
      assert forall p :: p in more[id].failed <==> p in b.failed || p == b.paths[b.next];
    }
  }

  lemma HeldUnlessCurrent(batches: map<nat, Batch>, id: nat, failed: bool, k: Key)
    requires id in batches && batches[id].next < |batches[id].paths|
    requires Held(batches, k) && k != Current(batches[id])
    ensures Held(batches[id := Advance(batches[id], failed)], k)
  {
    var i :| InFlight(batches, i, k);
    assert InFlight(batches[id := Advance(batches[id], failed)], i, k);
  }

  /** Rows of a batch whose results were never taken up. */
  ghost function Leftover(b: Batch): set<Key>
  {
    set i | b.next <= i < |b.paths| :: (b.paths[i], b.task.name)
  }

  lemma EndingBatch(tasks: seq<Task>, free: map<string, nat>, batches: map<nat, Batch>, id: nat)
    requires BatchesOk(tasks, batches) && SlotsOk(tasks, free, batches) && id in batches
    ensures batches[id].task.name in free && BatchOk(tasks, batches[id])
    ensures BatchesOk(tasks, batches - {id}) && Owed(batches - {id}) <= Owed(batches)
    ensures forall k :: k in Owed(batches) - Owed(batches - {id}) ==>
              k.1 == batches[id].task.name && k.0 in batches[id].failed
    ensures batches[id].failed == [] ==> Owed(batches - {id}) == Owed(batches)
    ensures SlotsOk(tasks, free[batches[id].task.name := free[batches[id].task.name] + 1], batches - {id})
  {
    hide InFlight;
    var b, less := batches[id], batches - {id};
    assert BatchOk(tasks, b);
    RunningWithout(batches, id);
    hide Running;
    OwedWithout(batches, id);
    hide Owed;
  }

  lemma HeldUnlessLeftOver(batches: map<nat, Batch>, id: nat, k: Key)
    requires id in batches && batches[id].next <= |batches[id].paths| && Held(batches, k)
    ensures k in Leftover(batches[id]) || Held(batches - {id}, k)
  {
    var i :| InFlight(batches, i, k);
    if i != id { assert InFlight(batches - {id}, i, k); }
  }

  /** The claimed paths whose inputs are there, or are not, in order. */
  function Sift(tasks: seq<Task>, q: Rows, task: Task, paths: seq<string>, want: bool): (r: seq<string>)
    ensures forall p :: p in r <==> p in paths && DepsMet(tasks, q, p, task) == want
  {
    if paths == [] then []
    else
      var n := |paths| - 1;
      assert forall p :: p in paths <==> p in paths[..n] || p == paths[n];
      Sift(tasks, q, task, paths[..n], want) + if DepsMet(tasks, q, paths[n], task) == want then [paths[n]] else []
  }

  lemma NothingSifted(tasks: seq<Task>, q: Rows, task: Task)
    ensures Sift(tasks, q, task, [], true) == [] && Sift(tasks, q, task, [], false) == []
  {
  }

  lemma SiftOne(tasks: seq<Task>, q: Rows, task: Task, paths: seq<string>, want: bool)
    requires paths != []
    ensures var n := |paths| - 1;
            Sift(tasks, q, task, paths, want) == Sift(tasks, q, task, paths[..n], want)
              + if DepsMet(tasks, q, paths[n], task) == want then [paths[n]] else []
  {
  }

  /** A task without inputs takes all it claimed. */
  lemma {:induction false} NothingWaits(tasks: seq<Task>, q: Rows, task: Task, paths: seq<string>)
    requires task.inputs == []
    ensures Sift(tasks, q, task, paths, true) == paths && Sift(tasks, q, task, paths, false) == []
  {
    hide DepsMet, Sift;
    if paths == [] {
      NothingSifted(tasks, q, task);
    } else {
      var n := |paths| - 1;
      SiftOne(tasks, q, task, paths, true);
      SiftOne(tasks, q, task, paths, false);
      NothingWaits(tasks, q, task, paths[..n]);
      NoInputsNoWait(tasks, q, paths[n], task);
      assert paths == paths[..n] + [paths[n]];
    }
  }

  /** Claiming and giving back leaves only the batch's own rows newly running. */
  lemma ClaimIsTracked(tasks: seq<Task>, q: Rows, r: Rows, task: Task, claimed: seq<string>, now: nat,
                       batches: map<nat, Batch>, abandoned: set<Key>, id: nat)
    requires id !in batches && Tracked(q, batches, abandoned)
    requires forall p :: p in claimed ==> (p, task.name) in q && q[(p, task.name)].status == Pending
    requires var taken := ClaimRows(q, task.name, claimed, now);
             r == UnclaimRows(taken, task.name, Sift(tasks, taken, task, claimed, false))
    ensures var ready := Sift(tasks, ClaimRows(q, task.name, claimed, now), task, claimed, true);
            Tracked(r, if ready == [] then batches else batches[id := Batch(task, ready, 0, [])], abandoned)
    ensures OnlyOpens(q, r)
  {
    hide DepsMet, Held;
    var taken := ClaimRows(q, task.name, claimed, now);
    var ready := Sift(tasks, taken, task, claimed, true);
    var b := Batch(task, ready, 0, []);
    forall k | k in r && r[k].status == Processing
      ensures k in abandoned || Held(if ready == [] then batches else batches[id := b], k)
    {
      if k.1 == task.name && k.0 in claimed {
        assert k.0 in ready;
        HeldOnClaim(batches[id := b], id, k);
      } else if Held(batches, k) {
        HeldGrows(batches, id, b, k);
      }
    }
  }

  lemma WorkIsTracked(q: Rows, r: Rows, batches: map<nat, Batch>, abandoned: set<Key>, id: nat, failed: bool)
    requires Tracked(q, batches, abandoned)
    requires id in batches && batches[id].next < |batches[id].paths|
    requires Handled(q, r, Current(batches[id]).0, Current(batches[id]).1)
    ensures Tracked(r, batches[id := Advance(batches[id], failed)], abandoned)
  {
    hide Held;
    forall k | k in r && r[k].status == Processing
      ensures k in abandoned || Held(batches[id := Advance(batches[id], failed)], k)
    {
      if k !in abandoned { HeldUnlessCurrent(batches, id, failed, k); }
    }
  }

  /** After the reset below a batch's failures no reader of them is finished. */
  lemma NothingOwedIsDone(tasks: seq<Task>, q: Rows, r: Rows, task: Task, failed: seq<string>, below: seq<string>,
                          settled: set<Key>)
    requires Registry(tasks) && task in tasks
    requires forall d :: d in below <==> IsDownstream(tasks, task.name, d)
    requires r == ResetRows(q, below, failed)
    requires forall k :: k in settled ==> k.1 == task.name && k.0 in failed
    ensures forall path, u, b :: (path, u) in settled && b in tasks && b.isPath && u in UpstreamOf(tasks, b)
                                 ==> !Done(r, path, b.name)
  {
    forall path, u, b | (path, u) in settled && b in tasks && b.isPath && u in UpstreamOf(tasks, b)
      ensures !Done(r, path, b.name)
    {
      UpstreamFeeds(tasks, u, b);
      FedIsDownstream(tasks, u, b.name);
      hide IsDownstream, UpstreamOf;
    }
  }

  /** What a batch's task body comes back with: an error, a timeout, or results. */
  datatype Answer = Crashed | Results(list: seq<TaskResult>)

  const FAILURE := TaskResult(false, false, [], [])

  predicate Complete(answer: Answer, n: nat)
  {
    answer.Crashed? || |answer.list| >= n
  }

  /** How many paths an answer has a result for, and the result of each. */
  function Answered(answer: Answer, n: nat): nat
  {
    if answer.Crashed? || |answer.list| > n then n else |answer.list|
  }

  function ResultAt(answer: Answer, i: nat): TaskResult
    requires answer.Results? ==> i < |answer.list|
  {
    if answer.Crashed? then FAILURE else answer.list[i]
  }

  predicate Fails(result: TaskResult)
  {
    !(result.success && result.written)
  }

  /** The paths among the first `n` whose results fail. */
  function FailedPaths(b: Batch, answer: Answer, n: nat): seq<string>
    requires n <= Answered(answer, |b.paths|)
  {
    if n == 0 then []
    else FailedPaths(b, answer, n - 1) + if Fails(ResultAt(answer, n - 1)) then [b.paths[n - 1]] else []
  }

  /** Every path gets a result, unless a batch that did not raise answers short; after
      an error all fail, else those reported as failed or not written. */
  lemma {:induction false} FailedExactly(b: Batch, answer: Answer, n: nat)
    requires n <= Answered(answer, |b.paths|)
    ensures Answered(answer, |b.paths|) <= |b.paths|
    ensures Answered(answer, |b.paths|) == |b.paths| <==> answer.Crashed? || |answer.list| >= |b.paths|
    ensures answer.Results? ==> Answered(answer, |b.paths|) == |b.paths| || Answered(answer, |b.paths|) == |answer.list|
    ensures forall p :: p in FailedPaths(b, answer, n) <==>
                          exists i :: && 0 <= i < n && b.paths[i] == p
                                      && (answer.Crashed? || !answer.list[i].success || !answer.list[i].written)
  {
    if n > 0 {
      FailedExactly(b, answer, n - 1);
      assert b.paths[n - 1] == b.paths[n - 1];
    }
  }

  ghost predicate ResultTaken(tasks: seq<Task>, q: Rows, r: Rows, b: Batch, answer: Answer, i: nat)
    requires i < Answered(answer, |b.paths|)
  {
    exists now :: Recorded(tasks, q, r, b.paths[i], b.task, ResultAt(answer, i), Fails(ResultAt(answer, i)), now)
  }

  lemma RecordedFails(tasks: seq<Task>, q: Rows, r: Rows, path: string, t: Task, result: TaskResult, failed: bool,
                      now: nat)
    requires Recorded(tasks, q, r, path, t, result, failed, now)
    ensures failed == Fails(result)
  {
  }

  /** The queue before the first of `n` results and after each one. */
  ghost predicate Trail(tasks: seq<Task>, q: Rows, b: Batch, answer: Answer, n: nat, trail: seq<Rows>)
    requires n <= Answered(answer, |b.paths|)
  {
    && |trail| == n + 1 && trail[0] == q
    && forall i :: 0 <= i < n ==> ResultTaken(tasks, trail[i], trail[i + 1], b, answer, i)
  }

  lemma TrailGrows(tasks: seq<Task>, q: Rows, b: Batch, answer: Answer, n: nat, trail: seq<Rows>, r: Rows, now: nat)
    requires n < Answered(answer, |b.paths|) && Trail(tasks, q, b, answer, n, trail)
    requires Recorded(tasks, trail[n], r, b.paths[n], b.task, ResultAt(answer, n), Fails(ResultAt(answer, n)), now)
    ensures Trail(tasks, q, b, answer, n + 1, trail + [r])
  {
    hide Recorded;
    assert ResultTaken(tasks, trail[n], r, b, answer, n);
    hide ResultTaken;
    forall i | 0 <= i < n + 1
      ensures ResultTaken(tasks, (trail + [r])[i], (trail + [r])[i + 1], b, answer, i)
    {
      if i < n { assert ResultTaken(tasks, trail[i], trail[i + 1], b, answer, i); }
    }
  }

  /** What a whole batch does: each result in turn, then everything below the
      paths that failed is reset. */
  ghost predicate Executed(tasks: seq<Task>, q: Rows, r: Rows, b: Batch, answer: Answer, trail: seq<Rows>,
                           below: seq<string>)
  {
    var n := Answered(answer, |b.paths|);
    && Trail(tasks, q, b, answer, n, trail)
    && (forall d :: d in below <==> IsDownstream(tasks, b.task.name, d))
    && r == ResetRows(trail[n], below, FailedPaths(b, answer, n))
  }

  /** The answer of a task on the effects contract: one result for each path. */
  method PadResults(list: seq<TaskResult>, n: nat) returns (results: seq<TaskResult>)
    ensures |results| == n && Complete(Results(results), n)
    ensures forall i :: 0 <= i < n ==> results[i] == if i < |list| then list[i] else FAILURE
  {
    results := list;
    while |results| < n
      invariant list <= results && (|list| <= n ==> |results| <= n)
      invariant |list| > n ==> results == list
      invariant forall i :: |list| <= i < |results| ==> results[i] == FAILURE
    {
      results := results + [FAILURE];
    }
    results := results[..n];
  }

  predicate IsRunning(q: Rows, k: Key)
  {
    k in q && q[k].status == Processing
  }

  lemma HandledStops(q: Rows, r: Rows, path: string, name: string)
    requires Handled(q, r, path, name)
    ensures !IsRunning(r, (path, name))
    ensures forall k :: IsRunning(r, k) ==> IsRunning(q, k)
  {
  }

  lemma BatchAt(tasks: seq<Task>, batches: map<nat, Batch>, id: nat)
    requires BatchesOk(tasks, batches) && id in batches
    ensures BatchOk(tasks, batches[id])
  {
  }

  /** What happens around the workers, and what they do one result at a time. */
  datatype Step =
    | Discover(path: string, modality: string)
    | Enqueue(path: string, name: string)       // the backfill at start-up
    | Delete(path: string)
    | Sweep(name: string, cutoff: int)          // rows running for too long
    | Retry(name: string)
    | ResetAll(name: string)
    | Pause(name: string)
    | Resume(name: string)
    | Claim(task: Task, servicesReady: bool, id: nat)
    | Return(id: nat)
    | Process(id: nat, result: TaskResult)
    | End(id: nat)

  /** The dispatcher's state as a value. */
  datatype Shot = Shot(rows: Rows, batches: map<nat, Batch>, free: map<string, nat>, paused: set<string>, clock: nat)

  /** The gates of a dispatch pass before the claim. */
  predicate MayClaim(free: map<string, nat>, paused: set<string>, task: Task, servicesReady: bool)
  {
    task.name !in paused && servicesReady && task.name in free && free[task.name] > 0
  }

  /** What one task's turn in a dispatch pass does: past the gates the best pending
      rows are claimed; those whose inputs are there are the batch and take a slot,
      the others go back. */
  ghost predicate Dispatched(tasks: seq<Task>, a: Shot, task: Task, servicesReady: bool, id: nat, b: Shot,
                             claimed: seq<string>)
  {
    && DistinctPaths(claimed)
    && (if MayClaim(a.free, a.paused, task, servicesReady)
        then BestPending(a.rows, task.name, task.batchSize, set p | p in claimed) else claimed == [])
    && var taken := ClaimRows(a.rows, task.name, claimed, a.clock);
       var ready := Sift(tasks, taken, task, claimed, true);
       && b.rows == UnclaimRows(taken, task.name, Sift(tasks, taken, task, claimed, false))
       && b.paused == a.paused && b.clock == a.clock
       && if ready == [] then b.batches == a.batches && b.free == a.free
          else && b.batches == a.batches[id := Batch(task, ready, 0, [])]
               && task.name in a.free && a.free[task.name] > 0 && b.free == a.free[task.name := a.free[task.name] - 1]
  }

  predicate DistinctPaths(paths: seq<string>)
  {
    forall i, j :: 0 <= i < j < |paths| ==> paths[i] != paths[j]
  }

  /** What taking up a batch's next result does. */
  ghost predicate Worked(tasks: seq<Task>, a: Shot, id: nat, result: TaskResult, b: Shot, failed: bool)
    requires id in a.batches && a.batches[id].next < |a.batches[id].paths|
  {
    && Recorded(tasks, a.rows, b.rows, Current(a.batches[id]).0, a.batches[id].task, result, failed, a.clock)
    && b.batches == a.batches[id := Advance(a.batches[id], failed)]
    && b.free == a.free && b.paused == a.paused && a.clock <= b.clock
  }

  /** What the end of a batch does: everything below its failures is reset. */
  ghost predicate Ended(tasks: seq<Task>, a: Shot, id: nat, b: Shot, below: seq<string>)
    requires id in a.batches
  {
    && (forall d :: d in below <==> IsDownstream(tasks, a.batches[id].task.name, d))
    && Released(a, id, ResetRows(a.rows, below, a.batches[id].failed), b)
  }

  /** A batch is gone and its slot free. */
  predicate Released(a: Shot, id: nat, rows: Rows, b: Shot)
    requires id in a.batches
  {
    var name := a.batches[id].task.name;
    && name in a.free && b.free == a.free[name := a.free[name] + 1] && b.batches == a.batches - {id}
    && b.rows == rows && b.paused == a.paused && b.clock == a.clock
  }

  predicate CanClaim(tasks: seq<Task>, a: Shot, task: Task, id: nat)
  {
    task in tasks && task.isPath && id !in a.batches
  }

  predicate CanReturn(a: Shot, id: nat)
  {
    id in a.batches && a.batches[id].next == 0 && a.batches[id].task.name in a.paused
  }

  predicate CanProcess(a: Shot, id: nat)
  {
    id in a.batches && a.batches[id].next < |a.batches[id].paths|
  }

  /** The rows that the end of a batch leaves running, its answer having been short. */
  ghost function LeftBy(a: Shot, step: Step): set<Key>
  {
    if step.End? && step.id in a.batches then Leftover(a.batches[step.id]) else {}
  }

  /** All rows left so in the first `n` steps of a run. */
  ghost function LeftIn(trail: seq<Shot>, steps: seq<Step>, n: nat): set<Key>
    requires n <= |steps| && n <= |trail|
  {
    if n == 0 then {} else LeftIn(trail, steps, n - 1) + LeftBy(trail[n - 1], steps[n - 1])
  }

  lemma {:induction false} LeftInPrefix(trail: seq<Shot>, more: seq<Shot>, steps: seq<Step>, n: nat)
    requires n <= |steps| && n <= |trail|
    ensures LeftIn(trail + more, steps, n) == LeftIn(trail, steps, n)
  {
    if n > 0 { LeftInPrefix(trail, more, steps, n - 1); }
  }

  lemma {:induction false} NothingLeft(trail: seq<Shot>, steps: seq<Step>, n: nat)
    requires n <= |steps| && n <= |trail|
    ensures LeftIn(trail, steps, n) == {} <==> forall i :: 0 <= i < n ==> LeftBy(trail[i], steps[i]) == {}
  {
    hide LeftBy;
    if n > 0 { NothingLeft(trail, steps, n - 1); }
  }

  /** What each step makes of the state; one that cannot be taken, nothing. */
  ghost predicate Stepped(tasks: seq<Task>, a: Shot, step: Step, b: Shot)
  {
    match step
    case Discover(path, modality) => b == a.(rows := b.rows) && Discovered(tasks, a.rows, b.rows, path, modality)
    case Enqueue(path, name) => b == a.(rows := EnqueueRow(a.rows, path, name, a.clock))
    case Delete(path) => b == a.(rows := WithoutFile(a.rows, path))
    case Sweep(name, cutoff) => b == a.(rows := UnstickRows(a.rows, name, cutoff))
    case Retry(name) => b == a.(rows := RetryRows(a.rows, name))
    case ResetAll(name) => b == a.(rows := ClearTask(a.rows, name))
    case Pause(name) => b == a.(paused := a.paused + {name})
    case Resume(name) => b == a.(paused := a.paused - {name})
    case Claim(task, servicesReady, id) =>
      if CanClaim(tasks, a, task, id) then exists claimed :: Dispatched(tasks, a, task, servicesReady, id, b, claimed)
      else b == a
    case Return(id) =>
      if CanReturn(a, id) then Released(a, id, UnclaimRows(a.rows, a.batches[id].task.name, a.batches[id].paths), b)
      else b == a
    case Process(id, result) =>
      if CanProcess(a, id) then exists failed :: Worked(tasks, a, id, result, b, failed) else b == a
    case End(id) =>
      if id in a.batches then exists below :: Ended(tasks, a, id, b, below) else b == a
  }

  /** Whatever only queues rows leaves a run in order. */
  lemma QueueingKeepsOrder(tasks: seq<Task>, q: Rows, r: Rows, batches: map<nat, Batch>, clock: nat,
                           abandoned: set<Key>)
    requires Inv(tasks, q, Owed(batches), clock) && Tracked(q, batches, abandoned) && OnlyQueues(q, r)
    ensures Inv(tasks, r, Owed(batches), clock) && Tracked(r, batches, abandoned)
  {
    hide Inv, Held;
    OpeningKeepsInv(tasks, q, r, Owed(batches), clock, clock);
  }

  lemma ForgettingIsTracked(q: Rows, path: string, batches: map<nat, Batch>, abandoned: set<Key>)
    requires Tracked(q, batches, abandoned)
    ensures Tracked(WithoutFile(q, path), batches, abandoned)
  {
    hide Held;
  }

  class Dispatcher {
    const graph: Graph
    const db: Table
    var clock: nat
    var batches: map<nat, Batch>
    var free: map<string, nat>      // free worker slots by task
    var paused: set<string>
    ghost var abandoned: set<Key>   // claimed, but left out of a short answer

    constructor (tasks: seq<Task>)
      requires Registry(tasks)
      ensures graph.Built() && graph.tasks == tasks && fresh(graph) && fresh(db)
      ensures db.rows == map[] && batches == map[] && clock == 0 && abandoned == {} && paused == {}
      ensures forall t :: t in tasks ==> t.name in free && free[t.name] == t.slots
    {
      graph := new Graph(tasks);
      db := new Table();
      clock, batches, paused, abandoned := 0, map[], {}, {};
      free := FreeSlots(tasks);
      FreeSlotsByName(tasks);
    }

    method DependenciesMet(path: string, task: Task) returns (met: bool)
      requires graph.Built() && task in graph.tasks && task.isPath
      ensures met == DepsMet(graph.tasks, db.rows, path, task) == InputsThere(graph.tasks, db.rows, path, task)
    {
      DepsMetExactly(graph.tasks, db.rows, path, task);
      hide InputsThere;
      var upstreamTasks := graph.upstream[task.name];
      if upstreamTasks == {} {
        return true;
      }
      var done := set u | u in upstreamTasks && Done(db.rows, path, u);
      met := if task.requireAll then done == upstreamTasks else done != {};
      if u :| u in upstreamTasks && Done(db.rows, path, u) {
        assert u in done;
      }
      if u :| u in upstreamTasks && !Done(db.rows, path, u) {
        assert u !in done;
      }
    }

    /** Queue the task on the path if its inputs are there. */
    method Offer(path: string, task: Task)
      requires graph.Built() && task in graph.tasks && task.isPath
      modifies db
      ensures OnlyQueues(old(db.rows), db.rows)
      ensures Told(graph.tasks, db.rows, path, task)
      ensures forall k :: Changed(old(db.rows), db.rows, k) ==>
                k == (path, task.name) && DepsMet(graph.tasks, old(db.rows), path, task)
    {
      hide InputsThere;
      var met := DependenciesMet(path, task);
      if met {
        db.ReEnqueue(path, task.name, clock);
      }
    }

    method OnTaskCompleted(path: string, name: string)
      requires graph.Built()
      modifies db
      ensures match Get(graph.tasks, name)
              case None => db.rows == old(db.rows)
              case Some(a) => Notified(graph.tasks, old(db.rows), db.rows, path, a)
    {
      var found := Get(graph.tasks, name);
      if found.None? {
        return;
      }
      var completed := found.value;
      ghost var tasks, q := graph.tasks, db.rows;
      hide DepsMet, Told, Reads, Reader;
      for i := 0 to |completed.outputs|
        invariant OnlyQueues(q, db.rows)
        invariant forall b, n :: b in tasks && b.isPath && 0 <= n < i && completed.outputs[n] in b.inputs
                                 ==> Told(tasks, db.rows, path, b)
        invariant forall k :: Changed(q, db.rows, k) ==> k.0 == path && Reader(tasks, q, path, completed, k.1)
      {
        var table := completed.outputs[i];
        for j := 0 to |graph.tasks|
          invariant OnlyQueues(q, db.rows)
          invariant forall b, n :: b in tasks && b.isPath && 0 <= n < i && completed.outputs[n] in b.inputs
                                   ==> Told(tasks, db.rows, path, b)
          invariant forall m :: 0 <= m < j && tasks[m].isPath && table in tasks[m].inputs
                                ==> Told(tasks, db.rows, path, tasks[m])
          invariant forall k :: Changed(q, db.rows, k) ==> k.0 == path && Reader(tasks, q, path, completed, k.1)
        {
          var task := graph.tasks[j];
          if !task.isPath || table !in task.inputs {
            continue;
          }
          ghost var before := db.rows;
          Offer(path, task);
          forall b | Told(tasks, before, path, b)
            ensures Told(tasks, db.rows, path, b)
          {
            ToldIsKept(tasks, before, db.rows, path, b);
          }
          OnlyQueuesTransitive(q, before, db.rows);
          ReadsBy(task, completed, table);
          forall k | Changed(q, db.rows, k)
            ensures k.0 == path && Reader(tasks, q, path, completed, k.1)
          {
            if Changed(before, db.rows, k) {
              DepsMetShrinks(tasks, q, before, path, task);
              ReaderIs(tasks, q, path, completed, task);
            }
          }
        }
      }
    }

    method OnAlsoContains(path: string, modalities: seq<string>)
      requires graph.Built()
      modifies db
      ensures ContentTold(graph.tasks, old(db.rows), db.rows, path, modalities)
    {
      ghost var tasks, q := graph.tasks, db.rows;
      hide DepsMet, Told, TakesOneOf;
      for i := 0 to |modalities|
        invariant OnlyQueues(q, db.rows)
        invariant forall t, n :: t in tasks && t.isPath && 0 <= n < i && modalities[n] in t.modalities
                                 ==> Told(tasks, db.rows, path, t)
        invariant forall k :: Changed(q, db.rows, k) ==> k.0 == path && TakesOneOf(tasks, modalities, k.1)
      {
        for j := 0 to |graph.tasks|
          invariant OnlyQueues(q, db.rows)
          invariant forall t, n :: t in tasks && t.isPath && 0 <= n < i && modalities[n] in t.modalities
                                   ==> Told(tasks, db.rows, path, t)
          invariant forall m :: 0 <= m < j && tasks[m].isPath && modalities[i] in tasks[m].modalities
                                ==> Told(tasks, db.rows, path, tasks[m])
          invariant forall k :: Changed(q, db.rows, k) ==> k.0 == path && TakesOneOf(tasks, modalities, k.1)
        {
          var task := graph.tasks[j];
          if !task.isPath || modalities[i] !in task.modalities {
            continue;
          }
          ghost var before := db.rows;
          Offer(path, task);
          forall t | Told(tasks, before, path, t)
            ensures Told(tasks, db.rows, path, t)
          {
            ToldIsKept(tasks, before, db.rows, path, t);
          }
          OnlyQueuesTransitive(q, before, db.rows);
          TakesThis(tasks, modalities, modalities[i], task);
          forall k | Changed(q, db.rows, k)
            ensures k.0 == path && TakesOneOf(tasks, modalities, k.1)
          {
            if !Changed(before, db.rows, k) { assert Changed(q, before, k); }
          }
        }
      }
    }

    method OnFileDiscovered(path: string, modality: string)
      requires graph.Built()
      modifies db
      ensures Discovered(graph.tasks, old(db.rows), db.rows, path, modality)
    {
      ghost var tasks, q := graph.tasks, db.rows;
      hide DepsMet, Started, OpenedBelow, RousedBy;
      NothingOpened(tasks, q, path);
      for j := 0 to |graph.tasks|
        invariant OnlyQueues(q, db.rows)
        invariant forall m :: 0 <= m < j && tasks[m].isPath && modality in tasks[m].modalities
                              ==> Started(tasks, db.rows, path, tasks[m])
        invariant forall k :: Changed(q, db.rows, k) ==> k.0 == path && Roused(tasks, q, path, modality, k.1)
        invariant OpenedBelow(tasks, q, db.rows, path)
      {
        var task := graph.tasks[j];
        if !task.isPath || modality !in task.modalities {
          continue;
        }
        ghost var before := db.rows;
        StartIfIdle(path, task);
        StepOfDiscovery(tasks, q, before, db.rows, path, task, clock);
      }
    }

    /** Queue a root task again and reset everything below it, unless it is
        under way already or its inputs are missing. */
    method StartIfIdle(path: string, task: Task)
      requires graph.Built() && task in graph.tasks && task.isPath
      modifies db
      ensures Restarted(graph.tasks, old(db.rows), db.rows, path, task, clock)
    {
      var met := DependenciesMet(path, task);
      if !met || Open(db.rows, path, task.name) {
        return;
      }
      ghost var before := db.rows;
      db.ReEnqueue(path, task.name, clock);
      GetByName(graph.tasks, task);
      ghost var below := InvalidateDownstream(task.name, [path]);
      assert RestartedAs(graph.tasks, before, db.rows, path, task, clock, below);
    }

    method InvalidateDownstream(name: string, paths: seq<string>) returns (ghost below: seq<string>)
      requires graph.Built() && Get(graph.tasks, name).Some? && Get(graph.tasks, name).value.isPath
      modifies db
      ensures forall d :: d in below <==> IsDownstream(graph.tasks, name, d)
      ensures db.rows == ResetRows(old(db.rows), below, paths)
    {
      var downstream := graph.GetAllDownstream(name);
      below := downstream;
      if downstream != [] && paths != [] {
        db.Invalidate(downstream, paths);
      } else {
        assert db.rows == ResetRows(db.rows, downstream, paths);
      }
    }

    method OnPathsDiscovered(children: seq<(string, string)>)
      requires graph.Built()
      modifies db
      ensures FilesQueued(graph.tasks, old(db.rows), db.rows, children)
    {
      ghost var tasks, q := graph.tasks, db.rows;
      hide Started, OpenedBelow, Roused;
      for i := 0 to |children|
        invariant OnlyQueues(q, db.rows)
        invariant forall n, t :: 0 <= n < i && t in tasks && t.isPath && children[n].1 in t.modalities
                                 ==> Started(tasks, db.rows, children[n].0, t)
        invariant forall k :: Changed(q, db.rows, k) ==> exists n :: 0 <= n < i && k.0 == children[n].0
      {
        ghost var before := db.rows;
        OnFileDiscovered(children[i].0, children[i].1);
        OnlyQueuesTransitive(q, before, db.rows);
        forall n | 0 <= n < i
          ensures forall t :: Started(tasks, before, children[n].0, t) ==> Started(tasks, db.rows, children[n].0, t)
        {
          StartedIsKept(tasks, before, db.rows, children[n].0);
        }
      }
    }

    // ---- One result --------------------------------------------------------

    /** Persist a successful result; false means it turned into a failure. */
    method HandleSuccess(task: Task, path: string, result: TaskResult, ghost owed: set<Key>) returns (ok: bool)
      requires graph.Built() && task in graph.tasks && task.isPath
      requires Inv(graph.tasks, db.rows, owed, clock)
      modifies this`clock, db
      ensures old(clock) <= clock
      ensures Inv(graph.tasks, db.rows, if ok then owed else owed + {(path, task.name)}, clock)
      ensures Recorded(graph.tasks, old(db.rows), db.rows, path, task, result.(success := true), !ok, old(clock))
    {
      ghost var tasks, q, now := graph.tasks, db.rows, clock;
      hide Inv, DepsMet, Told, Notified, ContentTold, FilesQueued;
      if !result.written {
        FailingKeepsInv(tasks, q, owed, clock, path, task.name);
        db.Fail(path, task.name, clock);
        clock := clock + 1;
        return false;
      }
      if task.inputs != [] {
        var met := DependenciesMet(path, task);
        if !met {
          db.ReEnqueue(path, task.name, clock);
          OpeningKeepsInv(tasks, q, db.rows, owed, now, clock);
          return true;
        }
      } else {
        NoInputsNoWait(tasks, q, path, task);
      }
      CompleteAndTell(task, path, owed);
      ghost var told := db.rows;
      ghost var also := FanOut(path, result);
      OpeningKeepsInv(tasks, told, db.rows, owed, clock, clock);
      assert Spread(tasks, Close(q, path, task.name, Finished, now), told, also, db.rows, path, task,
             result.(success := true));
      return true;
    }

    method CompleteAndTell(task: Task, path: string, ghost owed: set<Key>)
      requires graph.Built() && task in graph.tasks && task.isPath
      requires Inv(graph.tasks, db.rows, owed, clock) && DepsMet(graph.tasks, db.rows, path, task)
      modifies this`clock, db
      ensures old(clock) <= clock
      ensures Inv(graph.tasks, db.rows, owed, clock)
      ensures Notified(graph.tasks, Close(old(db.rows), path, task.name, Finished, old(clock)), db.rows, path, task)
    {
      hide Inv, DepsMet, Told, Notified;
      ghost var q := db.rows;
      db.Complete(path, task.name, clock);
      ghost var mid := db.rows;
      GetByName(graph.tasks, task);
      OnTaskCompleted(path, task.name);
      NotifiedTellsReaders(graph.tasks, mid, db.rows, path, task);
      CompletingKeepsInv(graph.tasks, q, db.rows, owed, clock, path, task);
      clock := clock + 1;
    }

    /** Further kinds of content, and files the task unpacked. */
    method FanOut(path: string, result: TaskResult) returns (ghost also: Rows)
      requires graph.Built()
      modifies db
      ensures ContentTold(graph.tasks, old(db.rows), also, path, result.alsoContains)
      ensures FilesQueued(graph.tasks, also, db.rows, result.discovered)
      ensures OnlyQueues(old(db.rows), db.rows)
    {
      hide Told, TakesOneOf;
      OnAlsoContains(path, result.alsoContains);
      also := db.rows;
      OnPathsDiscovered(result.discovered);
      OnlyQueuesTransitive(old(db.rows), also, db.rows);
    }

    /** The result of the batch's next path; true if it failed. */
    method ProcessResult(task: Task, path: string, result: TaskResult, ghost owed: set<Key>) returns (failed: bool)
      requires graph.Built() && task in graph.tasks && task.isPath
      requires Inv(graph.tasks, db.rows, owed, clock)
      modifies this`clock, db
      ensures old(clock) <= clock
      ensures Inv(graph.tasks, db.rows, if failed then owed + {(path, task.name)} else owed, clock)
      ensures Recorded(graph.tasks, old(db.rows), db.rows, path, task, result, failed, old(clock))
    {
      hide Inv, DepsMet, Spread;
      if result.success {
        var ok := HandleSuccess(task, path, result, owed);
        failed := !ok;
      } else {
        FailingKeepsInv(graph.tasks, db.rows, owed, clock, path, task.name);
        db.Fail(path, task.name, clock);
        clock := clock + 1;
        failed := true;
      }
    }

    // ---- Steps of a run ----------------------------------------------------

    ghost function Now(): Shot
      reads this, db
    {
      Shot(db.rows, batches, free, paused, clock)
    }

    ghost predicate Valid()
      reads this, graph, db
    {
      && graph.Built()
      && Inv(graph.tasks, db.rows, Owed(batches), clock)
      && BatchesOk(graph.tasks, batches) && SlotsOk(graph.tasks, free, batches)
      && Tracked(db.rows, batches, abandoned)
    }

    /** One task's turn in a dispatch pass; `id` names the job it submits. Rows
        claimed without their inputs are given back, the others are the batch. */
    method Dispatch(task: Task, servicesReady: bool, id: nat) returns (started: bool, ghost claimed: seq<string>)
      requires Valid() && task in graph.tasks && task.isPath && id !in batches
      modifies this`batches, this`free, db
      ensures Valid()
      ensures if MayClaim(old(free), paused, task, servicesReady)
              then BestPending(old(db.rows), task.name, task.batchSize, set p | p in claimed) else claimed == []
      ensures DistinctPaths(claimed)
      ensures var taken := ClaimRows(old(db.rows), task.name, claimed, clock);
              db.rows == UnclaimRows(taken, task.name, Sift(graph.tasks, taken, task, claimed, false))
              && started == (Sift(graph.tasks, taken, task, claimed, true) != [])
              && (started ==>
                    batches == old(batches)[id := Batch(task, Sift(graph.tasks, taken, task, claimed, true), 0, [])])
      ensures started ==>
                && task.name in old(free) && old(free)[task.name] > 0
                && free == old(free)[task.name := old(free)[task.name] - 1]
      ensures !started ==> batches == old(batches) && free == old(free)
    {
      hide Inv, BatchesOk, SlotsOk, Tracked, DepsMet, Sift, Owed;
      claimed := [];
      started := false;
      NothingSifted(graph.tasks, ClaimRows(db.rows, task.name, [], clock), task);
      if !MayClaim(free, paused, task, servicesReady) {
        return;
      }
      ghost var q := db.rows;
      var paths := db.Claim(task.name, task.batchSize, clock);
      claimed := paths;
      ghost var taken := db.rows;
      if paths == [] {
        assert taken == q;
        return;
      }
      var ready := paths;
      if task.inputs != [] {
        ready := KeepReady(task, paths);
      } else {
        NothingWaits(graph.tasks, taken, task, paths);
      }
      ClaimIsTracked(graph.tasks, q, db.rows, task, claimed, clock, batches, abandoned, id);
      OpeningKeepsInv(graph.tasks, q, db.rows, Owed(batches), clock, clock);
      if ready == [] {
        return;
      }
      StartingBatch(graph.tasks, free, batches, id, Batch(task, ready, 0, []));
      free := free[task.name := free[task.name] - 1];
      batches := batches[id := Batch(task, ready, 0, [])];
      started := true;
    }

    /** Check the inputs once more after the claim; give back what has to wait. */
    method KeepReady(task: Task, paths: seq<string>) returns (ready: seq<string>)
      requires graph.Built() && task in graph.tasks && task.isPath
      modifies db
      ensures ready == Sift(graph.tasks, old(db.rows), task, paths, true)
      ensures db.rows == UnclaimRows(old(db.rows), task.name, Sift(graph.tasks, old(db.rows), task, paths, false))
    {
      hide DepsMet, InputsThere, UnclaimRows;
      UnclaimingNone(db.rows, task.name);
      var notReady: seq<string> := [];
      ready := [];
      for i := 0 to |paths|
        invariant db.rows == old(db.rows)
        invariant ready == Sift(graph.tasks, db.rows, task, paths[..i], true)
        invariant notReady == Sift(graph.tasks, db.rows, task, paths[..i], false)
      {
        assert paths[..i + 1][..i] == paths[..i];
        var met := DependenciesMet(paths[i], task);
        if met {
          ready := ready + [paths[i]];
        } else {
          notReady := notReady + [paths[i]];
        }
      }
      assert paths[..|paths|] == paths;
      if notReady != [] {
        db.Unclaim(task.name, notReady);
      }
    }

    /** A worker processes the next result of a batch. */
    method Work(id: nat, result: TaskResult) returns (failed: bool)
      requires Valid() && id in batches && batches[id].next < |batches[id].paths|
      modifies this`clock, this`batches, db
      ensures Valid() && old(clock) <= clock
      ensures batches == old(batches)[id := Advance(old(batches)[id], failed)]
      ensures Handled(old(db.rows), db.rows, Current(old(batches)[id]).0, Current(old(batches)[id]).1)
      ensures Recorded(graph.tasks, old(db.rows), db.rows, Current(old(batches)[id]).0, old(batches)[id].task,
                       result, failed, old(clock))
    {
      hide Inv, SlotsOk, Owed, InFlight, Handled, Recorded;
      var b := batches[id];
      assert BatchOk(graph.tasks, b);
      ghost var q := db.rows;
      failed := ProcessResult(b.task, b.paths[b.next], result, Owed(batches));
      RecordedIsHandled(graph.tasks, q, db.rows, b.paths[b.next], b.task, result, failed, old(clock));
      hide BatchesOk;
      AdvancingBatch(graph.tasks, free, batches, id, failed);
      WorkIsTracked(q, db.rows, batches, abandoned, id, failed);
      batches := batches[id := Advance(b, failed)];
    }

    /** The end of a batch: reset what its failures leave stale and free the slot. */
    method Finish(id: nat) returns (ghost below: seq<string>)
      requires Valid() && id in batches
      modifies this`batches, this`free, this`abandoned, db
      ensures Valid()
      ensures Released(old(Now()), id, db.rows, Now())
      ensures forall d :: d in below <==> IsDownstream(graph.tasks, old(batches)[id].task.name, d)
      ensures db.rows == ResetRows(old(db.rows), below, old(batches)[id].failed)
      ensures old(batches)[id].next <= |old(batches)[id].paths|
              && abandoned == old(abandoned) + Leftover(old(batches)[id])
    {
      hide Inv, Owed, InFlight, SlotsOk, BatchesOk, IsDownstream;
      ghost var q, owed := db.rows, Owed(batches);
      var b := batches[id];
      EndingBatch(graph.tasks, free, batches, id);
      GetByName(graph.tasks, b.task);
      below := InvalidateDownstream(b.task.name, b.failed);
      ghost var less := Owed(batches - {id});
      OpeningKeepsInv(graph.tasks, q, db.rows, owed, clock, clock);
      NothingOwedIsDone(graph.tasks, q, db.rows, b.task, b.failed, below, owed - less);
      SettlingKeepsInv(graph.tasks, db.rows, owed, less, clock);
      forall k | Held(batches, k)
        ensures k in Leftover(b) || Held(batches - {id}, k)
      {
        HeldUnlessLeftOver(batches, id, k);
      }
      hide Held;
      free := free[b.task.name := free[b.task.name] + 1];
      abandoned := abandoned + Leftover(b);
      batches := batches - {id};
    }

    /** A batch whose task was paused before it began goes back to the queue. */
    method ReturnPaused(id: nat)
      requires Valid() && id in batches && batches[id].next == 0
      modifies this`batches, this`free, db
      ensures Valid()
      ensures Released(old(Now()), id, db.rows, Now())
      ensures db.rows == UnclaimRows(old(db.rows), old(batches)[id].task.name, old(batches)[id].paths)
    {
      hide Inv, Owed, InFlight, SlotsOk, BatchesOk;
      ghost var q := db.rows;
      var b := batches[id];
      EndingBatch(graph.tasks, free, batches, id);
      assert b.failed == [];
      db.Unclaim(b.task.name, b.paths);
      OpeningKeepsInv(graph.tasks, q, db.rows, Owed(batches), clock, clock);
      forall k | Held(batches, k)
        ensures k in Leftover(b) || Held(batches - {id}, k)
      {
        HeldUnlessLeftOver(batches, id, k);
      }
      hide Held;
      free := free[b.task.name := free[b.task.name] + 1];
      batches := batches - {id};
    }

    /** A whole batch on its worker, with nothing in between: `trail` is the
        queue before the first result and after each one. */
    method Execute(id: nat, answer: Answer) returns (ghost trail: seq<Rows>, ghost below: seq<string>)
      requires Valid() && id in batches && batches[id].next == 0
      modifies this`clock, this`batches, this`free, this`abandoned, db
      ensures Valid() && batches == old(batches) - {id}
      ensures old(batches)[id].task.name in paused || Complete(answer, |old(batches)[id].paths|) ==>
                && abandoned == old(abandoned)
                && forall p :: p in old(batches)[id].paths ==> !IsRunning(db.rows, (p, old(batches)[id].task.name))
      ensures old(batches)[id].task.name !in paused ==>
                var b := old(batches)[id];
                abandoned == old(abandoned) + Leftover(b.(next := Answered(answer, |b.paths|)))
      ensures old(batches)[id].task.name !in paused ==>
                Executed(graph.tasks, old(db.rows), db.rows, old(batches)[id], answer, trail, below)
    {
      hide Inv, Owed, InFlight, SlotsOk, BatchesOk, Tracked, IsDownstream, Trail;
      var b := batches[id];
      trail, below := [db.rows], [];
      if b.task.name in paused {
        ReturnPaused(id);
        return;
      }
      assert BatchOk(graph.tasks, b) by { BatchAt(graph.tasks, batches, id); }
      trail := TakeResults(id, answer);
      ghost var n := Answered(answer, |b.paths|);
      assert n == |b.paths| ==> Leftover(b.(next := n)) == {};
      assert Leftover(batches[id]) == Leftover(b.(next := n));
      below := Finish(id);
    }

    method TakeResults(id: nat, answer: Answer) returns (ghost trail: seq<Rows>)
      requires Valid() && id in batches && batches[id].next == 0 && BatchOk(graph.tasks, batches[id])
      modifies this`clock, this`batches, db
      ensures Valid() && id in batches && batches - {id} == old(batches) - {id}
      ensures var b, n := old(batches)[id], Answered(answer, |old(batches)[id].paths|);
              && batches[id] == b.(next := n, failed := FailedPaths(b, answer, n))
              && (forall m :: 0 <= m < n ==> !IsRunning(db.rows, (b.paths[m], b.task.name)))
              && Trail(graph.tasks, old(db.rows), b, answer, n, trail) && trail[n] == db.rows
    {
      hide Inv, Owed, InFlight, SlotsOk, BatchesOk, Tracked, Handled, Recorded, ResultTaken;
      var b := batches[id];
      trail := [db.rows];
      for i := 0 to Answered(answer, |b.paths|)
        invariant Valid() && id in batches && batches - {id} == old(batches) - {id}
        invariant batches[id] == b.(next := i, failed := FailedPaths(b, answer, i))
        invariant forall m :: 0 <= m < i ==> !IsRunning(db.rows, (b.paths[m], b.task.name))
        invariant Trail(graph.tasks, old(db.rows), b, answer, i, trail) && trail[i] == db.rows
      {
        ghost var q, current, now := db.rows, batches, clock;
        var failed := Work(id, ResultAt(answer, i));
        assert batches - {id} == current - {id};
        HandledStops(q, db.rows, b.paths[i], b.task.name);
        RecordedFails(graph.tasks, q, db.rows, b.paths[i], b.task, ResultAt(answer, i), failed, now);
        TrailGrows(graph.tasks, old(db.rows), b, answer, i, trail, db.rows, now);
        trail := trail + [db.rows];
      }
    }

    method StartOne(task: Task, servicesReady: bool, id: nat)
      requires Valid()
      modifies this`batches, this`free, db
      ensures Valid() && Stepped(graph.tasks, old(Now()), Claim(task, servicesReady, id), Now())
    {
      hide Inv, Owed, InFlight, SlotsOk, BatchesOk, Tracked, DepsMet, Sift, BestPending;
      if task in graph.tasks && task.isPath && id !in batches {
        ghost var claimed;
        var started;
        started, claimed := Dispatch(task, servicesReady, id);
        assert Dispatched(graph.tasks, old(Now()), task, servicesReady, id, Now(), claimed);
      }
    }

    /** One step of a run; one that cannot be taken leaves everything as it is. */
    method Take(step: Step)
      requires Valid()
      modifies this`clock, this`batches, this`free, this`paused, this`abandoned, db
      ensures Valid() && Stepped(graph.tasks, old(Now()), step, Now())
      ensures abandoned == old(abandoned) + LeftBy(old(Now()), step)
    {
      hide Inv, Owed, InFlight, SlotsOk, BatchesOk, Tracked, IsDownstream, DepsMet, OpenedBelow, Started, Dispatched,
           Leftover;
      ghost var q := db.rows;
      match step {
        case Discover(path, modality) =>
          OnFileDiscovered(path, modality);
          QueueingKeepsOrder(graph.tasks, q, db.rows, batches, clock, abandoned);
        case Enqueue(path, name) =>
          db.Enqueue(path, name, clock);
          QueueingKeepsOrder(graph.tasks, q, db.rows, batches, clock, abandoned);
        case Sweep(name, cutoff) =>
          db.ResetStuck(name, cutoff);
          QueueingKeepsOrder(graph.tasks, q, db.rows, batches, clock, abandoned);
        case Retry(name) =>
          db.ResetFailed(name);
          QueueingKeepsOrder(graph.tasks, q, db.rows, batches, clock, abandoned);
        case ResetAll(name) =>
          db.ResetTask(name);
          QueueingKeepsOrder(graph.tasks, q, db.rows, batches, clock, abandoned);
        case Delete(path) =>
          db.RemoveFile(path);
          ForgettingKeepsInv(graph.tasks, q, Owed(batches), clock, path);
          ForgettingIsTracked(q, path, batches, abandoned);
        case Pause(name) =>
          paused := paused + {name};
        case Resume(name) =>
          paused := paused - {name};
        case Claim(task, servicesReady, id) =>
          StartOne(task, servicesReady, id);
        case Return(id) =>
          if id in batches && batches[id].next == 0 && batches[id].task.name in paused {
            ReturnPaused(id);
          }
        case Process(id, result) =>
          if id in batches && batches[id].next < |batches[id].paths| {
            var failed := Work(id, result);
            assert Worked(graph.tasks, old(Now()), id, result, Now(), failed);
          }
        case End(id) =>
          if id in batches {
            ghost var below := Finish(id);
            assert Ended(graph.tasks, old(Now()), id, Now(), below);
          }
      }
    }
  }

  lemma EmptyQueueInOrder(tasks: seq<Task>)
    ensures Inv(tasks, map[], Owed(map[]), 0) && Tracked(map[], map[], {}) && BatchesOk(tasks, map[])
  {
  }

  lemma NoBatchesTakeNoSlots(tasks: seq<Task>, free: map<string, nat>)
    requires forall t :: t in tasks ==> t.name in free && free[t.name] == t.slots
    ensures SlotsOk(tasks, free, map[])
  {
    assert forall name :: Running(map[], name) == {};
  }

  /** Nothing is queued or running on the path, and no failure on it waits for
      the end of its batch. */
  ghost predicate Quiet(q: Rows, owed: set<Key>, path: string)
  {
    forall n :: !Unsettled(q, owed, path, n)
  }

  /** Every finished task is newer than the inputs it read, and every task that reads
      something and whose inputs are there has finished or failed. */
  ghost predicate UpToDate(tasks: seq<Task>, q: Rows, path: string)
  {
    forall b :: b in tasks && b.isPath ==>
                  && (Done(q, path, b.name) ==> NewerThanInputs(tasks, q, path, b))
                  && (Supplied(tasks, b) && InputsThere(tasks, q, path, b) ==> Closed(q, path, b.name))
  }

  ghost predicate Closed(q: Rows, path: string, name: string)
  {
    (path, name) in q && !IsOpen(q[(path, name)])
  }

  /** Nothing queued, nothing running, all slots free. */
  ghost predicate Begins(tasks: seq<Task>, a: Shot)
  {
    && a.rows == map[] && a.batches == map[] && a.paused == {} && a.clock == 0
    && forall t :: t in tasks ==> t.name in a.free && a.free[t.name] == t.slots
  }

  ghost predicate QuietIsUpToDate(tasks: seq<Task>, a: Shot)
  {
    forall path :: Quiet(a.rows, Owed(a.batches), path) ==> UpToDate(tasks, a.rows, path)
  }

  /** The state a run is in before step `i`: one step after the one before, a quiet path
      is up to date in it, and every running row is held by a batch or was left out of a
      short answer. */
  ghost predicate TracedAt(tasks: seq<Task>, steps: seq<Step>, trail: seq<Shot>, i: nat)
    requires i < |trail| <= |steps| + 1
  {
    && (if i == 0 then Begins(tasks, trail[0]) else Stepped(tasks, trail[i - 1], steps[i - 1], trail[i]))
    && QuietIsUpToDate(tasks, trail[i])
    && Tracked(trail[i].rows, trail[i].batches, LeftIn(trail, steps, i))
  }

  ghost predicate Traced(tasks: seq<Task>, steps: seq<Step>, trail: seq<Shot>)
  {
    && 0 < |trail| <= |steps| + 1
    && forall i :: 0 <= i < |trail| ==> TracedAt(tasks, steps, trail, i)
  }

  lemma TracedLonger(tasks: seq<Task>, steps: seq<Step>, trail: seq<Shot>, b: Shot, i: nat)
    requires i < |trail| <= |steps| && TracedAt(tasks, steps, trail, i)
    ensures TracedAt(tasks, steps, trail + [b], i)
  {
    hide Stepped, QuietIsUpToDate, Tracked, LeftBy, Begins, LeftIn;
    LeftInPrefix(trail, [b], steps, i);
  }

  /** Every run of the pipeline, over any graph: whatever is discovered, deleted,
      reset or paused and in whatever order batches and their results interleave,
      at every moment a quiet path is up to date, and a row is running only if a batch
      has still to deal with it or an answer left it out. */
  method Run(tasks: seq<Task>, steps: seq<Step>) returns (d: Dispatcher, ghost trail: seq<Shot>)
    requires Registry(tasks)
    ensures d.Valid() && d.graph.tasks == tasks
    ensures |trail| == |steps| + 1 && Traced(tasks, steps, trail) && trail[|steps|] == d.Now()
    ensures (forall i :: 0 <= i < |steps| ==> LeftBy(trail[i], steps[i]) == {}) ==>
              forall k :: IsRunning(d.db.rows, k) ==> Held(d.batches, k)
  {
    hide Inv, Owed, InFlight, SlotsOk, BatchesOk, Tracked, QuietIsUpToDate, Stepped, LeftBy, Held, Begins;
    d := new Dispatcher(tasks);
    EmptyQueueInOrder(tasks);
    NoBatchesTakeNoSlots(tasks, d.free);
    trail := [d.Now()];
    QuietIsFreshNow(tasks, d.Now());
    TracedAtFirst(tasks, steps, d.Now());
    for i := 0 to |steps|
      invariant d.Valid() && d.graph.tasks == tasks && fresh(d) && fresh(d.db) && fresh(d.graph)
      invariant |trail| == i + 1 && trail[i] == d.Now() && Traced(tasks, steps, trail)
      invariant d.abandoned == LeftIn(trail, steps, i)
    {
      d.Take(steps[i]);
      QuietIsFreshNow(tasks, d.Now());
      ghost var longer := trail + [d.Now()];
      LeftInPrefix(trail, [d.Now()], steps, i);
      forall k | 0 <= k <= i
        ensures TracedAt(tasks, steps, longer, k)
      {
        TracedLonger(tasks, steps, trail, d.Now(), k);
      }
      assert TracedAt(tasks, steps, longer, i + 1);
      trail := longer;
    }
    NothingLeft(trail, steps, |steps|);
    if d.abandoned == {} { AllHeld(d.db.rows, d.batches); }
  }

  lemma TracedAtFirst(tasks: seq<Task>, steps: seq<Step>, a: Shot)
    requires Begins(tasks, a) && QuietIsUpToDate(tasks, a)
    ensures Traced(tasks, steps, [a])
  {
  }

  lemma AllHeld(q: Rows, batches: map<nat, Batch>)
    requires Tracked(q, batches, {})
    ensures forall k :: IsRunning(q, k) ==> Held(batches, k)
  {
    hide Held;
  }

  lemma QuietIsFreshNow(tasks: seq<Task>, a: Shot)
    requires Inv(tasks, a.rows, Owed(a.batches), a.clock)
    ensures QuietIsUpToDate(tasks, a)
  {
    hide Inv, Owed, Quiet;
    forall path | Quiet(a.rows, Owed(a.batches), path)
      ensures UpToDate(tasks, a.rows, path)
    {
      QuietPathIsFresh(tasks, a.rows, Owed(a.batches), a.clock, path);
    }
  }

  lemma QuietPathIsFresh(tasks: seq<Task>, q: Rows, owed: set<Key>, clock: nat, path: string)
    requires Inv(tasks, q, owed, clock) && Quiet(q, owed, path)
    ensures UpToDate(tasks, q, path)
  {
    QuietIsFresh(tasks, q, owed, clock, path);
    hide NewerThanInputs, InputsThere, Supplied, DepsMet, UpstreamOf;
    forall b | b in tasks && b.isPath && Supplied(tasks, b) && InputsThere(tasks, q, path, b)
      ensures Closed(q, path, b.name)
    {
      DepsMetExactly(tasks, q, path, b);
      SuppliedHasUpstream(tasks, b);
      assert !Unsettled(q, owed, path, b.name);
    }
  }
}
