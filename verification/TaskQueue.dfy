/** The task_queue table: one row per (file path, task name). Each operation is
    one statement under the database lock, so one atomic step. */
module TaskQueue {
  import opened Basics

  datatype Status = Pending | Processing | Finished | Failed

  datatype Row = Row(status: Status, priority: int, created: nat, started: Option<nat>, completed: Option<nat>)

  type Key = (string, string)  // path, task name
  type Rows = map<Key, Row>

  // Files handed to the agent are cached below one directory, wherever that is.
  const ATTACHMENT_CACHE := "attachment_cache"

  // The lock's constants are defined after those of the queue, and under the same
  // name, so the elevated priority is not the 100 it was first given.
  const HIGH_PRIORITY := 0
  const DEFAULT_PRIORITY := 0

  function WithSlashes(path: string): string
  {
    seq(|path|, i requires 0 <= i < |path| => if path[i] == '\\' then '/' else path[i])
  }

  predicate IsAttachment(path: string)
  {
    WithSlashes(path) == ATTACHMENT_CACHE || ATTACHMENT_CACHE + "/" <= WithSlashes(path)
  }

  /** Exactly the cache's own path and whatever lies below it, however separated. */
  lemma AttachmentsExactly(path: string)
    ensures var n := |ATTACHMENT_CACHE|;
            IsAttachment(path) <==>
              && n <= |path| && path[..n] == ATTACHMENT_CACHE
              && (n < |path| ==> path[n] == '/' || path[n] == '\\')
  {
    var n, s, below := |ATTACHMENT_CACHE|, WithSlashes(path), ATTACHMENT_CACHE + "/";
    assert forall i :: 0 <= i < n ==> ATTACHMENT_CACHE[i] != '/' && ATTACHMENT_CACHE[i] != '\\';
    if n <= |path| {
      assert s[..n] == ATTACHMENT_CACHE <==> path[..n] == ATTACHMENT_CACHE by {
        assert forall i :: 0 <= i < n ==> (s[..n][i] == ATTACHMENT_CACHE[i] <==> path[..n][i] == ATTACHMENT_CACHE[i]);
      }
      assert s == ATTACHMENT_CACHE <==> |path| == n && s[..n] == ATTACHMENT_CACHE;
      assert below <= s <==> n < |s| && s[..n] == ATTACHMENT_CACHE && s[n] == '/';
    }
  }

  function PriorityFor(path: string): int
  {
    if IsAttachment(path) then HIGH_PRIORITY else DEFAULT_PRIORITY
  }

  predicate IsOpen(r: Row)
  {
    r.status == Pending || r.status == Processing
  }

  predicate Done(q: Rows, path: string, name: string)
  {
    (path, name) in q && q[(path, name)].status == Finished
  }

  predicate Open(q: Rows, path: string, name: string)
  {
    (path, name) in q && IsOpen(q[(path, name)])
  }

  function Cleared(r: Row): Row
  {
    r.(status := Pending, started := None, completed := None)
  }

  /** Invalidation leaves a row that is already pending alone. */
  function Reset(r: Row): Row
  {
    if r.status == Pending then r else Cleared(r)
  }

  function UnstickRows(q: Rows, name: string, cutoff: int): Rows
  {
    map k | k in q :: if k.1 == name then UnstickRow(q[k], cutoff) else q[k]
  }

  function RetryRows(q: Rows, name: string): Rows
  {
    map k | k in q :: if k.1 == name then RetryRow(q[k]) else q[k]
  }

  function ClearTask(q: Rows, name: string): Rows
  {
    map k | k in q :: if k.1 == name then Cleared(q[k]) else q[k]
  }

  /** A new row is pending; one that is there is left alone. */
  function EnqueueRow(q: Rows, path: string, name: string, now: nat): Rows
  {
    if (path, name) in q then q else q[(path, name) := Row(Pending, PriorityFor(path), now, None, None)]
  }

  /** Queued again, from the start; a row that is there keeps when it was created. */
  function Requeued(q: Rows, path: string, name: string, now: nat): Rows
  {
    q[(path, name) := if (path, name) in q then Cleared(q[(path, name)]).(priority := PriorityFor(path))
                      else Row(Pending, PriorityFor(path), now, None, None)]
  }

  function WithoutFile(q: Rows, path: string): Rows
  {
    map k | k in q && k.0 != path :: q[k]
  }

  /** Nothing is lost, and every row that changed or is new is open. */
  ghost predicate OnlyOpens(q: Rows, r: Rows)
  {
    && (forall k :: k in q ==> k in r)
    && (forall k :: k in r ==> (k in q && r[k] == q[k]) || IsOpen(r[k]))
  }

  /** Nothing is lost, and every row that changed or is new is pending. */
  ghost predicate OnlyQueues(q: Rows, r: Rows)
  {
    && (forall k :: k in q ==> k in r)
    && (forall k :: k in r ==> (k in q && r[k] == q[k]) || r[k].status == Pending)
  }

  lemma OnlyQueuesTransitive(q: Rows, r: Rows, s: Rows)
    requires OnlyQueues(q, r) && OnlyQueues(r, s)
    ensures OnlyQueues(q, s)
  {
  }

  /** A claim takes up to `n` pending rows of the task, the best first: higher
      priority, then earlier creation. */
  ghost predicate BestPending(q: Rows, name: string, n: nat, taken: set<string>)
  {
    && |taken| <= n
    && (forall p :: p in taken ==> (p, name) in q && q[(p, name)].status == Pending)
    && (forall p, o :: p in taken && o !in taken && (o, name) in q && q[(o, name)].status == Pending
                       ==> NotAfter(q[(p, name)], q[(o, name)]))
    && ((exists o :: o !in taken && (o, name) in q && q[(o, name)].status == Pending) ==> |taken| == n)
  }

  predicate NotAfter(a: Row, b: Row)
  {
    a.priority > b.priority || (a.priority == b.priority && a.created <= b.created)
  }

  predicate IsPending(q: Rows, path: string, name: string)
  {
    (path, name) in q && q[(path, name)].status == Pending
  }

  /** Every row has the priority its path calls for. */
  ghost predicate Prioritized(q: Rows)
  {
    forall k :: k in q ==> q[k].priority == PriorityFor(k.0)
  }

  /** Nothing that is done to the table changes that. */
  lemma PrioritiesKept(q: Rows, path: string, name: string, outcome: Status, now: nat)
    requires Prioritized(q)
    ensures Prioritized(EnqueueRow(q, path, name, now)) && Prioritized(Requeued(q, path, name, now))
    ensures Prioritized(Close(q, path, name, outcome, now)) && Prioritized(WithoutFile(q, path))
  {
    hide PriorityFor;
  }

  lemma PrioritiesKeptByMany(q: Rows, name: string, names: seq<string>, paths: seq<string>, cutoff: int, now: nat)
    requires Prioritized(q)
    ensures Prioritized(ClaimRows(q, name, paths, now)) && Prioritized(UnclaimRows(q, name, paths))
    ensures Prioritized(ResetRows(q, names, paths)) && Prioritized(UnstickRows(q, name, cutoff))
    ensures Prioritized(RetryRows(q, name)) && Prioritized(ClearTask(q, name))
  {
    hide PriorityFor;
  }

  /** An attachment gains nothing over an ordinary file: it is taken whenever the file
      is exactly if it was queued before it, as between any two files. */
  lemma AttachmentAheadExactly(q: Rows, name: string, attachment: string, file: string)
    requires Prioritized(q) && IsPending(q, attachment, name) && IsPending(q, file, name)
    requires IsAttachment(attachment) && !IsAttachment(file)
    ensures (forall n, taken :: BestPending(q, name, n, taken) && file in taken ==> attachment in taken)
            <==> q[(attachment, name)].created < q[(file, name)].created
  {
    TakenAheadExactly(q, name, attachment, file);
  }

  lemma TakenAheadExactly(q: Rows, name: string, other: string, file: string)
    requires Prioritized(q) && other != file && IsPending(q, other, name) && IsPending(q, file, name)
    ensures (forall n, taken :: BestPending(q, name, n, taken) && file in taken ==> other in taken)
            <==> q[(other, name)].created < q[(file, name)].created
  {
    var taken := UpTo(q, name, file);
    UpToIsBest(q, name, file);
    if q[(other, name)].created >= q[(file, name)].created {
      assert BestPending(q, name, |taken|, taken) && file in taken && other !in taken;
    }
  }

  /** The claim that takes a file with no more than was queued before it. */
  function UpTo(q: Rows, name: string, file: string): set<string>
    requires (file, name) in q
  {
    {file} + set k | k in q && k.1 == name && q[k].status == Pending && q[k].created < q[(file, name)].created :: k.0
  }

  lemma UpToIsBest(q: Rows, name: string, file: string)
    requires Prioritized(q) && IsPending(q, file, name)
    ensures BestPending(q, name, |UpTo(q, name, file)|, UpTo(q, name, file))
  {
    var taken := UpTo(q, name, file);
    forall p | p in taken
      ensures IsPending(q, p, name) && q[(p, name)].created <= q[(file, name)].created
    {
    }
    forall o | o !in taken && IsPending(q, o, name)
      ensures q[(file, name)].created <= q[(o, name)].created
    {
      assert (o, name).0 == o;
    }
  }

  /** The queue of one task after an ordinary file and then an attachment arrived. */
  function TwoArrivals(): Rows
  {
    EnqueueRow(EnqueueRow(map[], "notes.txt", "parse", 1), "attachment_cache/photo.png", "parse", 2)
  }

  /** An attachment that came after a file is not claimed ahead of it. */
  lemma AttachmentWaitsItsTurn(taken: set<string>)
    requires BestPending(TwoArrivals(), "parse", 1, taken)
    ensures "attachment_cache/photo.png" !in taken
  {
    var q, early, late := TwoArrivals(), "notes.txt", "attachment_cache/photo.png";
    assert q[(early, "parse")] == Row(Pending, 0, 1, None, None)
           && q[(late, "parse")] == Row(Pending, 0, 2, None, None);
    hide TwoArrivals, PriorityFor;
    TakenTogether(q, "parse", 1, taken, late, early);
  }

  /** A row is taken only together with every row that goes before it. */
  lemma TakenTogether(q: Rows, name: string, n: nat, taken: set<string>, late: string, early: string)
    requires BestPending(q, name, n, taken) && early != late
    requires IsPending(q, early, name) && IsPending(q, late, name)
    requires !NotAfter(q[(late, name)], q[(early, name)])
    ensures late in taken ==> early in taken && 2 <= |taken| <= n
  {
    if late in taken && early in taken {
      assert taken == {early, late} + (taken - {early, late}) && |{early, late}| == 2;
    }
  }

  class Table {
    var rows: Rows

    constructor ()
      ensures rows == map[]
    {
      rows := map[];
    }

    method Enqueue(path: string, name: string, now: nat)
      modifies this
      ensures rows == EnqueueRow(old(rows), path, name, now)
      ensures OnlyQueues(old(rows), rows)
    {
      if (path, name) !in rows {
        rows := rows[(path, name) := Row(Pending, PriorityFor(path), now, None, None)];
      }
    }

    method ReEnqueue(path: string, name: string, now: nat)
      modifies this
      ensures rows == Requeued(old(rows), path, name, now)
      ensures OnlyQueues(old(rows), rows)
    {
      if (path, name) in rows {
        rows := rows[(path, name) := Cleared(rows[(path, name)]).(priority := PriorityFor(path))];
      } else {
        rows := rows[(path, name) := Row(Pending, PriorityFor(path), now, None, None)];
      }
    }

    /** Pick the best pending row up to `n` times. */
    method Claim(name: string, n: nat, now: nat) returns (paths: seq<string>)
      modifies this
      ensures forall i, j :: 0 <= i < j < |paths| ==> paths[i] != paths[j]
      ensures BestPending(old(rows), name, n, set p | p in paths)
      ensures rows == ClaimRows(old(rows), name, paths, now)
      ensures OnlyOpens(old(rows), rows)
    {
      paths := [];
      ghost var taken: set<string> := {};
      var waiting := set k | k in rows && k.1 == name && rows[k].status == Pending :: k.0;
      while |paths| < n && waiting != {}
        invariant rows == old(rows)
        invariant forall i, j :: 0 <= i < j < |paths| ==> paths[i] != paths[j]
        invariant taken == (set p | p in paths) && |taken| == |paths| <= n
        invariant forall p :: p in taken || p in waiting <==> (p, name) in rows && rows[(p, name)].status == Pending
        invariant taken !! waiting
        invariant forall p, o :: p in taken && o in waiting ==> NotAfter(rows[(p, name)], rows[(o, name)])
        decreases n - |paths|
      {
        var best := First(waiting, name);
        paths := paths + [best];
        taken, waiting := taken + {best}, waiting - {best};
      }
      if |taken| < n { assert waiting == {}; }
      assert taken == set p | p in paths;
      rows := ClaimRows(rows, name, paths, now);
    }

    method First(waiting: set<string>, name: string) returns (best: string)
      requires waiting != {}
      requires forall p :: p in waiting ==> (p, name) in rows
      ensures best in waiting
      ensures forall p :: p in waiting ==> NotAfter(rows[(best, name)], rows[(p, name)])
    {
      best :| best in waiting;
      var rest := waiting - {best};
      while rest != {}
        invariant best in waiting && rest <= waiting
        invariant forall p :: p in waiting - rest ==> NotAfter(rows[(best, name)], rows[(p, name)])
        decreases rest
      {
        var p :| p in rest;
        if !NotAfter(rows[(best, name)], rows[(p, name)]) { best := p; }
        rest := rest - {p};
      }
    }

    method Complete(path: string, name: string, now: nat)
      modifies this
      ensures rows == Close(old(rows), path, name, Finished, now)
    {
      rows := Close(rows, path, name, Finished, now);
    }

    method Fail(path: string, name: string, now: nat)
      modifies this
      ensures rows == Close(old(rows), path, name, Failed, now)
    {
      rows := Close(rows, path, name, Failed, now);
    }

    method Invalidate(names: seq<string>, paths: seq<string>)
      modifies this
      ensures rows == ResetRows(old(rows), names, paths)
      ensures OnlyQueues(old(rows), rows)
    {
      ghost var before := rows;
      for i := 0 to |names|
        invariant rows == ResetRows(before, names[..i], paths)
      {
        var name := names[i];
        assert names[..i + 1] == names[..i] + [name];
        rows := ResetRows(rows, [name], paths);
      }
      assert names[..|names|] == names;
    }

    /** Return claimed rows, whatever has become of them. */
    method Unclaim(name: string, paths: seq<string>)
      modifies this
      ensures rows == UnclaimRows(old(rows), name, paths)
      ensures OnlyQueues(old(rows), rows)
    {
      rows := UnclaimRows(rows, name, paths);
    }

    method ResetStuck(name: string, cutoff: int)
      modifies this
      ensures rows == UnstickRows(old(rows), name, cutoff)
      ensures OnlyQueues(old(rows), rows)
    {
      rows := UnstickRows(rows, name, cutoff);
    }

    method ResetFailed(name: string)
      modifies this
      ensures rows == RetryRows(old(rows), name)
      ensures OnlyQueues(old(rows), rows)
    {
      rows := RetryRows(rows, name);
    }

    method ResetTask(name: string)
      modifies this
      ensures rows == ClearTask(old(rows), name)
      ensures OnlyQueues(old(rows), rows)
    {
      rows := ClearTask(rows, name);
    }

    method RemoveFile(path: string)
      modifies this
      ensures rows == WithoutFile(old(rows), path)
    {
      rows := WithoutFile(rows, path);
    }
  }

  function UnstickRow(r: Row, cutoff: int): Row
  {
    if r.status == Processing && r.started.Some? && r.started.value < cutoff
    then r.(status := Pending, started := None) else r
  }

  function RetryRow(r: Row): Row
  {
    if r.status == Failed then r.(status := Pending) else r
  }

  /** Rows of one task on some paths, handed to a worker. */
  function ClaimRows(q: Rows, name: string, paths: seq<string>, now: nat): Rows
  {
    map k | k in q :: if k.1 == name && k.0 in paths then q[k].(status := Processing, started := Some(now)) else q[k]
  }

  /** The row of one task on one path, closed with an outcome; no row, no change. */
  function Close(q: Rows, path: string, name: string, outcome: Status, now: nat): Rows
  {
    if (path, name) !in q then q
    else q[(path, name) := q[(path, name)].(status := outcome, completed := Some(now))]
  }

  function ResetRows(q: Rows, names: seq<string>, paths: seq<string>): Rows
  {
    map k | k in q :: if k.1 in names && k.0 in paths then Reset(q[k]) else q[k]
  }

  function UnclaimRows(q: Rows, name: string, paths: seq<string>): Rows
  {
    map k | k in q :: if k.1 == name && k.0 in paths then q[k].(status := Pending, started := None) else q[k]
  }

  // ---- What each operation leaves -------------------------------------------------

  /** The same rows are there, and only those in `named` of one task may differ. */
  ghost predicate SameBesides(q: Rows, r: Rows, name: string, named: set<string>)
  {
    r.Keys == q.Keys && forall k :: k in q && !(k.1 == name && k.0 in named) ==> r[k] == q[k]
  }

  /** The paths whose row of the task has this status. */
  ghost function With(q: Rows, name: string, status: Status): set<string>
  {
    set k | k in q && k.1 == name && q[k].status == status :: k.0
  }

  /** A sweep leaves no row of the task running since before the cutoff: those are
      pending again, as old as they were. */
  lemma NoneStuck(q: Rows, name: string, cutoff: int, path: string)
    ensures var r := UnstickRows(q, name, cutoff);
            && SameBesides(q, r, name, With(q, name, Processing))
            && ((path, name) in q && q[(path, name)].status == Processing ==>
                  if q[(path, name)].started.Some? && q[(path, name)].started.value < cutoff
                  then r[(path, name)] == Row(Pending, q[(path, name)].priority, q[(path, name)].created, None,
                                              q[(path, name)].completed)
                  else r[(path, name)] == q[(path, name)])
  {
    assert forall k :: k in q && k.1 == name && q[k].status == Processing ==> k.0 in With(q, name, Processing);
  }

  /** A retry leaves no row of the task failed. */
  lemma NoneFailed(q: Rows, name: string, path: string)
    ensures var r := RetryRows(q, name);
            && SameBesides(q, r, name, With(q, name, Failed)) && With(r, name, Failed) == {}
            && ((path, name) in q && q[(path, name)].status == Failed ==> r[(path, name)].status == Pending)
  {
    assert forall k :: k in q && k.1 == name && q[k].status == Failed ==> k.0 in With(q, name, Failed);
  }

  /** A reset of the task leaves all its rows pending, with no times but the first. */
  lemma AllPending(q: Rows, name: string)
    ensures var r := ClearTask(q, name);
            && r.Keys == q.Keys && (forall k :: k in q && k.1 != name ==> r[k] == q[k])
            && forall k :: k in q && k.1 == name ==> r[k] == Row(Pending, q[k].priority, q[k].created, None, None)
  {
  }

  /** A claim starts its rows now; giving them back makes them pending with no start. */
  lemma ClaimedAndBack(q: Rows, name: string, paths: seq<string>, now: nat)
    ensures var r, back := ClaimRows(q, name, paths, now), UnclaimRows(q, name, paths);
            && SameBesides(q, r, name, set p | p in paths) && SameBesides(q, back, name, set p | p in paths)
            && forall k :: k in q && k.1 == name && k.0 in paths ==>
                 && r[k] == Row(Processing, q[k].priority, q[k].created, Some(now), q[k].completed)
                 && back[k] == Row(Pending, q[k].priority, q[k].created, None, q[k].completed)
  {
  }

  /** An outcome closes the one row, if it is there, and dates it. */
  lemma ClosedOne(q: Rows, path: string, name: string, outcome: Status, now: nat)
    ensures var r := Close(q, path, name, outcome, now);
            && SameBesides(q, r, name, {path})
            && ((path, name) in q ==> r[(path, name)].status == outcome && r[(path, name)].completed == Some(now)
                                      && r[(path, name)].created == q[(path, name)].created
                                      && r[(path, name)].started == q[(path, name)].started)
  {
  }

  /** A new row is pending from now; one that is there is left alone, or queued again as
      old as it was. */
  lemma QueuedOne(q: Rows, path: string, name: string, now: nat)
    ensures var once, again := EnqueueRow(q, path, name, now), Requeued(q, path, name, now);
            && once.Keys == again.Keys == q.Keys + {(path, name)}
            && (forall k :: k in q ==> once[k] == q[k])
            && (forall k :: k in q && k != (path, name) ==> again[k] == q[k])
            && again[(path, name)].status == Pending && again[(path, name)].started == None
            && again[(path, name)].completed == None && again[(path, name)].priority == PriorityFor(path)
            && again[(path, name)].created == (if (path, name) in q then q[(path, name)].created else now)
            && ((path, name) !in q ==> once[(path, name)] == again[(path, name)])
  {
  }

  /** An invalidation leaves the named tasks pending on the named paths; rows that are
      pending already keep their times. */
  lemma InvalidatedAll(q: Rows, names: seq<string>, paths: seq<string>)
    ensures var r := ResetRows(q, names, paths);
            && r.Keys == q.Keys && (forall k :: k in q && !(k.1 in names && k.0 in paths) ==> r[k] == q[k])
            && forall k :: k in q && k.1 in names && k.0 in paths ==>
                 && r[k].status == Pending && r[k].created == q[k].created && r[k].priority == q[k].priority
                 && (if q[k].status == Pending then r[k] == q[k] else r[k].started == None && r[k].completed == None)
  {
  }

  /** Forgetting a file leaves no row of it, and every other. */
  lemma FileForgotten(q: Rows, path: string)
    ensures forall k :: k in WithoutFile(q, path) <==> k in q && k.0 != path
    ensures forall k :: k in q && k.0 != path ==> WithoutFile(q, path)[k] == q[k]
  {
  }
}
