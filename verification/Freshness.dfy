/** When a result in the queue is up to date, and the invariant that makes every
    quiet path up to date. */
module Freshness {
  import opened PipelineGraph
  import opened TaskQueue

  /** When the row was closed. */
  function Time(q: Rows, path: string, name: string): nat
    requires (path, name) in q
  {
    if q[(path, name)].completed.Some? then q[(path, name)].completed.value else 0
  }

  function DepMet(q: Rows, path: string, ups: set<string>, all: bool): bool
  {
    if ups == {} then true
    else if all then forall u :: u in ups ==> Done(q, path, u)
    else exists u :: u in ups && Done(q, path, u)
  }

  /** Upstream dependencies of a task are satisfied on a path. */
  function DepsMet(tasks: seq<Task>, q: Rows, path: string, t: Task): bool
  {
    DepMet(q, path, UpstreamOf(tasks, t), t.requireAll)
  }

  /** `u` ended before `b` did. */
  ghost predicate Before(q: Rows, path: string, u: string, b: string)
  {
    Done(q, path, u) && Done(q, path, b) && Time(q, path, u) < Time(q, path, b)
  }

  /** What a finished task claims: its inputs are finished and older. */
  ghost predicate Fresh(tasks: seq<Task>, q: Rows, path: string, b: Task)
  {
    forall u :: u in UpstreamOf(tasks, b) ==>
                  (b.requireAll || Done(q, path, u) ==> Before(q, path, u, b.name))
  }

  /** Work on `u` is still under way: queued, running, or failed in a batch
      whose end will reset everything below it. */
  ghost predicate Unsettled(q: Rows, owed: set<Key>, path: string, u: string)
  {
    Open(q, path, u) || (path, u) in owed
  }

  /** The condition one finished row satisfies at every moment. */
  ghost predicate Sound(tasks: seq<Task>, q: Rows, owed: set<Key>, path: string, b: Task)
  {
    var ups := UpstreamOf(tasks, b);
    if b.requireAll then
      && (forall u :: u in ups ==> Done(q, path, u) || Unsettled(q, owed, path, u))
      && (Fresh(tasks, q, path, b) || exists u :: u in ups && Unsettled(q, owed, path, u))
    else
      && Fresh(tasks, q, path, b)
      && (ups != {} ==> exists u :: u in ups && (Done(q, path, u) || Unsettled(q, owed, path, u)))
  }

  /** No task is left out whose inputs are there: it has a row. */
  ghost predicate NoneMissing(tasks: seq<Task>, q: Rows)
  {
    forall path, b :: b in tasks && b.isPath && UpstreamOf(tasks, b) != {} && DepsMet(tasks, q, path, b)
                      ==> (path, b.name) in q
  }

  ghost predicate Clocked(q: Rows, clock: nat)
  {
    forall k :: k in q && q[k].status == Finished ==> q[k].completed.Some? && q[k].completed.value < clock
  }

  ghost predicate Inv(tasks: seq<Task>, q: Rows, owed: set<Key>, clock: nat)
  {
    && Clocked(q, clock) && NoneMissing(tasks, q)
    && forall path, b :: b in tasks && b.isPath && Done(q, path, b.name) ==> Sound(tasks, q, owed, path, b)
  }

  /** What a finished task claims, by who writes what it reads: the first writers, of its
      kind, of the tables it reads ended before it, all of them or those that are
      finished; and if there are any, one at least is finished. */
  ghost predicate NewerThanInputs(tasks: seq<Task>, q: Rows, path: string, b: Task)
  {
    && (forall i :: Supplies(tasks, i, b) && (b.requireAll || Done(q, path, tasks[i].name)) ==>
          Before(q, path, tasks[i].name, b.name))
    && (Supplied(tasks, b) ==> exists i :: Supplies(tasks, i, b) && Done(q, path, tasks[i].name))
  }

  /** The task's inputs are there, by who writes what it reads. */
  ghost predicate InputsThere(tasks: seq<Task>, q: Rows, path: string, t: Task)
  {
    if t.requireAll then forall i :: Supplies(tasks, i, t) ==> Done(q, path, tasks[i].name)
    else Supplied(tasks, t) ==> exists i :: Supplies(tasks, i, t) && Done(q, path, tasks[i].name)
  }

  lemma DepsMetExactly(tasks: seq<Task>, q: Rows, path: string, t: Task)
    ensures DepsMet(tasks, q, path, t) <==> InputsThere(tasks, q, path, t)
  {
    hide Done, UpstreamOf, FirstWriter;
    var ups := UpstreamOf(tasks, t);
    forall i | Supplies(tasks, i, t)
      ensures tasks[i].name in ups
    {
      UpstreamExactly(tasks, t, tasks[i].name);
    }
    forall u | u in ups
      ensures exists i :: Supplies(tasks, i, t) && tasks[i].name == u
    {
      UpstreamExactly(tasks, t, u);
    }
  }

  /** A path with nothing queued, running or owed is fresh throughout. */
  lemma QuietIsFresh(tasks: seq<Task>, q: Rows, owed: set<Key>, clock: nat, path: string)
    requires Inv(tasks, q, owed, clock)
    requires forall n :: !Unsettled(q, owed, path, n)
    ensures forall b :: b in tasks && b.isPath && Done(q, path, b.name) ==> NewerThanInputs(tasks, q, path, b)
  {
    forall b | b in tasks && b.isPath && Done(q, path, b.name)
      ensures NewerThanInputs(tasks, q, path, b)
    {
      assert Sound(tasks, q, owed, path, b);
      SoundIsNewer(tasks, q, owed, path, b);
    }
  }

  lemma SoundIsNewer(tasks: seq<Task>, q: Rows, owed: set<Key>, path: string, b: Task)
    requires Sound(tasks, q, owed, path, b) && forall n :: !Unsettled(q, owed, path, n)
    ensures NewerThanInputs(tasks, q, path, b)
  {
    hide Done, Unsettled, Before, UpstreamOf, FirstWriter;
    var ups := UpstreamOf(tasks, b);
    forall i | Supplies(tasks, i, b)
      ensures tasks[i].name in ups
    {
      UpstreamExactly(tasks, b, tasks[i].name);
    }
    if i :| Supplies(tasks, i, b) {
      var u :| u in ups && Done(q, path, u);
      UpstreamExactly(tasks, b, u);
    }
  }

  /** Opening rows, and letting time pass, keeps the invariant. */
  lemma OpeningKeepsInv(tasks: seq<Task>, q: Rows, r: Rows, owed: set<Key>, clock: nat, later: nat)
    requires Inv(tasks, q, owed, clock) && OnlyOpens(q, r) && clock <= later
    ensures Inv(tasks, r, owed, later)
  {
    NoneMissingAfter(tasks, q, r);
    forall path, b | b in tasks && b.isPath && Done(r, path, b.name)
      ensures Sound(tasks, r, owed, path, b)
    {
      assert Sound(tasks, q, owed, path, b);
      SoundUnderOpening(tasks, q, r, owed, path, b);
    }
  }

  lemma SoundUnderOpening(tasks: seq<Task>, q: Rows, r: Rows, owed: set<Key>, path: string, b: Task)
    requires OnlyOpens(q, r) && Done(r, path, b.name) && Done(q, path, b.name) && Sound(tasks, q, owed, path, b)
    ensures Sound(tasks, r, owed, path, b)
  {
    var ups := UpstreamOf(tasks, b);
    forall u
      ensures Done(r, path, u) ==> Done(q, path, u) && r[(path, u)] == q[(path, u)]
      ensures Done(q, path, u) && !Done(r, path, u) ==> Open(r, path, u)
      ensures Unsettled(q, owed, path, u) ==> Unsettled(r, owed, path, u)
    {
    }
    if Fresh(tasks, q, path, b) && !Fresh(tasks, r, path, b) {
      var u :| u in ups && (b.requireAll || Done(r, path, u)) && !Before(r, path, u, b.name);
      assert Before(q, path, u, b.name);
    }
  }

  /** No row is lost and nothing but rows in `opened` is finished anew. */
  lemma NoneMissingAfter(tasks: seq<Task>, q: Rows, r: Rows)
    requires NoneMissing(tasks, q) && (forall k :: k in q ==> k in r)
    requires forall path, n :: Done(r, path, n) ==> Done(q, path, n)
    ensures NoneMissing(tasks, r)
  {
    hide Done, UpstreamOf;
    forall path, b | b in tasks && b.isPath && UpstreamOf(tasks, b) != {} && DepsMet(tasks, r, path, b)
      ensures (path, b.name) in r
    {
      assert DepsMet(tasks, q, path, b);
    }
  }

  /** After `a` completed on a path and its readers were offered the news: each
      reader is queued again, or still waits for something. */
  ghost predicate ReadersTold(tasks: seq<Task>, r: Rows, path: string, a: string)
  {
    forall b :: b in tasks && b.isPath && a in UpstreamOf(tasks, b) && DepsMet(tasks, r, path, b)
                ==> Open(r, path, b.name)
  }

  /** Completing a task whose inputs are finished, and telling its readers. */
  lemma CompletingKeepsInv(tasks: seq<Task>, q: Rows, r: Rows, owed: set<Key>, clock: nat, path: string, a: Task)
    requires Registry(tasks) && a in tasks && a.isPath && Inv(tasks, q, owed, clock)
    requires DepsMet(tasks, q, path, a)
    requires OnlyOpens(Close(q, path, a.name, Finished, clock), r) && ReadersTold(tasks, r, path, a.name)
    ensures Inv(tasks, r, owed, clock + 1)
  {
    var mid := Close(q, path, a.name, Finished, clock);
    NoneMissingOnceTold(tasks, q, r, path, a.name, clock);
    forall p, b | b in tasks && b.isPath && Done(r, p, b.name)
      ensures Sound(tasks, r, owed, p, b)
    {
      if p != path || (path, a.name) !in q {
        assert forall n :: (p, n) in mid <==> (p, n) in q;
        assert forall n :: (p, n) in q ==> mid[(p, n)] == q[(p, n)];
        SoundElsewhere(tasks, q, mid, owed, p, b);
        SoundUnderOpening(tasks, mid, r, owed, p, b);
      } else if b.name == a.name {
        assert b == a by { GetByName(tasks, a); GetByName(tasks, b); }
        SoundOfCompleted(tasks, q, r, owed, clock, path, a);
      } else {
        SoundOfReader(tasks, q, r, owed, clock, path, a, b);
      }
    }
  }

  lemma NoneMissingOnceTold(tasks: seq<Task>, q: Rows, r: Rows, path: string, a: string, clock: nat)
    requires NoneMissing(tasks, q) && OnlyOpens(Close(q, path, a, Finished, clock), r)
    requires ReadersTold(tasks, r, path, a)
    ensures NoneMissing(tasks, r)
  {
    forall p, n | Done(r, p, n)
      ensures Done(q, p, n) || (p == path && n == a)
    {
    }
    hide Done, UpstreamOf, Open;
    forall p, b | b in tasks && b.isPath && UpstreamOf(tasks, b) != {} && DepsMet(tasks, r, p, b)
      ensures (p, b.name) in r
    {
      if p == path && a in UpstreamOf(tasks, b) {
        assert Open(r, path, b.name);
        OpenIsThere(r, path, b.name);
      } else {
        assert DepsMet(tasks, q, p, b);
      }
    }
  }

  lemma OpenIsThere(q: Rows, path: string, name: string)
    requires Open(q, path, name)
    ensures (path, name) in q
  {
  }

  lemma SoundElsewhere(tasks: seq<Task>, q: Rows, r: Rows, owed: set<Key>, path: string, b: Task)
    requires forall n :: (path, n) in r <==> (path, n) in q
    requires forall n :: (path, n) in q ==> r[(path, n)] == q[(path, n)]
    requires Done(q, path, b.name) ==> Sound(tasks, q, owed, path, b)
    ensures Done(r, path, b.name) ==> Sound(tasks, r, owed, path, b)
  {
    if Done(r, path, b.name) {
      forall u
        ensures Done(r, path, u) <==> Done(q, path, u)
        ensures Unsettled(r, owed, path, u) <==> Unsettled(q, owed, path, u)
        ensures Before(r, path, u, b.name) <==> Before(q, path, u, b.name)
      {
      }
    }
  }

  /** The task that just completed is newer than its finished inputs. */
  lemma SoundOfCompleted(tasks: seq<Task>, q: Rows, r: Rows, owed: set<Key>, clock: nat, path: string, a: Task)
    requires Clocked(q, clock) && DepsMet(tasks, q, path, a) && (path, a.name) in q
    requires OnlyOpens(Close(q, path, a.name, Finished, clock), r)
    requires a in tasks && a.isPath && ReadersTold(tasks, r, path, a.name) && Done(r, path, a.name)
    ensures Sound(tasks, r, owed, path, a)
  {
    var ups := UpstreamOf(tasks, a);
    forall u | u in ups && u != a.name
      ensures Done(r, path, u) ==> Before(r, path, u, a.name)
      ensures Done(q, path, u) && !Done(r, path, u) ==> Open(r, path, u)
    {
    }
    if a.requireAll {
      if !Fresh(tasks, r, path, a) {
        var u :| u in ups && !Before(r, path, u, a.name);
        if u == a.name {
          var w :| w in ups && !Done(r, path, w);
          assert Unsettled(r, owed, path, w);
        } else {
          assert Unsettled(r, owed, path, u);
        }
      }
    }
  }

  /** A finished task other than the one that completed. */
  lemma SoundOfReader(tasks: seq<Task>, q: Rows, r: Rows, owed: set<Key>, clock: nat, path: string, a: Task, b: Task)
    requires Inv(tasks, q, owed, clock) && b in tasks && b.isPath && b.name != a.name && (path, a.name) in q
    requires OnlyOpens(Close(q, path, a.name, Finished, clock), r)
    requires ReadersTold(tasks, r, path, a.name) && Done(r, path, b.name)
    ensures Sound(tasks, r, owed, path, b)
  {
    var ups := UpstreamOf(tasks, b);
    assert Done(q, path, b.name) && Sound(tasks, q, owed, path, b);
    forall u | u != a.name
      ensures Done(r, path, u) ==> Done(q, path, u) && r[(path, u)] == q[(path, u)]
      ensures Done(q, path, u) && !Done(r, path, u) ==> Open(r, path, u)
      ensures Unsettled(q, owed, path, u) ==> Unsettled(r, owed, path, u)
    {
    }
    assert Done(r, path, a.name) || Open(r, path, a.name);
    if a.name in ups {
      if b.requireAll {
        var c :| c in ups && !Done(r, path, c);
        assert Unsettled(r, owed, path, c);
      } else {
        assert forall u :: u in ups ==> !Done(r, path, u);
      }
    } else if Fresh(tasks, q, path, b) && !Fresh(tasks, r, path, b) {
      var u :| u in ups && (b.requireAll || Done(r, path, u)) && !Before(r, path, u, b.name);
      assert Before(q, path, u, b.name);
    }
  }

  /** A failure is owed until its batch ends. */
  lemma FailingKeepsInv(tasks: seq<Task>, q: Rows, owed: set<Key>, clock: nat, path: string, name: string)
    requires Inv(tasks, q, owed, clock)
    ensures Inv(tasks, Close(q, path, name, Failed, clock), owed + {(path, name)}, clock + 1)
  {
    var r, more := Close(q, path, name, Failed, clock), owed + {(path, name)};
    NoneMissingAfter(tasks, q, r);
    forall p, b | b in tasks && b.isPath && Done(r, p, b.name)
      ensures Sound(tasks, r, more, p, b)
    {
      assert Sound(tasks, q, owed, p, b);
      var ups := UpstreamOf(tasks, b);
      forall u
        ensures Done(r, p, u) ==> Done(q, p, u) && r[(p, u)] == q[(p, u)]
        ensures Done(q, p, u) && !Done(r, p, u) ==> Unsettled(r, more, p, u)
        ensures Unsettled(q, owed, p, u) ==> Unsettled(r, more, p, u)
      {
      }
      if Fresh(tasks, q, p, b) && !Fresh(tasks, r, p, b) {
        var u :| u in ups && (b.requireAll || Done(r, p, u)) && !Before(r, p, u, b.name);
        assert Before(q, p, u, b.name);
      }
    }
  }

  /** Once everything below the failures is reset, nothing is owed for them. */
  lemma SettlingKeepsInv(tasks: seq<Task>, q: Rows, owed: set<Key>, less: set<Key>, clock: nat)
    requires Inv(tasks, q, owed, clock) && less <= owed
    requires forall path, u, b :: (path, u) in owed - less && b in tasks && b.isPath && u in UpstreamOf(tasks, b)
                                  ==> !Done(q, path, b.name)
    ensures Inv(tasks, q, less, clock)
  {
    forall path, b | b in tasks && b.isPath && Done(q, path, b.name)
      ensures Sound(tasks, q, less, path, b)
    {
      assert Sound(tasks, q, owed, path, b);
      forall u | u in UpstreamOf(tasks, b)
        ensures Unsettled(q, owed, path, u) ==> Unsettled(q, less, path, u)
      {
        assert (path, u) !in owed - less;
      }
    }
  }

  /** Forgetting a file forgets all its rows together. */
  lemma ForgettingKeepsInv(tasks: seq<Task>, q: Rows, owed: set<Key>, clock: nat, path: string)
    requires Inv(tasks, q, owed, clock)
    ensures Inv(tasks, WithoutFile(q, path), owed, clock)
  {
    var r := WithoutFile(q, path);
    NoneMissingWithout(tasks, q, path);
    forall p, b | b in tasks && b.isPath && Done(r, p, b.name)
      ensures Sound(tasks, r, owed, p, b)
    {
      SoundElsewhere(tasks, q, r, owed, p, b);
    }
  }

  lemma NoneMissingWithout(tasks: seq<Task>, q: Rows, path: string)
    requires NoneMissing(tasks, q)
    ensures NoneMissing(tasks, WithoutFile(q, path))
  {
    var r := WithoutFile(q, path);
    forall p, b | b in tasks && b.isPath && UpstreamOf(tasks, b) != {} && DepsMet(tasks, r, p, b)
      ensures (p, b.name) in r
    {
      var u :| u in UpstreamOf(tasks, b) && Done(r, p, u);
      assert forall n :: Done(r, p, n) ==> Done(q, p, n);
      assert DepsMet(tasks, q, p, b);
    }
  }
}
