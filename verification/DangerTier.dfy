/** How dangerous it is to fire a channel: a depth-first walk over what listens,
    with one visited set shared by all its branches. */
module DangerTier {
  import Paths

  datatype Tier = Read | Write | Egress | Unknown(name: string)

  /** A tier outside the vocabulary counts as the lowest. */
  function Order(t: Tier): nat
  {
    match t
    case Read => 0
    case Write => 1
    case Egress => 2
    case Unknown(_) => 0
  }

  datatype Task = Task(tier: Tier, triggers: seq<string>, declared: seq<string>)

  /** Firing `c` can fire `d`: a task listens on `c` and declares `d`. */
  ghost predicate Leads(tasks: seq<Task>, c: string, d: string)
  {
    exists i :: 0 <= i < |tasks| && c in tasks[i].triggers && d in tasks[i].declared
  }

  ghost function Onward(tasks: seq<Task>): (string, string) -> bool
  {
    (c, d) => Leads(tasks, c, d)
  }

  function Max(a: nat, b: nat): nat
  {
    if a > b then a else b
  }

  /** The highest tier among the tasks that listen on a channel of `s`. */
  ghost function Worst(tasks: seq<Task>, s: set<string>): nat
  {
    if tasks == [] then 0
    else
      var t := tasks[|tasks| - 1];
      var rest := Worst(tasks[..|tasks| - 1], s);
      if exists c :: c in s && c in t.triggers then Max(Order(t.tier), rest) else rest
  }

  lemma WorstOfNoTasks(s: set<string>)
    ensures Worst([], s) == 0
  {
  }

  lemma WorstNext(tasks: seq<Task>, i: nat, s: set<string>)
    requires i < |tasks|
    ensures Worst(tasks[..i + 1], s)
         == if exists c :: c in s && c in tasks[i].triggers then Max(Order(tasks[i].tier), Worst(tasks[..i], s))
            else Worst(tasks[..i], s)
  {
    assert tasks[..i + 1][..i] == tasks[..i] && tasks[..i + 1][i] == tasks[i];
  }

  lemma {:induction false} WorstOfUnion(tasks: seq<Task>, a: set<string>, b: set<string>)
    ensures Worst(tasks, a + b) == Max(Worst(tasks, a), Worst(tasks, b))
  {
    if tasks != [] { WorstOfUnion(tasks[..|tasks| - 1], a, b); }
  }

  lemma {:induction false} WorstOfNone(tasks: seq<Task>)
    ensures Worst(tasks, {}) == 0
  {
    if tasks != [] { WorstOfNone(tasks[..|tasks| - 1]); }
  }

  /** `Worst` is a maximum: a bound on all listeners, and one listener's tier. */
  lemma {:induction false} WorstIsMaximum(tasks: seq<Task>, s: set<string>)
    ensures forall i, c :: 0 <= i < |tasks| && c in s && c in tasks[i].triggers
                           ==> Order(tasks[i].tier) <= Worst(tasks, s)
    ensures Worst(tasks, s) > 0 ==>
              exists i, c :: 0 <= i < |tasks| && c in s && c in tasks[i].triggers
                             && Order(tasks[i].tier) == Worst(tasks, s)
  {
    if tasks != [] {
      var n := |tasks| - 1;
      WorstIsMaximum(tasks[..n], s);
      if Worst(tasks, s) > 0 && Worst(tasks, s) == Worst(tasks[..n], s) {
        var i, c :| 0 <= i < n && c in s && c in tasks[..n][i].triggers
                    && Order(tasks[..n][i].tier) == Worst(tasks, s);
        assert tasks[i] == tasks[..n][i];
      }
      forall i, c | 0 <= i < |tasks| && c in s && c in tasks[i].triggers
        ensures Order(tasks[i].tier) <= Worst(tasks, s)
      {
        if i < n { assert tasks[i] == tasks[..n][i]; }
      }
    }
  }

  /** One walk: the visited set its recursive calls share. */
  class ChannelWalk {
    const tasks: seq<Task>
    ghost const channels: set<string>  // the root and every declared channel
    var seen: set<string>

    constructor (tasks: seq<Task>, root: string)
      ensures this.tasks == tasks && seen == {}
      ensures Universe() && root in channels
    {
      this.tasks := tasks;
      channels := {root} + set i, d | 0 <= i < |tasks| && d in tasks[i].declared :: d;
      seen := {};
    }

    ghost predicate Universe()
    {
      forall i, d :: 0 <= i < |tasks| && d in tasks[i].declared ==> d in channels
    }

    /** All edges out of `c` stay within `s`. */
    ghost predicate Expanded(c: string, s: set<string>)
    {
      forall d :: Leads(tasks, c, d) ==> d in s
    }

    /** The call answers for exactly the channels it visits first. */
    method Visit(channel: string) returns (tier: Tier)
      requires Universe() && channel in channels && seen <= channels
      modifies this
      ensures old(seen) <= seen <= channels && channel in seen
      ensures forall c :: c in seen - old(seen) ==> Expanded(c, seen) && Paths.Reaches(Onward(tasks), channel, c)
      ensures Order(tier) == Worst(tasks, seen - old(seen)) && !tier.Unknown?
      decreases channels - seen
    {
      hide Worst;
      if channel in seen {
        WorstOfNone(tasks);
        assert seen - old(seen) == {};
        return Read;
      }
      seen := seen + {channel};
      tier := Read;
      ghost var deeper: set<string> := {};   // newly visited, other than `channel`
      Paths.ReachesSelf(Onward(tasks), channel);
      WorstOfNone(tasks);
      WorstOfNoTasks({channel});
      assert tasks[..0] == [];
      for i := 0 to |tasks|
        invariant !tier.Unknown? && old(seen) + {channel} <= seen <= channels
        invariant deeper == seen - old(seen) - {channel}
        invariant forall c :: c in deeper ==> Expanded(c, seen) && Paths.Reaches(Onward(tasks), channel, c)
        invariant forall m, d :: 0 <= m < i && channel in tasks[m].triggers && d in tasks[m].declared ==> d in seen
        invariant Order(tier) == Max(Worst(tasks[..i], {channel}), Worst(tasks, deeper))
      {
        var task := tasks[i];
        WorstNext(tasks, i, {channel});
        if channel !in task.triggers {
          continue;
        }
        assert channel in {channel};
        if Order(task.tier) > Order(tier) {
          tier := task.tier;
        }
        for j := 0 to |task.declared|
          invariant !tier.Unknown? && old(seen) + {channel} <= seen <= channels
          invariant deeper == seen - old(seen) - {channel}
          invariant forall c :: c in deeper ==> Expanded(c, seen) && Paths.Reaches(Onward(tasks), channel, c)
          invariant forall m, d :: 0 <= m < i && channel in tasks[m].triggers && d in tasks[m].declared ==> d in seen
          invariant forall m :: 0 <= m < j ==> task.declared[m] in seen
          invariant Order(tier) == Max(Worst(tasks[..i + 1], {channel}), Worst(tasks, deeper))
        {
          var onward := task.declared[j];
          ghost var before := seen;
          assert Leads(tasks, channel, onward);
          Paths.ReachesEdge(Onward(tasks), channel, channel, onward);
          var downstream := Visit(onward);
          forall c | c in seen - before
            ensures Paths.Reaches(Onward(tasks), channel, c)
          {
            Paths.ReachesTransitive(Onward(tasks), channel, onward, c);
          }
          WorstOfUnion(tasks, deeper, seen - before);
          assert seen - old(seen) - {channel} == deeper + (seen - before);
          deeper := deeper + (seen - before);
          if Order(downstream) > Order(tier) {
            tier := downstream;
          }
        }
      }
      assert tasks[..|tasks|] == tasks;
      WorstOfUnion(tasks, {channel}, deeper);
      assert seen - old(seen) == {channel} + deeper;
    }
  }

  /** A task of this tier can be started by firing the channel. */
  ghost predicate CanStart(tasks: seq<Task>, channel: string, tier: Tier)
  {
    exists i, c :: 0 <= i < |tasks| && Paths.Reaches(Onward(tasks), channel, c) && c in tasks[i].triggers
                   && tasks[i].tier == tier
  }

  /** The root call: exactly the worst tier over every task reachable through
      trigger and declared channels, on cyclic declarations too. */
  method ChannelDangerTier(channel: string, tasks: seq<Task>) returns (tier: Tier)
    ensures !tier.Unknown?
    ensures tier == if CanStart(tasks, channel, Egress) then Egress
                    else if CanStart(tasks, channel, Write) then Write else Read
    ensures forall i, c :: 0 <= i < |tasks| && Paths.Reaches(Onward(tasks), channel, c) && c in tasks[i].triggers
                           ==> Order(tasks[i].tier) <= Order(tier)
    ensures Order(tier) > 0 ==>
              exists i, c :: 0 <= i < |tasks| && Paths.Reaches(Onward(tasks), channel, c)
                             && c in tasks[i].triggers && Order(tasks[i].tier) == Order(tier)
  {
    var walk := new ChannelWalk(tasks, channel);
    tier := walk.Visit(channel);
    WorstIsMaximum(tasks, walk.seen);
    assert walk.seen - {} == walk.seen;
    forall c, d | c in walk.seen && Onward(tasks)(c, d)
      ensures d in walk.seen
    {
      assert c in walk.seen - {};
      assert walk.Expanded(c, walk.seen);
    }
    forall c | Paths.Reaches(Onward(tasks), channel, c)
      ensures c in walk.seen
    {
      var p :| Paths.Walk(Onward(tasks), p, channel, c);
      Paths.ClosedHoldsReached(Onward(tasks), walk.seen, p);
    }
  }
}
