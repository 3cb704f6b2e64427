/** The database lock: a condition variable that lets interactive threads go
    before background ones. Each method is one section run under the
    condition's own mutex, so one atomic step. */
module PriorityLock {

  /** Where a thread inside the lock's methods stands. `asleep` is in the
      condition's wait set; a waiter that is awake has still to look again. */
  datatype Phase = Waiting(high: bool, asleep: bool) | Holding

  type Threads = map<nat, Phase>

  datatype Event = Acquired(t: nat, ahead: set<nat>) | Released(t: nat)

  datatype Step = Enter(t: nat, high: bool) | Wake(t: nat) | Recheck(t: nat) | Exit(t: nat)

  ghost function Waiters(threads: Threads): set<nat>
  {
    set t | t in threads && threads[t].Waiting?
  }

  function Highs(threads: Threads): set<nat>
  {
    set t | t in threads && threads[t].Waiting? && threads[t].high
  }

  function Holders(threads: Threads): set<nat>
  {
    set t | t in threads && threads[t].Holding?
  }

  lemma Joins(threads: Threads, t: nat, high: bool)
    requires t !in threads
    ensures Highs(threads[t := Waiting(high, false)]) == Highs(threads) + if high then {t} else {}
    ensures |Highs(threads[t := Waiting(high, false)])| == |Highs(threads)| + if high then 1 else 0
    ensures Holders(threads[t := Waiting(high, false)]) == Holders(threads)
  {
    var more := threads[t := Waiting(high, false)];
    assert t !in Highs(threads) && Holders(more) == Holders(threads);
    if high {
      assert Highs(more) == Highs(threads) + {t};
    } else {
      assert Highs(more) == Highs(threads);
    }
    hide Highs, Holders;
  }

  lemma Stays(threads: Threads, t: nat, asleep: bool)
    requires t in threads && threads[t].Waiting?
    ensures Highs(threads[t := Waiting(threads[t].high, asleep)]) == Highs(threads)
    ensures Holders(threads[t := Waiting(threads[t].high, asleep)]) == Holders(threads)
  {
  }

  lemma Takes(threads: Threads, t: nat)
    requires t in threads && threads[t].Waiting? && Holders(threads) == {}
    ensures |Highs(threads[t := Holding])| + (if threads[t].high then 1 else 0) == |Highs(threads)|
    ensures threads[t].high ==> t in Highs(threads)
    ensures Holders(threads[t := Holding]) == {t}
  {
    assert Highs(threads) == Highs(threads[t := Holding]) + if threads[t].high then {t} else {};
    assert forall u :: u in threads && threads[u].Holding? ==> u in Holders(threads);
  }

  lemma SomeHigh(threads: Threads)
    ensures |Highs(threads)| == 0 <==> Highs(threads) == {}
  {
  }

  lemma AllWoken(threads: Threads, t: nat)
    requires t in threads && threads[t].Holding?
    ensures Highs(Woken(threads - {t})) == Highs(threads)
    ensures Holders(Woken(threads - {t})) == Holders(threads) - {t}
  {
  }

  /** Only threads that have to wait sleep. */
  ghost predicate SleepersWait(threads: Threads, held: bool, highWaiters: int)
  {
    forall t :: t in threads && threads[t].Waiting? && threads[t].asleep ==>
      MustWait(threads[t].high, held, highWaiters)
  }

  /** The loop conditions: a high thread waits only for the holder, a low one
      also for every high thread that waits. */
  predicate MustWait(high: bool, held: bool, highWaiters: int)
  {
    if high then held else held || highWaiters > 0
  }

  /** Waking all. */
  function Woken(threads: Threads): Threads
  {
    map t | t in threads :: match threads[t] case Waiting(high, _) => Waiting(high, false) case Holding => Holding
  }

  /** The lock, who stands where, and what happened so far. */
  datatype State = State(held: bool, highWaiters: int, threads: Threads, trace: seq<Event>)

  const START := State(false, 0, map[], [])

  /** A thread looks at its loop condition: it goes on sleeping, or takes the lock. */
  function Looked(s: State, t: nat): State
    requires t in s.threads && s.threads[t].Waiting?
  {
    var high := s.threads[t].high;
    if MustWait(high, s.held, s.highWaiters) then s.(threads := s.threads[t := Waiting(high, true)])
    else State(true, s.highWaiters - if high then 1 else 0, s.threads[t := Holding],
               s.trace + [Acquired(t, Highs(s.threads))])
  }

  function Next(s: State, step: Step): State
  {
    match step
    case Enter(t, high) =>
      if t in s.threads then s
      else Looked(s.(threads := s.threads[t := Waiting(high, false)],
                     highWaiters := s.highWaiters + if high then 1 else 0), t)
    case Wake(t) =>
      if t in s.threads && s.threads[t].Waiting? && s.threads[t].asleep
      then s.(threads := s.threads[t := Waiting(s.threads[t].high, false)]) else s
    case Recheck(t) =>
      if t in s.threads && s.threads[t].Waiting? && !s.threads[t].asleep then Looked(s, t) else s
    case Exit(t) =>
      if t in s.threads && s.threads[t].Holding?
      then State(false, s.highWaiters, Woken(s.threads - {t}), s.trace + [Released(t)]) else s
  }

  function After(steps: seq<Step>): State
  {
    if steps == [] then START else Next(After(steps[..|steps| - 1]), steps[|steps| - 1])
  }

  /** Acquisitions and releases alternate, each release by the thread that
      acquired; `holder` is who holds the lock at the end. */
  ghost predicate Alternates(trace: seq<Event>, holder: set<nat>)
  {
    if trace == [] then holder == {}
    else
      var n := |trace| - 1;
      match trace[n]
      case Acquired(t, _) => holder == {t} && Alternates(trace[..n], {})
      case Released(t) => holder == {} && Alternates(trace[..n], {t})
  }

  /** Whoever acquires the lock while high threads wait is one of them. */
  ghost predicate Deferential(trace: seq<Event>)
  {
    forall i :: 0 <= i < |trace| && trace[i].Acquired? && trace[i].ahead != {} ==> trace[i].t in trace[i].ahead
  }

  lemma AcquiredNext(trace: seq<Event>, t: nat, ahead: set<nat>)
    requires Alternates(trace, {}) && Deferential(trace) && (ahead == {} || t in ahead)
    ensures Alternates(trace + [Acquired(t, ahead)], {t}) && Deferential(trace + [Acquired(t, ahead)])
  {
    assert (trace + [Acquired(t, ahead)])[..|trace|] == trace;
  }

  lemma ReleasedNext(trace: seq<Event>, t: nat)
    requires Alternates(trace, {t}) && Deferential(trace)
    ensures Alternates(trace + [Released(t)], {}) && Deferential(trace + [Released(t)])
  {
    assert (trace + [Released(t)])[..|trace|] == trace;
  }

  lemma AtMostOne(trace: seq<Event>, holders: set<nat>, t: nat)
    requires Alternates(trace, holders) && t in holders
    ensures holders == {t}
  {
  }

  ghost predicate Valid(s: State)
  {
    && s.highWaiters == |Highs(s.threads)|
    && SleepersWait(s.threads, s.held, s.highWaiters)
    && (s.held <==> Holders(s.threads) != {})
    && Alternates(s.trace, Holders(s.threads))
    && Deferential(s.trace)
  }

  lemma LookedKeeps(s: State, t: nat)
    requires Valid(s) && t in s.threads && s.threads[t].Waiting?
    ensures Valid(Looked(s, t))
  {
    hide Highs, Holders, Alternates, Deferential;
    if MustWait(s.threads[t].high, s.held, s.highWaiters) {
      Stays(s.threads, t, true);
    } else {
      Takes(s.threads, t);
      SomeHigh(s.threads);
      AcquiredNext(s.trace, t, Highs(s.threads));
    }
  }

  lemma WakingKeeps(s: State, t: nat)
    requires Valid(s) && t in s.threads && s.threads[t].Waiting?
    ensures Valid(s.(threads := s.threads[t := Waiting(s.threads[t].high, false)]))
  {
    hide Highs, Holders, Alternates, Deferential;
    Stays(s.threads, t, false);
  }

  lemma NextKeeps(s: State, step: Step)
    requires Valid(s)
    ensures Valid(Next(s, step))
  {
    hide Highs, Holders, Alternates, Deferential, Looked, Woken;
    match step
    case Enter(t, high) =>
      if t !in s.threads {
        Joins(s.threads, t, high);
        LookedKeeps(s.(threads := s.threads[t := Waiting(high, false)],
                       highWaiters := s.highWaiters + if high then 1 else 0), t);
      }
    case Wake(t) =>
      if t in s.threads && s.threads[t].Waiting? { WakingKeeps(s, t); }
    case Recheck(t) =>
      if t in s.threads && s.threads[t].Waiting? { LookedKeeps(s, t); }
    case Exit(t) =>
      if t in s.threads && s.threads[t].Holding? {
        HolderIsCounted(s.threads, t);
        AtMostOne(s.trace, Holders(s.threads), t);
        AllWoken(s.threads, t);
        ReleasedNext(s.trace, t);
        AllAwake(s.threads, t);
      }
  }

  lemma HolderIsCounted(threads: Threads, t: nat)
    requires t in threads && threads[t].Holding?
    ensures t in Holders(threads)
  {
  }

  lemma AllAwake(threads: Threads, t: nat)
    ensures forall u :: u in Woken(threads - {t}) && Woken(threads - {t})[u].Waiting? ==>
              !Woken(threads - {t})[u].asleep
  {
  }

  lemma {:induction false} AfterKeeps(steps: seq<Step>)
    ensures Valid(After(steps))
  {
    if steps != [] {
      AfterKeeps(steps[..|steps| - 1]);
      NextKeeps(After(steps[..|steps| - 1]), steps[|steps| - 1]);
      hide Valid, Next;
    }
  }

  /** No wake-up is lost: a free lock with threads waiting has one that is
      awake and that, on looking, will take it. */
  ghost predicate SomeoneCanGo(s: State)
  {
    !s.held && Waiters(s.threads) != {} ==>
      exists t :: t in Waiters(s.threads) && !s.threads[t].asleep && !MustWait(s.threads[t].high, s.held, s.highWaiters)
  }

  lemma NoWakeUpLost(s: State)
    requires Valid(s)
    ensures SomeoneCanGo(s)
  {
    if s.held || Waiters(s.threads) == {} {
    } else if s.highWaiters > 0 {
      var t :| t in Highs(s.threads);
      assert t in Waiters(s.threads) && !s.threads[t].asleep && !MustWait(s.threads[t].high, s.held, s.highWaiters);
    } else {
      var t :| t in Waiters(s.threads);
      assert t !in Highs(s.threads);
      assert !s.threads[t].asleep && !MustWait(s.threads[t].high, s.held, s.highWaiters);
    }
  }

  /** Three threads: the first takes the lock, a background and an interactive one wait;
      when the first leaves, the interactive one goes ahead. */
  lemma InteractiveGoesFirst()
    ensures var s := After([Enter(1, false), Enter(2, false), Enter(3, true), Exit(1), Recheck(2), Recheck(3)]);
            && s.threads == map[2 := Waiting(false, true), 3 := Holding]
            && s.trace == [Acquired(1, {}), Released(1), Acquired(3, {3})]
  {
    hide *;
    SixSteps([Enter(1, false), Enter(2, false), Enter(3, true), Exit(1), Recheck(2), Recheck(3)]);
    ThreeEnter();
    TwoLook();
  }

  lemma SixSteps(all: seq<Step>)
    requires |all| == 6
    ensures After(all) == Next(Next(Next(Next(Next(Next(START, all[0]), all[1]), all[2]), all[3]), all[4]), all[5])
  {
    NothingYet();
    assert all[..0] == [] && all[..6] == all;
    forall i | 0 <= i < 6
      ensures After(all[..i + 1]) == Next(After(all[..i]), all[i])
    {
      assert all[..i + 1][..i] == all[..i];
    }
    hide After, Next;
    assert After(all[..0 + 1]) == Next(START, all[0]) && After(all[..1 + 1]) == Next(After(all[..1]), all[1]);
    assert After(all[..2 + 1]) == Next(After(all[..2]), all[2]) && After(all[..3 + 1]) == Next(After(all[..3]), all[3]);
    assert After(all[..4 + 1]) == Next(After(all[..4]), all[4]) && After(all[..5 + 1]) == Next(After(all[..5]), all[5]);
  }

  lemma NothingYet()
    ensures After([]) == START
  {
  }

  lemma ThreeEnter()
    ensures Next(Next(Next(START, Enter(1, false)), Enter(2, false)), Enter(3, true))
         == State(true, 1, map[1 := Holding, 2 := Waiting(false, true), 3 := Waiting(true, true)], [Acquired(1, {})])
  {
    assert Highs(map[1 := Waiting(false, false)]) == {};
    assert Next(START, Enter(1, false)) == State(true, 0, map[1 := Holding], [Acquired(1, {})]);
  }

  lemma TwoLook()
    ensures var s := State(true, 1, map[1 := Holding, 2 := Waiting(false, true), 3 := Waiting(true, true)],
                           [Acquired(1, {})]);
            Next(Next(Next(s, Exit(1)), Recheck(2)), Recheck(3))
            == State(true, 0, map[2 := Waiting(false, true), 3 := Holding],
                     [Acquired(1, {}), Released(1), Acquired(3, {3})])
  {
    var s := State(true, 1, map[1 := Holding, 2 := Waiting(false, true), 3 := Waiting(true, true)], [Acquired(1, {})]);
    var t := Next(s, Exit(1));
    assert t.threads == map[2 := Waiting(false, false), 3 := Waiting(true, false)];
    assert Next(t, Recheck(2)).threads == map[2 := Waiting(false, true), 3 := Waiting(true, false)];
    assert Highs(map[2 := Waiting(false, true), 3 := Waiting(true, false)]) == {3};
  }

  /** Once the holder has left, whatever happened before, the lock is free; and if
      threads wait, one of them takes it by looking once, an interactive one if there
      are any. */
  lemma ReleasedIsTaken(steps: seq<Step>, t: nat)
    requires t in After(steps).threads && After(steps).threads[t].Holding?
    ensures var s := After(steps + [Exit(t)]);
            && !s.held && t !in s.threads && Holders(s.threads) == {}
            && s.trace == After(steps).trace + [Released(t)]
            && s.threads.Keys == After(steps).threads.Keys - {t}
            && (Waiters(s.threads) != {} ==>
                  exists u :: && u in Waiters(s.threads)
                              && (Highs(s.threads) != {} ==> u in Highs(s.threads))
                              && TakesIt(s, After(steps + [Exit(t), Recheck(u)]), u))
  {
    var s := After(steps + [Exit(t)]);
    assert (steps + [Exit(t)])[..|steps|] == steps;
    AfterKeeps(steps);
    AfterKeeps(steps + [Exit(t)]);
    AtMostOne(After(steps).trace, Holders(After(steps).threads), t);
    NoWakeUpLost(s);
    assert s.trace == After(steps).trace + [Released(t)];
    NoneHolds(s);
    if Waiters(s.threads) != {} {
      var u :| u in Waiters(s.threads) && !s.threads[u].asleep && !MustWait(s.threads[u].high, s.held, s.highWaiters);
      assert (steps + [Exit(t), Recheck(u)])[..|steps| + 1] == steps + [Exit(t)];
      hide After;
      SomeHigh(s.threads);
      Takes(s.threads, u);
      assert TakesIt(s, Next(s, Recheck(u)), u);
    }
  }

  lemma NoneHolds(s: State)
    requires Valid(s) && s.trace != [] && s.trace[|s.trace| - 1].Released?
    ensures Holders(s.threads) == {} && !s.held
  {
  }

  /** The thread holds the lock, alone, and the acquisition is on record. */
  ghost predicate TakesIt(s: State, r: State, u: nat)
  {
    && r.held && Holders(r.threads) == {u} && r.threads.Keys == s.threads.Keys
    && r.trace == s.trace + [Acquired(u, Highs(s.threads))]
  }

  class Lock {
    var held: bool
    var highWaiters: int
    var threads: Threads
    ghost var trace: seq<Event>

    ghost function Now(): State
      reads this
    {
      State(held, highWaiters, threads, trace)
    }

    constructor ()
      ensures Now() == START
    {
      held, highWaiters, threads, trace := false, 0, map[], [];
    }

    method Enter(t: nat, high: bool)
      requires t !in threads
      modifies this
      ensures Now() == Next(old(Now()), Step.Enter(t, high))
      ensures if old(held) || (!high && old(highWaiters) > 0)
              then threads == old(threads)[t := Waiting(high, true)] && trace == old(trace) && held == old(held)
              else threads == old(threads)[t := Holding] && held
                   && trace == old(trace) + [Acquired(t, Highs(old(threads)) + if high then {t} else {})]
    {
      Joins(threads, t, high);
      threads := threads[t := Waiting(high, false)];
      if high {
        highWaiters := highWaiters + 1;
      }
      Recheck(t);
    }

    /** Look at the loop condition: go on sleeping, or take the lock. */
    method Recheck(t: nat)
      requires t in threads && threads[t].Waiting? && !threads[t].asleep
      modifies this
      ensures Now() == Looked(old(Now()), t)
      ensures if old(held) || (!old(threads)[t].high && old(highWaiters) > 0)
              then threads == old(threads)[t := Waiting(old(threads)[t].high, true)] && trace == old(trace)
                   && held == old(held) && highWaiters == old(highWaiters)
              else threads == old(threads)[t := Holding] && trace == old(trace) + [Acquired(t, Highs(old(threads)))]
                   && held && highWaiters == old(highWaiters) - if old(threads)[t].high then 1 else 0
    {
      var high := threads[t].high;
      if MustWait(high, held, highWaiters) {
        threads := threads[t := Waiting(high, true)];
        return;
      }
      trace := trace + [Acquired(t, Highs(threads))];
      if high {
        highWaiters := highWaiters - 1;
      }
      held := true;
      threads := threads[t := Holding];
    }

    /** A notification, or a wake-up without one. */
    method Wake(t: nat)
      requires t in threads && threads[t].Waiting? && threads[t].asleep
      modifies this`threads
      ensures Now() == Next(old(Now()), Step.Wake(t))
      ensures threads == old(threads)[t := Waiting(old(threads)[t].high, false)]
    {
      threads := threads[t := Waiting(threads[t].high, false)];
    }

    method Exit(t: nat)
      requires t in threads && threads[t].Holding?
      modifies this
      ensures Now() == Next(old(Now()), Step.Exit(t))
      ensures !held && highWaiters == old(highWaiters) && trace == old(trace) + [Released(t)]
      ensures threads.Keys == old(threads).Keys - {t}
      ensures forall u :: u in threads && old(threads)[u].Waiting? ==>
                threads[u] == Waiting(old(threads)[u].high, false)
      ensures forall u :: u in threads && old(threads)[u].Holding? ==> threads[u].Holding?
    {
      held := false;
      threads := Woken(threads - {t});
      trace := trace + [Released(t)];
    }

    method Take(step: Step)
      modifies this
      ensures Now() == Next(old(Now()), step)
    {
      match step {
        case Enter(t, high) =>
          if t !in threads { Enter(t, high); }
        case Wake(t) =>
          if t in threads && threads[t].Waiting? && threads[t].asleep { Wake(t); }
        case Recheck(t) =>
          if t in threads && threads[t].Waiting? && !threads[t].asleep { Recheck(t); }
        case Exit(t) =>
          if t in threads && threads[t].Holding? { Exit(t); }
      }
    }
  }

  /** All interleavings: no two threads hold the lock at once, no background
      thread takes it while an interactive one waits, and no wake-up is lost. */
  method Run(steps: seq<Step>) returns (lock: Lock)
    ensures lock.Now() == After(steps)
    ensures Alternates(lock.trace, Holders(lock.threads)) && Deferential(lock.trace)
    ensures SomeoneCanGo(lock.Now())
  {
    hide Next;
    lock := new Lock();
    assert steps[..0] == [];
    for i := 0 to |steps|
      invariant fresh(lock) && lock.Now() == After(steps[..i])
    {
      lock.Take(steps[i]);
      assert steps[..i + 1][..i] == steps[..i];
    }
    assert steps[..|steps|] == steps;
    AfterKeeps(steps);
    NoWakeUpLost(lock.Now());
  }
}
