/** When a one-time job fires, over any passes of the timekeeper. */
module OneTimeJobs {
  import opened Basics
  import opened JobDefinitions
  import opened JobTable
  import opened JobTicks

  /** An enabled one-time job that waits for its moment. */
  ghost predicate Waits(t: Table, name: string, at: int)
  {
    name in t.jobs && t.jobs[name].enabled && t.jobs[name].oneTime && Kept(t, name) == Some(at)
  }

  /** Nothing is stranded and the moment has come. */
  ghost predicate Reaches(clock: Clock, t: Table, p: Pass, at: int)
  {
    !Blocked(clock, t, p.now) && at <= p.now
  }

  /** A one-time job that is created waits for its moment exactly if it is enabled and
      the moment has not passed. */
  lemma CreatedJobWaits(clock: Clock, t: Table, name: string, def: Job, now: int, at: int)
    requires name !in t.jobs && def.oneTime && Means(clock, def.runAt, now, at)
    requires Changed(clock, t, Create(name, def), now).error.None?
    ensures var u := Changed(clock, t, Create(name, def), now).table;
            && name in u.jobs && u.jobs[name].enabled == def.enabled && u.jobs[name].oneTime
            && (Waits(u, name, at) <==> def.enabled && now <= at)
            && (!def.enabled || at < now ==> Kept(u, name).None?)
  {
    NormalizedIsCanonical(clock, def, now);
    NextFireExactly(clock, Normalize(clock, def, now).value, now);
    hide NextFire, Strip;
  }

  /** What one pass makes of a job that waits: it fires, with its moment, exactly if the
      pass reaches that, and then it is gone unless it was held back. */
  lemma OneTimePass(clock: Clock, t: Table, p: Pass, u: Table, name: string, at: int)
    requires Valid(clock, t) && Ticked(clock, t, p, u) && Waits(t, name, at)
    ensures name in p.fired <==> Reaches(clock, t, p, at)
    ensures name in p.fired ==> p.fired[name] == at
    ensures if name in p.fired && !Holds(clock, t, p, name) then name !in u.jobs
            else Waits(u, name, at) && u.jobs[name] == t.jobs[name]
  {
    FiresWhenDue(clock, t, p, u, name);
    TickFires(clock, t, p, u);
    KeptIsDue(clock, t, name, p.now);
    DueListed(clock, t, p, u, name);
    OneTimeKept(clock, t, p, u, name);
    hide Valid, Ticked, Blocked, Ended, Due, HeldBack, NextFire;
    if name in p.fired {
      var k :| 0 <= k < |p.due| && p.due[k] == name;
      TickMovesExactly(clock, t, p, u, k);
      if !HeldBack(clock, t, p, k) { OnlyPlace(clock, t, p, u, k); }
    }
  }

  /** A pass leaves a one-time job alone or takes it out. */
  lemma OneTimeKept(clock: Clock, t: Table, p: Pass, u: Table, n: string)
    requires Valid(clock, t) && Ticked(clock, t, p, u) && n in t.jobs && t.jobs[n].oneTime
    ensures n in u.jobs ==> u.jobs[n] == t.jobs[n]
    ensures n in u.jobs ==> Kept(u, n) == Kept(t, n) || Kept(u, n) == Due(clock, t, n, p.now)
    ensures n !in u.jobs ==> n in p.fired
  {
    var snap := Shown(clock, t, p.names, p.now);
    ShownAt(clock, t, p.names, p.now, n);
    hide Shown, Valid, Due, DueNow, NextFire;
    if snap.error.None? {
      AdvancedAt(clock, snap.table, p.due, FiredAt(clock, p.fired), p.now, n);
      StaysOrGoes(clock, snap.table, p.due, FiredAt(clock, p.fired), p.now, n);
      AmongDistinct(p.names, p.fired);
    }
    hide Advanced, FiredAt;
  }

  lemma {:induction false} StaysOrGoes(clock: Clock, t: Table, names: seq<string>, firedAt: map<string, Text>,
                                       now: int, n: string)
    requires n in t.jobs && t.jobs[n].oneTime
    ensures var u := Advanced(clock, t, names, firedAt, now).table; n in u.jobs ==> SameAt(t, u, n)
  {
    hide Base, NextFire;
    if names != [] {
      var k := |names| - 1;
      StaysOrGoes(clock, t, names[..k], firedAt, now, n);
      AdvancedAt(clock, t, names[..k], firedAt, now, n);
      AdvancedOnce(clock, t, names, firedAt, now);
      hide Advanced;
    }
  }

  /** A job that is not there does not fire and does not come back. */
  lemma StaysGone(clock: Clock, t: Table, p: Pass, u: Table, n: string)
    requires Valid(clock, t) && Ticked(clock, t, p, u) && n !in t.jobs
    ensures n !in u.jobs && n !in p.fired
  {
    TickFires(clock, t, p, u);
    ShownKeeps(clock, t, p.names, p.now);
    AdvancedAt(clock, Shown(clock, t, p.names, p.now).table, p.due, FiredAt(clock, p.fired), p.now, n);
    hide Shown, Advanced, Valid, FiredAt, Blocked, Due;
  }

  /** Some pass before `i` fired the job and did not hold it back. */
  ghost predicate DoneBy(clock: Clock, trail: seq<Table>, passes: seq<Pass>, name: string, i: int)
    requires |trail| > |passes|
  {
    exists j :: 0 <= j < i && j < |passes| && name in passes[j].fired && !Holds(clock, trail[j], passes[j], name)
  }

  lemma {:induction false} WaitsUntilDone(clock: Clock, trail: seq<Table>, passes: seq<Pass>, name: string, at: int,
                                          i: nat)
    requires Ticking(clock, trail, passes) && Valid(clock, trail[0]) && Waits(trail[0], name, at) && i < |trail|
    ensures Valid(clock, trail[i])
    ensures if DoneBy(clock, trail, passes, name, i) then name !in trail[i].jobs
            else Waits(trail[i], name, at) && trail[i].jobs[name] == trail[0].jobs[name]
  {
    hide Valid, Ticked, Holds, Reaches, Waits;
    TickingKeeps(clock, trail, passes, i);
    if i > 0 {
      var t, p, u := trail[i - 1], passes[i - 1], trail[i];
      WaitsUntilDone(clock, trail, passes, name, at, i - 1);
      assert Ticked(clock, t, p, u);
      assert DoneBy(clock, trail, passes, name, i) <==>
             DoneBy(clock, trail, passes, name, i - 1) || (name in p.fired && !Holds(clock, t, p, name));
      if DoneBy(clock, trail, passes, name, i - 1) {
        StaysGone(clock, t, p, u, name);
      } else {
        OneTimePass(clock, t, p, u, name, at);
      }
    }
  }

  /** Over any passes an enabled one-time job fires with its moment, in each pass that
      reaches it, until one does not hold it back; then it is gone. */
  lemma FiresUntilDone(clock: Clock, trail: seq<Table>, passes: seq<Pass>, name: string, at: int)
    requires Ticking(clock, trail, passes) && Valid(clock, trail[0]) && Waits(trail[0], name, at)
    ensures forall i :: 0 <= i < |passes| ==>
              (name in passes[i].fired <==>
               Reaches(clock, trail[i], passes[i], at) && !DoneBy(clock, trail, passes, name, i))
    ensures forall i :: 0 <= i < |passes| && name in passes[i].fired ==> passes[i].fired[name] == at
    ensures name in trail[|passes|].jobs <==> !DoneBy(clock, trail, passes, name, |passes|)
  {
    hide Valid, Ticked, Holds, Reaches, DoneBy, Waits;
    forall i | 0 <= i < |passes|
      ensures name in passes[i].fired <==>
              Reaches(clock, trail[i], passes[i], at) && !DoneBy(clock, trail, passes, name, i)
      ensures name in passes[i].fired ==> passes[i].fired[name] == at
    {
      WaitsUntilDone(clock, trail, passes, name, at, i);
      assert Ticked(clock, trail[i], passes[i], trail[i + 1]);
      if DoneBy(clock, trail, passes, name, i) {
        StaysGone(clock, trail[i], passes[i], trail[i + 1], name);
      } else {
        OneTimePass(clock, trail[i], passes[i], trail[i + 1], name, at);
      }
    }
    WaitsUntilDone(clock, trail, passes, name, at, |passes|);
    WaitsIsThere(trail[|passes|], name, at);
  }

  lemma WaitsIsThere(t: Table, name: string, at: int)
    ensures Waits(t, name, at) ==> name in t.jobs
  {
  }

  /** How often a job fired, by pass: never, or exactly once. */
  lemma {:induction false} FiredNever(name: string, passes: seq<Pass>)
    ensures FiredFor(name, passes) == [] <==> forall i :: 0 <= i < |passes| ==> name !in passes[i].fired
  {
    if passes != [] {
      var k := |passes| - 1;
      FiredNever(name, passes[..k]);
      assert forall i :: 0 <= i < k ==> passes[..k][i] == passes[i];
    }
  }

  lemma {:induction false} FiredOnce(name: string, passes: seq<Pass>)
    ensures |FiredFor(name, passes)| == 1 <==>
              exists i :: 0 <= i < |passes| && OnlyFire(name, passes, i)
    ensures forall i :: 0 <= i < |passes| && OnlyFire(name, passes, i) ==>
              FiredFor(name, passes) == [passes[i].fired[name]]
  {
    if passes != [] {
      var k := |passes| - 1;
      var init := passes[..k];
      FiredNever(name, init);
      FiredOnce(name, init);
      assert passes == init + [passes[k]];
      forall i | 0 <= i < k
        ensures OnlyFire(name, passes, i) <==> OnlyFire(name, init, i) && name !in passes[k].fired
      {
        assert init[i] == passes[i];
      }
      assert OnlyFire(name, passes, k) <==> name in passes[k].fired && FiredFor(name, init) == [] by {
        assert forall j :: 0 <= j < k ==> init[j] == passes[j];
      }
      FiredSnoc(name, passes);
      hide FiredFor, OnlyFire;
    }
  }

  ghost predicate OnlyFire(name: string, passes: seq<Pass>, i: nat)
    requires i < |passes|
  {
    name in passes[i].fired && forall j :: 0 <= j < |passes| && name in passes[j].fired ==> j == i
  }

  /** It fires once, with its moment, and is gone exactly if some pass reaches the moment
      and the first that does holds nothing back. */
  lemma FiresOnceExactly(clock: Clock, trail: seq<Table>, passes: seq<Pass>, name: string, at: int)
    requires Ticking(clock, trail, passes) && Valid(clock, trail[0]) && Waits(trail[0], name, at)
    ensures FiredFor(name, passes) == [at] && name !in trail[|passes|].jobs <==>
            exists i :: 0 <= i < |passes| && FirstReach(clock, trail, passes, at, i)
                        && !Holds(clock, trail[i], passes[i], name)
  {
    FiresUntilDone(clock, trail, passes, name, at);
    FiredOnce(name, passes);
    hide Valid, Ticking, Holds, Reaches, Waits, FiredFor;
    if i :| 0 <= i < |passes| && FirstReach(clock, trail, passes, at, i) && !Holds(clock, trail[i], passes[i], name) {
      assert !DoneBy(clock, trail, passes, name, i);
      assert name in passes[i].fired;
      forall j | 0 <= j < |passes|
        ensures name in passes[j].fired ==> j == i
      {
        assert j > i ==> DoneBy(clock, trail, passes, name, j);
        assert j < i ==> !Reaches(clock, trail[j], passes[j], at);
      }
      assert OnlyFire(name, passes, i) && DoneBy(clock, trail, passes, name, |passes|);
    }
    if FiredFor(name, passes) == [at] && name !in trail[|passes|].jobs {
      var i :| 0 <= i < |passes| && OnlyFire(name, passes, i);
      var d :| 0 <= d < |passes| && name in passes[d].fired && !Holds(clock, trail[d], passes[d], name);
      assert d == i;
      forall j | 0 <= j < i
        ensures !Reaches(clock, trail[j], passes[j], at)
      {
        assert name !in passes[j].fired && !DoneBy(clock, trail, passes, name, j);
      }
      assert FirstReach(clock, trail, passes, at, i);
    }
  }

  ghost predicate FirstReach(clock: Clock, trail: seq<Table>, passes: seq<Pass>, at: int, i: nat)
    requires i < |passes| < |trail|
  {
    Reaches(clock, trail[i], passes[i], at) && forall j :: 0 <= j < i ==> !Reaches(clock, trail[j], passes[j], at)
  }

  /** A job that is disabled, or whose moment had passed when it was entered, stays and
      never fires. */
  lemma {:induction false} NeverFires(clock: Clock, trail: seq<Table>, passes: seq<Pass>, name: string)
    requires Ticking(clock, trail, passes) && Valid(clock, trail[0])
    requires name in trail[0].jobs && trail[0].jobs[name].oneTime
    requires trail[0].jobs[name].enabled ==>
               Kept(trail[0], name).None?
               && forall i :: 0 <= i < |passes| ==> trail[0].jobs[name].runAt.instant < passes[i].now
    ensures FiredFor(name, passes) == [] && Valid(clock, trail[|passes|])
    ensures var last := trail[|passes|];
            && name in last.jobs && last.jobs[name] == trail[0].jobs[name]
            && (last.jobs[name].enabled ==> Kept(last, name).None?)
  {
    hide Valid, Ticked;
    if passes != [] {
      var k := |passes| - 1;
      var t, p, u := trail[k], passes[k], trail[k + 1];
      NeverFires(clock, trail[..k + 1], passes[..k], name);
      assert Ticked(clock, t, p, u);
      NothingToCome(clock, t, p.now, name);
      TickFires(clock, t, p, u);
      TickKeeps(clock, t, p, u);
      OneTimeKept(clock, t, p, u, name);
      hide Due;
    }
  }

  lemma NothingToCome(clock: Clock, t: Table, now: int, n: string)
    requires Valid(clock, t) && n in t.jobs && t.jobs[n].oneTime
    requires t.jobs[n].enabled ==> Kept(t, n).None? && t.jobs[n].runAt.instant < now
    ensures n !in DueNow(clock, t, now) && (t.jobs[n].enabled ==> Due(clock, t, n, now).None?)
  {
    NextFireExactly(clock, t.jobs[n], now);
    hide NextFire;
  }
}
