/** The timekeeper's pass over the job table: what fires, with which time, and
    how a schedule moves on. */
module JobTicks {
  import opened Basics
  import opened JobDefinitions
  import opened JobTable

  // ---- Reading the table ---------------------------------------------------------

  /** Some enabled job has no fire time to show and its cron has none to come:
      reading the table raises. */
  predicate Blocked(clock: Clock, t: Table, now: int)
  {
    exists n :: n in t.jobs && Raises(clock, t, n, now)
  }

  predicate Raises(clock: Clock, t: Table, n: string, now: int)
    requires n in t.jobs
  {
    && t.jobs[n].enabled && !t.jobs[n].oneTime && !(n in t.fires && t.fires[n].Some?)
    && clock.next(t.jobs[n].cron, now).None?
  }

  /** The fire time a reading shows, worked out if none is kept. */
  function Due(clock: Clock, t: Table, n: string, now: int): Option<int>
  {
    if n !in t.jobs then None
    else if n in t.fires && t.fires[n].Some? then t.fires[n]
    else if NextFire(clock, t.jobs[n], now).Ok? then NextFire(clock, t.jobs[n], now).value
    else None
  }

  function DueNow(clock: Clock, t: Table, now: int): map<string, int>
  {
    map n | n in t.jobs && t.jobs[n].enabled && Due(clock, t, n, now).Some? && Due(clock, t, n, now).value <= now
      :: Due(clock, t, n, now).value
  }

  function Kept(t: Table, n: string): Option<int>
  {
    if n in t.fires then t.fires[n] else None
  }

  /** What a reading does to each name: the first that cannot be shown ends it. */
  lemma {:induction false} ShownAt(clock: Clock, t: Table, names: seq<string>, now: int, n: string)
    requires Valid(clock, t)
    ensures var o := Shown(clock, t, names, now);
            && o.table.jobs == t.jobs
            && (n !in names ==> SameAt(t, o.table, n))
            && (Kept(o.table, n) == Kept(t, n) || Kept(o.table, n) == Due(clock, t, n, now))
            && (o.error.None? && n in names ==> Kept(o.table, n) == Due(clock, t, n, now))
  {
    hide Canonical, NextFire;
    if names != [] {
      var k := |names| - 1;
      ShownKeeps(clock, t, names[..k], now);
      ShownAt(clock, t, names[..k], now, n);
      ShownAt(clock, t, names[..k], now, names[k]);
      assert n in names <==> n in names[..k] || n == names[k];
      var before := Shown(clock, t, names[..k], now);
      assert Shown(clock, t, names, now) == if before.error.Some? then before
             else ShowOne(clock, before.table, names[k], now);
      hide Shown, Valid;
      ShowOneAt(clock, t, before.table, names[k], now);
      hide Due;
    }
  }

  lemma ShowOneAt(clock: Clock, t: Table, u: Table, n: string, now: int)
    requires t.jobs == u.jobs && (Kept(u, n) == Kept(t, n) || Kept(u, n) == Due(clock, t, n, now))
    requires n !in t.jobs ==> n !in t.fires && n !in u.fires
    ensures ShowOne(clock, u, n, now).error.None? ==> Kept(ShowOne(clock, u, n, now).table, n) == Due(clock, t, n, now)
    ensures SameBut(u, ShowOne(clock, u, n, now).table, {n}) && ShowOne(clock, u, n, now).table.jobs == u.jobs
  {
  }

  /** A reading of all names raises exactly when some job cannot be shown. */
  lemma {:induction false} ShownRaisesExactly(clock: Clock, t: Table, names: seq<string>, now: int)
    requires Valid(clock, t)
    ensures Shown(clock, t, names, now).error.Some? <==>
              exists n :: n in names && n in t.jobs && Raises(clock, t, n, now)
  {
    hide Canonical, NextFire;
    if names != [] {
      var k := |names| - 1;
      ShownRaisesExactly(clock, t, names[..k], now);
      ShownAt(clock, t, names[..k], now, names[k]);
      assert forall n :: n in names <==> n in names[..k] || n == names[k];
      var before := Shown(clock, t, names[..k], now);
      assert Shown(clock, t, names, now) == if before.error.Some? then before
             else ShowOne(clock, before.table, names[k], now);
      hide Shown, Valid;
      if before.error.None? {
        ShowRaises(clock, t, before.table, names[k], now);
      }
      hide Raises, ShowOne;
    }
  }

  lemma ShowRaises(clock: Clock, t: Table, u: Table, n: string, now: int)
    requires t.jobs == u.jobs && (Kept(u, n) == Kept(t, n) || Kept(u, n) == Due(clock, t, n, now))
    ensures ShowOne(clock, u, n, now).error.Some? <==> n in t.jobs && Raises(clock, t, n, now)
  {
  }

  // ---- Moving on -------------------------------------------------------------------

  /** What moving several jobs on makes of each. */
  lemma {:induction false} AdvancedAt(clock: Clock, t: Table, names: seq<string>, firedAt: map<string, Text>, now: int,
                                      n: string)
    ensures var o := Advanced(clock, t, names, firedAt, now);
            && (n !in names ==> SameAt(t, o.table, n))
            && (n !in t.jobs ==> n !in o.table.jobs)
            && (n in o.table.jobs ==> n in t.jobs && o.table.jobs[n] == t.jobs[n])
            && (n in t.jobs && !t.jobs[n].oneTime ==> n in o.table.jobs)
            && (n in names && n in t.jobs && t.jobs[n].oneTime && o.error.None? ==> n !in o.table.jobs)
  {
    hide Base, NextFire;
    if names != [] {
      var k := |names| - 1;
      AdvancedAt(clock, t, names[..k], firedAt, now, n);
      AdvancedOnce(clock, t, names, firedAt, now);
      assert n in names <==> n in names[..k] || n == names[k];
      hide Advanced;
    }
  }

  /** A repeating job's fire time afterwards: moved, or as it was. */
  lemma {:induction false} AdvancedFire(clock: Clock, t: Table, names: seq<string>, firedAt: map<string, Text>,
                                        now: int,
                                        n: string)
    requires n in t.jobs && !t.jobs[n].oneTime
    ensures var o := Advanced(clock, t, names, firedAt, now);
            var next := NextFire(clock, t.jobs[n], Base(clock, n, firedAt, now));
            && (n in names && o.error.None? ==> next.Ok? && n in o.table.fires && o.table.fires[n] == next.value)
            && (next.Err? ==> Kept(o.table, n) == Kept(t, n))
            && (next.Ok? ==> Kept(o.table, n) == Kept(t, n) || Kept(o.table, n) == next.value)
  {
    hide Base, NextFire;
    if names != [] {
      var k := |names| - 1;
      AdvancedFire(clock, t, names[..k], firedAt, now, n);
      AdvancedAt(clock, t, names[..k], firedAt, now, n);
      AdvancedOnce(clock, t, names, firedAt, now);
      assert n in names <==> n in names[..k] || n == names[k];
      hide Advanced;
    }
  }

  /** Moving on fails exactly when the schedule of one of the jobs has ended. */
  lemma {:induction false} AdvancedFailsExactly(clock: Clock, t: Table, names: seq<string>, firedAt: map<string, Text>,
                                                now: int)
    ensures Advanced(clock, t, names, firedAt, now).error.Some?
       <==> exists n :: n in names && Ended(clock, t, n, Base(clock, n, firedAt, now))
  {
    hide Base, NextFire;
    if names != [] {
      var k := |names| - 1;
      AdvancedFailsExactly(clock, t, names[..k], firedAt, now);
      AdvancedAt(clock, t, names[..k], firedAt, now, names[k]);
      AdvancedOnce(clock, t, names, firedAt, now);
      assert forall n :: n in names <==> n in names[..k] || n == names[k];
      var before := Advanced(clock, t, names[..k], firedAt, now);
      hide Advanced;
      if before.error.None? {
        EndedIsError(clock, t, before.table, names[k], Base(clock, names[k], firedAt, now));
      }
      hide Ended, AdvanceOne;
    }
  }

  predicate Ended(clock: Clock, t: Table, n: string, base: int)
  {
    n in t.jobs && t.jobs[n].enabled && !t.jobs[n].oneTime && clock.next(t.jobs[n].cron, base).None?
  }

  lemma EndedIsError(clock: Clock, t: Table, u: Table, n: string, base: int)
    requires n in u.jobs ==> n in t.jobs && u.jobs[n] == t.jobs[n]
    requires n in t.jobs && !t.jobs[n].oneTime ==> n in u.jobs
    ensures AdvanceOne(clock, u, n, base).error.Some? <==> Ended(clock, t, n, base)
  {
  }

  predicate Distinct(names: seq<string>)
  {
    forall i, j :: 0 <= i < j < |names| ==> names[i] != names[j]
  }

  /** Some repeating job among the first `k + 1` has no time after the one it is
      moved on from. */
  ghost predicate EndedBy(clock: Clock, t: Table, names: seq<string>, firedAt: map<string, Text>, now: int, k: nat)
    requires k < |names|
  {
    exists j :: 0 <= j <= k && Ended(clock, t, names[j], Base(clock, names[j], firedAt, now))
  }

  lemma EndedByEarlier(clock: Clock, t: Table, names: seq<string>, firedAt: map<string, Text>, now: int, k: nat)
    requires k < |names| - 1
    ensures EndedBy(clock, t, names, firedAt, now, k) <==> EndedBy(clock, t, names[..|names| - 1], firedAt, now, k)
  {
    hide Ended, Base;
    var init := names[..|names| - 1];
    assert forall j :: 0 <= j <= k ==> init[j] == names[j];
  }

  lemma EndedByLast(clock: Clock, t: Table, names: seq<string>, firedAt: map<string, Text>, now: int)
    requires names != []
    ensures var q := |names| - 1;
            EndedBy(clock, t, names, firedAt, now, q) <==>
              || Advanced(clock, t, names[..q], firedAt, now).error.Some?
              || Ended(clock, t, names[q], Base(clock, names[q], firedAt, now))
  {
    AdvancedFailsExactly(clock, t, names[..|names| - 1], firedAt, now);
    hide Ended, Base, Advanced;
    var q := |names| - 1;
    assert forall j :: 0 <= j < q ==> names[j] == names[..q][j] && names[j] in names[..q];
    assert forall m :: m in names[..q] ==> exists j :: 0 <= j < q && names[j] == m;
  }

  lemma AdvanceOneAt(clock: Clock, t: Table, u: Table, name: string, base: int, n: string)
    ensures n != name ==> SameAt(u, AdvanceOne(clock, u, name, base).table, n)
    ensures n == name && n in t.jobs && SameAt(t, u, n) ==>
              var v := AdvanceOne(clock, u, n, base).table;
              if Ended(clock, t, n, base) then v == u
              else if t.jobs[n].oneTime then n !in v.jobs
              else n in v.jobs && n in v.fires && NextFire(clock, t.jobs[n], base) == Ok(v.fires[n])
  {
  }

  /** What moving on makes of the job at each place: nothing, if the schedule of that
      job or of one before it has ended. */
  lemma {:induction false} AdvancedExactly(clock: Clock, t: Table, names: seq<string>, firedAt: map<string, Text>,
                                           now: int, k: nat)
    requires Distinct(names) && k < |names| && names[k] in t.jobs
    ensures var u, n := Advanced(clock, t, names, firedAt, now).table, names[k];
            if EndedBy(clock, t, names, firedAt, now, k) then SameAt(t, u, n)
            else if t.jobs[n].oneTime then n !in u.jobs
            else n in u.jobs && n in u.fires
                 && NextFire(clock, t.jobs[n], Base(clock, n, firedAt, now)) == Ok(u.fires[n])
    decreases |names|
  {
    hide Base, NextFire, Advanced, Ended, AdvanceOne, EndedBy;
    var q, n := |names| - 1, names[k];
    var before := Advanced(clock, t, names[..q], firedAt, now);
    AdvancedOnce(clock, t, names, firedAt, now);
    AdvanceOneAt(clock, t, before.table, names[q], Base(clock, names[q], firedAt, now), n);
    if k < q {
      AdvancedExactly(clock, t, names[..q], firedAt, now, k);
      EndedByEarlier(clock, t, names, firedAt, now, k);
    } else {
      AdvancedAt(clock, t, names[..q], firedAt, now, n);
      EndedByLast(clock, t, names, firedAt, now);
      assert n !in names[..q];
    }
  }

  // ---- One pass --------------------------------------------------------------------

  /** One pass: the order the names were read in, the moment, what fired at which
      scheduled time, and the same in the order those jobs were moved on in. */
  datatype Pass = Pass(names: seq<string>, now: int, fired: map<string, int>, due: seq<string>)

  /** The times handed on with what fired. */
  function FiredAt(clock: Clock, fired: map<string, int>): map<string, Text>
  {
    map n | n in fired :: Aware(fired[n], clock.zone(fired[n]))
  }

  lemma BaseIsFired(clock: Clock, fired: map<string, int>, n: string, now: int)
    requires n in fired
    ensures Base(clock, n, FiredAt(clock, fired), now) == fired[n]
  {
  }

  /** Those of `names` that fired, in the order they were read. */
  function Among(names: seq<string>, fired: map<string, int>): (due: seq<string>)
    ensures forall n :: n in due <==> n in names && n in fired
  {
    if names == [] then []
    else
      var k := |names| - 1;
      assert forall n :: n in names <==> n in names[..k] || n == names[k];
      Among(names[..k], fired) + if names[k] in fired then [names[k]] else []
  }

  lemma {:induction false} AmongDistinct(names: seq<string>, fired: map<string, int>)
    requires Distinct(names)
    ensures Distinct(Among(names, fired))
  {
    if names != [] {
      var k := |names| - 1;
      AmongDistinct(names[..k], fired);
      assert forall n :: n in names[..k] ==> n != names[k];
      var rest := Among(names[..k], fired);
      assert forall i :: 0 <= i < |rest| ==> rest[i] in rest;
    }
  }

  /** A reading that raises shows an empty table; an error while moving on is lost. */
  ghost predicate Ticked(clock: Clock, t: Table, p: Pass, u: Table)
  {
    && Distinct(p.names) && (forall n :: n in t.jobs <==> n in p.names) && p.due == Among(p.names, p.fired)
    && var snap := Shown(clock, t, p.names, p.now);
       if snap.error.Some? then p.fired == map[] && u == snap.table
       else p.fired == DueNow(clock, t, p.now)
            && u == Advanced(clock, snap.table, p.due, FiredAt(clock, p.fired), p.now).table
  }

  /** A pass fires exactly what is due, unless one job blocks all of them. */
  lemma TickFires(clock: Clock, t: Table, p: Pass, u: Table)
    requires Valid(clock, t) && Ticked(clock, t, p, u)
    ensures p.fired == if Blocked(clock, t, p.now) then map[] else DueNow(clock, t, p.now)
  {
    ShownRaisesExactly(clock, t, p.names, p.now);
    hide Raises, Shown, Advanced, DueNow, Valid;
  }

  lemma TickKeeps(clock: Clock, t: Table, p: Pass, u: Table)
    requires Valid(clock, t) && Ticked(clock, t, p, u)
    ensures Valid(clock, u) && (Whole(t) ==> Whole(u))
  {
    ShownKeeps(clock, t, p.names, p.now);
    hide Shown, Valid, DueNow, Whole;
    var snap := Shown(clock, t, p.names, p.now);
    if snap.error.None? { AdvancedKeeps(clock, snap.table, p.due, FiredAt(clock, p.fired), p.now); }
    hide Advanced;
  }

  /** What a pass makes of one repeating job: if it fired it moves to the next time
      after the one it fired for, or stays on a time that is its last. */
  lemma TickMoves(clock: Clock, t: Table, p: Pass, u: Table, n: string)
    requires Valid(clock, t) && Ticked(clock, t, p, u) && n in t.jobs && !t.jobs[n].oneTime
    ensures n in u.jobs && u.jobs[n] == t.jobs[n]
    ensures n !in p.fired ==> Kept(u, n) == Kept(t, n) || Kept(u, n) == Due(clock, t, n, p.now)
    ensures n !in p.fired && !Blocked(clock, t, p.now) ==> Kept(u, n) == Due(clock, t, n, p.now)
    ensures n in p.fired ==> Due(clock, t, n, p.now) == Some(p.fired[n])
    ensures n in p.fired && NextFire(clock, t.jobs[n], p.fired[n]).Err? ==> Kept(u, n) == Some(p.fired[n])
    ensures n in p.fired && (forall m :: m in p.fired ==> !Ended(clock, t, m, p.fired[m])) ==>
              Ok(Kept(u, n)) == NextFire(clock, t.jobs[n], p.fired[n])
  {
    var snap := Shown(clock, t, p.names, p.now);
    ShownAt(clock, t, p.names, p.now, n);
    ShownRaisesExactly(clock, t, p.names, p.now);
    hide Shown, Due, NextFire, Raises, Base, Valid;
    if snap.error.None? {
      AdvancedAt(clock, snap.table, p.due, FiredAt(clock, p.fired), p.now, n);
      AdvancedFire(clock, snap.table, p.due, FiredAt(clock, p.fired), p.now, n);
      if n in p.fired { BaseIsFired(clock, p.fired, n, p.now); }
      hide FiredAt, Advanced;
      if forall m :: m in p.fired ==> !Ended(clock, t, m, p.fired[m]) {
        NoneEnded(clock, t, p, snap.table);
      }
    }
  }

  lemma NoneEnded(clock: Clock, t: Table, p: Pass, u: Table)
    requires u.jobs == t.jobs && (forall n :: n in p.fired <==> n in p.due)
    requires forall m :: m in p.fired ==> !Ended(clock, t, m, p.fired[m])
    ensures Advanced(clock, u, p.due, FiredAt(clock, p.fired), p.now).error.None?
  {
    AdvancedFailsExactly(clock, u, p.due, FiredAt(clock, p.fired), p.now);
    forall n | n in p.due
      ensures !Ended(clock, u, n, Base(clock, n, FiredAt(clock, p.fired), p.now))
    {
      BaseIsFired(clock, p.fired, n, p.now);
      assert !Ended(clock, t, n, p.fired[n]);
    }
    hide Ended, Advanced;
  }

  /** A job that fired, or one moved on before it in the same pass, has no next time:
      moving on stops there. */
  ghost predicate HeldBack(clock: Clock, t: Table, p: Pass, k: nat)
    requires k < |p.due|
  {
    exists j :: 0 <= j <= k && p.due[j] in p.fired && Ended(clock, t, p.due[j], p.fired[p.due[j]])
  }

  lemma HeldBackIsEnded(clock: Clock, t: Table, u: Table, p: Pass, k: nat)
    requires k < |p.due| && u.jobs == t.jobs && forall n :: n in p.due ==> n in p.fired
    ensures EndedBy(clock, u, p.due, FiredAt(clock, p.fired), p.now, k) <==> HeldBack(clock, t, p, k)
  {
    forall j | 0 <= j <= k
      ensures Ended(clock, u, p.due[j], Base(clock, p.due[j], FiredAt(clock, p.fired), p.now))
         <==> Ended(clock, t, p.due[j], p.fired[p.due[j]])
    {
      BaseIsFired(clock, p.fired, p.due[j], p.now);
    }
    hide Ended, Base, FiredAt;
  }

  /** What a pass makes of each job that fired: a repeating one moves to its next time
      if and only if it is not held back, else it stays on the time it fired for; a
      one-time one is removed if and only if it is not held back. */
  lemma TickMovesExactly(clock: Clock, t: Table, p: Pass, u: Table, k: nat)
    requires Valid(clock, t) && Ticked(clock, t, p, u) && k < |p.due|
    ensures var n := p.due[k];
            && n in p.fired && n in t.jobs
            && (t.jobs[n].oneTime ==> (n in u.jobs <==> HeldBack(clock, t, p, k)))
            && (!t.jobs[n].oneTime && HeldBack(clock, t, p, k) ==> Kept(u, n) == Some(p.fired[n]))
            && (!t.jobs[n].oneTime && !HeldBack(clock, t, p, k) ==>
                  Kept(u, n).Some? && Kept(u, n) == clock.next(t.jobs[n].cron, p.fired[n]))
  {
    var n, snap := p.due[k], Shown(clock, t, p.names, p.now);
    assert n in Among(p.names, p.fired);
    AmongDistinct(p.names, p.fired);
    ShownAt(clock, t, p.names, p.now, n);
    DueIsKept(clock, t, p, n);
    HeldBackIsEnded(clock, t, snap.table, p, k);
    BaseIsFired(clock, p.fired, n, p.now);
    hide Shown, Due, NextFire, Base, Valid, FiredAt, HeldBack, EndedBy, Among, Distinct, Advanced;
    AdvancedExactly(clock, snap.table, p.due, FiredAt(clock, p.fired), p.now, k);
  }

  lemma DueIsKept(clock: Clock, t: Table, p: Pass, n: string)
    requires Shown(clock, t, p.names, p.now).error.None? ==> p.fired == DueNow(clock, t, p.now)
    requires Shown(clock, t, p.names, p.now).error.Some? ==> p.fired == map[]
    requires n in p.fired
    ensures n in t.jobs && t.jobs[n].enabled && Due(clock, t, n, p.now) == Some(p.fired[n])
    ensures Shown(clock, t, p.names, p.now).error.None?
  {
    hide Shown, Due;
  }

  // ---- Runs of passes ----------------------------------------------------------------

  ghost predicate Ticking(clock: Clock, trail: seq<Table>, passes: seq<Pass>)
  {
    |trail| == |passes| + 1 && forall i :: 0 <= i < |passes| ==> Ticked(clock, trail[i], passes[i], trail[i + 1])
  }

  lemma {:induction false} TickingKeeps(clock: Clock, trail: seq<Table>, passes: seq<Pass>, i: nat)
    requires Ticking(clock, trail, passes) && Valid(clock, trail[0]) && i < |trail|
    ensures Valid(clock, trail[i])
  {
    hide Valid, Ticked;
    if i > 0 {
      TickingKeeps(clock, trail, passes, i - 1);
      TickKeeps(clock, trail[i - 1], passes[i - 1], trail[i]);
    }
  }

  /** The times a job fired for, in order. */
  function FiredFor(name: string, passes: seq<Pass>): seq<int>
  {
    if passes == [] then []
    else FiredFor(name, passes[..|passes| - 1]) +
         if name in passes[|passes| - 1].fired then [passes[|passes| - 1].fired[name]] else []
  }

  lemma FiredSnoc(name: string, passes: seq<Pass>)
    requires passes != []
    ensures var k := |passes| - 1;
            FiredFor(name, passes) ==
              FiredFor(name, passes[..k]) + if name in passes[k].fired then [passes[k].fired[name]] else []
  {
  }

  lemma TickingInit(clock: Clock, trail: seq<Table>, passes: seq<Pass>)
    requires Ticking(clock, trail, passes) && passes != []
    ensures var k := |passes| - 1;
            && Ticking(clock, trail[..k + 1], passes[..k]) && Ticked(clock, trail[k], passes[k], trail[k + 1])
            && trail[..k + 1][0] == trail[0] && trail[..k + 1][k] == trail[k]
  {
    hide Ticked;
  }

  /** No repeating job is on the last time of its schedule, nor will be. */
  ghost predicate GoesOn(clock: Clock, t: Table)
  {
    forall n :: n in t.jobs && !t.jobs[n].oneTime ==> Unending(clock, t.jobs[n].cron) && NotLast(clock, t, n)
  }

  predicate NotLast(clock: Clock, t: Table, n: string)
    requires n in t.jobs
  {
    Kept(t, n).Some? ==> clock.next(t.jobs[n].cron, Kept(t, n).value).Some?
  }

  lemma DueGoesOn(clock: Clock, t: Table, n: string, now: int)
    requires n in t.jobs && !t.jobs[n].oneTime && Unending(clock, t.jobs[n].cron) && NotLast(clock, t, n)
    ensures Due(clock, t, n, now).Some? ==> clock.next(t.jobs[n].cron, Due(clock, t, n, now).value).Some?
  {
  }

  lemma NextGoesOn(clock: Clock, job: Job, at: int)
    requires !job.oneTime && Unending(clock, job.cron) && clock.next(job.cron, at).Some?
    ensures NextFire(clock, job, at).Ok?
    ensures NextFire(clock, job, at).value.Some? ==> clock.next(job.cron, NextFire(clock, job, at).value.value).Some?
  {
  }

  /** A pass over jobs that go on never fails while moving on, and they go on. */
  lemma TickGoesOn(clock: Clock, t: Table, p: Pass, u: Table)
    requires Valid(clock, t) && Ticked(clock, t, p, u) && GoesOn(clock, t)
    ensures GoesOn(clock, u) && forall m :: m in p.fired ==> !Ended(clock, t, m, p.fired[m])
  {
    hide Canonical, Due, NextFire, Unending, Ticked;
    forall m | m in p.fired
      ensures !Ended(clock, t, m, p.fired[m])
    {
      FiredGoesOn(clock, t, p, u, m);
    }
    forall n | n in u.jobs && !u.jobs[n].oneTime
      ensures Unending(clock, u.jobs[n].cron) && NotLast(clock, u, n)
    {
      hide Ended, Valid;
      KeptJob(clock, t, p, u, n);
      TickMoves(clock, t, p, u, n);
      DueGoesOn(clock, t, n, p.now);
      if n in p.fired { NextGoesOn(clock, t.jobs[n], p.fired[n]); }
    }
  }

  lemma KeptJob(clock: Clock, t: Table, p: Pass, u: Table, n: string)
    requires Valid(clock, t) && Ticked(clock, t, p, u) && n in u.jobs
    ensures n in t.jobs && u.jobs[n] == t.jobs[n]
  {
    ShownKeeps(clock, t, p.names, p.now);
    var snap := Shown(clock, t, p.names, p.now);
    AdvancedAt(clock, snap.table, p.due, FiredAt(clock, p.fired), p.now, n);
    hide Shown, Advanced, Valid, DueNow, FiredAt;
  }

  lemma FiredGoesOn(clock: Clock, t: Table, p: Pass, u: Table, m: string)
    requires Valid(clock, t) && Ticked(clock, t, p, u) && GoesOn(clock, t) && m in p.fired
    ensures !Ended(clock, t, m, p.fired[m])
  {
    hide Canonical, Due, NextFire, Unending, Ticked, Valid;
    if m in t.jobs && !t.jobs[m].oneTime {
      TickMoves(clock, t, p, u, m);
      DueGoesOn(clock, t, m, p.now);
      NextGoesOn(clock, t.jobs[m], p.fired[m]);
    }
  }

  // ---- A schedule -----------------------------------------------------------------

  /** Each time is the next of the schedule after the one before. */
  ghost predicate Consecutive(clock: Clock, cron: string, start: int, fired: seq<int>)
  {
    forall i :: 0 <= i < |fired| ==> clock.next(cron, Latest(start, fired[..i])) == Some(fired[i])
  }

  function Latest(start: int, fired: seq<int>): int
  {
    if fired == [] then start else fired[|fired| - 1]
  }

  lemma ConsecutiveMore(clock: Clock, cron: string, start: int, fired: seq<int>, t: int)
    requires Consecutive(clock, cron, start, fired) && clock.next(cron, Latest(start, fired)) == Some(t)
    ensures Consecutive(clock, cron, start, fired + [t]) && Latest(start, fired + [t]) == t
  {
    assert forall k :: 0 <= k < |fired| ==> (fired + [t])[..k] == fired[..k];
    assert (fired + [t])[..|fired|] == fired;
  }

  /** Over any passes, however late each comes, an enabled repeating job fires for
      the times of its schedule one after another, from `start` on. */
  lemma {:induction false} FiresInTurn(clock: Clock, trail: seq<Table>, passes: seq<Pass>, name: string, start: int)
    requires Ticking(clock, trail, passes) && Valid(clock, trail[0]) && GoesOn(clock, trail[0])
    requires name in trail[0].jobs && trail[0].jobs[name].enabled && !trail[0].jobs[name].oneTime
    requires Kept(trail[0], name).Some? && Kept(trail[0], name) == clock.next(trail[0].jobs[name].cron, start)
    ensures Valid(clock, trail[|passes|]) && GoesOn(clock, trail[|passes|])
    ensures name in trail[|passes|].jobs && trail[|passes|].jobs[name] == trail[0].jobs[name]
    ensures var fired, cron := FiredFor(name, passes), trail[0].jobs[name].cron;
            && Consecutive(clock, cron, start, fired) && Kept(trail[|passes|], name).Some?
            && Kept(trail[|passes|], name) == clock.next(cron, Latest(start, fired))
  {
    hide Valid, GoesOn, Ticked, Canonical;
    if passes != [] {
      var k := |passes| - 1;
      TickingInit(clock, trail, passes);
      FiredSnoc(name, passes);
      hide Ticking, FiredFor, Kept, Consecutive, Latest;
      FiresInTurn(clock, trail[..k + 1], passes[..k], name, start);
      var t, p, u := trail[k], passes[k], trail[k + 1];
      var cron, fired := t.jobs[name].cron, FiredFor(name, passes[..k]);
      TickKeeps(clock, t, p, u);
      MovesOn(clock, t, p, u, name);
      if name in p.fired { ConsecutiveMore(clock, cron, start, fired, p.fired[name]); }
    }
  }

  /** What one pass makes of such a job. */
  lemma MovesOn(clock: Clock, t: Table, p: Pass, u: Table, n: string)
    requires Valid(clock, t) && Ticked(clock, t, p, u) && GoesOn(clock, t)
    requires n in t.jobs && t.jobs[n].enabled && !t.jobs[n].oneTime && Kept(t, n).Some?
    ensures GoesOn(clock, u) && n in u.jobs && u.jobs[n] == t.jobs[n]
    ensures n !in p.fired ==> Kept(u, n) == Kept(t, n)
    ensures n in p.fired ==> p.fired[n] == Kept(t, n).value && Kept(u, n).Some?
                             && Kept(u, n) == clock.next(t.jobs[n].cron, p.fired[n])
  {
    TickGoesOn(clock, t, p, u);
    TickMoves(clock, t, p, u, n);
    KeptIsDue(clock, t, n, p.now);
    hide Valid, GoesOn, Ticked, Ended, NextFire, Due, Blocked, Kept;
    if n in p.fired { StillDue(clock, t, u, n, p.fired[n]); }
  }

  lemma KeptIsDue(clock: Clock, t: Table, n: string, now: int)
    requires n in t.jobs && Kept(t, n).Some?
    ensures Due(clock, t, n, now) == Kept(t, n)
  {
  }

  lemma StillDue(clock: Clock, t: Table, u: Table, n: string, at: int)
    requires n in t.jobs && t.jobs[n].enabled && !t.jobs[n].oneTime && Ok(Kept(u, n)) == NextFire(clock, t.jobs[n], at)
    ensures Kept(u, n).Some? && Kept(u, n) == clock.next(t.jobs[n].cron, at)
  {
  }

  /** The pass fired the job and held it back. */
  ghost predicate Holds(clock: Clock, t: Table, p: Pass, name: string)
  {
    exists k :: 0 <= k < |p.due| && p.due[k] == name && HeldBack(clock, t, p, k)
  }

  /** The fired times follow the schedule, and the next of it is kept. */
  ghost predicate InTurn(clock: Clock, cron: string, start: int, fired: seq<int>, kept: Option<int>)
  {
    Consecutive(clock, cron, start, fired) && kept.Some? && kept == clock.next(cron, Latest(start, fired))
  }

  /** A time was fired for twice, or is about to be. */
  ghost predicate Repeats(clock: Clock, cron: string, start: int, fired: seq<int>, kept: Option<int>)
  {
    kept.Some? && (!Consecutive(clock, cron, start, fired) || (fired != [] && kept == Some(Latest(start, fired))))
  }

  lemma RepeatsIsNotInTurn(clock: Clock, cron: string, start: int, fired: seq<int>, kept: Option<int>)
    requires LeastAfter(clock) && Repeats(clock, cron, start, fired, kept)
    ensures !InTurn(clock, cron, start, fired, kept)
  {
    if InTurn(clock, cron, start, fired, kept) {
      LeastIsNext(clock, cron, Latest(start, fired), kept.value, start);
    }
  }

  lemma RepeatsGoesOn(clock: Clock, cron: string, start: int, fired: seq<int>, kept: Option<int>, more: Option<int>)
    requires LeastAfter(clock) && Repeats(clock, cron, start, fired, kept) && more.Some?
    ensures Repeats(clock, cron, start, fired + [kept.value], more)
  {
    ConsecutivePrefix(clock, cron, start, fired, kept.value);
    hide LeastAfter, Consecutive;
    if clock.next(cron, Latest(start, fired)) == Some(Latest(start, fired)) {
      LeastIsNext(clock, cron, Latest(start, fired), Latest(start, fired), start);
    }
  }

  lemma ConsecutivePrefix(clock: Clock, cron: string, start: int, fired: seq<int>, t: int)
    ensures Consecutive(clock, cron, start, fired + [t]) ==>
              Consecutive(clock, cron, start, fired) && clock.next(cron, Latest(start, fired)) == Some(t)
  {
    var all := fired + [t];
    assert all[..|all| - 1] == fired;
    if Consecutive(clock, cron, start, all) { ConsecutiveInit(clock, cron, start, all); }
  }

  lemma FiredTwiceRepeats(clock: Clock, cron: string, start: int, fired: seq<int>, at: int)
    ensures Repeats(clock, cron, start, fired + [at], Some(at))
  {
  }

  /** What one pass makes of a job that is enabled, repeating, and has a fire time. */
  lemma PassOfOne(clock: Clock, t: Table, p: Pass, u: Table, n: string)
    requires Valid(clock, t) && Ticked(clock, t, p, u)
    requires n in t.jobs && t.jobs[n].enabled && !t.jobs[n].oneTime && Kept(t, n).Some?
    ensures n in u.jobs && u.jobs[n] == t.jobs[n] && Kept(u, n).Some?
    ensures n !in p.fired ==> Kept(u, n) == Kept(t, n) && !Holds(clock, t, p, n)
    ensures n in p.fired ==> p.fired[n] == Kept(t, n).value
    ensures n in p.fired && Holds(clock, t, p, n) ==> Kept(u, n) == Kept(t, n)
    ensures n in p.fired && !Holds(clock, t, p, n) ==> Kept(u, n) == clock.next(t.jobs[n].cron, Kept(t, n).value)
  {
    TickMoves(clock, t, p, u, n);
    KeptIsDue(clock, t, n, p.now);
    DueListed(clock, t, p, u, n);
    hide Valid, Ticked, Blocked, Ended, Due, HeldBack, NextFire, Kept;
    if n in p.fired {
      var k :| 0 <= k < |p.due| && p.due[k] == n;
      TickMovesExactly(clock, t, p, u, k);
      if !HeldBack(clock, t, p, k) {
        StillDue(clock, t, u, n, p.fired[n]);
        OnlyPlace(clock, t, p, u, k);
      }
    }
  }

  lemma DueListed(clock: Clock, t: Table, p: Pass, u: Table, n: string)
    requires Valid(clock, t) && Ticked(clock, t, p, u)
    ensures n in p.fired <==> n in p.due
  {
    ShownRaisesExactly(clock, t, p.names, p.now);
    hide Valid, Shown, Advanced, Due, Raises, NextFire;
  }

  lemma OnlyPlace(clock: Clock, t: Table, p: Pass, u: Table, k: nat)
    requires Ticked(clock, t, p, u) && k < |p.due| && !HeldBack(clock, t, p, k)
    ensures !Holds(clock, t, p, p.due[k])
  {
    AmongDistinct(p.names, p.fired);
    hide HeldBack, Shown, Advanced, DueNow, Among;
  }

  lemma {:induction false} InTurnOrRepeats(clock: Clock, trail: seq<Table>, passes: seq<Pass>, name: string, start: int)
    requires LeastAfter(clock) && Ticking(clock, trail, passes) && Valid(clock, trail[0])
    requires name in trail[0].jobs && trail[0].jobs[name].enabled && !trail[0].jobs[name].oneTime
    requires Kept(trail[0], name).Some? && Kept(trail[0], name) == clock.next(trail[0].jobs[name].cron, start)
    ensures var cron, fired, last := trail[0].jobs[name].cron, FiredFor(name, passes), trail[|passes|];
            && Valid(clock, last) && name in last.jobs && last.jobs[name] == trail[0].jobs[name]
            && if exists i :: 0 <= i < |passes| && Holds(clock, trail[i], passes[i], name)
               then Repeats(clock, cron, start, fired, Kept(last, name))
               else InTurn(clock, cron, start, fired, Kept(last, name))
  {
    hide Valid, Ticked, Canonical, LeastAfter, Holds, Kept, InTurn, Repeats;
    if passes == [] {
      NothingFired(clock, trail[0].jobs[name].cron, start, Kept(trail[0], name));
    } else {
      var k := |passes| - 1;
      InTurnOrRepeats(clock, trail[..|passes|], passes[..k], name, start);
      var t, p, u := trail[k], passes[k], trail[k + 1];
      assert trail[..|passes|][k] == t;
      var cron, fired := t.jobs[name].cron, FiredFor(name, passes[..k]);
      assert FiredFor(name, passes) == if name in p.fired then fired + [p.fired[name]] else fired;
      assert (exists i :: 0 <= i < |passes| && Holds(clock, trail[i], passes[i], name)) <==>
             (exists i :: 0 <= i < k && Holds(clock, trail[..|passes|][i], passes[..k][i], name))
             || Holds(clock, t, p, name);
      TickKeeps(clock, t, p, u);
      KeptThere(clock, cron, start, fired, Kept(t, name));
      PassOfOne(clock, t, p, u, name);
      hide FiredFor, Ticking;
      if name in p.fired {
        FiredTwiceRepeats(clock, cron, start, fired, p.fired[name]);
        FiredNext(clock, cron, start, fired, p.fired[name], Kept(u, name));
        if Repeats(clock, cron, start, fired, Kept(t, name)) {
          RepeatsGoesOn(clock, cron, start, fired, Kept(t, name), Kept(u, name));
        }
      }
    }
  }

  lemma NothingFired(clock: Clock, cron: string, start: int, kept: Option<int>)
    ensures kept.Some? && kept == clock.next(cron, start) ==> InTurn(clock, cron, start, [], kept)
  {
  }

  lemma KeptThere(clock: Clock, cron: string, start: int, fired: seq<int>, kept: Option<int>)
    ensures InTurn(clock, cron, start, fired, kept) || Repeats(clock, cron, start, fired, kept) ==> kept.Some?
  {
  }

  lemma FiredNext(clock: Clock, cron: string, start: int, fired: seq<int>, at: int, more: Option<int>)
    ensures InTurn(clock, cron, start, fired, Some(at)) && more.Some? && more == clock.next(cron, at) ==>
              InTurn(clock, cron, start, fired + [at], more)
  {
    if Consecutive(clock, cron, start, fired) && clock.next(cron, Latest(start, fired)) == Some(at) {
      ConsecutiveMore(clock, cron, start, fired, at);
    }
  }

  /** Over any passes an enabled repeating job fires for the times of its schedule one
      after another, and is left on the next, exactly if no pass held it back. */
  lemma FiresInTurnExactly(clock: Clock, trail: seq<Table>, passes: seq<Pass>, name: string, start: int)
    requires LeastAfter(clock) && Ticking(clock, trail, passes) && Valid(clock, trail[0])
    requires name in trail[0].jobs && trail[0].jobs[name].enabled && !trail[0].jobs[name].oneTime
    requires Kept(trail[0], name).Some? && Kept(trail[0], name) == clock.next(trail[0].jobs[name].cron, start)
    ensures InTurn(clock, trail[0].jobs[name].cron, start, FiredFor(name, passes), Kept(trail[|passes|], name))
       <==> forall i :: 0 <= i < |passes| ==> !Holds(clock, trail[i], passes[i], name)
  {
    InTurnOrRepeats(clock, trail, passes, name, start);
    hide InTurn, Repeats, Holds, Ticking, Valid, LeastAfter, Kept, FiredFor;
    if Repeats(clock, trail[0].jobs[name].cron, start, FiredFor(name, passes), Kept(trail[|passes|], name)) {
      RepeatsIsNotInTurn(clock, trail[0].jobs[name].cron, start, FiredFor(name, passes), Kept(trail[|passes|], name));
    }
  }

  /** And in each pass it fires exactly if its next time has come, unless blocked. */
  lemma FiresWhenDue(clock: Clock, t: Table, p: Pass, u: Table, n: string)
    requires Valid(clock, t) && Ticked(clock, t, p, u) && n in t.jobs && t.jobs[n].enabled && Kept(t, n).Some?
    ensures n in p.fired <==> !Blocked(clock, t, p.now) && Kept(t, n).value <= p.now
  {
    TickFires(clock, t, p, u);
    KeptIsDue(clock, t, n, p.now);
    hide Ticked, Blocked, Due, Valid;
  }

  ghost predicate Ascends(times: seq<int>)
  {
    forall i, j :: 0 <= i < j < |times| ==> times[i] < times[j]
  }

  ghost predicate UpTo(times: seq<int>, last: int)
  {
    forall i :: 0 <= i < |times| ==> times[i] <= last
  }

  lemma AscendsNext(times: seq<int>, last: int, t: int)
    requires Ascends(times) && UpTo(times, last) && last < t
    ensures Ascends(times + [t]) && UpTo(times + [t], t)
  {
  }

  /** Firing consecutive times repeats none. */
  lemma {:induction false} FiresAscend(clock: Clock, cron: string, start: int, fired: seq<int>)
    requires LeastAfter(clock) && Consecutive(clock, cron, start, fired)
    ensures Ascends(fired) && UpTo(fired, Latest(start, fired)) && start <= Latest(start, fired)
  {
    if fired != [] {
      var n := |fired| - 1;
      ConsecutiveInit(clock, cron, start, fired);
      FiresAscend(clock, cron, start, fired[..n]);
      LeastIsNext(clock, cron, Latest(start, fired[..n]), fired[n], start);
      AscendsNext(fired[..n], Latest(start, fired[..n]), fired[n]);
      hide Ascends, UpTo, Consecutive, LeastAfter;
      assert fired == fired[..n] + [fired[n]];
    }
  }

  /** And it skips none. */
  lemma {:induction false} NoneSkipped(clock: Clock, cron: string, start: int, fired: seq<int>, u: int)
    requires LeastAfter(clock) && Consecutive(clock, cron, start, fired)
    ensures u in fired <==> clock.fires(cron, u) && start < u <= Latest(start, fired)
  {
    if fired != [] {
      var n := |fired| - 1;
      ConsecutiveInit(clock, cron, start, fired);
      NoneSkipped(clock, cron, start, fired[..n], u);
      FiresAscend(clock, cron, start, fired[..n]);
      LeastIsNext(clock, cron, Latest(start, fired[..n]), fired[n], u);
      hide Consecutive, LeastAfter, Ascends, UpTo;
      assert fired == fired[..n] + [fired[n]];
      assert u in fired <==> u in fired[..n] || u == fired[n];
    }
  }

  lemma ConsecutiveInit(clock: Clock, cron: string, start: int, fired: seq<int>)
    requires fired != [] && Consecutive(clock, cron, start, fired)
    ensures Consecutive(clock, cron, start, fired[..|fired| - 1])
    ensures clock.next(cron, Latest(start, fired[..|fired| - 1])) == Some(fired[|fired| - 1])
  {
    var n := |fired| - 1;
    forall i | 0 <= i < n
      ensures clock.next(cron, Latest(start, fired[..n][..i])) == Some(fired[..n][i])
    {
      assert fired[..n][..i] == fired[..i];
    }
  }

  lemma LeastIsNext(clock: Clock, cron: string, t: int, next: int, u: int)
    requires LeastAfter(clock) && clock.next(cron, t) == Some(next)
    ensures t < next && clock.fires(cron, next) && (t < u < next ==> !clock.fires(cron, u))
  {
  }

  // ---- Where it fails ---------------------------------------------------------------

  /** An enabled job whose cron never fires, once stranded, keeps every later pass
      from firing anything at all. */
  lemma {:induction false} StrandedBlocksEveryTick(clock: Clock, trail: seq<Table>, passes: seq<Pass>, n: string,
                                                   i: nat)
    requires Ticking(clock, trail, passes) && Valid(clock, trail[0]) && i < |passes|
    requires n in trail[0].jobs && trail[0].jobs[n].enabled && !trail[0].jobs[n].oneTime && n !in trail[0].fires
    requires NeverFiring(clock, trail[0].jobs[n].cron)
    ensures Valid(clock, trail[i]) && passes[i].fired == map[]
    ensures n in trail[i + 1].jobs && trail[i + 1].jobs[n] == trail[0].jobs[n] && Kept(trail[i + 1], n).None?
  {
    hide Valid, Ticked;
    if i > 0 { StrandedBlocksEveryTick(clock, trail, passes, n, i - 1); }
    TickingKeeps(clock, trail, passes, i);
    assert n in trail[i].jobs && Raises(clock, trail[i], n, passes[i].now);
    assert Ticked(clock, trail[i], passes[i], trail[i + 1]);
    TickFires(clock, trail[i], passes[i], trail[i + 1]);
    TickMoves(clock, trail[i], passes[i], trail[i + 1], n);
  }

  /** A job that fired the last time of its schedule stays on it, and fires for the
      same time again at the next pass that is not blocked. */
  lemma LastFireRepeats(clock: Clock, t: Table, p: Pass, u: Table, q: Pass, v: Table, n: string)
    requires Valid(clock, t) && Ticked(clock, t, p, u) && Ticked(clock, u, q, v) && p.now <= q.now
    requires n in t.jobs && t.jobs[n].enabled && !t.jobs[n].oneTime && n in p.fired
    requires clock.next(t.jobs[n].cron, p.fired[n]).None?
    ensures n in q.fired <==> !Blocked(clock, u, q.now)
    ensures n in q.fired ==> q.fired[n] == p.fired[n]
  {
    TickFires(clock, t, p, u);
    TickMoves(clock, t, p, u, n);
    TickKeeps(clock, t, p, u);
    KeptIsDue(clock, u, n, q.now);
    FiresWhenDue(clock, u, q, v, n);
    TickMoves(clock, u, q, v, n);
    hide Valid, Ticked, Blocked;
  }

  const ENDED := Job(true, "c", "last", Blank, false, Object("{}"))
  const DAILY := Job(true, "c", "daily", Blank, false, Object("{}"))
  const BOTH := Table(map["a" := ENDED, "b" := DAILY], map["a" := Some(1), "b" := Some(1)])
  const FIRED: map<string, int> := map["a" := 1, "b" := 1]

  /** A daily job behind one whose schedule has ended, both due: the pass fires both
      and leaves the table as it was, so the next pass does the same. */
  lemma DailyJobBehindAnEndedOne(clock: Clock)
    requires clock.next("last", 1) == None && clock.next("daily", 1) == Some(2)
    ensures Ticked(clock, BOTH, Pass(["a", "b"], 1, FIRED, ["a", "b"]), BOTH)
    ensures NextFire(clock, DAILY, 1) == Ok(Some(2)) && BOTH.fires["b"] == Some(FIRED["b"])
  {
    EndedThenDaily(clock);
    BothAmong();
    hide Advanced, Shown, DueNow, FiredAt, Among;
  }

  lemma BothAmong()
    ensures Among(["a", "b"], FIRED) == ["a", "b"]
  {
    assert ["a", "b"][..1] == ["a"] && ["a"][..0] == [];
    assert Among(["a"], FIRED) == ["a"];
  }

  lemma EndedThenDaily(clock: Clock)
    requires clock.next("last", 1) == None
    ensures Shown(clock, BOTH, ["a", "b"], 1) == Outcome(BOTH, None) && DueNow(clock, BOTH, 1) == FIRED
    ensures Advanced(clock, BOTH, ["a", "b"], FiredAt(clock, FIRED), 1) == Outcome(BOTH, Some(NeverFires))
  {
    assert ["a", "b"][..1] == ["a"] && ["a"][..0] == [];
    assert Shown(clock, BOTH, ["a"], 1) == Outcome(BOTH, None);
    assert Shown(clock, BOTH, ["a", "b"], 1) == Outcome(BOTH, None);
    hide Shown;
    assert DueNow(clock, BOTH, 1) == FIRED;
    hide DueNow;
    BaseIsFired(clock, FIRED, "a", 1);
    hide Base, FiredAt;
    assert Advanced(clock, BOTH, ["a"], FiredAt(clock, FIRED), 1) == Outcome(BOTH, Some(NeverFires));
  }
}
