/** The scheduled-job table as the process holds it: each operation, loop by loop,
    makes of the table what `JobTable` says. */
module JobStore {
  import opened Basics
  import opened JobDefinitions
  import opened JobTable
  import opened JobTicks

  class Store {
    const clock: Clock
    var jobs: Jobs
    var nextFireAt: Fires
    var saved: Jobs    // the table in the plugin configuration

    ghost function Now(): Table
      reads this`jobs, this`nextFireAt
    {
      Table(jobs, nextFireAt)
    }

    constructor (clock: Clock)
      ensures this.clock == clock && Now() == EMPTY && saved == map[]
    {
      this.clock := clock;
      jobs, nextFireAt, saved := map[], map[], map[];
    }

    /** Rebuild the table from what is configured, dropping one-time jobs that
        lapsed if asked to; any bad definition leaves the table as it was. */
    method Reload(raw: Jobs, now: int, purgeExpired: bool) returns (r: Result<()>)
      modifies this
      ensures Now() == Reloaded(clock, old(Now()), raw, now, purgeExpired)
      ensures r.Ok? <==> AllLoadable(clock, raw, now, purgeExpired)
      ensures r.Ok? ==> AllFireNext(clock, Now(), now)
      ensures saved == if r.Ok? && purgeExpired
                && (exists n :: n in raw && Lapsed(clock, raw[n], now)) then jobs else old(saved)
    {
      hide Normalize, NextFire, Lapsed, Loaded, Partly, AllFireNext;
      var names := ListKeys(raw.Keys);
      var js: Jobs, fs: Fires, purged := map[], map[], false;
      NoneLoaded(clock, raw, now, purgeExpired);
      for i := 0 to |names|
        invariant Now() == old(Now()) && saved == old(saved)
        invariant Partly(clock, raw, names[..i], now, purgeExpired, js, fs, purged)
      {
        var name := names[i];
        assert name in Elems(names) && names[..i + 1] == names[..i] + [name];
        var normalized := Normalize(clock, raw[name], now);
        if normalized.Err? {
          assert !Loadable(clock, raw[name], now, purgeExpired);
          return Err(normalized.error);
        }
        LapsedAsNormalized(clock, raw[name], now, normalized.value);
        if purgeExpired && normalized.value.oneTime
           && ParseDatetime(clock, normalized.value.runAt, now).value.instant < now {
          PurgedOne(clock, raw, names[..i], now, purgeExpired, js, fs, purged, name);
          purged := true;
        } else {
          var fire := NextFire(clock, normalized.value, now);
          if fire.Err? {
            assert !Loadable(clock, raw[name], now, purgeExpired);
            return Err(fire.error);
          }
          LoadedOne(clock, raw, names[..i], now, purgeExpired, js, fs, purged, name, normalized.value, fire.value);
          js, fs := js[name := normalized.value], fs[name := fire.value];
        }
      }
      assert names[..|names|] == names;
      LoadedIs(clock, raw, names, now, purgeExpired, js, fs, purged);
      LoadedFireNext(clock, raw, names, now, purgeExpired, js, fs, purged);
      jobs, nextFireAt := js, fs;
      if purged {
        saved := jobs;
      }
      return Ok(());
    }

    /** Normalize and store one job: it is entered before its fire time is asked
        for, and saved only after. */
    method Put(name: string, def: Job, now: int) returns (r: Result<Job>)
      modifies this
      ensures Outcome(Now(), Failure(r)) == JobTable.Put(clock, old(Now()), name, def, now)
      ensures r.Ok? ==> Normalize(clock, def, now) == r && saved == jobs
      ensures r.Ok? ==> name in nextFireAt && FiresNext(clock, r.value, now, nextFireAt[name])
      ensures r.Err? ==> saved == old(saved)
    {
      hide Normalize, NextFire, FiresNext, Canonical;
      var normalized := Normalize(clock, def, now);
      if normalized.Err? {
        return Err(normalized.error);
      }
      jobs := jobs[name := normalized.value];
      NormalizedIsCanonical(clock, def, now);
      NextFireExactly(clock, normalized.value, now);
      var fire := NextFire(clock, normalized.value, now);
      if fire.Err? {
        return Err(fire.error);
      }
      nextFireAt := nextFireAt[name := fire.value];
      saved := jobs;
      return Ok(normalized.value);
    }

    method CreateJob(name: string, def: Job, now: int) returns (r: Result<Job>)
      modifies this
      ensures Outcome(Now(), Failure(r)) == Changed(clock, old(Now()), Create(name, def), now)
      ensures name in old(jobs) ==> r == Err(NameTaken) && Now() == old(Now())
      ensures r.Ok? <==> name !in old(jobs) && Takable(clock, def, now)
      ensures r.Ok? ==> name in jobs && jobs[name] == r.value && saved == jobs
      ensures r.Ok? ==> name in nextFireAt && FiresNext(clock, r.value, now, nextFireAt[name])
      ensures r.Err? ==> saved == old(saved)
      ensures Whole(old(Now())) ==>
                (Whole(Now()) <==> || name in old(jobs) || Normalize(clock, def, now).Err?
                                   || NextFire(clock, Normalize(clock, def, now).value, now).Ok?)
    {
      ChangeSucceedsExactly(clock, Now(), Create(name, def), now);
      hide Normalize, NextFire, FiresNext, Takable;
      if name in jobs {
        return Err(NameTaken);
      }
      r := Put(name, def, now);
      hide JobTable.Put;
      if Whole(old(Now())) { PutParts(clock, old(Now()), name, def, now); }
    }

    method UpdateJob(name: string, patch: Patch, now: int) returns (r: Result<Job>)
      modifies this
      ensures Outcome(Now(), Failure(r)) == Changed(clock, old(Now()), Update(name, patch), now)
      ensures name !in old(jobs) ==> r == Err(UnknownJob) && Now() == old(Now())
      ensures name in old(jobs) ==> (r.Ok? <==> Takable(clock, Merge(old(jobs)[name], patch), now))
      ensures r.Ok? ==> name in jobs && jobs[name] == r.value && saved == jobs
      ensures r.Ok? ==> name in nextFireAt && FiresNext(clock, r.value, now, nextFireAt[name])
      ensures r.Ok? ==> name in old(jobs) && Patched(clock, old(jobs)[name], patch, now, r.value)
      ensures r.Err? ==> saved == old(saved)
    {
      ChangeSucceedsExactly(clock, Now(), Update(name, patch), now);
      hide Normalize, Merge, NextFire, FiresNext, Patched, Takable;
      if name !in jobs {
        return Err(UnknownJob);
      }
      MergedIsPatched(clock, jobs[name], patch, now);
      r := Put(name, Merge(jobs[name], patch), now);
    }

    method RemoveJob(name: string) returns (removed: bool)
      modifies this
      ensures removed == (name in old(jobs))
      ensures jobs == old(jobs) - {name} && nextFireAt == old(nextFireAt) - {name}
      ensures Outcome(Now(), None) == Changed(clock, old(Now()), Remove(name), 0)
      ensures saved == if removed then jobs else old(saved)
    {
      removed := name in jobs;
      jobs, nextFireAt := jobs - {name}, nextFireAt - {name};
      if removed {
        saved := jobs;
      }
    }

    /** Move jobs past the fire they just had; one-time jobs are done with. An
        error stops half-way, with nothing saved. */
    method AdvanceJobs(names: seq<string>, firedAt: map<string, Text>, now: int) returns (r: Result<seq<string>>)
      modifies this
      ensures Outcome(Now(), Failure(r)) == Changed(clock, old(Now()), Advance(names, firedAt), now)
      ensures r.Ok? ==> Dropped(r.value, old(jobs), names)
      ensures saved == if r.Ok? && r.value != [] then jobs else old(saved)
    {
      hide Base, JobTable.AdvanceOne, NextFire, Dropped;
      NoneDropped(jobs);
      var removed: seq<string> := [];
      for i := 0 to |names|
        invariant Outcome(Now(), None) == Advanced(clock, old(Now()), names[..i], firedAt, now)
        invariant Dropped(removed, old(jobs), names[..i])
        invariant saved == old(saved)
      {
        var name := names[i];
        assert names[..i + 1][..i] == names[..i];
        StillThere(clock, old(Now()), names[..i], firedAt, now, name);
        AdvancedOnce(clock, old(Now()), names[..i + 1], firedAt, now);
        hide Advanced;
        DroppedOne(removed, old(jobs), names, i);
        var gone, fire := AdvanceOne(name, Base(clock, name, firedAt, now));
        if fire.Err? {
          AdvancedStops(clock, old(Now()), names, i + 1, firedAt, now);
          return Err(fire.error);
        }
        if gone {
          removed := removed + [name];
        }
      }
      assert names[..|names|] == names;
      if removed != [] {
        saved := jobs;
      }
      return Ok(removed);
    }

    method AdvanceOne(name: string, base: int) returns (gone: bool, fire: Result<()>)
      modifies this`jobs, this`nextFireAt
      ensures Outcome(Now(), Failure(fire)) == JobTable.AdvanceOne(clock, old(Now()), name, base)
      ensures gone == (name in old(jobs) && old(jobs)[name].oneTime)
      ensures fire.Err? ==> Now() == old(Now())
    {
      hide NextFire;
      if name !in jobs {
        return false, Ok(());
      }
      var job := jobs[name];
      if job.oneTime {
        jobs, nextFireAt := jobs - {name}, nextFireAt - {name};
        return true, Ok(());
      }
      var next := NextFire(clock, job, base);
      if next.Err? {
        return false, Err(next.error);
      }
      nextFireAt := nextFireAt[name := next.value];
      return false, Ok(());
    }

    /** Snapshot enough to reverse a change to some names; `None` means all the
        names there are. */
    method CaptureState(names: Option<seq<string>>) returns (c: Captured, keys: seq<string>)
      ensures c == Capture(Now(), Elems(keys))
      ensures names.Some? ==> keys == names.value
      ensures names.None? ==> jobs.Keys == Elems(keys)
    {
      if names.Some? {
        keys := names.value;
      } else {
        keys := ListKeys(jobs.Keys);
      }
      var all := Elems(keys);
      c := Captured(all, map k | k in all && k in jobs :: jobs[k],
                    map k | k in all && k in jobs :: if k in nextFireAt then nextFireAt[k] else None);
    }

    method Restore(c: Captured, keys: seq<string>)
      requires c.keys == Elems(keys) && c.jobs.Keys == c.fires.Keys && c.jobs.Keys <= c.keys
      modifies this
      ensures Now() == PutBack(old(Now()), c) && saved == jobs
    {
      for i := 0 to |keys|
        invariant jobs == PutBackNames(old(jobs), Elems(keys[..i]), c.jobs)
        invariant nextFireAt == PutBackNames(old(nextFireAt), Elems(keys[..i]), c.fires)
      {
        var key := keys[i];
        assert keys[..i + 1] == keys[..i] + [key];
        PutBackOne(old(jobs), Elems(keys[..i]), c.jobs, key);
        PutBackOne(old(nextFireAt), Elems(keys[..i]), c.fires, key);
        assert Elems(keys[..i + 1]) == Elems(keys[..i]) + {key};
        if key in c.jobs {
          jobs, nextFireAt := jobs[key := c.jobs[key]], nextFireAt[key := c.fires[key]];
        } else {
          jobs, nextFireAt := jobs - {key}, nextFireAt - {key};
        }
      }
      assert keys[..|keys|] == keys;
      saved := jobs;
    }

    /** Carry out one change; the error it raised, if any. */
    method Apply(change: Change, now: int) returns (error: Option<Error>)
      modifies this
      ensures Outcome(Now(), error) == Changed(clock, old(Now()), change, now)
    {
      hide Normalize, Merge, Advanced, NextFire, JobTable.Put;
      match change {
        case Create(name, def) =>
          var r := CreateJob(name, def, now);
          error := Failure(r);
        case Update(name, patch) =>
          var r := UpdateJob(name, patch, now);
          error := Failure(r);
        case Remove(name) =>
          var r := RemoveJob(name);
          error := None;
        case Advance(names, firedAt) =>
          var r := AdvanceJobs(names, firedAt, now);
          error := Failure(r);
      }
    }

    /** Any series of changes, reloads, reads, captures and restores. */
    method Run(ops: seq<Op>) returns (held: seq<Captured>)
      requires StateOk(clock, State(Now(), []))
      modifies this
      ensures State(Now(), held) == After(clock, State(old(Now()), []), ops)
      ensures StateOk(clock, State(Now(), held))
    {
      hide Changed, Reloaded, Shown, PutBack, Capture, StateOk;
      held := [];
      var lists: seq<seq<string>> := [];
      assert ops[..0] == [];
      for i := 0 to |ops|
        invariant State(Now(), held) == After(clock, State(old(Now()), []), ops[..i])
        invariant |lists| == |held| && forall j :: 0 <= j < |held| ==> Listed(held[j], lists[j])
      {
        assert ops[..i + 1][..i] == ops[..i];
        match ops[i] {
          case Do(change, now) =>
            var error := Apply(change, now);
          case Reload(raw, now, purge) =>
            var r := Reload(raw, now, purge);
          case Show(names, now) =>
            var shown := Snapshot(names, now);
          case Save(keys) =>
            var all := ListKeys(Or(keys, jobs.Keys));
            var c, list := CaptureState(Some(all));
            CaptureListed(Now(), list);
            held, lists := held + [c], lists + [list];
          case Restore(which) =>
            if which < |held| {
              Restore(held[which], lists[which]);
            }
        }
      }
      assert ops[..|ops|] == ops;
      RunKeepsValid(clock, State(old(Now()), []), ops);
    }

    // ---- Ticks -------------------------------------------------------------------

    /** Read the fire times of the named jobs, filling in what is missing. */
    method Snapshot(names: seq<string>, now: int) returns (ok: bool)
      modifies this`nextFireAt
      ensures Now() == Shown(clock, old(Now()), names, now).table
      ensures ok == Shown(clock, old(Now()), names, now).error.None?
    {
      hide NextFire;
      for i := 0 to |names|
        invariant Outcome(Now(), None) == Shown(clock, old(Now()), names[..i], now)
      {
        var name := names[i];
        assert names[..i + 1][..i] == names[..i];
        if name in jobs && jobs[name].enabled && !(name in nextFireAt && nextFireAt[name].Some?) {
          var fire := NextFire(clock, jobs[name], now);
          if fire.Err? {
            ShownStops(clock, old(Now()), names, i + 1, now);
            return false;
          }
          nextFireAt := nextFireAt[name := fire.value];
        }
      }
      assert names[..|names|] == names;
      return true;
    }

    /** One pass of the timekeeper: read the table, fire what is due with the time
        it was due at, and move those jobs on from that time. A reading that raises
        shows nothing, and an error while moving on is lost. */
    method Tick(now: int) returns (p: Pass)
      requires Valid(clock, Now())
      modifies this
      ensures p.now == now && Ticked(clock, old(Now()), p, Now())
      ensures p.fired == if Blocked(clock, old(Now()), now) then map[] else DueNow(clock, old(Now()), now)
    {
      hide Valid, NextFire, Due, Advanced, FiredAt;
      var names := ListKeys(jobs.Keys);
      assert forall n :: n in names <==> n in Elems(names);
      ghost var start := Now();
      var ok := Snapshot(names, now);
      p := Pass(names, now, map[], []);
      NothingDue(names);
      ghost var snap := Now();
      if ok {
        var fired := ListFired(names, now, start);
        hide DueNow;
        var due := ListDue(names, fired);
        p := Pass(names, now, fired, due);
        if due != [] {
          var r := AdvanceJobs(due, FiredAt(clock, fired), now);
        } else {
          assert Advanced(clock, snap, due, FiredAt(clock, fired), now).table == snap by {
            NothingAdvanced(clock, snap, FiredAt(clock, fired), now);
          }
        }
      }
      hide Shown;
      TickFires(clock, start, p, Now());
    }

    /** The enabled jobs whose fire time, as just read, has come. */
    method ListFired(names: seq<string>, now: int, ghost start: Table) returns (fired: map<string, int>)
      requires Valid(clock, start) && (forall n :: n in start.jobs <==> n in names)
      requires Outcome(Now(), None) == Shown(clock, start, names, now)
      ensures fired == DueNow(clock, start, now)
    {
      hide Valid, Shown, DueNow;
      fired := map n | n in jobs && jobs[n].enabled && n in nextFireAt && nextFireAt[n].Some? &&
                       nextFireAt[n].value <= now :: nextFireAt[n].value;
      ShownIsDue(clock, start, names, now, Now(), fired);
    }

    /** What fired, in the order it was read. */
    method ListDue(names: seq<string>, fired: map<string, int>) returns (due: seq<string>)
      ensures due == Among(names, fired)
    {
      due := [];
      for i := 0 to |names|
        invariant due == Among(names[..i], fired)
      {
        assert names[..i + 1][..i] == names[..i];
        if names[i] in fired {
          due := due + [names[i]];
        }
      }
      assert names[..|names|] == names;
    }

    /** Passes at any moments, each as late as it may be. */
    method Ticks(nows: seq<int>) returns (passes: seq<Pass>, ghost trail: seq<Table>)
      requires Valid(clock, Now())
      modifies this
      ensures |passes| == |nows| && forall i :: 0 <= i < |nows| ==> passes[i].now == nows[i]
      ensures Ticking(clock, trail, passes) && trail[0] == old(Now()) && trail[|nows|] == Now()
    {
      hide Valid, Ticked, Blocked, DueNow;
      passes, trail := [], [Now()];
      for i := 0 to |nows|
        invariant |passes| == i && |trail| == i + 1 && trail[0] == old(Now()) && trail[i] == Now()
                  && Valid(clock, Now())
        invariant Ticking(clock, trail, passes) && forall k :: 0 <= k < i ==> passes[k].now == nows[k]
      {
        var p := Tick(nows[i]);
        TickKeeps(clock, trail[i], p, Now());
        passes, trail := passes + [p], trail + [Now()];
      }
    }
  }

  function Elems(names: seq<string>): set<string>
  {
    set n | n in names
  }

  function Failure<T>(r: Result<T>): Option<Error>
  {
    if r.Err? then Some(r.error) else None
  }

  /** The definitions among `seen` are loaded, or dropped as lapsed. */
  ghost predicate Partly(clock: Clock, raw: Jobs, seen: seq<string>, now: int, purge: bool, js: Jobs, fs: Fires,
                         purged: bool)
  {
    && (forall n :: n in seen ==> n in raw && Loadable(clock, raw[n], now, purge))
    && (forall n :: n in js <==> n in seen && !(purge && Lapsed(clock, raw[n], now)))
    && js.Keys == fs.Keys && (purged <==> purge && exists n :: n in seen && Lapsed(clock, raw[n], now))
    && forall n :: n in js ==> Normalize(clock, raw[n], now) == Ok(js[n]) && NextFire(clock, js[n], now) == Ok(fs[n])
  }

  /** Every job has the fire time it has to have. */
  ghost predicate AllFireNext(clock: Clock, t: Table, now: int)
  {
    forall n :: n in t.jobs ==> n in t.fires && FiresNext(clock, t.jobs[n], now, t.fires[n])
  }

  lemma LoadedFireNext(clock: Clock, raw: Jobs, seen: seq<string>, now: int, purge: bool, js: Jobs, fs: Fires,
                       purged: bool)
    requires Partly(clock, raw, seen, now, purge, js, fs, purged)
    ensures AllFireNext(clock, Table(js, fs), now)
  {
    hide Normalize, NextFire, Lapsed, Canonical, Loadable;
    forall n | n in js
      ensures n in fs && FiresNext(clock, js[n], now, fs[n])
    {
      NormalizedIsCanonical(clock, raw[n], now);
      NextFireExactly(clock, js[n], now);
    }
  }

  lemma NoneLoaded(clock: Clock, raw: Jobs, now: int, purge: bool)
    ensures Partly(clock, raw, [], now, purge, map[], map[], false)
  {
  }

  lemma PurgedOne(clock: Clock, raw: Jobs, seen: seq<string>, now: int, purge: bool, js: Jobs, fs: Fires, purged: bool,
                  name: string)
    requires Partly(clock, raw, seen, now, purge, js, fs, purged) && name in raw
    requires Normalize(clock, raw[name], now).Ok? && purge && Lapsed(clock, raw[name], now)
    ensures Partly(clock, raw, seen + [name], now, purge, js, fs, true)
  {
    hide Normalize, NextFire, Lapsed;
    assert forall n :: n in seen + [name] <==> n in seen || n == name;
  }

  lemma LoadedOne(clock: Clock, raw: Jobs, seen: seq<string>, now: int, purge: bool, js: Jobs, fs: Fires, purged: bool,
                  name: string, job: Job, fire: Option<int>)
    requires Partly(clock, raw, seen, now, purge, js, fs, purged) && name in raw
    requires Normalize(clock, raw[name], now) == Ok(job) && NextFire(clock, job, now) == Ok(fire)
    requires !(purge && Lapsed(clock, raw[name], now))
    ensures Partly(clock, raw, seen + [name], now, purge, js[name := job], fs[name := fire], purged)
  {
    hide Normalize, NextFire, Lapsed;
    assert forall n :: n in seen + [name] <==> n in seen || n == name;
  }

  lemma LoadedIs(clock: Clock, raw: Jobs, names: seq<string>, now: int, purge: bool, js: Jobs, fs: Fires, purged: bool)
    requires Partly(clock, raw, names, now, purge, js, fs, purged) && raw.Keys == Elems(names)
    ensures AllLoadable(clock, raw, now, purge) && Loaded(clock, raw, now, purge) == Table(js, fs)
    ensures purged <==> purge && exists n :: n in raw && Lapsed(clock, raw[n], now)
  {
    hide Normalize, NextFire, Lapsed, Loadable;
    assert forall n :: n in raw <==> n in names;
    assert Loaded(clock, raw, now, purge).jobs == js;
    assert Loaded(clock, raw, now, purge).fires == fs;
  }

  lemma PutParts(clock: Clock, t: Table, name: string, def: Job, now: int)
    requires Whole(t) && name !in t.jobs
    ensures Whole(Put(clock, t, name, def, now).table) <==>
              Normalize(clock, def, now).Err? || NextFire(clock, Normalize(clock, def, now).value, now).Ok?
  {
    hide Normalize, NextFire;
    assert name in Put(clock, t, name, def, now).table.jobs <==> Normalize(clock, def, now).Ok?;
  }

  /** The one-time jobs among `names`. */
  ghost predicate Dropped(removed: seq<string>, jobs: Jobs, names: seq<string>)
  {
    forall n :: n in removed <==> n in names && n in jobs && jobs[n].oneTime
  }

  lemma NoneDropped(jobs: Jobs)
    ensures Dropped([], jobs, [])
  {
  }

  lemma DroppedOne(removed: seq<string>, jobs: Jobs, names: seq<string>, i: nat)
    requires i < |names| && Dropped(removed, jobs, names[..i])
    ensures names[i] in jobs && jobs[names[i]].oneTime ==> Dropped(removed + [names[i]], jobs, names[..i + 1])
    ensures names[i] in names[..i] || names[i] !in jobs || !jobs[names[i]].oneTime ==>
              Dropped(removed, jobs, names[..i + 1])
  {
    assert names[..i + 1] == names[..i] + [names[i]];
  }

  lemma StillThere(clock: Clock, t: Table, names: seq<string>, firedAt: map<string, Text>, now: int, n: string)
    ensures var u := Advanced(clock, t, names, firedAt, now).table;
            && (n in u.jobs ==> n in t.jobs && u.jobs[n] == t.jobs[n])
            && (n in t.jobs && n !in names ==> n in u.jobs)
  {
    AdvancedAt(clock, t, names, firedAt, now, n);
    hide Advanced;
  }

  /** An error ends the list. */
  lemma {:induction false} AdvancedStops(clock: Clock, t: Table, names: seq<string>, k: nat, firedAt: map<string, Text>,
                                         now: int)
    requires k <= |names| && Advanced(clock, t, names[..k], firedAt, now).error.Some?
    ensures Advanced(clock, t, names, firedAt, now) == Advanced(clock, t, names[..k], firedAt, now)
    decreases |names|
  {
    if k == |names| {
      assert names[..k] == names;
    } else {
      assert names[..|names| - 1][..k] == names[..k];
      AdvancedStops(clock, t, names[..|names| - 1], k, firedAt, now);
    }
  }

  lemma {:induction false} ShownStops(clock: Clock, t: Table, names: seq<string>, k: nat, now: int)
    requires k <= |names| && Shown(clock, t, names[..k], now).error.Some?
    ensures Shown(clock, t, names, now) == Shown(clock, t, names[..k], now)
    decreases |names|
  {
    if k == |names| {
      assert names[..k] == names;
    } else {
      assert names[..|names| - 1][..k] == names[..k];
      ShownStops(clock, t, names[..|names| - 1], k, now);
    }
  }

  lemma {:induction false} NothingDue(names: seq<string>)
    ensures Among(names, map[]) == []
  {
    if names != [] { NothingDue(names[..|names| - 1]); }
  }

  lemma NothingAdvanced(clock: Clock, t: Table, firedAt: map<string, Text>, now: int)
    ensures Advanced(clock, t, [], firedAt, now).table == t
  {
  }

  lemma ShownIsDue(clock: Clock, t: Table, names: seq<string>, now: int, u: Table, fired: map<string, int>)
    requires Valid(clock, t) && (forall n :: n in t.jobs <==> n in names)
    requires u == Shown(clock, t, names, now).table && Shown(clock, t, names, now).error.None?
    requires forall n :: n in fired <==>
               n in u.jobs && u.jobs[n].enabled && n in u.fires && u.fires[n].Some? && u.fires[n].value <= now
    requires forall n :: n in fired ==> fired[n] == u.fires[n].value
    ensures fired == DueNow(clock, t, now)
  {
    hide Valid, Due, Shown;
    ShownAt(clock, t, names, now, "");
    forall n | n in t.jobs
      ensures Kept(u, n) == Due(clock, t, n, now)
    {
      ShownAt(clock, t, names, now, n);
    }
  }

  lemma PutBackOne<V>(m: map<string, V>, keys: set<string>, held: map<string, V>, k: string)
    ensures PutBackNames(m, keys + {k}, held) ==
              if k in held then PutBackNames(m, keys, held)[k := held[k]] else PutBackNames(m, keys, held) - {k}
  {
  }

  predicate Listed(c: Captured, list: seq<string>)
  {
    c.keys == Elems(list) && c.jobs.Keys == c.fires.Keys && c.jobs.Keys <= c.keys
  }

  lemma CaptureListed(t: Table, list: seq<string>)
    ensures Listed(Capture(t, Elems(list)), list)
  {
  }

  method ListKeys(keys: set<string>) returns (names: seq<string>)
    ensures keys == Elems(names)
    ensures forall i, j :: 0 <= i < j < |names| ==> names[i] != names[j]
  {
    names := [];
    var rest := keys;
    while rest != {}
      invariant rest <= keys && forall n :: n in names <==> n in keys && n !in rest
      invariant forall i, j :: 0 <= i < j < |names| ==> names[i] != names[j]
    {
      var n :| n in rest;
      assert forall m :: m in names + [n] <==> m in names || m == n;
      names, rest := names + [n], rest - {n};
    }
    assert forall n :: n in keys <==> n in Elems(names);
  }
}
