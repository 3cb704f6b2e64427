/** The scheduled-job table as a value: what each change makes of it, and what
    putting captured names back makes of it. */
module JobTable {
  import opened Basics
  import opened JobDefinitions

  type Jobs = map<string, Job>
  type Fires = map<string, Option<int>>

  /** The definitions and, in a second map, the next fire times. */
  datatype Table = Table(jobs: Jobs, fires: Fires)

  const EMPTY := Table(map[], map[])

  /** Every job is normalized, and no fire time is kept for an unknown job. */
  ghost predicate Valid(clock: Clock, t: Table)
  {
    (forall n :: n in t.jobs ==> Canonical(clock, t.jobs[n])) && t.fires.Keys <= t.jobs.Keys
  }

  /** Both maps know the same names. */
  predicate Whole(t: Table)
  {
    t.jobs.Keys == t.fires.Keys
  }

  // ---- Changes -----------------------------------------------------------------

  datatype Change =
    | Create(name: string, def: Job)
    | Update(name: string, patch: Patch)
    | Remove(name: string)
    | Advance(names: seq<string>, firedAt: map<string, Text>)

  function Touched(change: Change): set<string>
  {
    match change
    case Create(name, _) => {name}
    case Update(name, _) => {name}
    case Remove(name) => {name}
    case Advance(names, _) => set n | n in names
  }

  /** The table after a change, and the error it raised. */
  datatype Outcome = Outcome(table: Table, error: Option<Error>)

  /** Store a definition: the job is entered before its fire time is asked for. */
  function Put(clock: Clock, t: Table, name: string, def: Job, now: int): Outcome
  {
    match Normalize(clock, def, now)
    case Err(e) => Outcome(t, Some(e))
    case Ok(job) =>
      match NextFire(clock, job, now)
      case Err(e) => Outcome(Table(t.jobs[name := job], t.fires), Some(e))
      case Ok(fire) => Outcome(Table(t.jobs[name := job], t.fires[name := fire]), None)
  }

  function Without(t: Table, name: string): Table
  {
    Table(t.jobs - {name}, t.fires - {name})
  }

  /** The moment a repeating job is advanced from: when it was scheduled, or now
      if that is not known or not readable. */
  function Base(clock: Clock, name: string, firedAt: map<string, Text>, now: int): int
  {
    if name in firedAt && ParseDatetime(clock, firedAt[name], now).Ok?
    then ParseDatetime(clock, firedAt[name], now).value.instant
    else now
  }

  /** Move one job past the fire it had; a one-time job is done with. */
  function AdvanceOne(clock: Clock, t: Table, name: string, base: int): Outcome
  {
    if name !in t.jobs then Outcome(t, None)
    else if t.jobs[name].oneTime then Outcome(Without(t, name), None)
    else
      match NextFire(clock, t.jobs[name], base)
      case Err(e) => Outcome(t, Some(e))
      case Ok(fire) => Outcome(Table(t.jobs, t.fires[name := fire]), None)
  }

  /** One name after the other, until one raises. */
  function Advanced(clock: Clock, t: Table, names: seq<string>, firedAt: map<string, Text>, now: int): Outcome
  {
    if names == [] then Outcome(t, None)
    else
      var n := |names| - 1;
      var before := Advanced(clock, t, names[..n], firedAt, now);
      if before.error.Some? then before
      else AdvanceOne(clock, before.table, names[n], Base(clock, names[n], firedAt, now))
  }

  function Changed(clock: Clock, t: Table, change: Change, now: int): Outcome
  {
    match change
    case Create(name, def) => if name in t.jobs then Outcome(t, Some(NameTaken)) else Put(clock, t, name, def, now)
    case Update(name, patch) =>
      if name !in t.jobs then Outcome(t, Some(UnknownJob)) else Put(clock, t, name, Merge(t.jobs[name], patch), now)
    case Remove(name) => Outcome(Without(t, name), None)
    case Advance(names, firedAt) => Advanced(clock, t, names, firedAt, now)
  }

  /** Nothing outside `names` differs. */
  ghost predicate SameBut(a: Table, b: Table, names: set<string>)
  {
    forall n :: n !in names ==> SameAt(a, b, n)
  }

  predicate SameAt(a: Table, b: Table, n: string)
  {
    && (n in a.jobs <==> n in b.jobs) && (n in a.jobs && n in b.jobs ==> a.jobs[n] == b.jobs[n])
    && (n in a.fires <==> n in b.fires) && (n in a.fires && n in b.fires ==> a.fires[n] == b.fires[n])
  }

  lemma PutKeeps(clock: Clock, t: Table, name: string, def: Job, now: int)
    requires Valid(clock, t)
    ensures Valid(clock, Put(clock, t, name, def, now).table) && SameBut(t, Put(clock, t, name, def, now).table, {name})
    ensures name in t.fires ==> (Whole(t) ==> Whole(Put(clock, t, name, def, now).table))
    ensures Put(clock, t, name, def, now).error.Some? && Put(clock, t, name, def, now).error != Some(NeverFires) ==>
              Put(clock, t, name, def, now).table == t
  {
    hide Normalize, Canonical;
    if Normalize(clock, def, now).Ok? { NormalizedIsCanonical(clock, def, now); }
  }

  lemma {:induction false} AdvancedKeeps(clock: Clock, t: Table, names: seq<string>, firedAt: map<string, Text>,
                                         now: int)
    requires Valid(clock, t)
    ensures var o := Advanced(clock, t, names, firedAt, now);
            && Valid(clock, o.table) && SameBut(t, o.table, set n | n in names) && (Whole(t) ==> Whole(o.table))
            && (o.error.Some? ==> o.error == Some(NeverFires))
  {
    hide Canonical, Base;
    if names != [] {
      var n := |names| - 1;
      AdvancedKeeps(clock, t, names[..n], firedAt, now);
      assert forall k :: k in names <==> k in names[..n] || k == names[n];
      var before := Advanced(clock, t, names[..n], firedAt, now);
      AdvancedOnce(clock, t, names, firedAt, now);
      hide Advanced, SameBut, AdvanceOne, SameAt;
      if before.error.None? {
        AdvanceOneKeeps(clock, before.table, names[n], Base(clock, names[n], firedAt, now));
        SameButTwice(t, before.table, Advanced(clock, t, names, firedAt, now).table, set k | k in names[..n],
          {names[n]},
                     set k | k in names);
      } else {
        SameButTwice(t, before.table, before.table, set k | k in names[..n], {}, set k | k in names);
      }
    }
  }

  lemma SameButTwice(a: Table, b: Table, c: Table, some: set<string>, more: set<string>, all: set<string>)
    requires SameBut(a, b, some) && SameBut(b, c, more) && some <= all && more <= all
    ensures SameBut(a, c, all)
  {
    forall n | n !in all
      ensures SameAt(a, c, n)
    {
      assert SameAt(a, b, n) && SameAt(b, c, n);
    }
  }

  lemma AdvancedOnce(clock: Clock, t: Table, names: seq<string>, firedAt: map<string, Text>, now: int)
    requires names != []
    ensures var n := |names| - 1;
            var before := Advanced(clock, t, names[..n], firedAt, now);
            Advanced(clock, t, names, firedAt, now) ==
              if before.error.Some? then before
              else AdvanceOne(clock, before.table, names[n], Base(clock, names[n], firedAt, now))
  {
  }

  lemma AdvanceOneKeeps(clock: Clock, t: Table, name: string, base: int)
    requires Valid(clock, t)
    ensures var o := AdvanceOne(clock, t, name, base);
            && Valid(clock, o.table) && SameBut(t, o.table, {name}) && (Whole(t) ==> Whole(o.table))
            && (o.error.Some? ==> o.error == Some(NeverFires))
  {
    hide Canonical;
  }

  /** A change keeps the table valid and touches only the names it says; an error
      other than a cron that never fires changes nothing. */
  lemma ChangeKeeps(clock: Clock, t: Table, change: Change, now: int)
    requires Valid(clock, t)
    ensures Valid(clock, Changed(clock, t, change, now).table)
    ensures SameBut(t, Changed(clock, t, change, now).table, Touched(change))
    ensures Changed(clock, t, change, now).error.Some? && Changed(clock, t, change, now).error != Some(NeverFires) ==>
              Changed(clock, t, change, now).table == t
  {
    hide Put, Advanced, Valid, Merge;
    match change
    case Create(name, def) => PutKeeps(clock, t, name, def, now);
    case Update(name, patch) => if name in t.jobs { PutKeeps(clock, t, name, Merge(t.jobs[name], patch), now); }
    case Remove(name) => RemoveKeeps(clock, t, name);
    case Advance(names, firedAt) => AdvancedKeeps(clock, t, names, firedAt, now);
  }

  lemma RemoveKeeps(clock: Clock, t: Table, name: string)
    requires Valid(clock, t)
    ensures Valid(clock, Without(t, name))
  {
  }

  // ---- When the two maps part ----------------------------------------------------

  /** A new job, well defined, whose cron never fires from now on. */
  predicate Strands(clock: Clock, t: Table, change: Change, now: int)
  {
    && change.Create? && change.name !in t.jobs
    && Normalize(clock, change.def, now).Ok? && NextFire(clock, Normalize(clock, change.def, now).value, now).Err?
  }

  /** A change leaves the maps with the same names exactly when it is not the
      creation of a job that never fires. */
  lemma WholeUnlessStranded(clock: Clock, t: Table, change: Change, now: int)
    requires Valid(clock, t) && Whole(t)
    ensures Whole(Changed(clock, t, change, now).table) <==> !Strands(clock, t, change, now)
  {
    match change
    case Create(name, def) => hide Normalize;
    case Update(name, patch) =>
      if name in t.jobs {
        PutKeeps(clock, t, name, Merge(t.jobs[name], patch), now);
        hide Normalize, Merge, Put;
      }
    case Remove(name) =>
    case Advance(names, firedAt) => AdvancedKeeps(clock, t, names, firedAt, now);
  }

  // ---- Reloading -------------------------------------------------------------------

  /** A one-time job whose moment has passed. */
  predicate Lapsed(clock: Clock, def: Job, now: int)
  {
    def.oneTime && ParseDatetime(clock, def.runAt, now).Ok? && ParseDatetime(clock, def.runAt, now).value.instant < now
  }

  lemma LapsedAsNormalized(clock: Clock, def: Job, now: int, job: Job)
    requires Normalize(clock, def, now) == Ok(job)
    ensures job.oneTime ==> ParseDatetime(clock, job.runAt, now).Ok?
    ensures Lapsed(clock, def, now)
       <==> job.oneTime && ParseDatetime(clock, job.runAt, now).value.instant < now
  {
    hide Strip;
  }

  /** A configured definition that a reload takes, or drops as lapsed. */
  predicate Loadable(clock: Clock, def: Job, now: int, purge: bool)
  {
    var normalized := Normalize(clock, def, now);
    normalized.Ok? && ((purge && Lapsed(clock, def, now)) || NextFire(clock, normalized.value, now).Ok?)
  }

  function ValueOf<T>(r: Result<T>, none: T): T
  {
    if r.Ok? then r.value else none
  }

  /** What the configuration holds, if all of it can be loaded. */
  function Loaded(clock: Clock, raw: Jobs, now: int, purge: bool): Table
  {
    Table(map n | n in raw && !(purge && Lapsed(clock, raw[n], now)) :: ValueOf(Normalize(clock, raw[n], now), raw[n]),
          map n | n in raw && !(purge && Lapsed(clock, raw[n], now))
            :: ValueOf(NextFire(clock, ValueOf(Normalize(clock, raw[n], now), raw[n]), now), None))
  }

  predicate AllLoadable(clock: Clock, raw: Jobs, now: int, purge: bool)
  {
    forall n :: n in raw ==> Loadable(clock, raw[n], now, purge)
  }

  /** Any definition that cannot be loaded leaves the table as it was. */
  function Reloaded(clock: Clock, t: Table, raw: Jobs, now: int, purge: bool): Table
  {
    if AllLoadable(clock, raw, now, purge) then Loaded(clock, raw, now, purge) else t
  }

  /** A definition in order that, if it is enabled and repeating, fires again. */
  predicate Takable(clock: Clock, def: Job, now: int)
  {
    Normalize(clock, def, now).Ok? && !(def.enabled && !def.oneTime && clock.next(def.cron, now).None?)
  }

  predicate AllTakable(clock: Clock, raw: Jobs, now: int)
  {
    forall n :: n in raw ==> Takable(clock, raw[n], now)
  }

  /** A change fails exactly if it creates a job that is there or updates one that is not,
      or if what it would store cannot be taken; removing never fails. */
  lemma ChangeSucceedsExactly(clock: Clock, t: Table, change: Change, now: int)
    ensures var ok := Changed(clock, t, change, now).error.None?;
            match change
            case Create(name, def) => ok <==> name !in t.jobs && Takable(clock, def, now)
            case Update(name, patch) => ok <==> name in t.jobs && Takable(clock, Merge(t.jobs[name], patch), now)
            case Remove(_) => ok
            case Advance(_, _) => true
  {
    hide Normalize, NextFire, Merge, Takable;
    match change
    case Create(name, def) => LoadableExactly(clock, def, now, false);
    case Update(name, patch) =>
      if name in t.jobs { LoadableExactly(clock, Merge(t.jobs[name], patch), now, false); }
    case _ =>
  }

  /** A one-time definition whose moment, as it was meant, has passed. */
  ghost predicate Past(clock: Clock, def: Job, now: int)
  {
    def.oneTime && exists at :: Means(clock, def.runAt, now, at) && at < now
  }

  lemma LoadableExactly(clock: Clock, def: Job, now: int, purge: bool)
    ensures Loadable(clock, def, now, purge) <==> Takable(clock, def, now)
  {
    NormalizeExactly(clock, def, now);
    if Normalize(clock, def, now).Ok? {
      NormalizedIsCanonical(clock, def, now);
      NextFireExactly(clock, Normalize(clock, def, now).value, now);
    }
    hide Normalize, NextFire, Canonical, Strip;
  }

  lemma LapsedExactly(clock: Clock, def: Job, now: int)
    ensures Lapsed(clock, def, now) <==> Past(clock, def, now)
  {
    if def.runAt.Naive? { assert Means(clock, def.runAt, now, def.runAt.wall - clock.zone(now)); }
    if def.runAt.Aware? { assert Means(clock, def.runAt, now, def.runAt.instant); }
  }

  /** A reload is taken exactly if no definition stands in its way. Then the table holds
      exactly what was configured, each job normalized and with its next fire, but no
      one-time job whose moment has passed if those are to go. */
  lemma ReloadedExactly(clock: Clock, t: Table, raw: Jobs, now: int, purge: bool)
    ensures !AllTakable(clock, raw, now) ==> Reloaded(clock, t, raw, now, purge) == t
    ensures AllTakable(clock, raw, now) ==>
              var u := Reloaded(clock, t, raw, now, purge);
              && u.jobs.Keys == u.fires.Keys
              && (forall n :: n in u.jobs <==> n in raw && !(purge && Past(clock, raw[n], now)))
              && forall n :: n in u.jobs ==>
                   && Normalize(clock, raw[n], now) == Ok(u.jobs[n]) && FiresNext(clock, u.jobs[n], now, u.fires[n])
  {
    hide Normalize, NextFire, Canonical, Lapsed, Takable, Past;
    forall n | n in raw
      ensures Loadable(clock, raw[n], now, purge) <==> Takable(clock, raw[n], now)
      ensures Lapsed(clock, raw[n], now) <==> Past(clock, raw[n], now)
    {
      LoadableExactly(clock, raw[n], now, purge);
      LapsedExactly(clock, raw[n], now);
    }
    forall n | n in raw && Normalize(clock, raw[n], now).Ok?
               && NextFire(clock, Normalize(clock, raw[n], now).value, now).Ok?
      ensures FiresNext(clock, Normalize(clock, raw[n], now).value, now,
                        NextFire(clock, Normalize(clock, raw[n], now).value, now).value)
    {
      NormalizedIsCanonical(clock, raw[n], now);
      NextFireExactly(clock, Normalize(clock, raw[n], now).value, now);
    }
    hide FiresNext;
  }

  lemma ReloadKeeps(clock: Clock, t: Table, raw: Jobs, now: int, purge: bool)
    requires Valid(clock, t)
    ensures Valid(clock, Reloaded(clock, t, raw, now, purge))
    ensures Whole(t) ==> Whole(Reloaded(clock, t, raw, now, purge))
  {
    hide Normalize, Canonical, NextFire, Lapsed;
    if AllLoadable(clock, raw, now, purge) {
      forall n | n in raw
        ensures Canonical(clock, ValueOf(Normalize(clock, raw[n], now), raw[n]))
      {
        assert Loadable(clock, raw[n], now, purge);
        NormalizedIsCanonical(clock, raw[n], now);
      }
    }
  }

  // ---- Undo ----------------------------------------------------------------------

  /** What a capture holds of each of its names: the job and its next fire, or
      that there is none. */
  datatype Captured = Captured(keys: set<string>, jobs: Jobs, fires: Fires)

  function Capture(t: Table, names: set<string>): Captured
  {
    Captured(names, map n | n in names && n in t.jobs :: t.jobs[n],
             map n | n in names && n in t.jobs :: if n in t.fires then t.fires[n] else None)
  }

  /** The names in `keys` as `held` has them, present or absent, all others left. */
  function PutBackNames<V>(m: map<string, V>, keys: set<string>, held: map<string, V>): map<string, V>
  {
    (map n | n in m && n !in keys :: m[n]) + (map n | n in held && n in keys :: held[n])
  }

  function PutBack(t: Table, c: Captured): Table
  {
    Table(PutBackNames(t.jobs, c.keys, c.jobs), PutBackNames(t.fires, c.keys, c.fires))
  }

  ghost predicate CaptureOk(clock: Clock, c: Captured)
  {
    c.jobs.Keys == c.fires.Keys && forall n :: n in c.jobs ==> Canonical(clock, c.jobs[n])
  }

  lemma CaptureIsOk(clock: Clock, t: Table, names: set<string>)
    requires Valid(clock, t)
    ensures CaptureOk(clock, Capture(t, names))
  {
    hide Canonical;
  }

  lemma PutBackKeeps(clock: Clock, t: Table, c: Captured)
    requires Valid(clock, t) && CaptureOk(clock, c)
    ensures Valid(clock, PutBack(t, c)) && (Whole(t) ==> Whole(PutBack(t, c)))
  {
    hide Canonical;
  }

  /** Whatever was changed among the captured names, putting them back undoes it. */
  lemma PutBackUndoes(start: Table, changed: Table, names: set<string>)
    requires Whole(start) && SameBut(start, changed, names)
    ensures PutBack(changed, Capture(start, names)) == start
  {
    var c := Capture(start, names);
    forall n
      ensures SameAt(PutBack(changed, c), start, n)
    {
      assert n !in names ==> SameAt(start, changed, n);
    }
    SameEverywhere(PutBack(changed, c), start);
  }

  lemma SameEverywhere(a: Table, b: Table)
    requires forall n :: SameAt(a, b, n)
    ensures a == b
  {
    forall n
      ensures n in a.jobs <==> n in b.jobs
      ensures n in a.jobs && n in b.jobs ==> a.jobs[n] == b.jobs[n]
      ensures n in a.fires <==> n in b.fires
      ensures n in a.fires && n in b.fires ==> a.fires[n] == b.fires[n]
    {
      assert SameAt(a, b, n);
    }
    assert a.jobs == b.jobs && a.fires == b.fires;
  }

  /** A capture of all names there are brings the table back exactly when no new
      name was added since; added ones stay. */
  lemma PutBackAllExactly(start: Table, changed: Table)
    requires Whole(start) && changed.fires.Keys <= changed.jobs.Keys
    ensures PutBack(changed, Capture(start, start.jobs.Keys)) == start <==> changed.jobs.Keys <= start.jobs.Keys
  {
    var c := Capture(start, start.jobs.Keys);
    if changed.jobs.Keys <= start.jobs.Keys {
      PutBackUndoes(start, changed, start.jobs.Keys);
    } else {
      var n :| n in changed.jobs && n !in start.jobs;
      assert n in PutBack(changed, c).jobs;
    }
  }

  /** A job created after a capture without names survives putting it back. */
  lemma LaterJobStays(name: string, job: Job, fire: Option<int>)
    ensures var later := Table(map[name := job], map[name := fire]);
            PutBack(later, Capture(EMPTY, EMPTY.jobs.Keys)) == later
  {
  }

  /** A valid definition with a cron that never fires: the job is in one map only. */
  lemma NeverFiringJobIsStranded(clock: Clock, now: int)
    requires NeverFiring(clock, "0 0 30 2 *")
    ensures var job := Job(true, "c", "0 0 30 2 *", Blank, false, Object("{}"));
            && Changed(clock, EMPTY, Create("j", job), now) == Outcome(Table(map["j" := job], map[]), Some(NeverFires))
            && !Whole(Changed(clock, EMPTY, Create("j", job), now).table)
  {
    StripTrims("c");
    assert "j" in map["j" := 0];
    var job := Job(true, "c", "0 0 30 2 *", Blank, false, Object("{}"));
    assert "j" in Changed(clock, EMPTY, Create("j", job), now).table.jobs;
  }

  // ---- Runs ------------------------------------------------------------------------

  /** Fill in one missing fire time, as a reader of the table does. */
  function ShowOne(clock: Clock, t: Table, name: string, now: int): Outcome
  {
    if name !in t.jobs || !t.jobs[name].enabled || (name in t.fires && t.fires[name].Some?) then Outcome(t, None)
    else
      match NextFire(clock, t.jobs[name], now)
      case Err(e) => Outcome(t, Some(e))
      case Ok(fire) => Outcome(Table(t.jobs, t.fires[name := fire]), None)
  }

  /** One name after the other, until one raises. */
  function Shown(clock: Clock, t: Table, names: seq<string>, now: int): Outcome
  {
    if names == [] then Outcome(t, None)
    else
      var before := Shown(clock, t, names[..|names| - 1], now);
      if before.error.Some? then before else ShowOne(clock, before.table, names[|names| - 1], now)
  }

  lemma {:induction false} ShownKeeps(clock: Clock, t: Table, names: seq<string>, now: int)
    requires Valid(clock, t)
    ensures Valid(clock, Shown(clock, t, names, now).table) && Shown(clock, t, names, now).table.jobs == t.jobs
    ensures Whole(t) ==> Whole(Shown(clock, t, names, now).table)
  {
    hide Canonical, NextFire;
    if names != [] { ShownKeeps(clock, t, names[..|names| - 1], now); }
  }

  datatype Op =
    | Do(change: Change, now: int)
    | Reload(raw: Jobs, now: int, purge: bool)
    | Show(names: seq<string>, now: int)
    | Save(keys: Option<set<string>>)     // none means all there are
    | Restore(which: nat)                 // what the n-th save holds

  datatype State = State(table: Table, held: seq<Captured>)

  function Stepped(clock: Clock, s: State, op: Op): State
  {
    match op
    case Do(change, now) => s.(table := Changed(clock, s.table, change, now).table)
    case Reload(raw, now, purge) => s.(table := Reloaded(clock, s.table, raw, now, purge))
    case Show(names, now) => s.(table := Shown(clock, s.table, names, now).table)
    case Save(keys) => s.(held := s.held + [Capture(s.table, Or(keys, s.table.jobs.Keys))])
    case Restore(which) => if which < |s.held| then s.(table := PutBack(s.table, s.held[which])) else s
  }

  function After(clock: Clock, s: State, ops: seq<Op>): State
  {
    if ops == [] then s else Stepped(clock, After(clock, s, ops[..|ops| - 1]), ops[|ops| - 1])
  }

  ghost predicate StateOk(clock: Clock, s: State)
  {
    Valid(clock, s.table) && forall i :: 0 <= i < |s.held| ==> CaptureOk(clock, s.held[i])
  }

  /** A step that strands a job: it is in one map, and not in the other. */
  predicate Parts(clock: Clock, s: State, op: Op)
  {
    op.Do? && Strands(clock, s.table, op.change, op.now)
  }

  lemma SteppedKeeps(clock: Clock, s: State, op: Op)
    requires StateOk(clock, s)
    ensures StateOk(clock, Stepped(clock, s, op))
    ensures Whole(s.table) ==> (Whole(Stepped(clock, s, op).table) <==> !Parts(clock, s, op))
  {
    match op
    case Do(change, now) =>
      ChangeKeeps(clock, s.table, change, now);
      if Whole(s.table) { WholeUnlessStranded(clock, s.table, change, now); }
      hide Valid, Whole, Changed, Strands, CaptureOk;
    case Reload(raw, now, purge) =>
      ReloadKeeps(clock, s.table, raw, now, purge);
      hide Valid, Reloaded, CaptureOk;
    case Show(names, now) =>
      ShownKeeps(clock, s.table, names, now);
      hide Valid, Shown, CaptureOk;
    case Save(keys) =>
      CaptureIsOk(clock, s.table, Or(keys, s.table.jobs.Keys));
      hide Valid, Capture, CaptureOk, Or;
    case Restore(which) =>
      if which < |s.held| {
        PutBackKeeps(clock, s.table, s.held[which]);
        hide Valid, PutBack, CaptureOk;
      }
  }

  /** Over every run of changes, reloads, reads, captures and restores the table
      stays valid. */
  lemma {:induction false} RunKeepsValid(clock: Clock, s: State, ops: seq<Op>)
    requires StateOk(clock, s)
    ensures StateOk(clock, After(clock, s, ops))
  {
    if ops != [] {
      RunKeepsValid(clock, s, ops[..|ops| - 1]);
      SteppedKeeps(clock, After(clock, s, ops[..|ops| - 1]), ops[|ops| - 1]);
      hide StateOk, Stepped;
    }
  }

  lemma StepParts(clock: Clock, s: State, ops: seq<Op>, i: nat)
    requires StateOk(clock, s) && i < |ops|
    ensures Whole(After(clock, s, ops[..i]).table) ==>
              (Whole(After(clock, s, ops[..i + 1]).table) <==> !Parts(clock, After(clock, s, ops[..i]), ops[i]))
  {
    RunKeepsValid(clock, s, ops[..i]);
    SteppedKeeps(clock, After(clock, s, ops[..i]), ops[i]);
    hide StateOk, Parts, Stepped, Whole;
    assert ops[..i + 1][..i] == ops[..i];
  }

  lemma {:induction false} WholeIfNoneParts(clock: Clock, s: State, ops: seq<Op>, i: nat)
    requires StateOk(clock, s) && Whole(s.table) && i <= |ops|
    requires forall k :: 0 <= k < i ==> !Parts(clock, After(clock, s, ops[..k]), ops[k])
    ensures Whole(After(clock, s, ops[..i]).table)
  {
    hide StateOk, Parts, Stepped, Whole;
    if i > 0 {
      WholeIfNoneParts(clock, s, ops, i - 1);
      StepParts(clock, s, ops, i - 1);
    }
  }

  /** Both maps know the same names after every step of a run exactly when no step
      creates a job that never fires. */
  lemma WholeThroughoutExactly(clock: Clock, s: State, ops: seq<Op>)
    requires StateOk(clock, s) && Whole(s.table)
    ensures (forall i :: 0 <= i <= |ops| ==> Whole(After(clock, s, ops[..i]).table))
       <==> (forall i :: 0 <= i < |ops| ==> !Parts(clock, After(clock, s, ops[..i]), ops[i]))
  {
    hide StateOk, Parts, After, Whole;
    if forall i :: 0 <= i <= |ops| ==> Whole(After(clock, s, ops[..i]).table) {
      forall i | 0 <= i < |ops|
        ensures !Parts(clock, After(clock, s, ops[..i]), ops[i])
      {
        StepParts(clock, s, ops, i);
      }
    }
    if forall i :: 0 <= i < |ops| ==> !Parts(clock, After(clock, s, ops[..i]), ops[i]) {
      forall i | 0 <= i <= |ops|
        ensures Whole(After(clock, s, ops[..i]).table)
      {
        WholeIfNoneParts(clock, s, ops, i);
      }
    }
  }

  /** Steps are taken one after the other. */
  lemma {:induction false} AfterBoth(clock: Clock, s: State, some: seq<Op>, more: seq<Op>)
    ensures After(clock, s, some + more) == After(clock, After(clock, s, some), more)
    ensures forall op :: After(clock, s, [op]) == Stepped(clock, s, op)
  {
    hide Stepped;
    forall op
      ensures After(clock, s, [op]) == Stepped(clock, s, op)
    {
      assert [op][..0] == [];
    }
    if more == [] {
      assert some + more == some;
    } else {
      var n := |more| - 1;
      assert (some + more)[..|some + more| - 1] == some + more[..n];
      AfterBoth(clock, s, some, more[..n]);
    }
  }

  lemma AfterOne(clock: Clock, s: State, op: Op)
    ensures After(clock, s, [op]) == Stepped(clock, s, op)
  {
    assert [op][..0] == [] && After(clock, s, []) == s;
    hide Stepped;
  }

  lemma ChangeIsUndone(clock: Clock, t: Table, change: Change, now: int)
    requires Valid(clock, t) && Whole(t)
    ensures PutBack(Changed(clock, t, change, now).table, Capture(t, Touched(change))) == t
  {
    ChangeKeeps(clock, t, change, now);
    hide Changed, Capture, PutBack, Touched, Valid;
    PutBackUndoes(t, Changed(clock, t, change, now).table, Touched(change));
  }

  lemma UndoneInSteps(clock: Clock, s: State, change: Change, now: int)
    requires StateOk(clock, s) && Whole(s.table)
    ensures var changed := Stepped(clock, Stepped(clock, s, Save(Some(Touched(change)))), Do(change, now));
            Stepped(clock, changed, Op.Restore(|s.held|)).table == s.table
  {
    hide Changed, Capture, PutBack, Touched, Valid, Whole, CaptureOk;
    ChangeIsUndone(clock, s.table, change, now);
  }

  /** In a run, a change between the capture of the names it touches and the restoring of
      them leaves no trace. */
  lemma UndoneInARun(clock: Clock, s: State, change: Change, now: int)
    requires StateOk(clock, s) && Whole(s.table)
    ensures var t := After(clock, s, [Save(Some(Touched(change))), Do(change, now), Restore(|s.held|)]);
            t.table == s.table
  {
    hide After, Stepped, StateOk, Whole, Touched;
    UndoneInSteps(clock, s, change, now);
    var save, apply, restore := Save(Some(Touched(change))), Do(change, now), Op.Restore(|s.held|);
    AfterOne(clock, s, save);
    AfterOne(clock, Stepped(clock, s, save), apply);
    AfterOne(clock, Stepped(clock, Stepped(clock, s, save), apply), restore);
    AfterBoth(clock, s, [save], [apply]);
    AfterBoth(clock, s, [save] + [apply], [restore]);
    assert [save, apply, restore] == [save] + [apply] + [restore];
  }
}
