/** One turn's undo log: requests are carried out one by one, each recording how
    to undo it, and rolling back replays the log in reverse. */
module TurnJournal {
  import opened Basics
  import opened TurnEffects
  import J = JobTable
  import JobDefinitions
  import JobStore

  /** What an entry needs of the directories and of the captured jobs. */
  ghost predicate EntryOk(u: Undo, dirs: set<Path>)
  {
    && (u.Rewrite? || u.PutBack? ==> Parents(u.path) <= dirs)
    && (u.Reinstate? ==> JobStore.Listed(u.state, u.names))
  }

  ghost predicate EntriesOk(entries: seq<Undo>, dirs: set<Path>)
  {
    forall i :: 0 <= i < |entries| ==> EntryOk(entries[i], dirs)
  }

  lemma EntriesMore(entries: seq<Undo>, u: Undo, dirs: set<Path>, more: set<Path>)
    requires EntriesOk(entries, dirs) && dirs <= more && EntryOk(u, more)
    ensures EntriesOk(entries + [u], more)
  {
    forall i | 0 <= i < |entries + [u]|
      ensures EntryOk((entries + [u])[i], more)
    {
      if i < |entries| { assert EntryOk(entries[i], dirs); }
    }
  }

  /** The captures among the entries, in order. */
  function CapturesIn(entries: seq<Undo>): seq<J.Captured>
  {
    if entries == [] then []
    else CapturesIn(entries[..|entries| - 1]) +
         if entries[|entries| - 1].Reinstate? then [entries[|entries| - 1].state] else []
  }

  /** Undoing takes each table back to what the rollback owes it. */
  ghost predicate TablesReplay(entries: seq<Undo>, tables: map<string, Table>, start: map<string, Table>,
                               asks: seq<Ask>)
  {
    forall t :: ReplayTable(entries, t, RowsOf(tables, t)) == RowsBack(RowsOf(start, t), asks, t)
  }

  predicate IsTrim(u: Undo, name: string)
  {
    u.Trim? && u.table == name
  }

  predicate HasTrim(entries: seq<Undo>, name: string)
  {
    entries != [] && (HasTrim(entries[..|entries| - 1], name) || IsTrim(entries[|entries| - 1], name))
  }

  predicate TrimsUnder(entries: seq<Undo>, name: string, m: nat)
  {
    forall i :: 0 <= i < |entries| && IsTrim(entries[i], name) ==> entries[i].newest <= m
  }

  /** What the entries are worth for one table: there is a trim among them exactly if
      a write to it was carried out, and none trims to above what is there. */
  ghost predicate TableOk(entries: seq<Undo>, name: string, now: Table, start: Table, asks: seq<Ask>)
  {
    && ReplayTable(entries, name, now) == RowsBack(start, asks, name)
    && TrimsUnder(entries, name, Top(now)) && (HasTrim(entries, name) <==> AnyFully(asks, name))
  }

  ghost predicate TablesUndoable(entries: seq<Undo>, tables: map<string, Table>, start: map<string, Table>,
                                 asks: seq<Ask>)
  {
    forall t :: TableOk(entries, t, RowsOf(tables, t), RowsOf(start, t), asks)
  }

  lemma {:induction false} NoTrimNoUndo(entries: seq<Undo>, name: string, t: Table)
    requires !HasTrim(entries, name)
    ensures ReplayTable(entries, name, t) == t
  {
    if entries != [] { NoTrimNoUndo(entries[..|entries| - 1], name, t); }
  }

  /** With a trim among the entries, rows above all trims make no difference. */
  lemma {:induction false} TrimmedAnyway(entries: seq<Undo>, name: string, t: Table, m: nat)
    requires HasTrim(entries, name) && TrimsUnder(entries, name, m)
    ensures ReplayTable(entries, name, t) == ReplayTable(entries, name, UpTo(t, m))
  {
    var n := |entries| - 1;
    if IsTrim(entries[n], name) {
      var k := entries[n].newest;
      assert k <= m;
      assert UpTo(UpTo(t, m), k) == UpTo(t, k);
    } else {
      TrimmedAnyway(entries[..n], name, t, m);
    }
  }

  /** A write that is carried out. */
  lemma RowsRecorded(entries: seq<Undo>, name: string, now: Table, start: Table, asks: seq<Ask>, a: Ask)
    requires TableOk(entries, name, now, start, asks) && Fully(a, name)
    ensures TableOk(entries + [Trim(name, Top(now))], name, InsertAll(now, RowsFor(a, name)), start, asks + [a])
  {
    var rows := RowsFor(a, name);
    AsksMore(asks, a, name);
    InsertedAll(now, rows);
    EntriesTrim(entries, Trim(name, Top(now)), name, Top(now) + |rows|);
    WrittenRows(entries, name, now, InsertAll(now, rows), rows, Top(now), InsertAll(start, Early(asks, name)),
                Late(asks, name));
    hide Survivors, ReplayTable, InsertAll, Early, Late, RowsFor, AnyFully, HasTrim, TrimsUnder, Inserted, Present,
         OnlyPresent;
  }

  /** A write that raises, after rows got in. */
  lemma RowsHalfWritten(entries: seq<Undo>, name: string, now: Table, start: Table, asks: seq<Ask>, a: Ask)
    requires TableOk(entries, name, now, start, asks) && !Fully(a, name)
    ensures TableOk(entries, name, InsertAll(now, RowsFor(a, name)), start, asks + [a])
  {
    var rows := RowsFor(a, name);
    var after := InsertAll(now, rows);
    AsksMore(asks, a, name);
    InsertedAll(now, rows);
    hide Survivors, ReplayTable, InsertAll, Early, Late, RowsFor, AnyFully, HasTrim, Present, OnlyPresent, Fully;
    if AnyFully(asks, name) {
      TrimmedAnyway(entries, name, after, Top(now));
      ReplayKeepsSurvivors(entries, name, now, rows);
      SurvivorsOfBoth(InsertAll(start, Early(asks, name)), Late(asks, name), rows);
    } else {
      NoTrimNoUndo(entries, name, now);
      NoTrimNoUndo(entries, name, after);
      NothingLate(asks, name);
      NoneToSurvive(InsertAll(start, Early(asks, name)));
      NoneToSurvive(InsertAll(start, Early(asks, name) + rows));
      InsertTwice(start, Early(asks, name), rows);
    }
  }

  lemma NoneToSurvive(t: Table)
    ensures Survivors(t, []) == t
  {
  }

  lemma {:induction false} NothingLate(asks: seq<Ask>, name: string)
    requires !AnyFully(asks, name)
    ensures Late(asks, name) == []
  {
    if asks != [] { NothingLate(asks[..|asks| - 1], name); }
  }

  lemma AsksMore(asks: seq<Ask>, a: Ask, name: string)
    ensures AnyFully(asks + [a], name) <==> AnyFully(asks, name) || Fully(a, name)
    ensures Early(asks + [a], name) == Early(asks, name) + if AnyFully(asks + [a], name) then [] else RowsFor(a, name)
    ensures Late(asks + [a], name) == Late(asks, name) + if AnyFully(asks + [a], name) then RowsFor(a, name) else []
    ensures Early(asks, name) + [] == Early(asks, name) && Late(asks, name) + [] == Late(asks, name)
  {
    assert (asks + [a])[..|asks|] == asks;
  }

  lemma EntriesTrim(entries: seq<Undo>, u: Undo, name: string, m: nat)
    ensures HasTrim(entries + [u], name) <==> HasTrim(entries, name) || IsTrim(u, name)
    ensures forall k: nat :: TrimsUnder(entries, name, k) && k <= m && (IsTrim(u, name) ==> u.newest <= m) ==>
              TrimsUnder(entries + [u], name, m)
  {
    assert (entries + [u])[..|entries|] == entries;
  }

  /** An entry that trims another table, or none. */
  lemma RowsUntouched(entries: seq<Undo>, more: seq<Undo>, name: string, now: Table, start: Table, asks: seq<Ask>,
                      a: Ask)
    requires TableOk(entries, name, now, start, asks) && !Fully(a, name) && RowsFor(a, name) == []
    requires |more| <= 1 && forall u :: u in more ==> !IsTrim(u, name)
    ensures TableOk(entries + more, name, now, start, asks + [a])
  {
    AsksMore(asks, a, name);
    hide RowsBack, ReplayTable, Early, Late, RowsFor, AnyFully, HasTrim, TrimsUnder, Fully;
    RowsBackBy(start, asks, asks + [a], name);
    if more == [] {
      assert entries + more == entries;
    } else {
      assert more == [more[0]] && more[0] in more;
      EntriesTrim(entries, more[0], name, Top(now));
      OtherEntry(entries, more[0], name, now);
    }
  }

  lemma RowsBackBy(t: Table, a: seq<Ask>, b: seq<Ask>, name: string)
    requires Early(a, name) == Early(b, name) && Late(a, name) == Late(b, name)
    ensures RowsBack(t, a, name) == RowsBack(t, b, name)
  {
  }

  lemma NoTablesTouched(tables: map<string, Table>)
    ensures TablesUndoable([], tables, tables, [])
  {
    forall t
      ensures TableOk([], t, RowsOf(tables, t), RowsOf(tables, t), [])
    {
      NoneToSurvive(RowsOf(tables, t));
    }
  }

  lemma RecordedCapture(entries: seq<Undo>, u: Undo)
    ensures CapturesIn(entries + [u]) == CapturesIn(entries) + if u.Reinstate? then [u.state] else []
  {
    assert (entries + [u])[..|entries|] == entries;
  }

  datatype World = World(disk: Disk, tables: map<string, Table>, jobs: J.Table)

  /** What the entries of a turn are worth: from `start` the requests led to `now`,
      and replaying the entries takes files, rows and jobs back. */
  ghost predicate Journalled(clock: JobDefinitions.Clock, start: World, asks: seq<Ask>, now: World, entries: seq<Undo>)
  {
    && Tree(now.disk) && EntriesOk(entries, now.disk.dirs)
    && now.disk == DiskAfter(start.disk, asks)
    && FilesUndoable(entries, now.disk.files, now.disk.dirs, start.disk.files)
    && TablesUndoable(entries, now.tables, start.tables, asks)
    && now.jobs == JobsAfter(clock, start.jobs, asks) && CapturesIn(entries) == Captures(clock, start.jobs, asks)
  }

  lemma NothingJournalled(clock: JobDefinitions.Clock, start: World)
    requires Tree(start.disk)
    ensures Journalled(clock, start, [], start, [])
  {
    NoFilesTouched(start.disk.files, start.disk.dirs);
    NoTablesTouched(start.tables);
    hide FilesUndoable, TablesUndoable;
  }

  /** What a database write does to the tables; a missing one is created. */
  ghost predicate Wrote(before: map<string, Table>, after: map<string, Table>, name: string, rows: seq<Entry>)
  {
    after == before[name := InsertAll(RowsOf(before, name), rows)]
  }

  /** What a request makes of everything. */
  ghost predicate Fulfilled(clock: JobDefinitions.Clock, now: World, a: Ask, after: World, more: seq<Undo>)
  {
    && after.disk == DiskStep(now.disk, a) && after.jobs == JobStep(clock, now.jobs, a).table
    && (if a.allowed && a.request.WriteDb? then Wrote(now.tables, after.tables, a.request.table, GotIn(a.request))
        else after.tables == now.tables)
    && more == if Succeeds(clock, now.disk, now.jobs, a) then [EntryFor(now.disk, now.tables, now.jobs, a.request)]
      else []
  }

  lemma FilesStep(clock: JobDefinitions.Clock, start: Files, now: World, entries: seq<Undo>, a: Ask, after: World,
                  more: seq<Undo>)
    requires FilesUndoable(entries, now.disk.files, now.disk.dirs, start) && Fulfilled(clock, now, a, after, more)
    requires now.disk.dirs <= after.disk.dirs
    ensures FilesUndoable(entries + more, after.disk.files, after.disk.dirs, start)
  {
    hide FilesUndoable, UndoesFiles, JobStep, Wrote, Top, Names, J.Capture, Parents;
    var files, dirs := now.disk.files, now.disk.dirs;
    if more == [] {
      assert entries + more == entries;
    } else {
      var u := EntryFor(now.disk, now.tables, now.jobs, a.request);
      match a.request {
        case WriteFile(p, content) => WriteIsUndone(files, p, content, after.disk.dirs);
        case DeleteFile(p) => DeleteIsUndone(files, p, after.disk.dirs);
        case _ => OtherUndo(u, files, after.disk.dirs);
      }
      RecordedFiles(entries, u, files, after.disk.files, dirs, after.disk.dirs, start);
    }
  }

  lemma TablesStep(clock: JobDefinitions.Clock, start: map<string, Table>, asks: seq<Ask>, now: World,
                   entries: seq<Undo>,
                   a: Ask, after: World, more: seq<Undo>)
    requires TablesUndoable(entries, now.tables, start, asks) && Fulfilled(clock, now, a, after, more)
    ensures TablesUndoable(entries + more, after.tables, start, asks + [a])
  {
    hide JobStep, Top, Names, J.Capture, DiskStep, WriteOk, TableOk, InsertAll;
    forall t
      ensures TableOk(entries + more, t, RowsOf(after.tables, t), RowsOf(start, t), asks + [a])
    {
      assert TableOk(entries, t, RowsOf(now.tables, t), RowsOf(start, t), asks);
      if Fully(a, t) {
        RowsRecorded(entries, t, RowsOf(now.tables, t), RowsOf(start, t), asks, a);
      } else if a.allowed && a.request.WriteDb? && a.request.table == t {
        RowsHalfWritten(entries, t, RowsOf(now.tables, t), RowsOf(start, t), asks, a);
        assert entries + more == entries;
      } else {
        RowsUntouched(entries, more, t, RowsOf(now.tables, t), RowsOf(start, t), asks, a);
      }
    }
  }

  lemma EntriesStep(clock: JobDefinitions.Clock, now: World, entries: seq<Undo>, a: Ask, after: World, more: seq<Undo>)
    requires Tree(now.disk) && EntriesOk(entries, now.disk.dirs) && Fulfilled(clock, now, a, after, more)
    requires now.disk.dirs <= after.disk.dirs
    ensures EntriesOk(entries + more, after.disk.dirs)
  {
    hide JobStep, Wrote, Top, Names, J.Capture, Parents, J.Touched, EntriesOk;
    if more == [] {
      EntriesWider(entries, now.disk.dirs, after.disk.dirs);
      assert entries + more == entries;
    } else {
      if a.request.ScheduleOp? { CaptureIsListed(now.jobs, a.request.change); }
      EntriesMore(entries, more[0], now.disk.dirs, after.disk.dirs);
      assert more == [more[0]];
    }
  }

  lemma EntriesWider(entries: seq<Undo>, dirs: set<Path>, more: set<Path>)
    requires EntriesOk(entries, dirs) && dirs <= more
    ensures EntriesOk(entries, more)
  {
    forall i | 0 <= i < |entries|
      ensures EntryOk(entries[i], more)
    {
      assert EntryOk(entries[i], dirs);
    }
  }

  lemma CaptureIsListed(t: J.Table, change: J.Change)
    ensures JobStore.Listed(J.Capture(t, J.Touched(change)), Names(change))
  {
    NamesAreTouched(change);
    hide Names, J.Touched;
  }

  lemma CapturesMore(clock: JobDefinitions.Clock, start: J.Table, asks: seq<Ask>, a: Ask)
    ensures var before := JobsAfter(clock, start, asks);
            && JobsAfter(clock, start, asks + [a]) == JobStep(clock, before, a).table
            && Captures(clock, start, asks + [a]) == Captures(clock, start, asks) + CaptureOf(clock, before, a)
  {
    hide JobStep, J.Capture, J.Touched, Carried;
    assert (asks + [a])[..|asks|] == asks;
  }

  /** A change to the jobs records what it captured exactly if it is carried out. */
  function CaptureOf(clock: JobDefinitions.Clock, t: J.Table, a: Ask): seq<J.Captured>
  {
    if Carried(clock, t, a) then [J.Capture(t, J.Touched(a.request.change))] else []
  }

  lemma RecordedOnce(clock: JobDefinitions.Clock, now: World, a: Ask, after: World, more: seq<Undo>)
    requires Fulfilled(clock, now, a, after, more)
    ensures more == [] || more == [more[0]]
    ensures CaptureOf(clock, now.jobs, a) == if more != [] && more[0].Reinstate? then [more[0].state] else []
  {
    hide JobStep, Wrote, Top, Names, J.Capture, DiskStep, J.Touched, WriteOk, RowsOf;
  }

  lemma JobsStep(clock: JobDefinitions.Clock, start: J.Table, asks: seq<Ask>, now: World, entries: seq<Undo>, a: Ask,
                 after: World, more: seq<Undo>)
    requires now.jobs == JobsAfter(clock, start, asks) && CapturesIn(entries) == Captures(clock, start, asks)
    requires Fulfilled(clock, now, a, after, more)
    ensures after.jobs == JobsAfter(clock, start, asks + [a])
    ensures CapturesIn(entries + more) == Captures(clock, start, asks + [a])
  {
    CapturesMore(clock, start, asks, a);
    RecordedOnce(clock, now, a, after, more);
    if more == [] { assert entries + more == entries; } else { RecordedCapture(entries, more[0]); }
    hide JobStep, DiskStep, Succeeds, Wrote, CaptureOf, Captures, JobsAfter, CapturesIn;
  }

  /** A request, fulfilled or not, keeps the entries worth what they were. */
  lemma StepJournalled(clock: JobDefinitions.Clock, start: World, asks: seq<Ask>, now: World, entries: seq<Undo>,
                       a: Ask,
                       after: World, more: seq<Undo>)
    requires Journalled(clock, start, asks, now, entries) && Fulfilled(clock, now, a, after, more)
    ensures Journalled(clock, start, asks + [a], after, entries + more)
  {
    TreeAfterStep(now.disk, a);
    hide FilesUndoable, TablesUndoable, EntriesOk, Tree, JobStep, DiskStep;
    FilesStep(clock, start.disk.files, now, entries, a, after, more);
    TablesStep(clock, start.tables, asks, now, entries, a, after, more);
    EntriesStep(clock, now, entries, a, after, more);
    JobsStep(clock, start.jobs, asks, now, entries, a, after, more);
    assert (asks + [a])[..|asks|] == asks;
    hide JobsAfter, Captures, CapturesIn, Fulfilled;
    assert DiskAfter(start.disk, asks + [a]) == DiskStep(DiskAfter(start.disk, asks), a);
  }

  class Turn {
    var files: Files
    var dirs: set<Path>
    var tables: map<string, Table>
    const store: JobStore.Store
    var entries: seq<Undo>
    ghost const start: World
    ghost var asks: seq<Ask>   // the requests so far

    ghost function Now(): World
      reads this`files, this`dirs, this`tables, store`jobs, store`nextFireAt
    {
      World(Disk(files, dirs), tables, store.Now())
    }

    ghost predicate Valid()
      reads this, store
    {
      Journalled(store.clock, start, asks, Now(), entries)
    }

    constructor (files: Files, dirs: set<Path>, tables: map<string, Table>, store: JobStore.Store)
      requires Tree(Disk(files, dirs))
      ensures Valid() && entries == [] && asks == [] && this.store == store
      ensures Now() == start == World(Disk(files, dirs), tables, store.Now())
    {
      this.files, this.dirs, this.tables, this.store, entries := files, dirs, tables, store, [];
      start, asks := World(Disk(files, dirs), tables, store.Now()), [];
      new;
      NothingJournalled(store.clock, start);
    }

    /** Carry out a write request. A request whose path is refused, that the gate
        denies or that fails leaves no entry; each of the others records one. */
    method Fulfil(a: Ask) returns (ok: bool)
      requires Valid()
      modifies this, store
      ensures Valid() && asks == old(asks) + [a]
      ensures ok == Succeeds(store.clock, old(Now()).disk, old(Now()).jobs, a)
      ensures old(entries) <= entries && Fulfilled(store.clock, old(Now()), a, Now(), entries[|old(entries)|..])
    {
      hide Journalled, Wrote, Top, J.Capture, J.Touched, J.Changed, Parents, Names, Tree;
      ghost var now, kept := Now(), entries;
      ok := a.allowed;
      if a.allowed {
        match a.request {
          case WriteFile(path, content) => ok := Write(path, content);
          case DeleteFile(path) => Delete(path);
          case WriteDb(table, rows, stop) => ok := Insert(table, rows, stop);
          case ScheduleOp(change) => ok := Schedule(change, a.now);
        }
      }
      ghost var more := entries[|kept|..];
      assert entries == kept + more;
      assert Fulfilled(store.clock, now, a, Now(), more);
      hide Fulfilled;
      StepJournalled(store.clock, start, asks, now, kept, a, Now(), more);
      asks := asks + [a];
    }

    /** A file cannot be written over a directory, nor below another file; its
        missing directories are made. */
    method Write(path: Path, content: Bytes) returns (ok: bool)
      modifies this`files, this`dirs, this`entries
      ensures ok == (path !in old(dirs) && Parents(path) !! old(files).Keys)
      ensures files == if ok then old(files)[path := content] else old(files)
      ensures dirs == old(dirs) + if ok then Parents(path) else {}
      ensures entries == old(entries) +
                if !ok then [] else if path in old(files) then [Rewrite(path, old(files)[path])] else [Unlink(path)]
    {
      if path in dirs || !(Parents(path) !! files.Keys) {
        return false;
      }
      var u := if path in files then Rewrite(path, files[path]) else Unlink(path);
      files, dirs, entries := files[path := content], dirs + Parents(path), entries + [u];
      return true;
    }

    method Delete(path: Path)
      modifies this`files, this`entries
      ensures files == old(files) - {path}
      ensures entries == old(entries) + if path in old(files) then [PutBack(path, old(files)[path])] else [Nothing]
    {
      var u := if path in files then PutBack(path, files[path]) else Nothing;
      files, entries := files - {path}, entries + [u];
    }

    /** The table is created if it is missing. A write that raises leaves the rows it
        got in, and no entry. */
    method Insert(table: string, rows: seq<Entry>, stop: Option<nat>) returns (ok: bool)
      modifies this`tables, this`entries
      ensures ok == stop.None?
      ensures Wrote(old(tables), tables, table, GotIn(WriteDb(table, rows, stop)))
      ensures entries == old(entries) + if ok then [Trim(table, Top(RowsOf(old(tables), table)))] else []
    {
      hide InsertAll, Inserted, Present, OnlyPresent;
      var before := RowsOf(tables, table);
      var newest := Newest(before);
      var after := InsertOrReplace(before, GotIn(WriteDb(table, rows, stop)), newest);
      tables := tables[table := after];
      if stop.Some? {
        return false;
      }
      entries := entries + [Trim(table, newest)];
      return true;
    }

    /** Capture the names, then carry the change out; one that raises leaves no entry,
        whatever it has done so far. */
    method Schedule(change: J.Change, now: int) returns (ok: bool)
      modifies this`entries, store
      ensures store.Now() == J.Changed(store.clock, old(store.Now()), change, now).table
      ensures ok == J.Changed(store.clock, old(store.Now()), change, now).error.None?
      ensures entries == old(entries) +
                if ok then [Reinstate(J.Capture(old(store.Now()), J.Touched(change)), Names(change))] else []
    {
      hide J.Changed, J.Capture;
      var state, names := store.CaptureState(Some(Names(change)));
      NamesAreTouched(change);
      hide J.Touched, Names;
      var error := store.Apply(change, now);
      if error.Some? {
        return false;
      }
      entries := entries + [Reinstate(state, names)];
      return true;
    }

    /** Undo every recorded write, last first; a step that fails, because its file
        has become a directory, is counted and blocks none of the others. */
    method Rollback() returns (errors: nat)
      requires Valid()
      modifies this`files, this`dirs, this`tables, this`entries, store
      ensures entries == [] && dirs == old(dirs) == DiskAfter(start.disk, asks).dirs
      ensures files == Outside(start.disk.files, dirs)
      ensures forall t :: RowsOf(tables, t) == RowsBack(RowsOf(start.tables, t), asks, t)
      ensures store.Now() == JobsBack(store.clock, start.jobs, asks)
      ensures errors == CountBlocked(old(entries), dirs)
      ensures errors == 0 <==>
                forall u :: u in old(entries) && (u.Rewrite? || u.Unlink? || u.PutBack?) ==> u.path !in dirs
    {
      hide FilesUndoable, TablesUndoable, TablesReplay, Outside, RowsBack, Parents, ReplayFiles, ReplayTable,
           PutAllBack, JobsAfter, Captures, DiskAfter, UndoFile, UndoTables, J.PutBack, Tree;
      errors := 0;
      NoneBlockedExactly(entries, dirs);
      AsReplayed(entries, files, dirs, start.disk.files);
      TreeParts(Disk(files, dirs));
      TablesAsReplayed(entries, tables, start.tables, asks);
      while entries != []
        invariant dirs == old(dirs) && files.Keys !! dirs && EntriesOk(entries, dirs)
        invariant ReplayFiles(entries, files, dirs) == Outside(start.disk.files, dirs)
        invariant TablesReplay(entries, tables, start.tables, asks)
        invariant PutAllBack(store.Now(), CapturesIn(entries)) == JobsBack(store.clock, start.jobs, asks)
        invariant errors + CountBlocked(entries, dirs) == CountBlocked(old(entries), dirs)
        decreases |entries|
      {
        var n := |entries| - 1;
        var u := entries[n];
        ghost var rest := entries[..n];
        assert entries == rest + [u];
        LastFile(rest, u, files, dirs);
        LastTable(rest, u, tables, start.tables, asks);
        LastCapture(rest, u, store.Now());
        assert EntryOk(u, dirs);
        entries := entries[..n];
        hide EntryOk, CapturesIn;
        var failed := UndoStep(u);
        if failed {
          errors := errors + 1;
        }
      }
      Replayed(files, dirs, tables, start.tables, asks, store.Now());
    }

    method UndoStep(u: Undo) returns (failed: bool)
      requires files.Keys !! dirs && EntryOk(u, dirs)
      modifies this`files, this`dirs, this`tables, store
      ensures files == UndoFile(old(files), dirs, u) && dirs == old(dirs) && files.Keys !! dirs
      ensures tables == UndoTables(old(tables), u)
      ensures store.Now() == if u.Reinstate? then J.PutBack(old(store.Now()), u.state) else old(store.Now())
      ensures failed <==> (u.Rewrite? || u.Unlink? || u.PutBack?) && u.path in dirs
    {
      hide J.PutBack;
      failed := false;
      match u {
        case Rewrite(path, prior) =>
          if path in dirs {
            failed := true;
          } else {
            files := files[path := prior];
          }
        case Unlink(path) =>
          if path in files {
            files := files - {path};
          } else if path in dirs {
            failed := true;
          }
        case PutBack(path, prior) =>
          if !(Parents(path) !! files.Keys) {
            failed := true;
          } else {
            dirs := dirs + Parents(path);
            if path in dirs {
              failed := true;
            } else {
              files := files[path := prior];
            }
          }
        case Nothing =>
        case Trim(table, newest) =>
          if table in tables {
            tables := tables[table := UpTo(tables[table], newest)];
          }
        case Reinstate(state, names) =>
          store.Restore(state, names);
      }
    }
  }

  /** The step's file has become a directory. */
  predicate Blocked(u: Undo, dirs: set<Path>)
  {
    (u.Rewrite? || u.Unlink? || u.PutBack?) && u.path in dirs
  }

  function CountBlocked(entries: seq<Undo>, dirs: set<Path>): nat
  {
    if entries == [] then 0
    else CountBlocked(entries[..|entries| - 1], dirs) + if Blocked(entries[|entries| - 1], dirs) then 1 else 0
  }

  /** No step fails exactly if no file that was written or deleted is a directory now. */
  lemma {:induction false} NoneBlockedExactly(entries: seq<Undo>, dirs: set<Path>)
    ensures CountBlocked(entries, dirs) <= |entries|
    ensures CountBlocked(entries, dirs) == 0 <==>
              forall u :: u in entries && (u.Rewrite? || u.Unlink? || u.PutBack?) ==> u.path !in dirs
  {
    if entries != [] {
      var n := |entries| - 1;
      NoneBlockedExactly(entries[..n], dirs);
      assert entries == entries[..n] + [entries[n]];
    }
  }

  function UndoTables(tables: map<string, Table>, u: Undo): map<string, Table>
  {
    if u.Trim? && u.table in tables then tables[u.table := UpTo(tables[u.table], u.newest)] else tables
  }

  lemma TreeParts(d: Disk)
    requires Tree(d)
    ensures d.files.Keys !! d.dirs
  {
  }

  lemma AsReplayed(entries: seq<Undo>, files: Files, dirs: set<Path>, startFiles: Files)
    requires FilesUndoable(entries, files, dirs, startFiles)
    ensures files.Keys !! dirs ==> ReplayFiles(entries, files, dirs) == Outside(startFiles, dirs)
  {
    if files.Keys !! dirs { assert Outside(files, dirs) == files; }
  }

  lemma LastFile(rest: seq<Undo>, u: Undo, files: Files, dirs: set<Path>)
    ensures ReplayFiles(rest + [u], files, dirs) == ReplayFiles(rest, UndoFile(files, dirs, u), dirs)
  {
    assert (rest + [u])[..|rest|] == rest;
  }

  lemma TablesAsReplayed(entries: seq<Undo>, tables: map<string, Table>, start: map<string, Table>, asks: seq<Ask>)
    requires TablesUndoable(entries, tables, start, asks)
    ensures TablesReplay(entries, tables, start, asks)
  {
    hide RowsBack, ReplayTable, TrimsUnder, HasTrim, AnyFully;
    forall t
      ensures ReplayTable(entries, t, RowsOf(tables, t)) == RowsBack(RowsOf(start, t), asks, t)
    {
      assert TableOk(entries, t, RowsOf(tables, t), RowsOf(start, t), asks);
    }
  }

  lemma LastTable(rest: seq<Undo>, u: Undo, tables: map<string, Table>, start: map<string, Table>, asks: seq<Ask>)
    requires TablesReplay(rest + [u], tables, start, asks)
    ensures TablesReplay(rest, UndoTables(tables, u), start, asks)
  {
    hide RowsBack;
    assert (rest + [u])[..|rest|] == rest;
    forall t
      ensures ReplayTable(rest, t, RowsOf(UndoTables(tables, u), t)) == RowsBack(RowsOf(start, t), asks, t)
    {
      assert ReplayTable(rest + [u], t, RowsOf(tables, t)) == ReplayTable(rest, t, UndoTable(RowsOf(tables, t), t, u));
      assert RowsOf(UndoTables(tables, u), t) == UndoTable(RowsOf(tables, t), t, u);
    }
  }

  lemma LastCapture(rest: seq<Undo>, u: Undo, t: J.Table)
    ensures PutAllBack(t, CapturesIn(rest + [u])) ==
              PutAllBack(if u.Reinstate? then J.PutBack(t, u.state) else t, CapturesIn(rest))
  {
    hide J.PutBack;
    RecordedCapture(rest, u);
    if u.Reinstate? {
      assert (CapturesIn(rest) + [u.state])[..|CapturesIn(rest)|] == CapturesIn(rest);
    } else {
      assert CapturesIn(rest) + [] == CapturesIn(rest);
    }
  }

  lemma Replayed(files: Files, dirs: set<Path>, tables: map<string, Table>, start: map<string, Table>, asks: seq<Ask>,
                 jobs: J.Table)
    ensures ReplayFiles([], files, dirs) == files && PutAllBack(jobs, CapturesIn([])) == jobs
    ensures TablesReplay([], tables, start, asks) ==>
              forall t :: RowsOf(tables, t) == RowsBack(RowsOf(start, t), asks, t)
  {
    hide RowsBack;
    if TablesReplay([], tables, start, asks) {
      forall t
        ensures RowsOf(tables, t) == RowsBack(RowsOf(start, t), asks, t)
      {
        assert ReplayTable([], t, RowsOf(tables, t)) == RowsOf(tables, t);
      }
    }
  }

  /** A turn of any requests, then a rollback. Files, rows and jobs come back, each
      exactly under its condition on the requests and the start. */
  method RunAndRollBack(files: Files, dirs: set<Path>, tables: map<string, Table>, store: JobStore.Store,
                        asks: seq<Ask>)
    returns (turn: Turn, oks: seq<bool>)
    requires Tree(Disk(files, dirs))
    modifies store
    ensures turn.store == store && turn.entries == []
    ensures var disk := Disk(files, dirs);
            && turn.files == Outside(files, DiskAfter(disk, asks).dirs)
            && (turn.files == files <==>
                forall i, p :: 0 <= i < |asks| && p in files ==>
                  !MakesDirectory(DiskAfter(disk, asks[..i]), asks[i], p))
    ensures forall t :: RowsOf(turn.tables, t) == RowsBack(RowsOf(tables, t), asks, t)
    ensures forall t :: RowsOf(turn.tables, t) == RowsOf(tables, t) <==> RowsComeBack(RowsOf(tables, t), asks, t)
    ensures store.Now() == JobsBack(store.clock, old(store.Now()), asks)
    ensures store.Now() == old(store.Now()) <==> forall n :: ComesBack(store.clock, old(store.Now()), asks, n)
    ensures |oks| == |asks|
    ensures forall i :: 0 <= i < |asks| ==>
              oks[i] == Succeeds(store.clock, DiskAfter(Disk(files, dirs), asks[..i]),
                                 JobsAfter(store.clock, old(store.Now()), asks[..i]), asks[i])
  {
    hide Tree, Journalled, Outside, RowsBack, DiskAfter, JobsAfter, Succeeds, Fulfilled, MakesDirectory, ComesBack,
         JobsBack, RowsComeBack, RowsOf;
    turn := new Turn(files, dirs, tables, store);
    ghost var jobs := store.Now();
    oks := [];
    for i := 0 to |asks|
      invariant turn.Valid() && fresh(turn) && turn.store == store && turn.asks == asks[..i]
      invariant turn.start == World(Disk(files, dirs), tables, jobs)
      invariant |oks| == i && forall k :: 0 <= k < i ==>
                  oks[k] == Succeeds(store.clock, DiskAfter(Disk(files, dirs), asks[..k]),
                                     JobsAfter(store.clock, jobs, asks[..k]), asks[k])
    {
      JournalledNow(store.clock, turn.start, turn.asks, turn.Now(), turn.entries);
      var ok := turn.Fulfil(asks[i]);
      oks := oks + [ok];
      assert asks[..i + 1] == asks[..i] + [asks[i]];
    }
    assert asks[..|asks|] == asks;
    var errors := turn.Rollback();
    FilesBackExactly(Disk(files, dirs), asks);
    forall t
      ensures RowsBack(RowsOf(tables, t), asks, t) == RowsOf(tables, t) <==> RowsComeBack(RowsOf(tables, t), asks, t)
    {
      RowsBackExactly(RowsOf(tables, t), asks, t);
    }
    JobsBackExactly(store.clock, jobs, asks);
  }

  lemma JournalledNow(clock: JobDefinitions.Clock, start: World, asks: seq<Ask>, now: World, entries: seq<Undo>)
    requires Journalled(clock, start, asks, now, entries)
    ensures now.disk == DiskAfter(start.disk, asks) && now.jobs == JobsAfter(clock, start.jobs, asks)
  {
  }
}
