/** What a turn's requests do to files, tables and scheduled jobs, the undo steps
    they record, and what replaying those in reverse brings back. */
module TurnEffects {
  import opened Basics
  import J = JobTable
  import JobDefinitions

  // ---- Files ----------------------------------------------------------------

  /** A path is its list of components; the empty one is the root directory. */
  type Path = seq<string>
  type Bytes = string
  type Files = map<Path, Bytes>

  function Parents(p: Path): set<Path>
  {
    set i | 0 <= i < |p| :: p[..i]
  }

  /** Writing and deleting record how to undo them: write the old bytes back,
      unlink a new file, restore a deleted one with its directories; or nothing,
      rows above an old maximum, captured jobs. */
  datatype Undo =
    | Rewrite(path: Path, prior: Bytes)
    | Unlink(path: Path)
    | PutBack(path: Path, prior: Bytes)
    | Nothing
    | Trim(table: string, newest: nat)
    | Reinstate(state: J.Captured, names: seq<string>)

  function UndoFile(files: Files, dirs: set<Path>, u: Undo): Files
  {
    match u
    case Rewrite(p, prior) => if p in dirs then files else files[p := prior]
    case PutBack(p, prior) => if p in dirs then files else files[p := prior]
    case Unlink(p) => files - {p}
    case _ => files
  }

  function ReplayFiles(entries: seq<Undo>, files: Files, dirs: set<Path>): Files
  {
    if entries == [] then files
    else ReplayFiles(entries[..|entries| - 1], UndoFile(files, dirs, entries[|entries| - 1]), dirs)
  }

  function Outside(files: Files, dirs: set<Path>): Files
  {
    map p | p in files && p !in dirs :: files[p]
  }

  /** Whatever directories come to exist, undoing brings back every file of the
      start whose path has not become a directory. */
  ghost predicate FilesUndoable(entries: seq<Undo>, files: Files, dirs: set<Path>, start: Files)
  {
    forall d: set<Path> :: dirs <= d ==> ReplayFiles(entries, Outside(files, d), d) == Outside(start, d)
  }

  lemma NoFilesTouched(files: Files, dirs: set<Path>)
    ensures FilesUndoable([], files, dirs, files)
  {
  }

  /** `u` takes the files back to what they were before a step. */
  ghost predicate UndoesFiles(u: Undo, files: Files, after: Files, dirs: set<Path>)
  {
    forall d: set<Path> :: dirs <= d ==> UndoFile(Outside(after, d), d, u) == Outside(files, d)
  }

  lemma RecordedFiles(entries: seq<Undo>, u: Undo, files: Files, after: Files, dirs: set<Path>, more: set<Path>,
                      start: Files)
    requires FilesUndoable(entries, files, dirs, start) && dirs <= more && UndoesFiles(u, files, after, more)
    ensures FilesUndoable(entries + [u], after, more, start)
  {
    hide Outside, UndoFile;
    assert (entries + [u])[..|entries|] == entries;
    forall d: set<Path> | more <= d
      ensures ReplayFiles(entries + [u], Outside(after, d), d) == Outside(start, d)
    {
      assert UndoFile(Outside(after, d), d, u) == Outside(files, d);
    }
  }

  lemma WriteIsUndone(files: Files, p: Path, content: Bytes, dirs: set<Path>)
    ensures UndoesFiles(if p in files then Rewrite(p, files[p]) else Unlink(p), files, files[p := content], dirs)
  {
  }

  lemma DeleteIsUndone(files: Files, p: Path, dirs: set<Path>)
    ensures UndoesFiles(if p in files then PutBack(p, files[p]) else Nothing, files, files - {p}, dirs)
  {
  }

  lemma OtherUndo(u: Undo, files: Files, dirs: set<Path>)
    requires u.Trim? || u.Reinstate?
    ensures UndoesFiles(u, files, files, dirs)
  {
  }

  // ---- Table rows -----------------------------------------------------------

  /** A row with the values its table holds unique. */
  datatype Entry = Entry(unique: set<string>, data: string)

  type Table = map<nat, Entry>   // by rowid, counted from 1

  /** Rows that share no unique value with any of `rows`. */
  function Survivors(t: Table, rows: seq<Entry>): Table
  {
    map id | id in t && (forall r :: r in rows ==> r.unique !! t[id].unique) :: t[id]
  }

  function UpTo(t: Table, newest: nat): Table
  {
    map id | id in t && id <= newest :: t[id]
  }

  ghost predicate IsNewest(t: Table, m: nat)
  {
    (forall id :: id in t ==> id <= m) && (t == map[] ==> m == 0) && (t != map[] ==> m in t)
  }

  lemma {:induction false} NewestThereIs(t: Table, m: nat)
    requires forall id :: id in t ==> id <= m
    ensures exists n: nat :: IsNewest(t, n)
  {
    if t == map[] {
      assert IsNewest(t, 0);
    } else if m in t {
      assert IsNewest(t, m);
    } else {
      assert m > 0 by { var id :| id in t; }
      NewestThereIs(t, m - 1);
    }
  }

  predicate Bounds(ids: set<nat>, m: nat)
  {
    forall id :: id in ids ==> id <= m
  }

  lemma {:induction false} Bounded(ids: set<nat>)
    ensures exists m: nat :: Bounds(ids, m)
  {
    if ids == {} {
      assert Bounds(ids, 0);
    } else {
      var k :| k in ids;
      Bounded(ids - {k});
      var m: nat :| Bounds(ids - {k}, m);
      assert forall id :: id in ids ==> id in ids - {k} || id == k;
      assert Bounds(ids, if k > m then k else m);
    }
  }

  /** The greatest rowid, zero for an empty table. */
  ghost function Top(t: Table): (m: nat)
    ensures IsNewest(t, m)
  {
    Bounded(t.Keys);
    var b: nat :| Bounds(t.Keys, b);
    assert forall id :: id in t ==> id in t.Keys;
    NewestThereIs(t, b);
    var m: nat :| IsNewest(t, m);
    m
  }

  method Newest(t: Table) returns (m: nat)
    ensures m == Top(t)
  {
    m := 0;
    if t == map[] {
      return;
    }
    m :| m in t;
    var rest := t.Keys - {m};
    while rest != {}
      invariant m in t && rest <= t.Keys
      invariant forall id :: id in t && id !in rest ==> id <= m
    {
      var id :| id in rest;
      if id > m { m := id; }
      rest := rest - {id};
    }
  }

  function UndoTable(t: Table, name: string, u: Undo): Table
  {
    if u.Trim? && u.table == name then UpTo(t, u.newest) else t
  }

  function ReplayTable(entries: seq<Undo>, name: string, t: Table): Table
  {
    if entries == [] then t
    else ReplayTable(entries[..|entries| - 1], name, UndoTable(t, name, entries[|entries| - 1]))
  }

  function RowsOf<T>(tables: map<string, map<nat, T>>, name: string): map<nat, T>
  {
    if name in tables then tables[name] else map[]
  }

  lemma {:induction false} ReplayKeepsSurvivors(entries: seq<Undo>, name: string, t: Table, rows: seq<Entry>)
    ensures ReplayTable(entries, name, Survivors(t, rows)) == Survivors(ReplayTable(entries, name, t), rows)
  {
    if entries != [] {
      var n := |entries| - 1;
      assert UndoTable(Survivors(t, rows), name, entries[n]) == Survivors(UndoTable(t, name, entries[n]), rows);
      ReplayKeepsSurvivors(entries[..n], name, UndoTable(t, name, entries[n]), rows);
    }
  }

  lemma SurvivorsOfBoth(t: Table, a: seq<Entry>, b: seq<Entry>)
    ensures Survivors(Survivors(t, a), b) == Survivors(t, a + b)
  {
    forall id | id in t
      ensures (forall r :: r in a + b ==> r.unique !! t[id].unique)
         <==> (forall r :: r in a ==> r.unique !! t[id].unique) && (forall r :: r in b ==> r.unique !! t[id].unique)
    {
      if forall r :: r in a + b ==> r.unique !! t[id].unique {
        forall r | r in a ensures r.unique !! t[id].unique { assert r in a + b; }
        forall r | r in b ensures r.unique !! t[id].unique { assert r in a + b; }
      }
    }
  }

  /** What a write does to a table whose greatest rowid was `newest`: the rows up
      to it that share no unique value with a new one stay as they are. */
  ghost predicate Inserted(t: Table, after: Table, rows: seq<Entry>, newest: nat)
  {
    UpTo(after, newest) == Survivors(t, rows)
  }

  lemma WrittenRows(entries: seq<Undo>, name: string, t: Table, after: Table, rows: seq<Entry>, newest: nat,
                    start: Table, written: seq<Entry>)
    requires ReplayTable(entries, name, t) == Survivors(start, written) && Inserted(t, after, rows, newest)
    ensures ReplayTable(entries + [Trim(name, newest)], name, after) == Survivors(start, written + rows)
  {
    hide Survivors;
    assert (entries + [Trim(name, newest)])[..|entries|] == entries;
    ReplayKeepsSurvivors(entries, name, t, rows);
    SurvivorsOfBoth(start, written, rows);
  }

  lemma OtherEntry(entries: seq<Undo>, u: Undo, name: string, t: Table)
    requires !(u.Trim? && u.table == name)
    ensures ReplayTable(entries + [u], name, t) == ReplayTable(entries, name, t)
  {
    assert (entries + [u])[..|entries|] == entries;
  }

  /** No row of `rows` shares a unique value with one of the table. */
  ghost predicate NoneReplaced(t: Table, rows: seq<Entry>)
  {
    forall id, r :: id in t && r in rows ==> r.unique !! t[id].unique
  }

  /** A table comes back exactly when no written row shares a unique value with
      one of its rows: replacing a row loses it. */
  lemma AllSurviveExactly(t: Table, rows: seq<Entry>)
    ensures Survivors(t, rows) == t <==> NoneReplaced(t, rows)
  {
    if id, r :| id in t && r in rows && !(r.unique !! t[id].unique) {
      assert id !in Survivors(t, rows);
    } else {
      assert Survivors(t, rows) == t;
    }
  }

  /** A written row is there, above the old rows, unless a later one replaced it. */
  ghost predicate Present(after: Table, newest: nat, rows: seq<Entry>)
  {
    forall k :: 0 <= k < |rows| && Undisturbed(rows, k) ==> Held(after, newest, rows[k])
  }

  ghost predicate Undisturbed(rows: seq<Entry>, k: nat)
    requires k < |rows|
  {
    forall j :: k < j < |rows| ==> rows[j].unique !! rows[k].unique
  }

  ghost predicate Held(after: Table, newest: nat, r: Entry)
  {
    exists id :: id in after && id > newest && after[id] == r
  }

  lemma PresentNext(mid: Table, newest: nat, rows: seq<Entry>, r: Entry, id: nat)
    requires Present(mid, newest, rows) && id > newest && id !in mid
    ensures Present(Survivors(mid, [r])[id := r], newest, rows + [r])
  {
    var after, more := Survivors(mid, [r])[id := r], rows + [r];
    forall i | i in mid && r.unique !! mid[i].unique
      ensures i in after && after[i] == mid[i]
    {
    }
    hide Survivors;
    forall k | 0 <= k < |more| && Undisturbed(more, k)
      ensures Held(after, newest, more[k])
    {
      if k < |rows| {
        forall j | k < j < |rows|
          ensures rows[j].unique !! rows[k].unique
        {
          assert more[j].unique !! more[k].unique;
        }
        assert Undisturbed(rows, k) && Held(mid, newest, rows[k]);
        var i :| i in mid && i > newest && mid[i] == rows[k];
        assert more[|rows|].unique !! more[k].unique;
        assert i in after && after[i] == more[k];
      } else {
        assert id in after && after[id] == more[k];
      }
    }
  }

  /** Each row in turn, with the next rowid, in place of all it shares a unique value
      with. */
  ghost function InsertAll(t: Table, rows: seq<Entry>): Table
  {
    if rows == [] then t
    else
      var mid, r := InsertAll(t, rows[..|rows| - 1]), rows[|rows| - 1];
      Survivors(mid, [r])[Top(mid) + 1 := r]
  }

  method InsertOrReplace(t: Table, rows: seq<Entry>, newest: nat) returns (after: Table)
    requires newest == Top(t)
    ensures after == InsertAll(t, rows)
    ensures Inserted(t, after, rows, newest) && Present(after, newest, rows) && OnlyPresent(after, newest, rows)
  {
    hide Survivors, Inserted, Present, OnlyPresent;
    after := t;
    for i := 0 to |rows|
      invariant after == InsertAll(t, rows[..i])
    {
      var top := Newest(after);
      assert rows[..i + 1][..i] == rows[..i];
      after := Survivors(after, [rows[i]])[top + 1 := rows[i]];
    }
    assert rows[..|rows|] == rows;
    InsertedAll(t, rows);
  }

  lemma NewestIsTop(t: Table, m: nat)
    requires IsNewest(t, m)
    ensures m == Top(t)
  {
  }

  /** What inserting several rows makes of a table, old rows and new. */
  lemma {:induction false} InsertedAll(t: Table, rows: seq<Entry>)
    ensures var u := InsertAll(t, rows);
            && Inserted(t, u, rows, Top(t)) && Present(u, Top(t), rows) && OnlyPresent(u, Top(t), rows)
            && Top(u) == Top(t) + |rows|
  {
    hide Survivors, Inserted, Present, OnlyPresent;
    if rows == [] {
      NoneInserted(t, Top(t));
    } else {
      var init, r := rows[..|rows| - 1], rows[|rows| - 1];
      InsertedAll(t, init);
      var mid := InsertAll(t, init);
      assert rows == init + [r];
      OneInserted(t, mid, init, r, Top(t), Top(mid) + 1);
      PresentNext(mid, Top(t), init, r, Top(mid) + 1);
      OnlyPresentNext(mid, Top(t), init, r, Top(mid) + 1);
      TopNext(mid, r);
    }
  }

  lemma TopNext(mid: Table, r: Entry)
    ensures Top(Survivors(mid, [r])[Top(mid) + 1 := r]) == Top(mid) + 1
  {
    var after := Survivors(mid, [r])[Top(mid) + 1 := r];
    assert Top(mid) + 1 in after;
    NewestIsTop(after, Top(mid) + 1);
  }

  lemma {:induction false} InsertTwice(t: Table, a: seq<Entry>, b: seq<Entry>)
    ensures InsertAll(InsertAll(t, a), b) == InsertAll(t, a + b)
  {
    hide Survivors;
    if b == [] {
      assert a + b == a;
    } else {
      InsertTwice(t, a, b[..|b| - 1]);
      assert (a + b)[..|a + b| - 1] == a + b[..|b| - 1];
    }
  }

  /** What is there above the old rows is a written row no later one replaced. */
  ghost predicate OnlyPresent(after: Table, newest: nat, rows: seq<Entry>)
  {
    forall id :: id in after && id > newest ==> IsOneOf(after[id], rows)
  }

  ghost predicate IsOneOf(r: Entry, rows: seq<Entry>)
  {
    exists k :: 0 <= k < |rows| && Undisturbed(rows, k) && rows[k] == r
  }

  lemma OnlyPresentNext(mid: Table, newest: nat, rows: seq<Entry>, r: Entry, id: nat)
    requires OnlyPresent(mid, newest, rows)
    ensures OnlyPresent(Survivors(mid, [r])[id := r], newest, rows + [r])
  {
    var after, more := Survivors(mid, [r])[id := r], rows + [r];
    forall i | i in after && i > newest
      ensures IsOneOf(after[i], more)
    {
      if i == id {
        assert Undisturbed(more, |rows|) && more[|rows|] == r;
      } else {
        assert r in [r] && IsOneOf(mid[i], rows);
        var k :| 0 <= k < |rows| && Undisturbed(rows, k) && rows[k] == mid[i];
        assert Undisturbed(more, k) && more[k] == after[i];
      }
    }
  }

  lemma NoneInserted(t: Table, newest: nat)
    requires IsNewest(t, newest)
    ensures Inserted(t, t, [], newest) && Present(t, newest, []) && OnlyPresent(t, newest, [])
  {
  }

  lemma OneInserted(t: Table, mid: Table, rows: seq<Entry>, r: Entry, newest: nat, id: nat)
    requires Inserted(t, mid, rows, newest) && id > newest
    ensures Inserted(t, Survivors(mid, [r])[id := r], rows + [r], newest)
  {
    SurvivorsOfBoth(t, rows, [r]);
    assert UpTo(Survivors(mid, [r])[id := r], newest) == Survivors(UpTo(mid, newest), [r]);
  }

  // ---- Requests -------------------------------------------------------------

  datatype Request =
    | WriteFile(path: Path, content: Bytes)
    | DeleteFile(path: Path)
    | WriteDb(table: string, rows: seq<Entry>, stop: Option<nat>)    // raises after so many rows
    | ScheduleOp(change: J.Change)

  /** A request, whether path check and gate let it through, and the moment. */
  datatype Ask = Ask(request: Request, allowed: bool, now: int)

  datatype Disk = Disk(files: Files, dirs: set<Path>)

  predicate WriteOk(d: Disk, p: Path)
  {
    p !in d.dirs && Parents(p) !! d.files.Keys
  }

  /** What a request makes of the files and directories. */
  function DiskStep(d: Disk, a: Ask): Disk
  {
    if !a.allowed then d
    else
      match a.request
      case WriteFile(p, content) => if WriteOk(d, p) then Disk(d.files[p := content], d.dirs + Parents(p)) else d
      case DeleteFile(p) => Disk(d.files - {p}, d.dirs)
      case _ => d
  }

  function DiskAfter(d: Disk, asks: seq<Ask>): Disk
  {
    if asks == [] then d else DiskStep(DiskAfter(d, asks[..|asks| - 1]), asks[|asks| - 1])
  }

  function JobStep(clock: JobDefinitions.Clock, t: J.Table, a: Ask): J.Outcome
  {
    if a.allowed && a.request.ScheduleOp? then J.Changed(clock, t, a.request.change, a.now) else J.Outcome(t, None)
  }

  function JobsAfter(clock: JobDefinitions.Clock, t: J.Table, asks: seq<Ask>): J.Table
  {
    if asks == [] then t else JobStep(clock, JobsAfter(clock, t, asks[..|asks| - 1]), asks[|asks| - 1]).table
  }

  /** The rows a database write gets in: those before the one it raises at stay. */
  function GotIn(r: Request): seq<Entry>
    requires r.WriteDb?
  {
    if r.stop.Some? && r.stop.value < |r.rows| then r.rows[..r.stop.value] else r.rows
  }

  function RowsFor(a: Ask, name: string): seq<Entry>
  {
    if a.allowed && a.request.WriteDb? && a.request.table == name then GotIn(a.request) else []
  }

  /** A write to the table that is carried out, and so recorded. */
  predicate Fully(a: Ask, name: string)
  {
    a.allowed && a.request.WriteDb? && a.request.table == name && a.request.stop.None?
  }

  predicate AnyFully(asks: seq<Ask>, name: string)
  {
    asks != [] && (AnyFully(asks[..|asks| - 1], name) || Fully(asks[|asks| - 1], name))
  }

  /** The rows that writes which raised got in before any write was carried out. */
  function Early(asks: seq<Ask>, name: string): seq<Entry>
  {
    if asks == [] then []
    else Early(asks[..|asks| - 1], name) + if AnyFully(asks, name) then [] else RowsFor(asks[|asks| - 1], name)
  }

  /** The rows that got in from the first write on that was carried out. */
  function Late(asks: seq<Ask>, name: string): seq<Entry>
  {
    if asks == [] then []
    else Late(asks[..|asks| - 1], name) + if AnyFully(asks, name) then RowsFor(asks[|asks| - 1], name) else []
  }

  /** A table after a turn and its rollback. */
  ghost function RowsBack(t: Table, asks: seq<Ask>, name: string): Table
  {
    Survivors(InsertAll(t, Early(asks, name)), Late(asks, name))
  }

  /** Whether a request is carried out. */
  predicate Succeeds(clock: JobDefinitions.Clock, d: Disk, t: J.Table, a: Ask)
  {
    && a.allowed
    && (a.request.WriteFile? ==> WriteOk(d, a.request.path))
    && (a.request.WriteDb? ==> a.request.stop.None?)
    && (a.request.ScheduleOp? ==> JobStep(clock, t, a).error.None?)
  }

  /** The undo step a request records when it is carried out. */
  ghost function EntryFor(d: Disk, tables: map<string, Table>, t: J.Table, r: Request): Undo
  {
    match r
    case WriteFile(p, _) => if p in d.files then Rewrite(p, d.files[p]) else Unlink(p)
    case DeleteFile(p) => if p in d.files then PutBack(p, d.files[p]) else Nothing
    case WriteDb(name, _, _) => Trim(name, Top(RowsOf(tables, name)))
    case ScheduleOp(change) => Reinstate(J.Capture(t, J.Touched(change)), Names(change))
  }

  /** The names a change captures before it is carried out. */
  function Names(change: J.Change): seq<string>
  {
    match change
    case Create(name, _) => [name]
    case Update(name, _) => [name]
    case Remove(name) => [name]
    case Advance(names, _) => names
  }

  lemma NamesAreTouched(change: J.Change)
    ensures J.Touched(change) == set n | n in Names(change)
  {
  }

  // ---- What comes back: files -------------------------------------------------

  /** Files and directories form a tree. */
  ghost predicate Tree(d: Disk)
  {
    && [] in d.dirs && d.files.Keys !! d.dirs
    && (forall p :: p in d.files ==> Parents(p) <= d.dirs)
    && (forall p :: p in d.dirs ==> Parents(p) <= d.dirs)
  }

  lemma TreeAfterStep(d: Disk, a: Ask)
    requires Tree(d)
    ensures Tree(DiskStep(d, a)) && d.dirs <= DiskStep(d, a).dirs
  {
    if a.allowed && a.request.WriteFile? && WriteOk(d, a.request.path) {
      var p := a.request.path;
      assert p !in Parents(p);
      forall q | q in Parents(p)
        ensures Parents(q) <= Parents(p)
      {
        forall r | r in Parents(q)
          ensures r in Parents(p)
        {
          var i :| 0 <= i < |q| && r == q[..i];
          assert r == p[..i];
        }
      }
    }
  }

  /** A write that is carried out and makes a directory of `p`. */
  predicate MakesDirectory(d: Disk, a: Ask, p: Path)
  {
    a.allowed && a.request.WriteFile? && WriteOk(d, a.request.path) && p in Parents(a.request.path)
  }

  lemma {:induction false} DirectoryMade(d: Disk, asks: seq<Ask>, p: Path)
    ensures p in DiskAfter(d, asks).dirs
       <==> p in d.dirs || exists i :: 0 <= i < |asks| && MakesDirectory(DiskAfter(d, asks[..i]), asks[i], p)
  {
    if asks != [] {
      var n := |asks| - 1;
      DirectoryMade(d, asks[..n], p);
      StepMakes(DiskAfter(d, asks[..n]), asks[n], p);
      assert DiskAfter(d, asks) == DiskStep(DiskAfter(d, asks[..n]), asks[n]);
      hide MakesDirectory, DiskAfter, DiskStep;
      assert forall i :: 0 <= i < n ==> asks[..n][..i] == asks[..i];
      if i :| 0 <= i < |asks| && MakesDirectory(DiskAfter(d, asks[..i]), asks[i], p) {
        assert i < n ==> MakesDirectory(DiskAfter(d, asks[..n][..i]), asks[..n][i], p);
      }
      if i :| 0 <= i < n && MakesDirectory(DiskAfter(d, asks[..n][..i]), asks[..n][i], p) {
        assert MakesDirectory(DiskAfter(d, asks[..i]), asks[i], p);
      }
    }
  }

  lemma StepMakes(d: Disk, a: Ask, p: Path)
    ensures p in DiskStep(d, a).dirs <==> p in d.dirs || MakesDirectory(d, a, p)
  {
  }

  /** One file comes back exactly when no write that was carried out made a
      directory of its path. */
  lemma FileBackExactly(d: Disk, asks: seq<Ask>, p: Path)
    requires Tree(d) && p in d.files
    ensures p in Outside(d.files, DiskAfter(d, asks).dirs)
       <==> forall i :: 0 <= i < |asks| ==> !MakesDirectory(DiskAfter(d, asks[..i]), asks[i], p)
  {
    DirectoryMade(d, asks, p);
    hide MakesDirectory, DiskAfter;
  }

  /** All files come back, each with its bytes, and no other is left, exactly when
      no write that was carried out went below the path of a file of the start. */
  lemma FilesBackExactly(d: Disk, asks: seq<Ask>)
    requires Tree(d)
    ensures Outside(d.files, DiskAfter(d, asks).dirs) == d.files
       <==> forall i, p :: 0 <= i < |asks| && p in d.files ==> !MakesDirectory(DiskAfter(d, asks[..i]), asks[i], p)
  {
    hide MakesDirectory, DiskAfter, Tree;
    forall p | p in d.files
      ensures p in Outside(d.files, DiskAfter(d, asks).dirs)
         <==> forall i :: 0 <= i < |asks| ==> !MakesDirectory(DiskAfter(d, asks[..i]), asks[i], p)
    {
      FileBackExactly(d, asks, p);
    }
    if forall p :: p in d.files ==> p in Outside(d.files, DiskAfter(d, asks).dirs) {
      assert Outside(d.files, DiskAfter(d, asks).dirs) == d.files;
    }
  }

  /** Delete a file, then write one below its name: the first one stays lost. */
  lemma FileBecomesDirectory(now: int)
    ensures var d := Disk(map[["a"] := "old"], {[]});
            var asks := [Ask(DeleteFile(["a"]), true, now), Ask(WriteFile(["a", "b"], "new"), true, now)];
            Tree(d) && Outside(d.files, DiskAfter(d, asks).dirs) == map[]
  {
    var d := Disk(map[["a"] := "old"], {[]});
    var first, second := Ask(DeleteFile(["a"]), true, now), Ask(WriteFile(["a", "b"], "new"), true, now);
    assert Parents(["a", "b"]) == {[], ["a"]} by {
      assert ["a", "b"][..0] == [] && ["a", "b"][..1] == ["a"];
    }
    assert Parents(["a"]) == {[]} by { assert ["a"][..0] == []; }
    assert [first, second][..1] == [first];
    assert DiskAfter(d, [first]) == DiskStep(DiskAfter(d, []), first)
           == Disk(map[], {[]}) by { assert [first][..0] == []; }
    assert DiskAfter(d, [first, second]) == DiskStep(DiskAfter(d, [first]), second);
  }

  // ---- What comes back: rows --------------------------------------------------

  /** No row that got in shares a unique value with a row of the start, and each row
      got in by a write that raised, before any write to the table was carried out,
      was replaced by a later one. Those got in after that go with its trim. */
  ghost predicate RowsComeBack(t: Table, asks: seq<Ask>, name: string)
  {
    && NoneReplaced(t, Early(asks, name) + Late(asks, name))
    && forall k :: 0 <= k < |Early(asks, name)| ==> !Undisturbed(Early(asks, name) + Late(asks, name), k)
  }

  /** A table comes back exactly then: replacing a row loses it, and what a write that
      raised got in stays. */
  lemma RowsBackExactly(t: Table, asks: seq<Ask>, name: string)
    ensures RowsBack(t, asks, name) == t <==> RowsComeBack(t, asks, name)
  {
    hide Early, Late;
    InsertedBackExactly(t, Early(asks, name), Late(asks, name));
  }

  lemma InsertedBackExactly(t: Table, early: seq<Entry>, late: seq<Entry>)
    ensures Survivors(InsertAll(t, early), late) == t <==>
              NoneReplaced(t, early + late) && forall k :: 0 <= k < |early| ==> !Undisturbed(early + late, k)
  {
    var mid := InsertAll(t, early);
    InsertedAll(t, early);
    OldRowsBack(t, mid, early, late);
    NewRowsGone(mid, Top(t), early, late);
    hide Survivors, Undisturbed, NoneReplaced, InsertAll, Present, OnlyPresent, Inserted;
    SplitAt(Survivors(mid, late), t, Top(t));
  }

  lemma OldRowsBack(t: Table, mid: Table, early: seq<Entry>, late: seq<Entry>)
    requires Inserted(t, mid, early, Top(t))
    ensures UpTo(Survivors(mid, late), Top(t)) == t <==> NoneReplaced(t, early + late)
  {
    assert UpTo(Survivors(mid, late), Top(t)) == Survivors(UpTo(mid, Top(t)), late);
    SurvivorsOfBoth(t, early, late);
    AllSurviveExactly(t, early + late);
    hide Survivors, UpTo, NoneReplaced;
  }

  lemma UndisturbedByBoth(early: seq<Entry>, late: seq<Entry>, k: nat)
    requires k < |early|
    ensures Undisturbed(early + late, k) <==>
              Undisturbed(early, k) && forall r :: r in late ==> r.unique !! early[k].unique
  {
    var all := early + late;
    if Undisturbed(all, k) {
      forall j | k < j < |early| ensures early[j].unique !! early[k].unique { assert all[j] == early[j]; }
      forall r | r in late
        ensures r.unique !! early[k].unique
      {
        var j :| 0 <= j < |late| && late[j] == r;
        assert all[|early| + j] == r;
      }
    }
  }

  lemma NewRowsGone(mid: Table, newest: nat, early: seq<Entry>, late: seq<Entry>)
    requires Present(mid, newest, early) && OnlyPresent(mid, newest, early)
    ensures (forall id :: id in Survivors(mid, late) ==> id <= newest) <==>
              forall k :: 0 <= k < |early| ==> !Undisturbed(early + late, k)
  {
    hide Undisturbed;
    if k :| 0 <= k < |early| && Undisturbed(early + late, k) {
      UndisturbedByBoth(early, late, k);
      assert Held(mid, newest, early[k]);
      var id :| id in mid && id > newest && mid[id] == early[k];
      assert id in Survivors(mid, late);
    }
    if id :| id in Survivors(mid, late) && id > newest {
      assert IsOneOf(mid[id], early);
      var k :| 0 <= k < |early| && Undisturbed(early, k) && early[k] == mid[id];
      UndisturbedByBoth(early, late, k);
    }
  }

  lemma SplitAt(u: Table, t: Table, newest: nat)
    requires newest == Top(t)
    ensures u == t <==> UpTo(u, newest) == t && forall id :: id in u ==> id <= newest
  {
    if forall id :: id in u ==> id <= newest { assert UpTo(u, newest) == u; }
    assert UpTo(t, newest) == t;
  }

  lemma OneWrite(a: Ask, name: string)
    ensures Early([a], name) == if Fully(a, name) then [] else RowsFor(a, name)
    ensures Late([a], name) == if Fully(a, name) then RowsFor(a, name) else []
  {
    hide Fully, RowsFor;
    var none: seq<Ask> := [];
    assert [a][..|[a]| - 1] == none && !AnyFully(none, name) && Early(none, name) == [] && Late(none, name) == [];
    assert AnyFully([a], name) == Fully(a, name);
  }

  /** A row replaced by one with the same key is not there after the rollback. */
  lemma ReplacedRowIsLost(now: int)
    ensures var asks := [Ask(WriteDb("t", [Entry({"k"}, "new")], None), true, now)];
            RowsBack(map[1 := Entry({"k"}, "old")], asks, "t") == map[]
  {
    var a, old' := Ask(WriteDb("t", [Entry({"k"}, "new")], None), true, now), map[1 := Entry({"k"}, "old")];
    OneWrite(a, "t");
    assert RowsFor(a, "t") == [Entry({"k"}, "new")];
    hide Early, Late, RowsFor;
    assert Entry({"k"}, "new") in Late([a], "t") && "k" in Entry({"k"}, "new").unique && "k" in old'[1].unique;
  }

  /** A write that raises at its second row leaves the first one behind for good. */
  lemma HalfWrittenRowStays(row: Entry, bad: Entry, now: int)
    ensures RowsBack(map[], [Ask(WriteDb("t", [row, bad], Some(1)), true, now)], "t") == map[1 := row]
  {
    var a := Ask(WriteDb("t", [row, bad], Some(1)), true, now);
    OneWrite(a, "t");
    assert [row, bad][..1] == [row] && [row][..0] == [];
    assert RowsFor(a, "t") == [row];
    hide Early, Late, RowsFor;
    assert InsertAll(map[], []) == map[] && InsertAll(map[], [row]) == map[Top(map[]) + 1 := row];
  }

  // ---- What comes back: scheduled jobs ------------------------------------------

  /** What the turn captured, one for each change that was carried out. */
  function Captures(clock: JobDefinitions.Clock, t: J.Table, asks: seq<Ask>): seq<J.Captured>
  {
    if asks == [] then []
    else
      var before, a := JobsAfter(clock, t, asks[..|asks| - 1]), asks[|asks| - 1];
      Captures(clock, t, asks[..|asks| - 1]) + if Carried(clock, before, a)
        then [J.Capture(before, J.Touched(a.request.change))] else []
  }

  predicate Carried(clock: JobDefinitions.Clock, t: J.Table, a: Ask)
  {
    a.allowed && a.request.ScheduleOp? && JobStep(clock, t, a).error.None?
  }

  /** Putting captures back, last first. */
  function PutAllBack(t: J.Table, held: seq<J.Captured>): J.Table
    decreases |held|
  {
    if held == [] then t else PutAllBack(J.PutBack(t, held[|held| - 1]), held[..|held| - 1])
  }

  /** The jobs after a turn and its rollback. */
  function JobsBack(clock: JobDefinitions.Clock, t: J.Table, asks: seq<Ask>): J.Table
  {
    PutAllBack(JobsAfter(clock, t, asks), Captures(clock, t, asks))
  }

  /** The table just before the first change to a name that was carried out. */
  function FirstTouch(clock: JobDefinitions.Clock, t: J.Table, asks: seq<Ask>, n: string): Option<J.Table>
  {
    if asks == [] then None
    else
      var k := |asks| - 1;
      var earlier := FirstTouch(clock, t, asks[..k], n);
      if earlier.Some? then earlier
      else
        var before := JobsAfter(clock, t, asks[..k]);
        if Carried(clock, before, asks[k]) && n in J.Touched(asks[k].request.change) then Some(before) else None
  }

  /** The job and its fire time as a capture sees them. */
  function Seen(t: J.Table, n: string): Option<(JobDefinitions.Job, Option<int>)>
  {
    if n in t.jobs then Some((t.jobs[n], if n in t.fires then t.fires[n] else None)) else None
  }

  /** The first capture that names `n`. */
  function FirstHeld(held: seq<J.Captured>, n: string): Option<J.Captured>
  {
    if held == [] then None
    else
      var earlier := FirstHeld(held[..|held| - 1], n);
      if earlier.Some? then earlier
      else if n in held[|held| - 1].keys then Some(held[|held| - 1]) else None
  }

  lemma {:induction false} PutAllBackAt(t: J.Table, held: seq<J.Captured>, n: string)
    ensures match FirstHeld(held, n)
            case None => J.SameAt(PutAllBack(t, held), t, n)
            case Some(c) => n in c.keys && J.SameAt(PutAllBack(t, held), J.PutBack(t, c), n)
    decreases |held|
  {
    if held != [] {
      var k := |held| - 1;
      PutAllBackAt(J.PutBack(t, held[k]), held[..k], n);
    }
  }

  lemma FirstHeldMore(held: seq<J.Captured>, c: J.Captured, n: string)
    ensures FirstHeld(held + [c], n) ==
              if FirstHeld(held, n).Some? then FirstHeld(held, n) else if n in c.keys then Some(c) else None
  {
    assert (held + [c])[..|held|] == held;
  }

  lemma {:induction false} FirstHeldIsTouch(clock: JobDefinitions.Clock, t: J.Table, asks: seq<Ask>, n: string)
    ensures match FirstTouch(clock, t, asks, n)
            case None => FirstHeld(Captures(clock, t, asks), n).None?
            case Some(u) => exists names: set<string> :: n in names
                              && FirstHeld(Captures(clock, t, asks), n) == Some(J.Capture(u, names))
  {
    hide JobsAfter, JobStep, J.Capture, J.Touched;
    if asks != [] {
      var k := |asks| - 1;
      FirstHeldIsTouch(clock, t, asks[..k], n);
      var before := JobsAfter(clock, t, asks[..k]);
      if Carried(clock, before, asks[k]) {
        CaptureKeys(before, J.Touched(asks[k].request.change));
        FirstHeldMore(Captures(clock, t, asks[..k]), J.Capture(before, J.Touched(asks[k].request.change)), n);
      } else {
        assert Captures(clock, t, asks) == Captures(clock, t, asks[..k]);
      }
      hide FirstHeld;
    }
  }

  lemma CaptureKeys(t: J.Table, names: set<string>)
    ensures J.Capture(t, names).keys == names
  {
  }

  lemma CaptureSeen(start: J.Table, after: J.Table, u: J.Table, names: set<string>, n: string)
    requires n in names
    ensures J.SameAt(J.PutBack(after, J.Capture(u, names)), start, n)
       <==> Seen(u, n) == Seen(start, n) && (n in start.jobs <==> n in start.fires)
  {
  }

  /** What a rollback leaves of a job: as it was before the first change to it that
      was carried out, with a fire time, or, if there was none, as it is. */
  predicate ComesBack(clock: JobDefinitions.Clock, start: J.Table, asks: seq<Ask>, n: string)
  {
    match FirstTouch(clock, start, asks, n)
    case Some(u) => Seen(u, n) == Seen(start, n) && (n in start.jobs <==> n in start.fires)
    case None => J.SameAt(JobsAfter(clock, start, asks), start, n)
  }

  lemma JobBackExactly(clock: JobDefinitions.Clock, start: J.Table, asks: seq<Ask>, n: string)
    ensures J.SameAt(JobsBack(clock, start, asks), start, n) <==> ComesBack(clock, start, asks, n)
  {
    hide JobsAfter, Captures, FirstTouch, Seen, J.Capture, J.PutBack, FirstHeld, PutAllBack;
    var after, held := JobsAfter(clock, start, asks), Captures(clock, start, asks);
    PutAllBackAt(after, held, n);
    FirstHeldIsTouch(clock, start, asks, n);
    if FirstTouch(clock, start, asks, n).Some? {
      var u := FirstTouch(clock, start, asks, n).value;
      var names: set<string> :| n in names && FirstHeld(held, n) == Some(J.Capture(u, names));
      CaptureSeen(start, after, u, names, n);
    }
  }

  /** The jobs come back exactly when each is, at the first change to it that was
      carried out, still as it was at the start, and those without one are too. */
  lemma JobsBackExactly(clock: JobDefinitions.Clock, start: J.Table, asks: seq<Ask>)
    ensures JobsBack(clock, start, asks) == start <==> forall n :: ComesBack(clock, start, asks, n)
  {
    hide ComesBack, JobsBack;
    forall n
      ensures J.SameAt(JobsBack(clock, start, asks), start, n) <==> ComesBack(clock, start, asks, n)
    {
      JobBackExactly(clock, start, asks, n);
    }
    if forall n :: ComesBack(clock, start, asks, n) { J.SameEverywhere(JobsBack(clock, start, asks), start); }
  }

  /** A change that raised half-way, which only a cron that never fires makes it. */
  predicate HalfDone(clock: JobDefinitions.Clock, t: J.Table, a: Ask, n: string)
  {
    JobStep(clock, t, a).error == Some(JobDefinitions.NeverFires) && n in J.Touched(a.request.change)
  }

  lemma JobStepKeeps(clock: JobDefinitions.Clock, t: J.Table, a: Ask, n: string)
    requires J.Valid(clock, t)
    ensures J.Valid(clock, JobStep(clock, t, a).table)
    ensures || (Carried(clock, t, a) && n in J.Touched(a.request.change))
            || HalfDone(clock, t, a, n) || J.SameAt(t, JobStep(clock, t, a).table, n)
  {
    if a.allowed && a.request.ScheduleOp? {
      J.ChangeKeeps(clock, t, a.request.change, a.now);
      hide J.Valid, J.Changed, J.Touched, J.SameAt;
      assert J.SameAt(t, t, n) by { SameAsItself(t, n); }
    }
  }

  lemma SameAsItself(t: J.Table, n: string)
    ensures J.SameAt(t, t, n)
  {
  }

  lemma {:induction false} JobUntouched(clock: JobDefinitions.Clock, start: J.Table, asks: seq<Ask>, n: string)
    requires J.Valid(clock, start)
    requires forall i :: 0 <= i < |asks| ==> !HalfDone(clock, JobsAfter(clock, start, asks[..i]), asks[i], n)
    ensures J.Valid(clock, JobsAfter(clock, start, asks))
    ensures FirstTouch(clock, start, asks, n).None? ==> J.SameAt(start, JobsAfter(clock, start, asks), n)
    ensures FirstTouch(clock, start, asks, n).Some? ==> J.SameAt(start, FirstTouch(clock, start, asks, n).value, n)
  {
    hide J.Valid, HalfDone, JobStep, J.Touched;
    if asks != [] {
      var k := |asks| - 1;
      var before := JobsAfter(clock, start, asks[..k]);
      forall i | 0 <= i < k
        ensures !HalfDone(clock, JobsAfter(clock, start, asks[..k][..i]), asks[..k][i], n)
      {
        assert asks[..k][..i] == asks[..i];
      }
      JobUntouched(clock, start, asks[..k], n);
      JobStepKeeps(clock, before, asks[k], n);
    }
  }

  /** A job no change half-did comes back as it was, whatever else was done to it. */
  lemma JobBackUnlessHalfDone(clock: JobDefinitions.Clock, start: J.Table, asks: seq<Ask>, n: string)
    requires J.Valid(clock, start) && (n in start.jobs ==> n in start.fires)
    requires forall i :: 0 <= i < |asks| ==> !HalfDone(clock, JobsAfter(clock, start, asks[..i]), asks[i], n)
    ensures J.SameAt(JobsBack(clock, start, asks), start, n)
  {
    JobUntouched(clock, start, asks, n);
    JobBackExactly(clock, start, asks, n);
    ValidFires(clock, start);
    hide JobsBack, J.Valid, HalfDone, FirstTouch, JobsAfter;
  }

  lemma ValidFires(clock: JobDefinitions.Clock, t: J.Table)
    requires J.Valid(clock, t)
    ensures t.fires.Keys <= t.jobs.Keys
  {
  }

  /** A turn that only creates a job that never fires leaves it behind, rolled back
      or not. */
  lemma StrandedJobStays(clock: JobDefinitions.Clock, now: int)
    requires JobDefinitions.NeverFiring(clock, "0 0 30 2 *")
    ensures var job := JobDefinitions.Job(true, "c", "0 0 30 2 *", JobDefinitions.Blank, false,
              JobDefinitions.Object("{}"));
            JobsBack(clock, J.EMPTY, [Ask(ScheduleOp(J.Create("j", job)), true, now)])
              == J.Table(map["j" := job], map[])
  {
    var job := JobDefinitions.Job(true, "c", "0 0 30 2 *", JobDefinitions.Blank, false, JobDefinitions.Object("{}"));
    var a := Ask(ScheduleOp(J.Create("j", job)), true, now);
    J.NeverFiringJobIsStranded(clock, now);
    hide J.Changed;
    assert [a][..0] == [];
    assert JobsAfter(clock, J.EMPTY, [a]) == JobStep(clock, J.EMPTY, a).table;
    assert Captures(clock, J.EMPTY, [a]) == [];
  }
}
