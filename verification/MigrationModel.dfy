/** Running migration files against SQLite or Postgres, where any statement may
    fail and a run stops at the first failure. */
module MigrationModel {
  import opened Sorting
  import opened Wrappers

  datatype Engine = Sqlite | Postgres

  /** A migration file, and whether it carries the marker that switches foreign keys off. */
  datatype File = File(name: string, disablesForeignKeys: bool)

  /** A row of `_migrations`: the file was recorded with its SQL, or only because an alias was. */
  datatype Row = Row(name: string, withSql: bool)

  datatype Database = Database(rows: seq<Row>, foreignKeys: bool)

  /** Which statements fail while one file is processed. A commit may fail with or without having taken effect. */
  datatype Faults = Faults(record: bool, read: bool, begin: bool, sql: bool, commit: CommitFault, restore: bool)

  datatype CommitFault = CommitWorks | CommitRefused | CommitUnacknowledged

  /** Where a run threw. */
  datatype Stage = Recording | Reading | Beginning | Applying | Committing | Restoring

  datatype Stop = Stop(file: string, stage: Stage)

  function Names(rows: seq<Row>): (names: seq<string>)
    ensures |names| == |rows| && forall i :: 0 <= i < |rows| ==> names[i] == rows[i].name
  {
    seq(|rows|, i requires 0 <= i < |rows| => rows[i].name)
  }

  predicate Recorded(rows: seq<Row>, name: string) {
    name in Names(rows)
  }

  function NameSet(rows: seq<Row>): set<string> {
    set n | n in Names(rows)
  }

  /** `name` is the first of `names` that is applied. */
  predicate IsFirstApplied(names: seq<string>, applied: set<string>, name: string) {
    exists i :: 0 <= i < |names| && names[i] == name && name in applied && forall j :: 0 <= j < i ==>
      names[j] !in applied
  }

  lemma FirstAppliedLater(names: seq<string>, applied: set<string>, name: string)
    requires names != [] && names[0] !in applied && IsFirstApplied(names[1..], applied, name)
    ensures IsFirstApplied(names, applied, name)
  {
    var i :| 0 <= i < |names| - 1 && names[1..][i] == name && forall j :: 0 <= j < i ==> names[1..][j] !in applied;
    forall j | 0 <= j < i + 1 ensures names[j] !in applied {
      assert j > 0 ==> names[j] == names[1..][j - 1];
    }
    assert names[i + 1] == name;
  }

  /** The first alias of `file` that is applied. */
  function FindAppliedAlias(aliases: map<string, seq<string>>, file: string, applied: set<string>): (r: Option<string>)
    ensures r.Some? <==> file in aliases && exists a :: a in aliases[file] && a in applied
    ensures r.Some? ==> IsFirstApplied(aliases[file], applied, r.value)
  {
    if file !in aliases then None else FirstApplied(aliases[file], applied)
  }

  function FirstApplied(names: seq<string>, applied: set<string>): (r: Option<string>)
    ensures r.Some? <==> exists a :: a in names && a in applied
    ensures r.Some? ==> IsFirstApplied(names, applied, r.value)
  {
    if names == [] then None
    else
      assert forall a :: a in names <==> a == names[0] || a in names[1..];
      if names[0] in applied then Some(names[0])
      else
        var rest := FirstApplied(names[1..], applied);
        if rest.Some? then FirstAppliedLater(names, applied, rest.value); rest else rest
  }

  function WithRow(db: Database, name: string, withSql: bool): Database {
    db.(rows := db.rows + [Row(name, withSql)])
  }

  /** The file's SQL and its row in one transaction. */
  function Transact(engine: Engine, db: Database, f: File, faults: Faults): (Database, Option<Stop>) {
    if engine.Postgres? && faults.begin then (db, Some(Stop(f.name, Beginning)))
    else if faults.sql then (db, Some(Stop(f.name, Applying)))
    else if faults.commit.CommitRefused? then (db, Some(Stop(f.name, Committing)))
    else if faults.commit.CommitUnacknowledged? then (WithRow(db, f.name, true), Some(Stop(f.name, Committing)))
    else (WithRow(db, f.name, true), None)
  }

  /** A marked file runs with foreign keys off; the pragma that restores them runs whatever happens. */
  function ApplyFile(engine: Engine, db: Database, f: File, faults: Faults): (Database, Option<Stop>) {
    if engine.Sqlite? && f.disablesForeignKeys then
      if faults.begin then (db, Some(Stop(f.name, Beginning)))
      else
        var (next, stop) := Transact(engine, db.(foreignKeys := false), f, faults);
        if faults.restore then (next, Some(Stop(f.name, Restoring))) else (next.(foreignKeys := true), stop)
    else Transact(engine, db, f, faults)
  }

  function MigrateFile(engine: Engine, aliases: map<string, seq<string>>, db: Database, f: File,
                       faults: Faults): (Database, Option<Stop>) {
    if Recorded(db.rows, f.name) then (db, None)
    else if FindAppliedAlias(aliases, f.name, NameSet(db.rows)).Some? then
      if faults.record then (db, Some(Stop(f.name, Recording))) else (WithRow(db, f.name, false), None)
    else if faults.read then (db, Some(Stop(f.name, Reading)))
    else ApplyFile(engine, db, f, faults)
  }

  function MigrateFiles(engine: Engine, aliases: map<string, seq<string>>, db: Database, files: seq<File>,
                        faults: string -> Faults)
    : (Database, Option<Stop>)
    decreases |files|
  {
    if files == [] then (db, None)
    else
      var (next, stop) := MigrateFile(engine, aliases, db, files[0], faults(files[0].name));
      if stop.Some? then (next, stop) else MigrateFiles(engine, aliases, next, files[1..], faults)
  }

  predicate FileLeq(a: File, b: File) {
    StringLeq(a.name, b.name)
  }

  predicate IsSql(name: string) {
    |name| >= 4 && name[|name| - 4..] == ".sql"
  }

  lemma SqlIsSuffix(name: string)
    ensures IsSql(name) <==> exists stem :: name == stem + ".sql"
  {
    if IsSql(name) {
      assert name == name[..|name| - 4] + ".sql";
    }
  }

  function SqlFiles(listing: seq<File>): seq<File> {
    if listing == [] then []
    else (if IsSql(listing[0].name) then [listing[0]] else []) + SqlFiles(listing[1..])
  }

  /** The files a run processes: those named `*.sql`, in name order. */
  function Ordered(listing: seq<File>): seq<File> {
    Sort(FileLeq, SqlFiles(listing))
  }

  function Migrate(engine: Engine, aliases: map<string, seq<string>>, db: Database, listing: seq<File>,
                   faults: string -> Faults)
    : (Database, Option<Stop>)
  {
    MigrateFiles(engine, aliases, db, Ordered(listing), faults)
  }

  // ---------- Sequences of runs ----------

  /** One run: the directory it finds and the faults it meets. Files may come, go and be renamed between runs. */
  datatype Attempt = Attempt(listing: seq<File>, faults: string -> Faults)

  function MigrateAll(engine: Engine, aliases: map<string, seq<string>>, db: Database, attempts: seq<Attempt>): Database
    decreases |attempts|
  {
    if attempts == [] then db
    else MigrateAll(engine, aliases, Migrate(engine, aliases, db, attempts[0].listing, attempts[0].faults).0,
      attempts[1..])
  }
}
