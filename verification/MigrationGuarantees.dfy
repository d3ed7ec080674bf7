/** What any number of migration runs, each stopping wherever it fails, adds up to. */
module MigrationGuarantees {
  import opened InsertionOrder
  import opened MigrationModel
  import opened Sorting
  import opened Wrappers

  /** No file is recorded twice; SQL was committed only with no alias recorded, and skipped only with one. */
  ghost predicate Sound(aliases: map<string, seq<string>>, rows: seq<Row>) {
    && Distinct(Names(rows))
    && forall i :: 0 <= i < |rows| ==>
         (rows[i].withSql <==> FindAppliedAlias(aliases, rows[i].name, NameSet(rows[..i])).None?)
  }

  lemma SoundAppend(aliases: map<string, seq<string>>, rows: seq<Row>, r: Row)
    requires Sound(aliases, rows) && !Recorded(rows, r.name)
    requires r.withSql <==> FindAppliedAlias(aliases, r.name, NameSet(rows)).None?
    ensures Sound(aliases, rows + [r])
  {
    hide FindAppliedAlias;
    var all := rows + [r];
    assert Names(all) == Names(rows) + [r.name];
    forall i | 0 <= i < |all|
      ensures all[i].withSql <==> FindAppliedAlias(aliases, all[i].name, NameSet(all[..i])).None?
    {
      assert all[..i] == rows[..i];
      assert rows[..|rows|] == rows;
    }
  }

  // ---------- One file, fault by fault ----------

  /** The file switches foreign keys off around its SQL. */
  predicate Unchecked(engine: Engine, f: File) {
    engine.Sqlite? && f.disablesForeignKeys
  }

  /** Running the file's own SQL: its row is there exactly if the transaction could begin, the SQL ran and the commit
      was not refused, and it is reported done only if nothing failed. The first fault is where it stops, except that a
      pragma that fails to switch foreign keys on again is reported over any fault before it. */
  ghost predicate RunsSql(engine: Engine, db: Database, f: File, faults: Faults, next: Database, stop: Option<Stop>) {
    var beginFails := faults.begin && (engine.Postgres? || Unchecked(engine, f));
    var committed := !beginFails && !faults.sql && !faults.commit.CommitRefused?;
    && next.rows == (if committed then db.rows + [Row(f.name, true)] else db.rows)
    && next.foreignKeys == (if Unchecked(engine, f) && !beginFails then !faults.restore else db.foreignKeys)
    && stop == (if beginFails then Some(Stop(f.name, Beginning))
                else if Unchecked(engine, f) && faults.restore then Some(Stop(f.name, Restoring))
                else if faults.sql then Some(Stop(f.name, Applying))
                else if !faults.commit.CommitWorks? then Some(Stop(f.name, Committing))
                else None)
  }

  /** A recorded file is left alone; a file with a recorded alias is recorded without its SQL; and otherwise the SQL is
      read and run. */
  ghost predicate Processes(engine: Engine, aliases: map<string, seq<string>>, db: Database, f: File, faults: Faults,
                            next: Database, stop: Option<Stop>) {
    if f.name in Names(db.rows) then next == db && stop.None?
    else if f.name in aliases && exists a :: a in aliases[f.name] && a in Names(db.rows) then
      && next == db.(rows := if faults.record then db.rows else db.rows + [Row(f.name, false)])
      && stop == (if faults.record then Some(Stop(f.name, Recording)) else None)
    else if faults.read then next == db && stop == Some(Stop(f.name, Reading))
    else RunsSql(engine, db, f, faults, next, stop)
  }

  lemma FileProcesses(engine: Engine, aliases: map<string, seq<string>>, db: Database, f: File, faults: Faults)
    ensures var (next, stop) := MigrateFile(engine, aliases, db, f, faults);
      Processes(engine, aliases, db, f, faults, next, stop)
  {
    hide FindAppliedAlias;
  }

  /** The files are processed one after the other, up to the first that stops the run. */
  ghost predicate ProcessesInTurn(engine: Engine, aliases: map<string, seq<string>>, db: Database, files: seq<File>,
                                  faults: string -> Faults, next: Database, stop: Option<Stop>)
    decreases |files|
  {
    if files == [] then next == db && stop.None?
    else
      exists mid, halt :: Processes(engine, aliases, db, files[0], faults(files[0].name), mid, halt)
        && (halt.Some? ==> next == mid && stop == halt)
        && (halt.None? ==> ProcessesInTurn(engine, aliases, mid, files[1..], faults, next, stop))
  }

  lemma {:induction false} FilesProcess(engine: Engine, aliases: map<string, seq<string>>, db: Database,
                                        files: seq<File>, faults: string -> Faults)
    ensures var (next, stop) := MigrateFiles(engine, aliases, db, files, faults);
      ProcessesInTurn(engine, aliases, db, files, faults, next, stop)
    decreases |files|
  {
    hide Processes, MigrateFile;
    if files != [] {
      var (mid, halt) := MigrateFile(engine, aliases, db, files[0], faults(files[0].name));
      FileProcesses(engine, aliases, db, files[0], faults(files[0].name));
      if halt.None? {
        FilesProcess(engine, aliases, mid, files[1..], faults);
      }
    }
  }

  /** What one file may do to the table: nothing, or one new row for itself. */
  lemma FileEffect(engine: Engine, aliases: map<string, seq<string>>, db: Database, f: File, faults: Faults)
    ensures var (next, stop) := MigrateFile(engine, aliases, db, f, faults);
      var withSql := FindAppliedAlias(aliases, f.name, NameSet(db.rows)).None?;
      && (next.rows == db.rows || (!Recorded(db.rows, f.name) && next.rows == db.rows + [Row(f.name, withSql)]))
      && (stop.None? ==> next.rows == db.rows + if Recorded(db.rows, f.name) then [] else [Row(f.name, withSql)])
      && (Recorded(db.rows, f.name) ==> next == db && stop.None?)
  {
    hide FindAppliedAlias, Recorded;
  }

  /** Which files are new to `rows`, in order, each once. */
  function Unrecorded(files: seq<File>, rows: seq<Row>): seq<string> {
    if files == [] then []
    else
      var name := files[0].name;
      if Recorded(rows, name) then Unrecorded(files[1..], rows)
      else [name] + Unrecorded(files[1..], rows + [Row(name, true)])
  }

  /** `Unrecorded` depends only on which names are recorded. */
  lemma {:induction false} UnrecordedByNames(files: seq<File>, a: seq<Row>, b: seq<Row>)
    requires forall n :: Recorded(a, n) <==> Recorded(b, n)
    ensures Unrecorded(files, a) == Unrecorded(files, b)
  {
    if files != [] {
      var name := files[0].name;
      var r := Row(name, true);
      if Recorded(a, name) {
        UnrecordedByNames(files[1..], a, b);
      } else {
        RecordedAppend(a, r);
        RecordedAppend(b, r);
        UnrecordedByNames(files[1..], a + [r], b + [r]);
      }
    }
  }

  lemma RecordedAppend(rows: seq<Row>, r: Row)
    ensures forall n :: Recorded(rows + [r], n) <==> Recorded(rows, n) || n == r.name
  {
    assert Names(rows + [r]) == Names(rows) + [r.name];
  }

  /** Within a run the newly recorded files are a prefix of the sorted unrecorded ones,
      and all of them when the run returns normally. */
  lemma {:induction false} RunRecordsPrefix(engine: Engine, aliases: map<string, seq<string>>, db: Database,
                                            files: seq<File>, faults: string -> Faults)
    requires Sound(aliases, db.rows)
    ensures var (next, stop) := MigrateFiles(engine, aliases, db, files, faults);
      && Sound(aliases, next.rows)
      && db.rows <= next.rows
      && Names(next.rows[|db.rows|..]) <= Unrecorded(files, db.rows)
      && (stop.None? ==> Names(next.rows[|db.rows|..]) == Unrecorded(files, db.rows))
    decreases |files|
  {
    hide FindAppliedAlias, MigrateFile, Sound, Recorded, NameSet;
    var (final, end) := MigrateFiles(engine, aliases, db, files, faults);
    if files != [] {
      var f := files[0];
      var (next, stop) := MigrateFile(engine, aliases, db, f, faults(f.name));
      var r := Row(f.name, FindAppliedAlias(aliases, f.name, NameSet(db.rows)).None?);
      FileEffect(engine, aliases, db, f, faults(f.name));
      if next.rows == db.rows + [r] {
        SoundAppend(aliases, db.rows, r);
        assert next.rows[|db.rows|..] == [r];
      }
      if stop.None? {
        RunRecordsPrefix(engine, aliases, next, files[1..], faults);
        if next.rows == db.rows + [r] {
          RecordedAppend(db.rows, r);
          RecordedAppend(db.rows, Row(f.name, true));
          UnrecordedByNames(files[1..], next.rows, db.rows + [Row(f.name, true)]);
          NamesSplit(db.rows, r, final.rows);
        }
      }
    }
  }

  lemma NameSetAppend(rows: seq<Row>, r: Row)
    ensures NameSet(rows + [r]) == NameSet(rows) + {r.name}
  {
    assert Names(rows + [r]) == Names(rows) + [r.name];
  }

  lemma NamesSplit(rows: seq<Row>, r: Row, all: seq<Row>)
    requires rows + [r] <= all
    ensures Names(all[|rows|..]) == [r.name] + Names(all[|rows| + 1..])
  {
    assert all[|rows|] == r;
  }

  lemma {:induction false} SoundAfterAll(engine: Engine, aliases: map<string, seq<string>>, db: Database,
                                         attempts: seq<Attempt>)
    requires Sound(aliases, db.rows)
    ensures var last := MigrateAll(engine, aliases, db, attempts);
      Sound(aliases, last.rows) && db.rows <= last.rows
    decreases |attempts|
  {
    hide Sound, Ordered;
    if attempts != [] {
      var a := attempts[0];
      RunRecordsPrefix(engine, aliases, db, Ordered(a.listing), a.faults);
      SoundAfterAll(engine, aliases, Migrate(engine, aliases, db, a.listing, a.faults).0, attempts[1..]);
    }
  }

  /** Over any sequence of runs on a fresh database, every file's SQL commits at most once and
      never when one of its aliases was already recorded. */
  lemma SqlCommitsAtMostOnce(engine: Engine, aliases: map<string, seq<string>>, attempts: seq<Attempt>)
    ensures var rows := MigrateAll(engine, aliases, Database([], true), attempts).rows;
      && (forall i, j :: 0 <= i < j < |rows| ==> rows[i].name != rows[j].name)
      && (forall i :: 0 <= i < |rows| && rows[i].withSql && rows[i].name in aliases ==>
            forall a :: a in aliases[rows[i].name] ==> !Recorded(rows[..i], a))
      && (forall i :: 0 <= i < |rows| && !rows[i].withSql ==>
            rows[i].name in aliases && exists a :: a in aliases[rows[i].name] && Recorded(rows[..i], a))
  {
    hide FindAppliedAlias, MigrateAll;
    SoundAfterAll(engine, aliases, Database([], true), attempts);
    var rows := MigrateAll(engine, aliases, Database([], true), attempts).rows;
    assert forall i :: 0 <= i < |rows| ==> rows[i].name == Names(rows)[i];
  }

  // ---------- A finished run has nothing left to do ----------

  lemma {:induction false} AllRecordedIsNoOp(engine: Engine, aliases: map<string, seq<string>>, db: Database,
                                             files: seq<File>, faults: string -> Faults)
    requires forall f :: f in files ==> Recorded(db.rows, f.name)
    ensures MigrateFiles(engine, aliases, db, files, faults) == (db, None)
  {
    if files != [] {
      assert files[0] in files;
      AllRecordedIsNoOp(engine, aliases, db, files[1..], faults);
    }
  }

  lemma {:induction false} NormalReturnRecordsAll(engine: Engine, aliases: map<string, seq<string>>, db: Database,
                                                  files: seq<File>, faults: string -> Faults)
    ensures var (next, stop) := MigrateFiles(engine, aliases, db, files, faults);
      && (forall n :: Recorded(db.rows, n) ==> Recorded(next.rows, n))
      && (stop.None? ==> forall f :: f in files ==> Recorded(next.rows, f.name))
    decreases |files|
  {
    hide FindAppliedAlias, MigrateFile, Recorded;
    if files != [] {
      var f := files[0];
      FileEffect(engine, aliases, db, f, faults(f.name));
      RecordedAppend(db.rows, Row(f.name, FindAppliedAlias(aliases, f.name, NameSet(db.rows)).None?));
      NormalReturnRecordsAll(engine, aliases, MigrateFile(engine, aliases, db, f, faults(f.name)).0, files[1..],
        faults);
      assert forall g :: g in files ==> g == f || g in files[1..];
      assert db.rows + [] == db.rows;
    }
  }

  /** After a run that returns normally, the next run over the same directory changes nothing,
      executes nothing that could fail and returns normally. */
  lemma SecondRunIsNoOp(engine: Engine, aliases: map<string, seq<string>>, db: Database, listing: seq<File>,
                        faults: string -> Faults, faults': string -> Faults)
    ensures var (next, stop) := Migrate(engine, aliases, db, listing, faults);
      stop.None? ==> Migrate(engine, aliases, next, listing, faults') == (next, None)
  {
    var (next, stop) := Migrate(engine, aliases, db, listing, faults);
    NormalReturnRecordsAll(engine, aliases, db, Ordered(listing), faults);
    if stop.None? {
      AllRecordedIsNoOp(engine, aliases, next, Ordered(listing), faults');
    }
  }

  // ---------- The order of a run ----------

  lemma {:induction false} SqlFilesListed(listing: seq<File>)
    ensures forall f :: multiset(SqlFiles(listing))[f] == if IsSql(f.name) then multiset(listing)[f] else 0
  {
    if listing != [] {
      SqlFilesListed(listing[1..]);
      assert listing == [listing[0]] + listing[1..];
    }
  }

  /** A run processes exactly the `.sql` files of the directory, each as often as it is listed, in name order. */
  lemma RunsInNameOrder(listing: seq<File>)
    ensures forall i, j :: 0 <= i < j < |Ordered(listing)| ==>
      StringLeq(Ordered(listing)[i].name, Ordered(listing)[j].name)
    ensures forall f :: multiset(Ordered(listing))[f] == if IsSql(f.name) then multiset(listing)[f] else 0
  {
    StringOrder();
    assert TotalPreorder(FileLeq) by {
      forall a: File, b: File ensures FileLeq(a, b) || FileLeq(b, a) {
      }
    }
    SortLaw(FileLeq, SqlFiles(listing));
    SqlFilesListed(listing);
  }

  // ---------- Foreign keys ----------

  /** Applying `f` gets as far as switching foreign keys off, and switching them on again fails. */
  predicate FailsToRestore(engine: Engine, aliases: map<string, seq<string>>, rows: seq<Row>, f: File, faults: Faults) {
    && engine.Sqlite? && f.disablesForeignKeys && !Recorded(rows, f.name)
    && FindAppliedAlias(aliases, f.name, NameSet(rows)).None?
    && !faults.read && !faults.begin && faults.restore
  }

  /** Some file fails to restore and none before it stops the run. */
  predicate ReachesFailingRestore(engine: Engine, aliases: map<string, seq<string>>, db: Database, files: seq<File>,
                                  faults: string -> Faults)
    decreases |files|
  {
    files != [] &&
      var f := files[0];
      || FailsToRestore(engine, aliases, db.rows, f, faults(f.name))
      || (var (next, stop) := MigrateFile(engine, aliases, db, f, faults(f.name));
          stop.None? && ReachesFailingRestore(engine, aliases, next, files[1..], faults))
  }

  /** With foreign keys on at the start, a run leaves them on at every exit, normal or thrown, exactly
      unless it reaches a file whose restoring pragma fails. */
  lemma {:induction false} ForeignKeysRestored(engine: Engine, aliases: map<string, seq<string>>, db: Database,
                                               files: seq<File>,
                                               faults: string -> Faults)
    requires db.foreignKeys
    ensures MigrateFiles(engine, aliases, db, files, faults).0.foreignKeys <==>
      !ReachesFailingRestore(engine, aliases, db, files, faults)
    ensures var stop := MigrateFiles(engine, aliases, db, files, faults).1;
      stop.Some? && stop.value.stage == Restoring <==> ReachesFailingRestore(engine, aliases, db, files, faults)
    decreases |files|
  {
    hide FindAppliedAlias, Recorded;
    if files != [] {
      var (next, stop) := MigrateFile(engine, aliases, db, files[0], faults(files[0].name));
      if stop.None? {
        ForeignKeysRestored(engine, aliases, next, files[1..], faults);
      }
    }
  }

  /** A first marked file whose pragma fails leaves foreign keys off, even though its SQL was committed. */
  lemma FailingPragmaLeavesForeignKeysOff()
    ensures var f := File("001_init.sql", true);
      var faults := Faults(false, false, false, false, CommitWorks, true);
      var (db, stop) := MigrateFiles(Sqlite, map[], Database([], true), [f], (name: string) => faults);
      db == Database([Row("001_init.sql", true)], false) && stop == Some(Stop("001_init.sql", Restoring))
  {
    var f := File("001_init.sql", true);
    var faults := Faults(false, false, false, false, CommitWorks, true);
    var db := Database([], true);
    assert Names(db.rows) == [] && !Recorded(db.rows, f.name);
    assert db.rows + [Row("001_init.sql", true)] == [Row("001_init.sql", true)];
    assert [f][0] == f;
  }
}
