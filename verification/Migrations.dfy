/** The two migration runners as the source writes them: a loop over the sorted
    files that issues statements to a database, any of which may fail. */
module Migrations {
  import opened MigrationGuarantees
  import opened MigrationModel
  import opened Wrappers

  /** A connection. Its methods report whether the statement failed; a failed one changes nothing. */
  class Connection {
    var rows: seq<Row>
    var foreignKeys: bool

    ghost function Snapshot(): Database
      reads this
    {
      Database(rows, foreignKeys)
    }

    constructor ()
      ensures Snapshot() == Database([], true)
    {
      rows, foreignKeys := [], true;
    }

    method InsertMigration(name: string, fails: bool) returns (failed: bool)
      modifies this`rows
      ensures failed == fails && rows == if fails then old(rows) else old(rows) + [Row(name, false)]
    {
      failed := fails;
      if !fails {
        rows := rows + [Row(name, false)];
      }
    }

    /** PRAGMA foreign_keys. */
    method SetForeignKeys(on: bool, fails: bool) returns (failed: bool)
      modifies this`foreignKeys
      ensures failed == fails && foreignKeys == if fails then old(foreignKeys) else on
    {
      failed := fails;
      if !fails {
        foreignKeys := on;
      }
    }

    /** COMMIT of a transaction that wrote the file's changes and its row. */
    method Commit(name: string, fault: CommitFault) returns (failed: bool)
      modifies this`rows
      ensures failed == !fault.CommitWorks?
      ensures rows == if fault.CommitRefused? then old(rows) else old(rows) + [Row(name, true)]
    {
      failed := !fault.CommitWorks?;
      if !fault.CommitRefused? {
        rows := rows + [Row(name, true)];
      }
    }

    /** better-sqlite3's transaction wrapper: a failure inside rolls everything back. */
    method ApplyMigration(f: File, faults: Faults) returns (stop: Option<Stop>)
      modifies this`rows
      ensures (Snapshot(), stop) == Transact(Sqlite, old(Snapshot()), f, faults)
      ensures rows == if faults.sql || faults.commit.CommitRefused? then old(rows) else old(rows) + [Row(f.name, true)]
    {
      if faults.sql {
        return Some(Stop(f.name, Applying));
      }
      var failed := Commit(f.name, faults.commit);
      stop := if failed then Some(Stop(f.name, Committing)) else None;
    }

    /** The SQLite form. */
    method Migrate(aliases: map<string, seq<string>>, listing: seq<File>, faults: string -> Faults)
        returns (stop: Option<Stop>)
      modifies this
      ensures (Snapshot(), stop) == MigrationModel.Migrate(Sqlite, aliases, old(Snapshot()), listing, faults)
      ensures ProcessesInTurn(Sqlite, aliases, old(Snapshot()), Ordered(listing), faults, Snapshot(), stop)
    {
      hide MigrateFile, FindAppliedAlias, Ordered, ProcessesInTurn;
      FilesProcess(Sqlite, aliases, Snapshot(), Ordered(listing), faults);
      var applied := NameSet(rows);
      var files := Ordered(listing);
      for i := 0 to |files|
        invariant applied == NameSet(rows)
        invariant MigrateFiles(Sqlite, aliases, old(Snapshot()), files, faults) ==
          MigrateFiles(Sqlite, aliases, Snapshot(), files[i..], faults)
      {
        assert files[i..][0] == files[i] && files[i..][1..] == files[i + 1..];
        FileEffect(Sqlite, aliases, Snapshot(), files[i], faults(files[i].name));
        if files[i].name in applied {
          continue;
        }
        NameSetAppend(rows, Row(files[i].name, FindAppliedAlias(aliases, files[i].name, applied).None?));
        stop := MigrateOne(aliases, applied, files[i], faults(files[i].name));
        if stop.Some? {
          return;
        }
        applied := applied + {files[i].name};
      }
      stop := None;
    }

    method MigrateOne(aliases: map<string, seq<string>>, applied: set<string>, f: File, faults: Faults)
        returns (stop: Option<Stop>)
      requires applied == NameSet(rows) && f.name !in applied
      modifies this
      ensures (Snapshot(), stop) == MigrateFile(Sqlite, aliases, old(Snapshot()), f, faults)
      ensures Processes(Sqlite, aliases, old(Snapshot()), f, faults, Snapshot(), stop)
    {
      hide FindAppliedAlias, Processes;
      FileProcesses(Sqlite, aliases, Snapshot(), f, faults);
      var alias := FindAppliedAlias(aliases, f.name, applied);
      if alias.Some? {
        var failed := InsertMigration(f.name, faults.record);
        return if failed then Some(Stop(f.name, Recording)) else None;
      }
      if faults.read {
        return Some(Stop(f.name, Reading));
      }
      if !f.disablesForeignKeys {
        stop := ApplyMigration(f, faults);
        return;
      }
      var failed := SetForeignKeys(false, faults.begin);
      if failed {
        return Some(Stop(f.name, Beginning));
      }
      stop := ApplyMigration(f, faults);
      failed := SetForeignKeys(true, faults.restore);
      if failed {
        stop := Some(Stop(f.name, Restoring));
      }
    }

    /** The Postgres form. */
    method MigratePostgres(aliases: map<string, seq<string>>, listing: seq<File>, faults: string -> Faults)
        returns (stop: Option<Stop>)
      modifies this
      ensures (Snapshot(), stop) == MigrationModel.Migrate(Postgres, aliases, old(Snapshot()), listing, faults)
      ensures ProcessesInTurn(Postgres, aliases, old(Snapshot()), Ordered(listing), faults, Snapshot(), stop)
    {
      hide MigrateFile, FindAppliedAlias, Ordered, ProcessesInTurn;
      FilesProcess(Postgres, aliases, Snapshot(), Ordered(listing), faults);
      var applied := NameSet(rows);
      var files := Ordered(listing);
      for i := 0 to |files|
        invariant applied == NameSet(rows)
        invariant MigrateFiles(Postgres, aliases, old(Snapshot()), files, faults) ==
          MigrateFiles(Postgres, aliases, Snapshot(), files[i..], faults)
      {
        assert files[i..][0] == files[i] && files[i..][1..] == files[i + 1..];
        FileEffect(Postgres, aliases, Snapshot(), files[i], faults(files[i].name));
        if files[i].name in applied {
          continue;
        }
        NameSetAppend(rows, Row(files[i].name, FindAppliedAlias(aliases, files[i].name, applied).None?));
        stop := MigrateOnePostgres(aliases, applied, files[i], faults(files[i].name));
        if stop.Some? {
          return;
        }
        applied := applied + {files[i].name};
      }
      stop := None;
    }

    method MigrateOnePostgres(aliases: map<string, seq<string>>, applied: set<string>, f: File, faults: Faults)
        returns (stop: Option<Stop>)
      requires applied == NameSet(rows) && f.name !in applied
      modifies this
      ensures (Snapshot(), stop) == MigrateFile(Postgres, aliases, old(Snapshot()), f, faults)
      ensures Processes(Postgres, aliases, old(Snapshot()), f, faults, Snapshot(), stop)
    {
      hide FindAppliedAlias, Processes;
      FileProcesses(Postgres, aliases, Snapshot(), f, faults);
      var alias := FindAppliedAlias(aliases, f.name, applied);
      if alias.Some? {
        var failed := InsertMigration(f.name, faults.record);
        return if failed then Some(Stop(f.name, Recording)) else None;
      }
      if faults.read {
        return Some(Stop(f.name, Reading));
      }
      if faults.begin {
        return Some(Stop(f.name, Beginning));
      }
      if faults.sql {
        return Some(Stop(f.name, Applying));
      }
      var failed := Commit(f.name, faults.commit);
      stop := if failed then Some(Stop(f.name, Committing)) else None;
    }
  }
}
