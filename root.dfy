/** The command layer's shared state: the `--db` path and the cached store
    handle that `getStore` fills and `closeStore` clears. The file system,
    the database engine behind the path and the rows its file holds are
    part of the session; closing a handle leaves its rows in the file. */
module Root {
  import opened Wrappers
  import opened Migrations
  import opened Storage
  import opened Files

  class Session {
    const dbPath: string
    const fs: FileSystem
    const db: Database
    /** The rows the database file holds. */
    var stored: Tables
    /** `storeInstance`. */
    var instance: Option<Store>

    /** The objects a command may change: the session, the database and
        the cached store, if there is one. */
    ghost function Held(): set<object>
      reads this
    {
      if instance.Some? then {instance.value} else {}
    }

    ghost predicate Valid()
      reads this, Held()
    {
      WellFormed(stored) &&
      (instance.Some? ==> instance.value.Valid() && !instance.value.closed && instance.value.db == db)
    }

    /** The rows a command sees: those of the cached handle, or those of
        the file when nothing is cached. */
    ghost function Current(): Tables
      reads this, Held()
    {
      if instance.Some? then instance.value.Snapshot() else stored
    }

    /** The error `getStore` would return now, if any. */
    ghost function OpenError(): Option<Error>
      reads this, db, fs
    {
      if instance.Some? then None
      else if !fs.Exists(dbPath) then Some(DatabaseNotFound(dbPath))
      else
        var run := RunAll(db.schema, MigrationsList, db.failing);
        if run.err.Some? then Some(Wrapped("failed to open database", Wrapped("failed to run migrations", run.err.value)))
        else None
    }

    /** The schema after `getStore`: opening runs the migrations. */
    ghost function SchemaAfterOpen(): Schema
      reads this, db, fs
    {
      if instance.Some? || !fs.Exists(dbPath) then db.schema
      else RunAll(db.schema, MigrationsList, db.failing).schema
    }

    /** The state every command that opened the store ends in: its
        deferred `closeStore` has run. */
    ghost predicate Finished(t: Tables, schema: Schema)
      reads this, db, Held()
    {
      Valid() && instance == None && stored == t && db.schema == schema
    }

    constructor(dbPath: string, fs: FileSystem, db: Database, stored: Tables)
      requires WellFormed(stored)
      ensures this.dbPath == dbPath && this.fs == fs && this.db == db && this.stored == stored
      ensures instance == None && Valid()
    {
      this.dbPath := dbPath;
      this.fs := fs;
      this.db := db;
      this.stored := stored;
      instance := None;
    }

    /** `getStore`: the cached handle when there is one, without touching
        the disk; otherwise the database file must exist, and a successful
        open is cached. */
    method GetStore() returns (r: Result<Store>)
      requires Valid()
      modifies this, db
      ensures Valid() && stored == old(stored)
      ensures old(instance).Some? ==> r == Ok(old(instance).value) && instance == old(instance) && db.schema == old(db.schema)
      ensures old(instance).None? && !fs.Exists(dbPath) ==>
        r == Err(DatabaseNotFound(dbPath)) && instance == None && db.schema == old(db.schema)
      ensures old(instance).None? && fs.Exists(dbPath) ==>
        var run := RunAll(old(db.schema), MigrationsList, db.failing);
        db.schema == run.schema &&
        (r.Ok? <==> run.err.None?) &&
        (run.err.Some? ==> r.error == Wrapped("failed to open database", Wrapped("failed to run migrations", run.err.value))) &&
        (r.Ok? ==> fresh(r.value))
      ensures r.Ok? ==> instance == Some(r.value) && r.value.Snapshot() == old(Current())
      ensures r.Err? ==> instance == None
      ensures r.Err? <==> old(OpenError()).Some?
      ensures r.Err? ==> r.error == old(OpenError()).value
      ensures db.schema == old(SchemaAfterOpen())
    {
      if instance.Some? {
        return Ok(instance.value);
      }
      if !fs.Exists(dbPath) {
        return Err(DatabaseNotFound(dbPath));
      }
      var s := NewStore(db, stored);
      if s.Err? {
        return Err(Wrapped("failed to open database", s.error));
      }
      instance := Some(s.value);
      r := s;
    }

    /** `closeStore`: closes and forgets the cached handle, whose rows stay
        in the file; with none cached it does nothing. */
    method CloseStore()
      requires Valid()
      modifies this, Held()
      ensures Valid() && instance == None && stored == old(Current()) && db.schema == old(db.schema)
      ensures old(instance).Some? ==> old(instance).value.closed
      ensures old(instance).None? ==> unchanged(this)
    {
      if instance.Some? {
        instance.value.Close();
        stored := instance.value.Snapshot();
        instance := None;
      }
    }
  }
}
