/** The schema migrations run every time a store is opened. SQLite is
    modelled only as far as the migrations see it: which tables (with their
    columns), indexes and triggers exist. Statements the environment makes
    fail (a full disk, a locked file) are given as the set `failing`. */
module Migrations {
  import opened Wrappers

  datatype Schema = Schema(tables: map<string, seq<string>>, indexes: set<string>, triggers: set<string>)

  const EmptySchema := Schema(map[], {}, {})

  /** The statements the migrations issue. Every CREATE carries IF NOT
      EXISTS. `TableInfo` is the read of `pragma_table_info` that checks
      for a column. */
  datatype Stmt =
    | CreateTable(name: string, columns: seq<string>)
    | CreateVirtualTable(name: string, columns: seq<string>)
    | CreateIndex(name: string, table: string, column: string)
    | CreateTrigger(name: string, table: string)
    | AddColumn(table: string, column: string)
    | TableInfo(table: string, column: string)

  predicate HasColumn(s: Schema, table: string, column: string) {
    table in s.tables && column in s.tables[table]
  }

  /** One statement against the schema, with SQLite's error cases. */
  function Exec(s: Schema, st: Stmt, failing: set<Stmt>): (r: Result<Schema>)
    ensures r.Ok? ==> Includes(r.value, s) && Holds(r.value, st)
    ensures r.Ok? && st.TableInfo? ==> r.value == s
    ensures st in failing ==> r.Err?
  {
    if st in failing then Err(StatementFailed("statement failed"))
    else
      match st
      case CreateTable(name, columns) =>
        if name in s.tables then Ok(s) else Ok(s.(tables := s.tables[name := columns]))
      case CreateVirtualTable(name, columns) =>
        if name in s.tables then Ok(s) else Ok(s.(tables := s.tables[name := columns]))
      case CreateIndex(name, table, column) =>
        if table !in s.tables then Err(StatementFailed("no such table: " + table))
        else if name in s.indexes then Ok(s)
        else if column !in s.tables[table] then Err(StatementFailed("no such column: " + column))
        else Ok(s.(indexes := s.indexes + {name}))
      case CreateTrigger(name, table) =>
        if table !in s.tables then Err(StatementFailed("no such table: " + table))
        else if name in s.triggers then Ok(s)
        else Ok(s.(triggers := s.triggers + {name}))
      case AddColumn(table, column) =>
        if table !in s.tables then Err(StatementFailed("no such table: " + table))
        else if column in s.tables[table] then Err(StatementFailed("duplicate column name: " + column))
        else Ok(s.(tables := s.tables[table := s.tables[table] + [column]]))
      case TableInfo(_, _) => Ok(s)
  }

  /** Everything `small` has, `big` has too: statements only ever add. */
  predicate Includes(big: Schema, small: Schema) {
    (forall t :: t in small.tables ==> t in big.tables && (forall c :: c in small.tables[t] ==> c in big.tables[t]))
    && small.indexes <= big.indexes && small.triggers <= big.triggers
  }

  /** What a statement that succeeded leaves behind. */
  predicate Holds(s: Schema, st: Stmt) {
    match st
    case CreateTable(name, _) => name in s.tables
    case CreateVirtualTable(name, _) => name in s.tables
    case CreateIndex(name, table, _) => table in s.tables && name in s.indexes
    case CreateTrigger(name, table) => table in s.tables && name in s.triggers
    case AddColumn(table, column) => HasColumn(s, table, column)
    case TableInfo(_, _) => true
  }

  /** The state reached by a run of statements, and the error that stopped
      it, if any; statements before a failure keep their effect, as the
      migrations use no transaction. */
  datatype Outcome = Outcome(schema: Schema, err: Option<Error>)

  /** Statements in order, each with the context its error is wrapped in. */
  function ExecAll(s: Schema, stmts: seq<(string, Stmt)>, failing: set<Stmt>): (r: Outcome)
    ensures Includes(r.schema, s)
    ensures r.err.None? ==> forall k :: 0 <= k < |stmts| ==> Holds(r.schema, stmts[k].1)
    decreases |stmts|
  {
    if stmts == [] then Outcome(s, None)
    else
      match Exec(s, stmts[0].1, failing)
      case Err(e) => Outcome(s, Some(Wrapped(stmts[0].0, e)))
      case Ok(s1) =>
        var r := ExecAll(s1, stmts[1..], failing);
        HoldsGrows(s1, r.schema, stmts[0].1);
        assert forall k :: 1 <= k < |stmts| ==> stmts[k] == stmts[1..][k - 1];
        r
  }

  lemma HoldsGrows(small: Schema, big: Schema, st: Stmt)
    requires Includes(big, small) && Holds(small, st)
    ensures Holds(big, st)
  {
  }

  // ----- the four migrations

  const InsightsColumns: seq<string> := [
    "id", "timestamp", "content", "summary", "type", "confidence",
    "source_type", "source_ref", "source_participants",
    "thread_id", "tags", "created_by", "created_at"]

  const ThreadsColumns: seq<string> := [
    "id", "title", "status", "current_understanding", "created_at", "updated_at"]

  const DependenciesColumns: seq<string> := ["from_id", "to_id", "type", "created_at"]

  const ConfigColumns: seq<string> := ["key", "value"]

  /** `migrateInitialSchema`: the three tables, then the indexes, the
      full-text table and its triggers. */
  const InitialSchemaStmts: seq<(string, Stmt)> := [
    ("failed to create threads table", CreateTable("threads", ThreadsColumns)),
    ("failed to create insights table", CreateTable("insights", InsightsColumns)),
    ("failed to create dependencies table", CreateTable("dependencies", DependenciesColumns)),
    ("failed to create index", CreateIndex("idx_insights_thread_id", "insights", "thread_id")),
    ("failed to create index", CreateIndex("idx_insights_type", "insights", "type")),
    ("failed to create index", CreateIndex("idx_insights_timestamp", "insights", "timestamp")),
    ("failed to create index", CreateIndex("idx_insights_created_at", "insights", "created_at")),
    ("failed to create index", CreateIndex("idx_threads_status", "threads", "status")),
    ("failed to create index", CreateIndex("idx_dependencies_from", "dependencies", "from_id")),
    ("failed to create index", CreateIndex("idx_dependencies_to", "dependencies", "to_id")),
    ("failed to create index", CreateVirtualTable("insights_fts", ["id", "content", "summary"])),
    ("failed to create index", CreateTrigger("insights_fts_insert", "insights")),
    ("failed to create index", CreateTrigger("insights_fts_delete", "insights")),
    ("failed to create index", CreateTrigger("insights_fts_update", "insights"))]

  /** A migration that adds `column` to `insights` unless it is there
      already; `also` are the statements that follow the ALTER. */
  function AddInsightsColumn(s: Schema, column: string, addContext: string, also: seq<(string, Stmt)>, failing: set<Stmt>): (r: Outcome)
    ensures Includes(r.schema, s)
    ensures r.err.None? ==> HasColumn(r.schema, "insights", column)
    ensures HasColumn(s, "insights", column) && TableInfo("insights", column) !in failing ==> r == Outcome(s, None)
  {
    if TableInfo("insights", column) in failing then
      Outcome(s, Some(Wrapped("failed to check for " + column + " column", StatementFailed("statement failed"))))
    else if HasColumn(s, "insights", column) then Outcome(s, None)
    else ExecAll(s, [(addContext, AddColumn("insights", column))] + also, failing)
  }

  datatype Step = InitialSchema | InsightsAuthorId | InsightsEndorsedBy | ConfigTable

  datatype Migration = Migration(name: string, step: Step)

  /** `migrationsList`, in order. */
  const MigrationsList: seq<Migration> := [
    Migration("001_initial_schema", InitialSchema),
    Migration("002_insights_author_id", InsightsAuthorId),
    Migration("003_insights_endorsed_by", InsightsEndorsedBy),
    Migration("004_config_table", ConfigTable)]

  function Apply(step: Step, s: Schema, failing: set<Stmt>): (r: Outcome)
    ensures Includes(r.schema, s)
  {
    match step
    case InitialSchema => ExecAll(s, InitialSchemaStmts, failing)
    case InsightsAuthorId =>
      AddInsightsColumn(s, "author_id", "failed to add author_id column",
        [("failed to create author_id index", CreateIndex("idx_insights_author_id", "insights", "author_id"))], failing)
    case InsightsEndorsedBy =>
      AddInsightsColumn(s, "endorsed_by", "failed to add endorsed_by column", [], failing)
    case ConfigTable =>
      ExecAll(s, [("failed to create config table", CreateTable("config", ConfigColumns))], failing)
  }

  /** The migrations in order; the first failure stops the run and is
      reported with the migration's name. */
  function RunAll(s: Schema, ms: seq<Migration>, failing: set<Stmt>): (r: Outcome)
    ensures Includes(r.schema, s)
    decreases |ms|
  {
    if ms == [] then Outcome(s, None)
    else
      var o := Apply(ms[0].step, s, failing);
      if o.err.Some? then Outcome(o.schema, Some(MigrationFailed(ms[0].name, o.err.value)))
      else RunAll(o.schema, ms[1..], failing)
  }

  /** A database connection as far as the migrations see it. */
  class Database {
    var schema: Schema
    const failing: set<Stmt>

    constructor(schema: Schema, failing: set<Stmt>)
      ensures this.schema == schema && this.failing == failing
    {
      this.schema := schema;
      this.failing := failing;
    }

    /** `RunMigrations`: applies each migration in turn and stops at the
        first that fails. */
    method RunMigrations() returns (err: Option<Error>)
      modifies this
      ensures Outcome(schema, err) == RunAll(old(schema), MigrationsList, failing)
    {
      var i := 0;
      while i < |MigrationsList|
        invariant 0 <= i <= |MigrationsList|
        invariant RunAll(old(schema), MigrationsList, failing) == RunAll(schema, MigrationsList[i..], failing)
      {
        var m := MigrationsList[i];
        var o := Apply(m.step, schema, failing);
        RunAllUnfold(schema, MigrationsList[i..], failing);
        assert MigrationsList[i..][1..] == MigrationsList[i + 1..];
        schema := o.schema;
        if o.err.Some? {
          return Some(MigrationFailed(m.name, o.err.value));
        }
        i := i + 1;
      }
      return None;
    }
  }

  // ----- what a successful run guarantees

  /** The four tables the store reads and writes. */
  predicate HasStoreTables(s: Schema) {
    "threads" in s.tables && "insights" in s.tables && "dependencies" in s.tables && "config" in s.tables
  }

  /** One migration of a run that goes on. */
  lemma RunAllUnfold(s: Schema, ms: seq<Migration>, failing: set<Stmt>)
    requires ms != []
    ensures var o := Apply(ms[0].step, s, failing);
            o.err.None? ==> RunAll(s, ms, failing) == RunAll(o.schema, ms[1..], failing)
    ensures var o := Apply(ms[0].step, s, failing);
            o.err.Some? ==> RunAll(s, ms, failing).err.Some?
  {
  }

  /** The intermediate states of a successful run. */
  lemma {:induction false} RunAllSteps(s: Schema, failing: set<Stmt>)
    requires RunAll(s, MigrationsList, failing).err.None?
    ensures var s1 := Apply(InitialSchema, s, failing);
            var s2 := Apply(InsightsAuthorId, s1.schema, failing);
            var s3 := Apply(InsightsEndorsedBy, s2.schema, failing);
            var s4 := Apply(ConfigTable, s3.schema, failing);
            s1.err.None? && s2.err.None? && s3.err.None? && s4.err.None? &&
            RunAll(s, MigrationsList, failing).schema == s4.schema
  {
    var ms := MigrationsList;
    var s1 := Apply(InitialSchema, s, failing);
    RunAllUnfold(s, ms, failing);
    var s2 := Apply(InsightsAuthorId, s1.schema, failing);
    RunAllUnfold(s1.schema, ms[1..], failing);
    var s3 := Apply(InsightsEndorsedBy, s2.schema, failing);
    RunAllUnfold(s2.schema, ms[2..], failing);
    assert ms[1..][1..] == ms[2..];
    var s4 := Apply(ConfigTable, s3.schema, failing);
    RunAllUnfold(s3.schema, ms[3..], failing);
    assert ms[2..][1..] == ms[3..];
    assert ms[3..][1..] == [];
  }

  /** What each migration leaves behind when it succeeds. */
  lemma StepFacts(s: Schema, failing: set<Stmt>)
    ensures var t := Apply(InitialSchema, s, failing);
            t.err.None? ==> "threads" in t.schema.tables && "insights" in t.schema.tables && "dependencies" in t.schema.tables
                            && forall k :: 0 <= k < |InitialSchemaStmts| ==> Holds(t.schema, InitialSchemaStmts[k].1)
    ensures var t := Apply(InsightsAuthorId, s, failing);
            t.err.None? ==> HasColumn(t.schema, "insights", "author_id")
    ensures var t := Apply(InsightsEndorsedBy, s, failing);
            t.err.None? ==> HasColumn(t.schema, "insights", "endorsed_by")
    ensures var t := Apply(ConfigTable, s, failing);
            t.err.None? ==> "config" in t.schema.tables
  {
    var o := ExecAll(s, InitialSchemaStmts, failing);
    if o.err.None? {
      assert Holds(o.schema, InitialSchemaStmts[0].1);
      assert Holds(o.schema, InitialSchemaStmts[1].1);
      assert Holds(o.schema, InitialSchemaStmts[2].1);
    }
    var cfg := [("failed to create config table", CreateTable("config", ConfigColumns))];
    var c := ExecAll(s, cfg, failing);
    if c.err.None? {
      assert Holds(c.schema, cfg[0].1);
    }
  }

  /** After a successful run every table the store uses exists, and the
      insights table has the author and endorsement columns. */
  lemma {:induction false} MigratedSchemaHasTables(s: Schema, failing: set<Stmt>)
    requires RunAll(s, MigrationsList, failing).err.None?
    ensures var r := RunAll(s, MigrationsList, failing).schema;
            HasStoreTables(r) && HasColumn(r, "insights", "author_id") && HasColumn(r, "insights", "endorsed_by")
  {
    RunAllSteps(s, failing);
    var s1 := Apply(InitialSchema, s, failing);
    var s2 := Apply(InsightsAuthorId, s1.schema, failing);
    var s3 := Apply(InsightsEndorsedBy, s2.schema, failing);
    var s4 := Apply(ConfigTable, s3.schema, failing);
    StepFacts(s, failing);
    StepFacts(s1.schema, failing);
    StepFacts(s2.schema, failing);
    StepFacts(s3.schema, failing);
  }

  /** Statements whose effect is already there change nothing. */
  lemma {:induction false} ExecAllNoOp(s: Schema, stmts: seq<(string, Stmt)>, failing: set<Stmt>)
    requires forall k :: 0 <= k < |stmts| ==> Holds(s, stmts[k].1) && !stmts[k].1.AddColumn? && stmts[k].1 !in failing
    ensures ExecAll(s, stmts, failing) == Outcome(s, None)
  {
    if stmts != [] {
      assert Exec(s, stmts[0].1, failing) == Ok(s);
      assert forall k :: 0 <= k < |stmts[1..]| ==> stmts[1..][k] == stmts[k + 1];
      ExecAllNoOp(s, stmts[1..], failing);
    }
  }

  /** A schema that has what the migrations create is left as it is by
      each of them. */
  lemma StepsAgain(t: Schema)
    requires forall k :: 0 <= k < |InitialSchemaStmts| ==> Holds(t, InitialSchemaStmts[k].1)
    requires HasColumn(t, "insights", "author_id") && HasColumn(t, "insights", "endorsed_by") && "config" in t.tables
    ensures Apply(InitialSchema, t, {}) == Outcome(t, None)
    ensures Apply(InsightsAuthorId, t, {}) == Outcome(t, None)
    ensures Apply(InsightsEndorsedBy, t, {}) == Outcome(t, None)
    ensures Apply(ConfigTable, t, {}) == Outcome(t, None)
  {
    ExecAllNoOp(t, InitialSchemaStmts, {});
    var cfg := [("failed to create config table", CreateTable("config", ConfigColumns))];
    ExecAllNoOp(t, cfg, {});
  }

  /** The migrations are safe to run at every open: once they have
      succeeded, running them again succeeds and changes nothing. */
  lemma {:induction false} RunMigrationsIdempotent(s: Schema)
    requires RunAll(s, MigrationsList, {}).err.None?
    ensures RunAll(RunAll(s, MigrationsList, {}).schema, MigrationsList, {}) == Outcome(RunAll(s, MigrationsList, {}).schema, None)
  {
    var t := RunAll(s, MigrationsList, {}).schema;
    MigratedHoldsAll(s);
    RerunChangesNothing(t);
  }

  /** After a successful run every statement of the initial schema holds,
      and the later columns and the config table are there. */
  lemma MigratedHoldsAll(s: Schema)
    requires RunAll(s, MigrationsList, {}).err.None?
    ensures var t := RunAll(s, MigrationsList, {}).schema;
      (forall k :: 0 <= k < |InitialSchemaStmts| ==> Holds(t, InitialSchemaStmts[k].1)) &&
      HasColumn(t, "insights", "author_id") && HasColumn(t, "insights", "endorsed_by") && "config" in t.tables
  {
    var f: set<Stmt> := {};
    RunAllSteps(s, f);
    MigratedSchemaHasTables(s, f);
    var s1 := Apply(InitialSchema, s, f);
    var t := RunAll(s, MigrationsList, f).schema;
    StepFacts(s, f);
    forall k | 0 <= k < |InitialSchemaStmts|
      ensures Holds(t, InitialSchemaStmts[k].1)
    {
      HoldsGrows(s1.schema, t, InitialSchemaStmts[k].1);
    }
  }

  /** On a schema where every migration already holds, the run succeeds
      and changes nothing. */
  lemma RerunChangesNothing(t: Schema)
    requires forall k :: 0 <= k < |InitialSchemaStmts| ==> Holds(t, InitialSchemaStmts[k].1)
    requires HasColumn(t, "insights", "author_id") && HasColumn(t, "insights", "endorsed_by") && "config" in t.tables
    ensures RunAll(t, MigrationsList, {}) == Outcome(t, None)
  {
    var f: set<Stmt> := {};
    StepsAgain(t);
    var ms := MigrationsList;
    RunAllUnfold(t, ms, f);
    RunAllUnfold(t, ms[1..], f);
    RunAllUnfold(t, ms[2..], f);
    RunAllUnfold(t, ms[3..], f);
    assert ms[1..][1..] == ms[2..];
    assert ms[2..][1..] == ms[3..];
    assert ms[3..][1..] == [];
  }
}
