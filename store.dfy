/** The SQLite store of insights, threads, dependencies and configuration.
    The rows of the four tables are the fields of `Store`; the queries are
    specified by functions of the `Tables` value the fields make up, and
    each method is proved to compute its function. */
module Storage {
  import opened Wrappers
  import opened Types
  import opened Sorting
  import opened Migrations

  // ----- rows

  /** An `insights` row. `thread_id` and `author_id` are nullable: the Go
      code stores an empty string as NULL and reads NULL back as "". The
      two fields of `data` are kept empty. */
  datatype InsightRow = InsightRow(data: Insight, threadId: Option<string>, authorId: Option<string>)

  function ToNull(s: string): (r: Option<string>)
    ensures r.None? <==> s == ""
  {
    if s == "" then None else Some(s)
  }

  function FromNull(n: Option<string>): string {
    if n.None? then "" else n.value
  }

  /** The row the INSERT and UPDATE statements write for an insight. */
  function ToRow(i: Insight): (r: InsightRow)
    ensures FromRow(r) == i
    ensures r.threadId != Some("") && r.authorId != Some("")
  {
    InsightRow(i.(threadId := "", authorId := ""), ToNull(i.threadId), ToNull(i.authorId))
  }

  /** The insight the SELECT statements scan from a row. */
  function FromRow(r: InsightRow): Insight {
    r.data.(threadId := FromNull(r.threadId), authorId := FromNull(r.authorId))
  }

  /** A row as written by `ToRow`. */
  predicate RowWellFormed(r: InsightRow) {
    ToRow(FromRow(r)) == r
  }

  /** Two dependencies with the same primary key `(from_id, to_id, type)`. */
  predicate SameEdge(a: Dependency, b: Dependency) {
    a.from == b.from && a.to == b.to && a.kind == b.kind
  }

  // ----- the contents of the tables

  /** The rows of the tables; `rowOrder` and `threadOrder` are the keys in
      the order the rows were inserted (SQLite's rowid order). */
  datatype Tables = Tables(
    insights: map<string, InsightRow>,
    rowOrder: seq<string>,
    threads: map<string, Thread>,
    threadOrder: seq<string>,
    deps: seq<Dependency>,
    config: map<string, string>)

  const NoRows := Tables(map[], [], map[], [], [], map[])

  predicate Distinct<T(==)>(s: seq<T>) {
    forall i, j :: 0 <= i < j < |s| ==> s[i] != s[j]
  }

  /** The constraints of the schema: primary keys, the foreign key from
      `insights.thread_id` to `threads.id`, and rows as the store writes
      them. */
  ghost predicate WellFormed(t: Tables) {
    (forall id :: id in t.insights <==> id in t.rowOrder)
    && Distinct(t.rowOrder)
    && (forall id :: id in t.insights ==> t.insights[id].data.id == id && RowWellFormed(t.insights[id]))
    && (forall id :: id in t.insights && t.insights[id].threadId.Some? ==> t.insights[id].threadId.value in t.threads)
    && (forall id :: id in t.threads <==> id in t.threadOrder)
    && Distinct(t.threadOrder)
    && (forall id :: id in t.threads ==> t.threads[id].id == id)
    && (forall i, j :: 0 <= i < j < |t.deps| ==> !SameEdge(t.deps[i], t.deps[j]))
  }

  /** Insight rows in rowid order. */
  function RowsOf(m: map<string, InsightRow>, order: seq<string>): (r: seq<InsightRow>)
    requires forall k :: 0 <= k < |order| ==> order[k] in m
    ensures |r| == |order|
    ensures forall k :: 0 <= k < |order| ==> r[k] == m[order[k]]
  {
    if order == [] then [] else RowsOf(m, order[..|order| - 1]) + [m[order[|order| - 1]]]
  }

  /** The rows of one more key are the rows before it and its own. */
  lemma RowsOfStep(m: map<string, InsightRow>, order: seq<string>, i: nat)
    requires forall k :: 0 <= k < |order| ==> order[k] in m
    requires i < |order|
    ensures RowsOf(m, order[..i + 1]) == RowsOf(m, order[..i]) + [m[order[i]]]
  {
    assert order[..i + 1][..i] == order[..i];
  }

  /** Filtering the rows of one more key adds that key's row when it
      matches. */
  lemma FilterRowsStep(m: map<string, InsightRow>, order: seq<string>, i: nat, threadId: string, kind: string, since: Time)
    requires forall k :: 0 <= k < |order| ==> order[k] in m
    requires i < |order|
    ensures FilterRows(RowsOf(m, order[..i + 1]), threadId, kind, since)
      == FilterRows(RowsOf(m, order[..i]), threadId, kind, since)
         + (if RowMatches(m[order[i]], threadId, kind, since) then [m[order[i]]] else [])
  {
    RowsOfStep(m, order, i);
    var rows := RowsOf(m, order[..i + 1]);
    assert rows[..|rows| - 1] == RowsOf(m, order[..i]);
  }

  /** The same step for the author filter. */
  lemma FilterAuthorStep(m: map<string, InsightRow>, order: seq<string>, i: nat, authorId: string)
    requires forall k :: 0 <= k < |order| ==> order[k] in m
    requires i < |order|
    ensures FilterAuthor(RowsOf(m, order[..i + 1]), authorId)
      == FilterAuthor(RowsOf(m, order[..i]), authorId)
         + (if m[order[i]].authorId == Some(authorId) then [m[order[i]]] else [])
  {
    RowsOfStep(m, order, i);
    var rows := RowsOf(m, order[..i + 1]);
    assert rows[..|rows| - 1] == RowsOf(m, order[..i]);
  }

  /** The scan of the `ListInsights` query: the rows, in rowid order,
      that pass the filters. */
  method ScanMatching(m: map<string, InsightRow>, order: seq<string>, threadId: string, kind: string, since: Time)
    returns (found: seq<InsightRow>)
    requires forall k :: 0 <= k < |order| ==> order[k] in m
    ensures found == FilterRows(RowsOf(m, order), threadId, kind, since)
  {
    found := [];
    var i := 0;
    while i < |order|
      invariant 0 <= i <= |order|
      invariant found == FilterRows(RowsOf(m, order[..i]), threadId, kind, since)
    {
      var row := m[order[i]];
      FilterRowsStep(m, order, i, threadId, kind, since);
      if RowMatches(row, threadId, kind, since) {
        found := found + [row];
      }
      i := i + 1;
    }
    assert order[..i] == order;
  }

  /** The scan of the `ListInsightsByAuthor` query. */
  method ScanByAuthor(m: map<string, InsightRow>, order: seq<string>, authorId: string)
    returns (found: seq<InsightRow>)
    requires forall k :: 0 <= k < |order| ==> order[k] in m
    ensures found == FilterAuthor(RowsOf(m, order), authorId)
  {
    found := [];
    var i := 0;
    while i < |order|
      invariant 0 <= i <= |order|
      invariant found == FilterAuthor(RowsOf(m, order[..i]), authorId)
    {
      var row := m[order[i]];
      FilterAuthorStep(m, order, i, authorId);
      if row.authorId == Some(authorId) {
        found := found + [row];
      }
      i := i + 1;
    }
    assert order[..i] == order;
  }

  function DecodeRows(rows: seq<InsightRow>): (r: seq<Insight>)
    ensures |r| == |rows|
    ensures forall k :: 0 <= k < |rows| ==> r[k] == FromRow(rows[k])
  {
    if rows == [] then [] else DecodeRows(rows[..|rows| - 1]) + [FromRow(rows[|rows| - 1])]
  }

  function Rows(t: Tables): seq<InsightRow>
    requires WellFormed(t)
  {
    RowsOf(t.insights, t.rowOrder)
  }

  /** Every stored insight, in rowid order. */
  function Insights(t: Tables): seq<Insight>
    requires WellFormed(t)
  {
    DecodeRows(Rows(t))
  }

  // ----- ListInsights

  /** The WHERE clause of `ListInsights`: each filter applies only when it
      is given, and `thread_id = ?` never holds for NULL. */
  predicate RowMatches(r: InsightRow, threadId: string, kind: string, since: Time) {
    (threadId == "" || r.threadId == Some(threadId))
    && (kind == "" || r.data.kind == kind)
    && (since == ZeroTime || r.data.timestamp >= since)
  }

  function FilterRows(rows: seq<InsightRow>, threadId: string, kind: string, since: Time): (r: seq<InsightRow>)
    ensures forall x :: x in r <==> x in rows && RowMatches(x, threadId, kind, since)
    ensures |r| <= |rows|
  {
    if rows == [] then []
    else
      var last := rows[|rows| - 1];
      FilterRows(rows[..|rows| - 1], threadId, kind, since) + (if RowMatches(last, threadId, kind, since) then [last] else [])
  }

  /** `ORDER BY timestamp DESC` as an ascending key. */
  function NegTimestamp(i: Insight): int { -i.timestamp }

  function ListInsightsIn(t: Tables, threadId: string, kind: string, since: Time): seq<Insight>
    requires WellFormed(t)
  {
    SortBy(DecodeRows(FilterRows(Rows(t), threadId, kind, since)), NegTimestamp)
  }

  lemma {:induction false} RowsOfMembers(m: map<string, InsightRow>, order: seq<string>, r: InsightRow)
    requires forall k :: 0 <= k < |order| ==> order[k] in m
    ensures r in RowsOf(m, order) <==> exists k :: 0 <= k < |order| && m[order[k]] == r
  {
    var rows := RowsOf(m, order);
    if r in rows {
      var k :| 0 <= k < |rows| && rows[k] == r;
      assert m[order[k]] == r;
    }
  }

  lemma DecodeRowsMembers(rows: seq<InsightRow>, x: Insight)
    ensures x in DecodeRows(rows) <==> exists r :: r in rows && FromRow(r) == x
  {
    var d := DecodeRows(rows);
    if x in d {
      var k :| 0 <= k < |d| && d[k] == x;
      assert rows[k] in rows;
    }
    if r :| r in rows && FromRow(r) == x {
      var k :| 0 <= k < |rows| && rows[k] == r;
      assert d[k] == x;
    }
  }

  /** The rows of a well-formed table are the rows the store wrote. */
  lemma RowsWellFormed(t: Tables, r: InsightRow)
    requires WellFormed(t) && r in Rows(t)
    ensures RowWellFormed(r)
  {
    RowsOfMembers(t.insights, t.rowOrder, r);
  }

  /** The insight `GetInsight` reads is among the stored insights. */
  lemma StoredInsightListed(t: Tables, id: string)
    requires WellFormed(t) && id in t.insights
    ensures InsightIn(t, id).Ok? && InsightIn(t, id).value in Insights(t) && InsightIn(t, id).value.id == id
  {
    var k :| 0 <= k < |t.rowOrder| && t.rowOrder[k] == id;
    assert Rows(t)[k] == t.insights[id];
    assert Insights(t)[k] == FromRow(t.insights[id]);
  }

  /** `ListInsights` returns exactly the stored insights that pass every
      filter given, the thread filter compared on the insight's own
      thread. */
  lemma {:induction false} ListInsightsMembers(t: Tables, threadId: string, kind: string, since: Time, x: Insight)
    requires WellFormed(t)
    ensures x in ListInsightsIn(t, threadId, kind, since) <==>
            x in Insights(t)
            && (threadId == "" || x.threadId == threadId)
            && (kind == "" || x.kind == kind)
            && (since == ZeroTime || x.timestamp >= since)
  {
    var filtered := FilterRows(Rows(t), threadId, kind, since);
    SameElements(DecodeRows(filtered), NegTimestamp, x);
    DecodeRowsMembers(filtered, x);
    DecodeRowsMembers(Rows(t), x);
    if x in Insights(t) {
      var r :| r in Rows(t) && FromRow(r) == x;
      RowsWellFormed(t, r);
      assert RowMatches(r, threadId, kind, since) <==>
        (threadId == "" || x.threadId == threadId) && (kind == "" || x.kind == kind) && (since == ZeroTime || x.timestamp >= since);
    }
  }

  /** Newest first. */
  lemma ListInsightsNewestFirst(t: Tables, threadId: string, kind: string, since: Time)
    requires WellFormed(t)
    ensures var r := ListInsightsIn(t, threadId, kind, since);
            forall i, j :: 0 <= i < j < |r| ==> r[i].timestamp >= r[j].timestamp
  {
    var r := ListInsightsIn(t, threadId, kind, since);
    assert SortedBy(r, NegTimestamp);
    forall i, j | 0 <= i < j < |r|
      ensures r[i].timestamp >= r[j].timestamp
    {
      assert NegTimestamp(r[i]) <= NegTimestamp(r[j]);
    }
  }

  /** Without filters every stored insight is listed, each once. */
  lemma {:induction false} ListInsightsUnfiltered(t: Tables)
    requires WellFormed(t)
    ensures multiset(ListInsightsIn(t, "", "", ZeroTime)) == multiset(Insights(t))
  {
    FilterRowsAll(Rows(t));
  }

  lemma {:induction false} FilterRowsAll(rows: seq<InsightRow>)
    ensures FilterRows(rows, "", "", ZeroTime) == rows
  {
    if rows != [] {
      FilterRowsAll(rows[..|rows| - 1]);
      assert rows == rows[..|rows| - 1] + [rows[|rows| - 1]];
    }
  }

  // ----- ListInsightsByAuthor

  function FilterAuthor(rows: seq<InsightRow>, authorId: string): (r: seq<InsightRow>)
    ensures forall x :: x in r <==> x in rows && x.authorId == Some(authorId)
  {
    if rows == [] then []
    else
      var last := rows[|rows| - 1];
      FilterAuthor(rows[..|rows| - 1], authorId) + (if last.authorId == Some(authorId) then [last] else [])
  }

  function ListByAuthorIn(t: Tables, authorId: string): seq<Insight>
    requires WellFormed(t)
  {
    SortBy(DecodeRows(FilterAuthor(Rows(t), authorId)), NegTimestamp)
  }

  /** `author_id = ?` matches the insights recorded by that author; an
      empty author matches nothing, as an empty author is stored as NULL. */
  lemma {:induction false} ListByAuthorMembers(t: Tables, authorId: string, x: Insight)
    requires WellFormed(t)
    ensures x in ListByAuthorIn(t, authorId) <==> x in Insights(t) && x.authorId == authorId && authorId != ""
  {
    var filtered := FilterAuthor(Rows(t), authorId);
    SameElements(DecodeRows(filtered), NegTimestamp, x);
    DecodeRowsMembers(filtered, x);
    DecodeRowsMembers(Rows(t), x);
    if x in Insights(t) {
      var r :| r in Rows(t) && FromRow(r) == x;
      RowsWellFormed(t, r);
    }
    if x in ListByAuthorIn(t, authorId) {
      var r :| r in filtered && FromRow(r) == x;
      RowsWellFormed(t, r);
    }
  }

  // ----- threads

  function ThreadsOf(m: map<string, Thread>, order: seq<string>, status: string): (r: seq<Thread>)
    requires forall k :: 0 <= k < |order| ==> order[k] in m
    ensures forall x :: x in r <==> (exists k :: 0 <= k < |order| && m[order[k]] == x) && (status == "" || x.status == status)
  {
    if order == [] then []
    else
      var last := m[order[|order| - 1]];
      var rest := ThreadsOf(m, order[..|order| - 1], status);
      assert forall k :: 0 <= k < |order| - 1 ==> order[..|order| - 1][k] == order[k];
      rest + (if status == "" || last.status == status then [last] else [])
  }

  function NegUpdatedAt(th: Thread): int { -th.updatedAt }

  /** `ListThreads`. */
  /** The scan of the `ListThreads` query: the threads, in insertion
      order, whose status passes the filter. */
  method ScanThreads(m: map<string, Thread>, order: seq<string>, status: string)
    returns (found: seq<Thread>)
    requires forall k :: 0 <= k < |order| ==> order[k] in m
    ensures found == ThreadsOf(m, order, status)
  {
    found := [];
    var i := 0;
    while i < |order|
      invariant 0 <= i <= |order|
      invariant found == ThreadsOf(m, order[..i], status)
    {
      var thread := m[order[i]];
      assert order[..i + 1][..i] == order[..i];
      if status == "" || thread.status == status {
        found := found + [thread];
      }
      i := i + 1;
    }
    assert order[..i] == order;
  }

  function ListThreadsIn(t: Tables, status: string): seq<Thread>
    requires WellFormed(t)
  {
    SortBy(ThreadsOf(t.threads, t.threadOrder, status), NegUpdatedAt)
  }

  /** The threads with the given status, all of them when it is empty. */
  lemma ListThreadsMembers(t: Tables, status: string, x: Thread)
    requires WellFormed(t)
    ensures x in ListThreadsIn(t, status) <==> x.id in t.threads && t.threads[x.id] == x && (status == "" || x.status == status)
  {
    SameElements(ThreadsOf(t.threads, t.threadOrder, status), NegUpdatedAt, x);
    if x.id in t.threads && t.threads[x.id] == x {
      var k :| 0 <= k < |t.threadOrder| && t.threadOrder[k] == x.id;
    }
  }

  /** Most recently updated first. */
  lemma ListThreadsNewestFirst(t: Tables, status: string)
    requires WellFormed(t)
    ensures var r := ListThreadsIn(t, status);
            forall i, j :: 0 <= i < j < |r| ==> r[i].updatedAt >= r[j].updatedAt
  {
    var r := ListThreadsIn(t, status);
    forall i, j | 0 <= i < j < |r|
      ensures r[i].updatedAt >= r[j].updatedAt
    {
      assert NegUpdatedAt(r[i]) <= NegUpdatedAt(r[j]);
    }
  }

  // ----- dependencies

  function EdgesFrom(deps: seq<Dependency>, fromId: string): (r: seq<Dependency>)
    ensures forall d :: d in r <==> d in deps && d.from == fromId
  {
    if deps == [] then []
    else
      var last := deps[|deps| - 1];
      EdgesFrom(deps[..|deps| - 1], fromId) + (if last.from == fromId then [last] else [])
  }

  function EdgesTo(deps: seq<Dependency>, toId: string): (r: seq<Dependency>)
    ensures forall d :: d in r <==> d in deps && d.to == toId
  {
    if deps == [] then []
    else
      var last := deps[|deps| - 1];
      EdgesTo(deps[..|deps| - 1], toId) + (if last.to == toId then [last] else [])
  }

  function DepCreatedAt(d: Dependency): int { d.createdAt }

  /** `GetDependencies`: the edges leaving `fromId`, oldest first. */
  function DependenciesIn(t: Tables, fromId: string): (r: seq<Dependency>)
    ensures forall d :: d in r <==> d in t.deps && d.from == fromId
    ensures SortedBy(r, DepCreatedAt)
  {
    var found := EdgesFrom(t.deps, fromId);
    var r := SortBy(found, DepCreatedAt);
    forall d ensures d in r <==> d in t.deps && d.from == fromId {
      SameElements(found, DepCreatedAt, d);
    }
    r
  }

  /** `GetDependents`: the edges entering `toId`, oldest first. */
  function DependentsIn(t: Tables, toId: string): (r: seq<Dependency>)
    ensures forall d :: d in r <==> d in t.deps && d.to == toId
    ensures SortedBy(r, DepCreatedAt)
  {
    var found := EdgesTo(t.deps, toId);
    var r := SortBy(found, DepCreatedAt);
    forall d ensures d in r <==> d in t.deps && d.to == toId {
      SameElements(found, DepCreatedAt, d);
    }
    r
  }

  predicate HasEdge(deps: seq<Dependency>, d: Dependency) {
    exists k :: 0 <= k < |deps| && SameEdge(deps[k], d)
  }

  // ----- Verify

  const RequiredTables: seq<string> := ["threads", "insights", "dependencies", "config"]

  /** `Verify`: the integrity check must answer "ok", then the first of
      the four tables that is missing is reported. */
  function VerifyResult(integrity: string, schema: Schema): (r: Option<Error>)
    ensures r.None? <==> integrity == "ok" && HasStoreTables(schema)
    ensures integrity != "ok" ==> r == Some(IntegrityCheckFailed(integrity))
  {
    RequiredTablesPresent(schema);
    if integrity != "ok" then Some(IntegrityCheckFailed(integrity))
    else FirstMissing(RequiredTables, schema)
  }

  lemma RequiredTablesPresent(schema: Schema)
    ensures (forall k :: 0 <= k < |RequiredTables| ==> RequiredTables[k] in schema.tables) <==> HasStoreTables(schema)
  {
    assert RequiredTables[0] == "threads" && RequiredTables[1] == "insights";
    assert RequiredTables[2] == "dependencies" && RequiredTables[3] == "config";
  }

  function FirstMissing(tables: seq<string>, schema: Schema): (r: Option<Error>)
    ensures r.None? <==> forall k :: 0 <= k < |tables| ==> tables[k] in schema.tables
    ensures r.Some? ==> r.value.TableMissing? && r.value.table in tables && r.value.table !in schema.tables
  {
    if tables == [] then None
    else if tables[0] !in schema.tables then Some(TableMissing(tables[0]))
    else
      var rest := FirstMissing(tables[1..], schema);
      assert forall k :: 1 <= k < |tables| ==> tables[k] == tables[1..][k - 1];
      rest
  }

  /** A store opened on a database the migrations have brought up to date
      passes `Verify` whenever SQLite's integrity check does. */
  lemma MigratedStoreVerifies(s: Schema, failing: set<Stmt>)
    requires RunAll(s, MigrationsList, failing).err.None?
    ensures VerifyResult("ok", RunAll(s, MigrationsList, failing).schema) == None
  {
    MigratedSchemaHasTables(s, failing);
  }

  // ----- the store

  class Store {
    const db: Database
    var insights: map<string, InsightRow>
    var rowOrder: seq<string>
    var threads: map<string, Thread>
    var threadOrder: seq<string>
    var deps: seq<Dependency>
    var config: map<string, string>
    var closed: bool

    function Snapshot(): Tables
      reads this
    {
      Tables(insights, rowOrder, threads, threadOrder, deps, config)
    }

    ghost predicate Valid()
      reads this
    {
      WellFormed(Snapshot())
    }

    constructor Open(db: Database, t: Tables)
      requires WellFormed(t)
      ensures this.db == db && Snapshot() == t && !closed && Valid()
    {
      this.db := db;
      insights, rowOrder := t.insights, t.rowOrder;
      threads, threadOrder := t.threads, t.threadOrder;
      deps, config := t.deps, t.config;
      closed := false;
    }

    method Close()
      modifies this
      ensures closed && Snapshot() == old(Snapshot())
    {
      closed := true;
    }

    /** `CreateInsight`: inserts the row unless the id is taken or the
        thread does not exist. */
    method CreateInsight(ins: Insight) returns (err: Option<Error>)
      requires Valid()
      modifies this
      ensures Valid() && closed == old(closed)
      ensures ins.id in old(insights) ==> err == Some(InsertInsightFailed(UniqueId))
      ensures ins.id !in old(insights) && ins.threadId != "" && ins.threadId !in threads ==> err == Some(InsertInsightFailed(ForeignKeyThread))
      ensures err.None? <==> ins.id !in old(insights) && (ins.threadId == "" || ins.threadId in threads)
      ensures err.Some? ==> Snapshot() == old(Snapshot())
      ensures err.None? ==> Snapshot() == old(Snapshot()).(insights := old(insights)[ins.id := ToRow(ins)], rowOrder := old(rowOrder) + [ins.id])
      ensures err.None? ==> InsightIn(Snapshot(), ins.id) == Ok(ins)
      ensures WroteAs(err, Snapshot(), old(Snapshot()), InsertInsightIn(old(Snapshot()), ins))
    {
      if ins.id in insights {
        return Some(InsertInsightFailed(UniqueId));
      }
      if ins.threadId != "" && ins.threadId !in threads {
        return Some(InsertInsightFailed(ForeignKeyThread));
      }
      InsertInsightKeepsWellFormed(Snapshot(), ins);
      insights := insights[ins.id := ToRow(ins)];
      rowOrder := rowOrder + [ins.id];
      return None;
    }

    /** `GetInsight`. */
    method GetInsight(id: string) returns (r: Result<Insight>)
      ensures r == InsightIn(Snapshot(), id)
    {
      if id in insights {
        return Ok(FromRow(insights[id]));
      }
      return Err(InsightNotFound(id));
    }

    /** `UpdateInsight`: rewrites every column but the id. */
    method UpdateInsight(ins: Insight) returns (err: Option<Error>)
      requires Valid()
      modifies this
      ensures Valid() && closed == old(closed)
      ensures ins.id !in old(insights) ==> err == Some(InsightNotFound(ins.id))
      ensures ins.id in old(insights) && ins.threadId != "" && ins.threadId !in threads ==> err == Some(UpdateInsightFailed(ForeignKeyThread))
      ensures err.None? <==> ins.id in old(insights) && (ins.threadId == "" || ins.threadId in threads)
      ensures err.Some? ==> Snapshot() == old(Snapshot())
      ensures err.None? ==> Snapshot() == old(Snapshot()).(insights := old(insights)[ins.id := ToRow(ins)])
      ensures err.None? ==> InsightIn(Snapshot(), ins.id) == Ok(ins)
    {
      if ins.id !in insights {
        return Some(InsightNotFound(ins.id));
      }
      if ins.threadId != "" && ins.threadId !in threads {
        return Some(UpdateInsightFailed(ForeignKeyThread));
      }
      UpdateInsightKeepsWellFormed(Snapshot(), ins);
      insights := insights[ins.id := ToRow(ins)];
      return None;
    }

    /** `DeleteInsight`: removes the row; its dependencies stay, as the
        dependencies table has no foreign key. */
    method DeleteInsight(id: string) returns (err: Option<Error>)
      requires Valid()
      modifies this
      ensures Valid() && closed == old(closed)
      ensures err.Some? <==> id !in old(insights)
      ensures err.Some? ==> err == Some(InsightNotFound(id)) && Snapshot() == old(Snapshot())
      ensures err.None? ==> insights == old(insights) - {id} && rowOrder == Remove(old(rowOrder), id)
      ensures threads == old(threads) && threadOrder == old(threadOrder) && deps == old(deps) && config == old(config)
      ensures InsightIn(Snapshot(), id) == Err(InsightNotFound(id))
    {
      if id !in insights {
        return Some(InsightNotFound(id));
      }
      ghost var t := Snapshot();
      DeleteInsightKeepsWellFormed(t, id);
      insights := insights - {id};
      rowOrder := Remove(rowOrder, id);
      assert Snapshot() == t.(insights := t.insights - {id}, rowOrder := Remove(t.rowOrder, id));
      return None;
    }

    /** `ListInsights`: the rows that pass the filters, newest first. */
    method ListInsights(threadId: string, kind: string, since: Time) returns (r: seq<Insight>)
      requires Valid()
      ensures r == ListInsightsIn(Snapshot(), threadId, kind, since)
    {
      var found := ScanMatching(insights, rowOrder, threadId, kind, since);
      r := SortBy(DecodeRows(found), NegTimestamp);
    }

    /** `ListInsightsByAuthor`: the author's insights, newest first. */
    method ListInsightsByAuthor(authorId: string) returns (r: seq<Insight>)
      requires Valid()
      ensures r == ListByAuthorIn(Snapshot(), authorId)
    {
      var found := ScanByAuthor(insights, rowOrder, authorId);
      r := SortBy(DecodeRows(found), NegTimestamp);
    }

    /** `CreateThread`. */
    method CreateThread(th: Thread) returns (err: Option<Error>)
      requires Valid()
      modifies this
      ensures Valid() && closed == old(closed)
      ensures err.Some? <==> th.id in old(threads)
      ensures err.Some? ==> err == Some(InsertThreadFailed(UniqueId)) && Snapshot() == old(Snapshot())
      ensures err.None? ==> Snapshot() == old(Snapshot()).(threads := old(threads)[th.id := th], threadOrder := old(threadOrder) + [th.id])
      ensures err.None? ==> ThreadIn(Snapshot(), th.id) == Ok(th)
      ensures WroteAs(err, Snapshot(), old(Snapshot()), InsertThreadIn(old(Snapshot()), th))
    {
      if th.id in threads {
        return Some(InsertThreadFailed(UniqueId));
      }
      threads := threads[th.id := th];
      threadOrder := threadOrder + [th.id];
      return None;
    }

    /** `GetThread`. */
    method GetThread(id: string) returns (r: Result<Thread>)
      ensures r == ThreadIn(Snapshot(), id)
    {
      if id in threads {
        return Ok(threads[id]);
      }
      return Err(ThreadNotFound(id));
    }

    /** `UpdateThread`: sets title, status, current understanding and
        update time; the creation time stays. */
    method UpdateThread(th: Thread) returns (err: Option<Error>)
      requires Valid()
      modifies this
      ensures Valid() && closed == old(closed)
      ensures err.Some? <==> th.id !in old(threads)
      ensures err.Some? ==> err == Some(ThreadNotFound(th.id)) && Snapshot() == old(Snapshot())
      ensures err.None? ==> Snapshot() == old(Snapshot()).(threads := old(threads)[th.id := th.(createdAt := old(threads)[th.id].createdAt)])
      ensures WroteAs(err, Snapshot(), old(Snapshot()), UpdateThreadIn(old(Snapshot()), th))
    {
      if th.id !in threads {
        return Some(ThreadNotFound(th.id));
      }
      var kept := threads[th.id];
      threads := threads[th.id := kept.(title := th.title, status := th.status,
                                        currentUnderstanding := th.currentUnderstanding, updatedAt := th.updatedAt)];
      return None;
    }

    /** `ListThreads`. */
    method ListThreads(status: string) returns (r: seq<Thread>)
      requires Valid()
      ensures r == ListThreadsIn(Snapshot(), status)
    {
      var found := ScanThreads(threads, threadOrder, status);
      r := SortBy(found, NegUpdatedAt);
    }

    /** `AddDependency`: a second edge with the same key is refused. */
    method AddDependency(d: Dependency) returns (err: Option<Error>)
      requires Valid()
      modifies this
      ensures Valid() && closed == old(closed)
      ensures err.Some? <==> HasEdge(old(deps), d)
      ensures err.Some? ==> err == Some(DependencyExists(d.from, d.to, d.kind)) && Snapshot() == old(Snapshot())
      ensures err.None? ==> Snapshot() == old(Snapshot()).(deps := old(deps) + [d])
      ensures d in DependenciesIn(Snapshot(), d.from) || err.Some?
      ensures d in DependentsIn(Snapshot(), d.to) || err.Some?
      ensures WroteAs(err, Snapshot(), old(Snapshot()), AddDependencyIn(old(Snapshot()), d))
    {
      var k := 0;
      while k < |deps|
        invariant 0 <= k <= |deps|
        invariant forall j :: 0 <= j < k ==> !SameEdge(deps[j], d)
      {
        if SameEdge(deps[k], d) {
          return Some(DependencyExists(d.from, d.to, d.kind));
        }
        k := k + 1;
      }
      deps := deps + [d];
      return None;
    }

    /** `GetDependencies`. */
    method GetDependencies(fromId: string) returns (r: seq<Dependency>)
      ensures r == DependenciesIn(Snapshot(), fromId)
    {
      var found: seq<Dependency> := [];
      var i := 0;
      while i < |deps|
        invariant 0 <= i <= |deps|
        invariant found == EdgesFrom(deps[..i], fromId)
      {
        assert deps[..i + 1][..i] == deps[..i];
        if deps[i].from == fromId {
          found := found + [deps[i]];
        }
        i := i + 1;
      }
      assert deps[..i] == deps;
      r := SortBy(found, DepCreatedAt);
    }

    /** `GetDependents`. */
    method GetDependents(toId: string) returns (r: seq<Dependency>)
      ensures r == DependentsIn(Snapshot(), toId)
    {
      var found: seq<Dependency> := [];
      var i := 0;
      while i < |deps|
        invariant 0 <= i <= |deps|
        invariant found == EdgesTo(deps[..i], toId)
      {
        assert deps[..i + 1][..i] == deps[..i];
        if deps[i].to == toId {
          found := found + [deps[i]];
        }
        i := i + 1;
      }
      assert deps[..i] == deps;
      r := SortBy(found, DepCreatedAt);
    }

    /** `GetConfig`: a missing key reads as "". */
    method GetConfig(key: string) returns (value: string)
      ensures value == ConfigIn(Snapshot(), key)
    {
      if key in config {
        return config[key];
      }
      return "";
    }

    /** `SetConfig`: insert or overwrite. */
    method SetConfig(key: string, value: string)
      requires Valid()
      modifies this
      ensures Valid() && closed == old(closed)
      ensures Snapshot() == old(Snapshot()).(config := old(config)[key := value])
      ensures ConfigIn(Snapshot(), key) == value
    {
      config := config[key := value];
    }

    /** `Verify`, given the answer of `PRAGMA integrity_check`. */
    method Verify(integrity: string) returns (err: Option<Error>)
      ensures err == VerifyResult(integrity, db.schema)
    {
      if integrity != "ok" {
        return Some(IntegrityCheckFailed(integrity));
      }
      var k := 0;
      while k < |RequiredTables|
        invariant 0 <= k <= |RequiredTables|
        invariant FirstMissing(RequiredTables, db.schema) == FirstMissing(RequiredTables[k..], db.schema)
      {
        if RequiredTables[k] !in db.schema.tables {
          return Some(TableMissing(RequiredTables[k]));
        }
        assert RequiredTables[k..][1..] == RequiredTables[k + 1..];
        k := k + 1;
      }
      return None;
    }
  }

  function InsightIn(t: Tables, id: string): Result<Insight> {
    if id in t.insights then Ok(FromRow(t.insights[id])) else Err(InsightNotFound(id))
  }

  function ThreadIn(t: Tables, id: string): Result<Thread> {
    if id in t.threads then Ok(t.threads[id]) else Err(ThreadNotFound(id))
  }

  function ConfigIn(t: Tables, key: string): string {
    if key in t.config then t.config[key] else ""
  }

  // ----- the writes, on values

  /** What a write leaves behind: the tables `spec` gives, or the
      untouched tables and the error. */
  predicate WroteAs(err: Option<Error>, after: Tables, before: Tables, spec: Result<Tables>) {
    match spec
    case Ok(t) => err.None? && after == t
    case Err(e) => err == Some(e) && after == before
  }

  /** `CreateInsight` on tables `t`. */
  function InsertInsightIn(t: Tables, ins: Insight): Result<Tables> {
    if ins.id in t.insights then Err(InsertInsightFailed(UniqueId))
    else if ins.threadId != "" && ins.threadId !in t.threads then Err(InsertInsightFailed(ForeignKeyThread))
    else Ok(t.(insights := t.insights[ins.id := ToRow(ins)], rowOrder := t.rowOrder + [ins.id]))
  }

  /** `CreateThread` on tables `t`. */
  function InsertThreadIn(t: Tables, th: Thread): Result<Tables> {
    if th.id in t.threads then Err(InsertThreadFailed(UniqueId))
    else Ok(t.(threads := t.threads[th.id := th], threadOrder := t.threadOrder + [th.id]))
  }

  /** `UpdateThread` on tables `t`: the stored creation time stays. */
  function UpdateThreadIn(t: Tables, th: Thread): Result<Tables> {
    if th.id !in t.threads then Err(ThreadNotFound(th.id))
    else Ok(t.(threads := t.threads[th.id := th.(createdAt := t.threads[th.id].createdAt)]))
  }

  /** `AddDependency` on tables `t`. */
  function AddDependencyIn(t: Tables, d: Dependency): Result<Tables> {
    if HasEdge(t.deps, d) then Err(DependencyExists(d.from, d.to, d.kind))
    else Ok(t.(deps := t.deps + [d]))
  }

  /** An accepted edge keeps the tables well formed and leaves the
      insights as they were. */
  lemma AddDependencyKeepsWellFormed(t: Tables, d: Dependency)
    requires WellFormed(t) && AddDependencyIn(t, d).Ok?
    ensures WellFormed(AddDependencyIn(t, d).value)
    ensures Insights(AddDependencyIn(t, d).value) == Insights(t)
  {
    var after := AddDependencyIn(t, d).value;
    forall i, j | 0 <= i < j < |after.deps|
      ensures !SameEdge(after.deps[i], after.deps[j])
    {
      if j == |t.deps| {
        assert after.deps[j] == d && after.deps[i] == t.deps[i];
      }
    }
  }

  /** An accepted insert keeps the tables well formed, and the new row
      reads back as the insight given. */
  lemma InsertInsightKeepsWellFormed(t: Tables, ins: Insight)
    requires WellFormed(t) && InsertInsightIn(t, ins).Ok?
    ensures WellFormed(InsertInsightIn(t, ins).value)
    ensures InsightIn(InsertInsightIn(t, ins).value, ins.id) == Ok(ins)
  {
    var after := InsertInsightIn(t, ins).value;
    assert after.rowOrder == t.rowOrder + [ins.id];
    forall i, j | 0 <= i < j < |after.rowOrder|
      ensures after.rowOrder[i] != after.rowOrder[j]
    {
      if j == |t.rowOrder| {
        assert after.rowOrder[i] == t.rowOrder[i] && t.rowOrder[i] in t.insights;
      }
    }
  }

  /** Rewriting a stored insight whose thread exists keeps the tables well
      formed, and the row reads back as the insight given. */
  lemma UpdateInsightKeepsWellFormed(t: Tables, ins: Insight)
    requires WellFormed(t) && ins.id in t.insights && (ins.threadId == "" || ins.threadId in t.threads)
    ensures var after := t.(insights := t.insights[ins.id := ToRow(ins)]);
      WellFormed(after) && InsightIn(after, ins.id) == Ok(ins)
  {
  }

  /** Removing an insight keeps the tables well formed, and it can no
      longer be read. */
  lemma DeleteInsightKeepsWellFormed(t: Tables, id: string)
    requires WellFormed(t)
    ensures var after := t.(insights := t.insights - {id}, rowOrder := Remove(t.rowOrder, id));
      WellFormed(after) && InsightIn(after, id) == Err(InsightNotFound(id))
  {
    RemoveKeeps(t.rowOrder, id);
  }

  /** `s` without the element `x`. */
  function Remove(s: seq<string>, x: string): (r: seq<string>)
    ensures forall y :: y in r <==> y in s && y != x
  {
    if s == [] then [] else (if s[0] == x then [] else [s[0]]) + Remove(s[1..], x)
  }

  lemma {:induction false} RemoveKeeps(s: seq<string>, x: string)
    requires Distinct(s)
    ensures Distinct(Remove(s, x))
  {
    if s != [] {
      RemoveKeeps(s[1..], x);
      var rest := Remove(s[1..], x);
      assert s[0] !in s[1..];
      assert s[0] !in rest;
    }
  }

  /** `NewStore`: runs the migrations on the opened database; a failing
      migration makes the open fail. */
  method NewStore(db: Database, t: Tables) returns (r: Result<Store>)
    requires WellFormed(t)
    modifies db
    ensures db.schema == RunAll(old(db.schema), MigrationsList, db.failing).schema
    ensures r.Ok? <==> RunAll(old(db.schema), MigrationsList, db.failing).err.None?
    ensures r.Err? ==> r.error == Wrapped("failed to run migrations", RunAll(old(db.schema), MigrationsList, db.failing).err.value)
    ensures r.Ok? ==> fresh(r.value) && r.value.db == db && r.value.Valid() && !r.value.closed && r.value.Snapshot() == t
    ensures r.Ok? ==> HasStoreTables(db.schema) && VerifyResult("ok", db.schema) == None
  {
    var err := db.RunMigrations();
    if err.Some? {
      return Err(Wrapped("failed to run migrations", err.value));
    }
    MigratedSchemaHasTables(old(db.schema), db.failing);
    var s := new Store.Open(db, t);
    return Ok(s);
  }
}
