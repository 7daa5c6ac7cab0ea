/**
  The schema migration runner. A one-row table `schema_version` holds the
  number of migrations already applied; the runner applies the pending ones
  in order, writing the new version after each. There is one migration: it
  adds the `title`, `tags` and `completed_at` columns to `tasks` when they
  are missing, fills empty titles from the description, and creates the
  `dependencies` and `history` tables and two indexes.

  A table is its column names (in declaration order) and its rows; a row maps
  column names to values, a missing entry reading as NULL. Statements run one
  at a time with no transaction, so a failing statement leaves the effects
  of the statements before it in place.
 */
module Migrations {
  import opened Values

  datatype Table = Table(columns: seq<string>, rows: seq<map<string, Value>>)

  datatype Schema = Schema(tables: map<string, Table>, indexes: set<string>)

  /** The errors a migration run can end with. */
  datatype SqlError =
    | NoSuchTable(table: string)      // ALTER TABLE on a missing table
    | NoSuchColumn(column: string)    // a statement naming a missing column
    | NotAFunction                    // a stored version with no migration at that index
    | DuplicateColumn(name: string)   // ALTER TABLE ADD COLUMN of a column the table has

  /** Number of entries of the `migrations` array. */
  const MIGRATION_COUNT: int := 1

  const DEPENDENCY_COLUMNS: seq<string> := ["task_id", "depends_on_task_id", "created_at"]
  const HISTORY_COLUMNS: seq<string> := ["id", "task_id", "field", "old_value", "new_value", "changed_at"]

  /** The value of `column` in `row`; NULL when the row has no such entry. */
  function Cell(row: map<string, Value>, column: string): Value
  {
    if column in row then row[column] else Null
  }

  // ---------------------------------------------------------------------------
  // hasColumn

  /** `columns.some((column) => column.name === name)`. */
  function SomeNamed(columns: seq<string>, name: string): (r: bool)
    ensures r <==> name in columns
  {
    if columns == [] then false
    else columns[0] == name || SomeNamed(columns[1..], name)
  }

  /** `hasColumn(db, table, column)`: `PRAGMA table_info` lists no column for a missing table. */
  function HasColumn(s: Schema, table: string, column: string): (r: bool)
    ensures r <==> table in s.tables && column in s.tables[table].columns
  {
    var columns := if table in s.tables then s.tables[table].columns else [];
    SomeNamed(columns, column)
  }

  // ---------------------------------------------------------------------------
  // The first migration, as a function of the schema

  /** Every row holds entries for declared columns only. */
  ghost predicate WellFormed(t: Table)
  {
    forall i, c :: 0 <= i < |t.rows| && c in t.rows[i] ==> c in t.columns
  }

  /** `ALTER TABLE t ADD COLUMN name`: a new last column, NULL in every row. */
  function AddColumn(t: Table, name: string): (r: Table)
    ensures r.columns == t.columns + [name] && |r.rows| == |t.rows|
    ensures forall i, c :: 0 <= i < |t.rows| && c != name ==> Cell(r.rows[i], c) == Cell(t.rows[i], c)
    ensures forall i :: 0 <= i < |t.rows| ==> Cell(r.rows[i], name) == Null
    ensures WellFormed(t) ==> WellFormed(r)
  {
    Table(t.columns + [name], NullColumn(t.rows, name))
  }

  function NullColumn(rows: seq<map<string, Value>>, name: string): (r: seq<map<string, Value>>)
    ensures |r| == |rows|
    ensures forall i :: 0 <= i < |rows| ==> r[i] == rows[i][name := Null]
  {
    if rows == [] then [] else [rows[0][name := Null]] + NullColumn(rows[1..], name)
  }

  /** The column is added only when `hasColumn` says it is absent. */
  function EnsureColumn(t: Table, name: string): Table
  {
    if SomeNamed(t.columns, name) then t else AddColumn(t, name)
  }

  /** `SET title = description WHERE title IS NULL` on one row. */
  function FillTitle(row: map<string, Value>): map<string, Value>
  {
    if Cell(row, "title") == Null then row["title" := Cell(row, "description")] else row
  }

  function FillTitles(rows: seq<map<string, Value>>): (r: seq<map<string, Value>>)
    ensures |r| == |rows|
    ensures forall i :: 0 <= i < |rows| ==> r[i] == FillTitle(rows[i])
  {
    if rows == [] then [] else [FillTitle(rows[0])] + FillTitles(rows[1..])
  }

  /** `CREATE TABLE IF NOT EXISTS`. */
  function CreateIfAbsent(s: Schema, name: string, columns: seq<string>): Schema
  {
    if name in s.tables then s else s.(tables := s.tables[name := Table(columns, [])])
  }

  /** The tasks table with its three columns ensured. */
  function WithNewColumns(t: Table): Table
  {
    EnsureColumn(EnsureColumn(EnsureColumn(t, "title"), "tags"), "completed_at")
  }

  /** The three guarded `ALTER TABLE tasks ADD COLUMN` statements. */
  function AddTaskColumns(s: Schema): (Schema, Option<SqlError>)
  {
    if "tasks" !in s.tables then (s, Some(NoSuchTable("tasks")))
    else (s.(tables := s.tables["tasks" := WithNewColumns(s.tables["tasks"])]), None)
  }

  /** The statements after the new columns: title backfill, two tables, two indexes. */
  function FinishFirstMigration(s: Schema): (Schema, Option<SqlError>)
    requires "tasks" in s.tables
  {
    var t := s.tables["tasks"];
    if "description" !in t.columns then (s, Some(NoSuchColumn("description")))
    else
      var s2 := s.(tables := s.tables["tasks" := t.(rows := FillTitles(t.rows))]);
      var s3 := CreateIfAbsent(CreateIfAbsent(s2, "dependencies", DEPENDENCY_COLUMNS), "history", HISTORY_COLUMNS);
      if "task_id" !in s3.tables["history"].columns then (s3, Some(NoSuchColumn("task_id")))
      else (s3.(indexes := s3.indexes + {"idx_history_task", "idx_tasks_tags"}), None)
  }

  /**
    What the first migration leaves behind, and the error it stops with if
    one of its statements fails.
   */
  function FirstMigration(s: Schema): (r: (Schema, Option<SqlError>))
    ensures "tasks" !in s.tables ==> r == (s, Some(NoSuchTable("tasks")))
    ensures "tasks" in s.tables && "description" !in s.tables["tasks"].columns ==>
      r.1 == Some(NoSuchColumn("description"))
    ensures r.1 == None ==>
      && "tasks" in r.0.tables && "dependencies" in r.0.tables && "history" in r.0.tables
      && {"idx_history_task", "idx_tasks_tags"} <= r.0.indexes
  {
    var (s1, e) := AddTaskColumns(s);
    if e.Some? then (s1, e)
    else
      WithNewColumnsKeeps(s.tables["tasks"], "description");
      FinishFirstMigrationEffect(s1);
      FinishFirstMigration(s1)
  }

  /** Ensuring the three new columns neither adds nor removes any other column. */
  lemma WithNewColumnsKeeps(t: Table, name: string)
    requires name != "title" && name != "tags" && name != "completed_at"
    ensures name in WithNewColumns(t).columns <==> name in t.columns
  {
    var t1 := EnsureColumn(t, "title");
    var t2 := EnsureColumn(t1, "tags");
    assert name in t1.columns <==> name in t.columns;
    assert name in t2.columns <==> name in t1.columns;
  }

  /** The columns of a table, as a set. */
  function ColumnSet(t: Table): set<string>
  {
    set c | c in t.columns
  }

  /** Ensuring a column adds it to the column set and, on a well-formed table, changes no cell. */
  lemma EnsureColumnEffect(t: Table, name: string)
    ensures ColumnSet(EnsureColumn(t, name)) == ColumnSet(t) + {name}
    ensures |EnsureColumn(t, name).rows| == |t.rows|
    ensures WellFormed(t) ==> WellFormed(EnsureColumn(t, name))
    ensures WellFormed(t) ==> forall i, c :: 0 <= i < |t.rows| ==> Cell(EnsureColumn(t, name).rows[i], c) == Cell(t.rows[i], c)
  {
    var r := EnsureColumn(t, name);
    if name !in t.columns {
      assert r.columns == t.columns + [name];
      assert forall c :: c in r.columns <==> c in t.columns || c == name;
    }
  }

  /** The three guarded ALTERs add exactly the missing columns and, on a well-formed table, change no cell. */
  lemma WithNewColumnsEffect(t: Table)
    ensures ColumnSet(WithNewColumns(t)) == ColumnSet(t) + {"title", "tags", "completed_at"}
    ensures |WithNewColumns(t).rows| == |t.rows|
    ensures WellFormed(t) ==> forall i, c :: 0 <= i < |t.rows| ==> Cell(WithNewColumns(t).rows[i], c) == Cell(t.rows[i], c)
  {
    var t1 := EnsureColumn(t, "title");
    var t2 := EnsureColumn(t1, "tags");
    EnsureColumnEffect(t, "title");
    EnsureColumnEffect(t1, "tags");
    EnsureColumnEffect(t2, "completed_at");
  }

  /**
    The statements after the ALTERs keep the columns of `tasks`; a missing
    `description` column stops them before any change; on success the rows of
    `tasks` are backfilled, both new tables exist, `history` has `task_id`, and
    both indexes exist.
   */
  lemma FinishFirstMigrationEffect(s: Schema)
    requires "tasks" in s.tables
    ensures var (r, e) := FinishFirstMigration(s);
      && "tasks" in r.tables && r.tables["tasks"].columns == s.tables["tasks"].columns
      && ("description" !in s.tables["tasks"].columns ==> r == s && e == Some(NoSuchColumn("description")))
      && (e == None ==>
            && r.tables["tasks"] == s.tables["tasks"].(rows := FillTitles(s.tables["tasks"].rows))
            && "dependencies" in r.tables && "history" in r.tables && "task_id" in r.tables["history"].columns
            && {"idx_history_task", "idx_tasks_tags"} <= r.indexes)
  {
  }

  /**
    On an existing `tasks` table the migration's column set is the old one
    plus title, tags and completed_at, even when a later statement fails; a
    missing `tasks` table fails the first statement and changes nothing.
   */
  lemma FirstMigrationColumns(s: Schema)
    ensures "tasks" !in s.tables ==> FirstMigration(s) == (s, Some(NoSuchTable("tasks")))
    ensures "tasks" in s.tables ==>
      && "tasks" in FirstMigration(s).0.tables
      && ColumnSet(FirstMigration(s).0.tables["tasks"]) == ColumnSet(s.tables["tasks"]) + {"title", "tags", "completed_at"}
  {
    if "tasks" in s.tables {
      var s1 := AddTaskColumns(s).0;
      WithNewColumnsEffect(s.tables["tasks"]);
      FinishFirstMigrationEffect(s1);
    }
  }

  /**
    After a successful migration every task keeps its cells except the
    title, and a task whose title was NULL now has its description as title.
   */
  lemma FirstMigrationBackfill(s: Schema)
    requires FirstMigration(s).1 == None
    requires "tasks" in s.tables ==> WellFormed(s.tables["tasks"])
    ensures "tasks" in s.tables && "tasks" in FirstMigration(s).0.tables
    ensures var before, after := s.tables["tasks"].rows, FirstMigration(s).0.tables["tasks"].rows;
      && |after| == |before|
      && forall i :: 0 <= i < |before| ==>
        && Cell(after[i], "title") == (if Cell(before[i], "title") == Null then Cell(before[i], "description") else Cell(before[i], "title"))
        && forall c :: c != "title" ==> Cell(after[i], c) == Cell(before[i], c)
  {
    var t0 := s.tables["tasks"];
    var s1 := AddTaskColumns(s).0;
    WithNewColumnsEffect(t0);
    FinishFirstMigrationEffect(s1);
    var t := WithNewColumns(t0);
    assert FirstMigration(s).0.tables["tasks"].rows == FillTitles(t.rows);
  }

  /** Filling titles a second time changes nothing. */
  lemma FillTitlesTwice(rows: seq<map<string, Value>>)
    ensures FillTitles(FillTitles(rows)) == FillTitles(rows)
  {
    var once := FillTitles(rows);
    forall i | 0 <= i < |rows| ensures FillTitle(once[i]) == once[i] {
      var row := rows[i];
      if Cell(row, "title") == Null && Cell(row, "description") == Null {
        assert once[i]["title" := Null] == once[i];
      }
    }
  }

  /** The first migration is idempotent: run again on its own result, it leaves that result as it is. */
  lemma FirstMigrationIdempotent(s: Schema)
    requires FirstMigration(s).1 == None
    ensures FirstMigration(FirstMigration(s).0) == FirstMigration(s)
  {
    var t0 := s.tables["tasks"];
    var t := WithNewColumns(t0);
    var s1 := AddTaskColumns(s).0;
    WithNewColumnsEffect(t0);
    FinishFirstMigrationEffect(s1);
    var r := FirstMigration(s).0;
    var tr := r.tables["tasks"];
    assert "title" in tr.columns && "tags" in tr.columns && "completed_at" in tr.columns by {
      assert ColumnSet(tr) == ColumnSet(t);
    }
    assert WithNewColumns(tr) == tr;
    assert r.tables["tasks" := tr] == r.tables;
    assert AddTaskColumns(r) == (r, None);
    FillTitlesTwice(t.rows);
    assert r.tables["tasks" := tr.(rows := FillTitles(tr.rows))] == r.tables;
    assert r.indexes + {"idx_history_task", "idx_tasks_tags"} == r.indexes;
  }

  // ---------------------------------------------------------------------------
  // The runner, as a function of the schema and the stored version

  /** The migration at index `i` of the `migrations` array. */
  function Migration(i: int, s: Schema): (Schema, Option<SqlError>)
    requires 0 <= i < MIGRATION_COUNT
  {
    FirstMigration(s)
  }

  /** How a run ends: schema, error, final version, and the migrations applied in order. */
  datatype Run = Run(schema: Schema, error: Option<SqlError>, version: int, applied: seq<int>)

  /** The `while (currentVersion < migrations.length)` loop started at version `v`. */
  function RunFrom(s: Schema, v: int): (r: Run)
    ensures r.version >= v
    ensures r.error.Some? <==> r.version < MIGRATION_COUNT
    decreases if v < MIGRATION_COUNT then MIGRATION_COUNT - v else 0
  {
    if v >= MIGRATION_COUNT then Run(s, None, v, [])
    else if v < 0 then Run(s, Some(NotAFunction), v, [])
    else
      var (s1, e) := Migration(v, s);
      if e.Some? then Run(s1, e, v, [])
      else
        var r := RunFrom(s1, v + 1);
        r.(applied := [v] + r.applied)
  }

  /** The integers `lo`, `lo + 1`, ..., `hi - 1`. */
  function Range(lo: int, hi: int): (r: seq<int>)
    ensures |r| == if lo < hi then hi - lo else 0
    ensures forall j :: 0 <= j < |r| ==> r[j] == lo + j
    decreases hi - lo
  {
    if lo >= hi then [] else [lo] + Range(lo + 1, hi)
  }

  function Max(a: int, b: int): int
  {
    if a >= b then a else b
  }

  /**
    A run that ends without error stops at the larger of the start version
    and the number of migrations, having applied exactly the migrations from
    the start version up, once each and in increasing order.
   */
  lemma {:induction false} RunFromSucceeds(s: Schema, v: int)
    requires RunFrom(s, v).error == None
    ensures v >= 0 || v >= MIGRATION_COUNT
    ensures RunFrom(s, v).version == Max(v, MIGRATION_COUNT)
    ensures RunFrom(s, v).applied == Range(v, MIGRATION_COUNT)
    decreases if v < MIGRATION_COUNT then MIGRATION_COUNT - v else 0
  {
    if 0 <= v < MIGRATION_COUNT {
      var s1 := Migration(v, s).0;
      RunFromSucceeds(s1, v + 1);
    }
  }

  /** Every run applies only migrations at or above the start version, in increasing order. */
  lemma {:induction false} RunFromApplied(s: Schema, v: int)
    ensures forall j :: 0 <= j < |RunFrom(s, v).applied| ==> RunFrom(s, v).applied[j] == v + j
    ensures |RunFrom(s, v).applied| <= if v < MIGRATION_COUNT then MIGRATION_COUNT - v else 0
    decreases if v < MIGRATION_COUNT then MIGRATION_COUNT - v else 0
  {
    if 0 <= v < MIGRATION_COUNT && Migration(v, s).1.None? {
      var s1 := Migration(v, s).0;
      RunFromApplied(s1, v + 1);
    }
  }

  /** Running the loop again from where a successful run stopped applies nothing. */
  lemma RunFromTwice(s: Schema, v: int)
    requires RunFrom(s, v).error == None
    ensures var r := RunFrom(s, v);
      RunFrom(r.schema, r.version) == Run(r.schema, None, r.version, [])
  {
    RunFromSucceeds(s, v);
  }

  /** The version `ensureSchemaVersionTable` reads: the first row, or 0 when there is none. */
  function StoredVersion(rows: Option<seq<int>>): int
  {
    if rows.None? || rows.value == [] then 0 else rows.value[0]
  }

  /** The versions a run writes, one per migration applied. */
  function Written(applied: seq<int>): (r: seq<int>)
    ensures |r| == |applied| && forall j :: 0 <= j < |applied| ==> r[j] == applied[j] + 1
  {
    if applied == [] then [] else [applied[0] + 1] + Written(applied[1..])
  }

  // ---------------------------------------------------------------------------
  // The database the runner works on

  class Database {
    var schema: Schema
    /** The rows of `schema_version`; `None` while the table does not exist. */
    var versionRows: Option<seq<int>>
    /** The migrations applied so far, in order. */
    ghost var applied: seq<int>
    /** Every version written to `schema_version` by the runner, in order. */
    ghost var written: seq<int>

    constructor (initial: Schema, versions: Option<seq<int>>)
      ensures schema == initial && versionRows == versions && applied == [] && written == []
    {
      schema, versionRows := initial, versions;
      applied, written := [], [];
    }

    /**
      `ensureSchemaVersionTable`: creates the table if needed; with no row it
      inserts version 0 and returns 0, otherwise it returns the first row's
      version and changes nothing.
     */
    method EnsureSchemaVersionTable() returns (version: int)
      modifies this
      ensures version == StoredVersion(old(versionRows))
      ensures versionRows == if old(versionRows).None? || old(versionRows).value == [] then Some([0]) else old(versionRows)
      ensures schema == old(schema) && applied == old(applied) && written == old(written)
    {
      if versionRows.None? {
        versionRows := Some([]);
      }
      if versionRows.value == [] {
        versionRows := Some([0]);
        return 0;
      }
      version := versionRows.value[0];
    }

    /** `ALTER TABLE table ADD COLUMN column`. */
    method AlterAddColumn(table: string, column: string) returns (err: Option<SqlError>)
      modifies this
      ensures table !in old(schema.tables) ==> err == Some(NoSuchTable(table)) && schema == old(schema)
      ensures HasColumn(old(schema), table, column) ==> err == Some(DuplicateColumn(column)) && schema == old(schema)
      ensures table in old(schema.tables) && !HasColumn(old(schema), table, column) ==>
        err == None && schema == old(schema).(tables := old(schema.tables)[table := AddColumn(old(schema.tables[table]), column)])
      ensures versionRows == old(versionRows) && applied == old(applied) && written == old(written)
    {
      if table !in schema.tables {
        return Some(NoSuchTable(table));
      }
      if HasColumn(schema, table, column) {
        return Some(DuplicateColumn(column));
      }
      schema := schema.(tables := schema.tables[table := AddColumn(schema.tables[table], column)]);
      err := None;
    }

    /** `if (!hasColumn(table, column)) ALTER TABLE table ADD COLUMN column`. */
    method EnsureColumnStep(table: string, column: string) returns (err: Option<SqlError>)
      modifies this
      ensures table !in old(schema.tables) ==> err == Some(NoSuchTable(table)) && schema == old(schema)
      ensures table in old(schema.tables) ==>
        err == None && schema == old(schema).(tables := old(schema.tables)[table := EnsureColumn(old(schema.tables[table]), column)])
      ensures versionRows == old(versionRows) && applied == old(applied) && written == old(written)
    {
      err := None;
      if !HasColumn(schema, table, column) {
        err := AlterAddColumn(table, column);
      }
    }

    /** The first three statements of the first migration. */
    method AddTaskColumnsStep() returns (err: Option<SqlError>)
      modifies this
      ensures (schema, err) == AddTaskColumns(old(schema))
      ensures versionRows == old(versionRows) && applied == old(applied) && written == old(written)
    {
      ghost var s0 := schema;
      err := EnsureColumnStep("tasks", "title");
      if err.Some? { return; }
      ghost var t1 := EnsureColumn(s0.tables["tasks"], "title");
      assert schema.tables == s0.tables["tasks" := t1];
      err := EnsureColumnStep("tasks", "tags");
      ghost var t2 := EnsureColumn(t1, "tags");
      assert schema.tables == s0.tables["tasks" := t2];
      err := EnsureColumnStep("tasks", "completed_at");
      assert schema.tables == s0.tables["tasks" := WithNewColumns(s0.tables["tasks"])];
    }

    /** The rest of the first migration, once `tasks` has its new columns. */
    method FinishFirstMigrationStep() returns (err: Option<SqlError>)
      requires "tasks" in schema.tables
      modifies this
      ensures (schema, err) == FinishFirstMigration(old(schema))
      ensures versionRows == old(versionRows) && applied == old(applied) && written == old(written)
    {
      var tasks := schema.tables["tasks"];
      if "description" !in tasks.columns {
        return Some(NoSuchColumn("description"));
      }
      schema := schema.(tables := schema.tables["tasks" := tasks.(rows := FillTitles(tasks.rows))]);
      schema := CreateIfAbsent(schema, "dependencies", DEPENDENCY_COLUMNS);
      schema := CreateIfAbsent(schema, "history", HISTORY_COLUMNS);
      if "task_id" !in schema.tables["history"].columns {
        return Some(NoSuchColumn("task_id"));
      }
      ghost var s3 := schema;
      schema := schema.(indexes := schema.indexes + {"idx_history_task"});
      schema := schema.(indexes := schema.indexes + {"idx_tasks_tags"});
      assert schema.indexes == s3.indexes + {"idx_history_task", "idx_tasks_tags"};
      err := None;
    }

    /** The first entry of the `migrations` array. */
    method RunFirstMigration() returns (err: Option<SqlError>)
      modifies this
      ensures (schema, err) == FirstMigration(old(schema))
      ensures versionRows == old(versionRows) && applied == old(applied) && written == old(written)
    {
      err := AddTaskColumnsStep();
      if err.Some? {
        return;
      }
      err := FinishFirstMigrationStep();
    }

    /**
      One turn of the runner's loop: migration `v`, then, if it succeeded,
      the version `v + 1` written to every row of `schema_version`.
     */
    method ApplyNext(v: int) returns (next: int, err: Option<SqlError>)
      requires 0 <= v < MIGRATION_COUNT
      requires versionRows.Some? && |versionRows.value| > 0
      modifies this
      ensures next == v + 1 && (schema, err) == Migration(v, old(schema))
      ensures err.Some? ==> versionRows == old(versionRows) && applied == old(applied) && written == old(written)
      ensures err.None? ==>
        && versionRows.Some? && |versionRows.value| == |old(versionRows).value| && versionRows.value[0] == next
        && (forall j :: 0 <= j < |versionRows.value| ==> versionRows.value[j] == next)
        && applied == old(applied) + [v] && written == old(written) + [next]
    {
      next := v + 1;
      err := RunFirstMigration();
      if err.Some? {
        return;
      }
      versionRows := Some(seq(|versionRows.value|, _ => next));
      applied := applied + [v];
      written := written + [next];
    }

    /**
      `runMigrations`: applies the migrations from the stored version up,
      writing each new version as soon as its migration has run; it stops at
      the first error.
     */
    method RunMigrations() returns (err: Option<SqlError>)
      modifies this
      ensures var r := RunFrom(old(schema), StoredVersion(old(versionRows)));
        && schema == r.schema
        && err == r.error
        && versionRows.Some? && |versionRows.value| > 0 && versionRows.value[0] == r.version
        && applied == old(applied) + r.applied
        && written == old(written) + Written(r.applied)
    {
      var currentVersion := EnsureSchemaVersionTable();
      ghost var final := RunFrom(schema, currentVersion);
      ghost var applied0, written0 := applied, written;
      while currentVersion < MIGRATION_COUNT
        invariant versionRows.Some? && |versionRows.value| > 0 && versionRows.value[0] == currentVersion
        invariant RunFrom(schema, currentVersion).(applied := []) == final.(applied := [])
        invariant applied + RunFrom(schema, currentVersion).applied == applied0 + final.applied
        invariant written + Written(RunFrom(schema, currentVersion).applied) == written0 + Written(final.applied)
        decreases MIGRATION_COUNT - currentVersion
      {
        if currentVersion < 0 {
          assert RunFrom(schema, currentVersion) == Run(schema, Some(NotAFunction), currentVersion, []);
          return Some(NotAFunction);
        }
        ghost var before, appliedBefore, writtenBefore := schema, applied, written;
        var nextVersion;
        nextVersion, err := ApplyNext(currentVersion);
        if err.Some? {
          assert RunFrom(before, currentVersion) == Run(schema, err, currentVersion, []);
          return;
        }
        RunFromStep(before, currentVersion);
        ghost var tail := RunFrom(schema, nextVersion).applied;
        WrittenCons(currentVersion, tail);
        AppendAssoc(appliedBefore, [currentVersion], tail);
        AppendAssoc(writtenBefore, [nextVersion], Written(tail));
        currentVersion := nextVersion;
      }
      assert RunFrom(schema, currentVersion) == Run(schema, None, currentVersion, []);
      err := None;
    }
  }

  /** One step of the runner: a successful migration `v` followed by the run from `v + 1`. */
  lemma RunFromStep(s: Schema, v: int)
    requires 0 <= v < MIGRATION_COUNT && Migration(v, s).1 == None
    ensures var r := RunFrom(Migration(v, s).0, v + 1);
      RunFrom(s, v) == r.(applied := [v] + r.applied)
  {
  }

  lemma WrittenCons(v: int, rest: seq<int>)
    ensures Written([v] + rest) == [v + 1] + Written(rest)
  {
    assert ([v] + rest)[1..] == rest;
  }

  /**
    A second `runMigrations` right after a successful one applies nothing,
    writes no version and leaves the schema as it is.
   */
  method RunTwice(db: Database) returns (first: Option<SqlError>, second: Option<SqlError>)
    modifies db
    ensures first == None ==>
      && second == None
      && db.schema == RunFrom(old(db.schema), StoredVersion(old(db.versionRows))).schema
      && db.applied == old(db.applied) + Range(StoredVersion(old(db.versionRows)), MIGRATION_COUNT)
      && db.written == old(db.written) + Written(Range(StoredVersion(old(db.versionRows)), MIGRATION_COUNT))
  {
    first := db.RunMigrations();
    if first.None? {
      RunFromSucceeds(old(db.schema), StoredVersion(old(db.versionRows)));
      ghost var mid, midSchema, midWritten := db.applied, db.schema, db.written;
      second := db.RunMigrations();
      assert db.applied == mid && db.schema == midSchema && db.written == midWritten;
    } else {
      second := first;
    }
  }
}
