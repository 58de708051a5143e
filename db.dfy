/** The database file as the store sees it: the column names of each table
    and the single schema-metadata row. Opening the store creates missing
    tables, adds missing columns, then checks the recorded schema version. */
module Db {
  import opened Outcomes
  import opened Text
  import opened Dicts

  /** The schema version this code writes and accepts at most. */
  const SchemaVersion := 3

  /** The tables the store declares, with their columns. */
  const Declared: map<string, set<string>> := map[
    "schema_metadata" := {"id", "schema_version"},
    "datasets" := {"dataset_name", "version", "path", "checksum", "item_count", "created_at"},
    "runs" := {"run_id", "run_key", "run_version", "variant_name", "dataset_name", "dataset_version",
               "model_name", "prompt_version", "retrieval_enabled", "llm_judge_enabled", "seed",
               "temperature", "dataset_fingerprint", "prompt_fingerprint", "config_fingerprint",
               "experiment_signature", "release_status", "status", "duration_ms", "avg_latency_ms",
               "p95_latency_ms", "token_in_est", "token_out_est", "cost_est_usd", "started_at",
               "completed_at", "aggregate_metrics", "gate_decision", "metadata"},
    "item_results" := {"id", "run_id", "item_id", "prompt", "output_text", "expected_answer", "keywords",
                       "error", "latency_ms", "token_in_est", "token_out_est", "schema_error",
                       "keyword_misses", "exact_match", "keyword_coverage", "schema_valid",
                       "llm_judge_score", "tags"},
    "run_tag_metrics" := {"id", "run_id", "tag_key", "tag_value", "exact_match", "keyword_coverage",
                          "schema_valid", "llm_judge_score", "sample_count"},
    "run_drift_alerts" := {"id", "run_id", "dataset_name", "dataset_version", "scope", "metric",
                           "severity", "delta", "threshold", "message", "created_at"}]

  /** Columns added to `runs` after its first release, with their DDL. */
  const RunsAdditive: Dict<string, string> := [
    ("temperature", "FLOAT DEFAULT 0.0"),
    ("dataset_fingerprint", "TEXT DEFAULT ''"),
    ("prompt_fingerprint", "TEXT DEFAULT ''"),
    ("config_fingerprint", "TEXT DEFAULT ''"),
    ("experiment_signature", "TEXT DEFAULT ''"),
    ("release_status", "TEXT DEFAULT 'BLOCKED'"),
    ("duration_ms", "FLOAT"),
    ("avg_latency_ms", "FLOAT"),
    ("p95_latency_ms", "FLOAT"),
    ("token_in_est", "INTEGER DEFAULT 0"),
    ("token_out_est", "INTEGER DEFAULT 0"),
    ("cost_est_usd", "FLOAT DEFAULT 0.0")]

  /** Columns added to `item_results` after its first release. */
  const ItemResultsAdditive: Dict<string, string> := [
    ("expected_answer", "TEXT"),
    ("keywords", "JSON DEFAULT '[]'"),
    ("latency_ms", "FLOAT"),
    ("token_in_est", "INTEGER"),
    ("token_out_est", "INTEGER"),
    ("schema_error", "TEXT"),
    ("keyword_misses", "JSON DEFAULT '[]'")]

  /** Both migration lists name each column once. */
  lemma AdditiveColumnsDistinct()
    ensures DistinctKeys(RunsAdditive) && DistinctKeys(ItemResultsAdditive)
  {
  }

  /** `create_all`: every declared table that does not exist is created
      with its declared columns; existing tables are left as they are. */
  function CreatedAll(tables: map<string, set<string>>): (t: map<string, set<string>>)
    ensures t.Keys == tables.Keys + Declared.Keys
    ensures forall n :: n in tables ==> t[n] == tables[n]
    ensures forall n :: n in Declared && n !in tables ==> t[n] == Declared[n]
  {
    map n | n in tables.Keys + Declared.Keys :: if n in tables then tables[n] else Declared[n]
  }

  /** The names of `columns` that `names` lacks, in declaration order: the
      `ALTER TABLE ... ADD COLUMN` statements `_ensure_columns` issues. */
  function MissingColumns(names: set<string>, columns: Dict<string, string>): (m: seq<string>)
    ensures |m| <= |columns|
    ensures forall c :: c in m <==> c in KeySet(columns) && c !in names
  {
    if columns == [] then []
    else
      var init, last := columns[..|columns| - 1], columns[|columns| - 1];
      KeySetAppend(init, [last]);
      KeySetSingleton(last);
      assert init + [last] == columns;
      MissingColumns(names, init) + (if last.0 in names then [] else [last.0])
  }

  /** Nothing is missing from a table that has every wanted column. */
  lemma {:induction false} NothingMissing(names: set<string>, columns: Dict<string, string>)
    requires KeySet(columns) <= names
    ensures MissingColumns(names, columns) == []
    decreases |columns|
  {
    if columns != [] {
      var init, last := columns[..|columns| - 1], columns[|columns| - 1];
      assert init + [last] == columns;
      KeySetAppend(init, [last]);
      KeySetSingleton(last);
      NothingMissing(names, init);
    }
  }

  /** One more column: its name joins the wanted set, and it is missing
      exactly when the table lacks it. */
  lemma ColumnsSnoc(names: set<string>, columns: Dict<string, string>, i: nat)
    requires i < |columns|
    ensures KeySet(columns[..i + 1]) == KeySet(columns[..i]) + {columns[i].0}
    ensures MissingColumns(names, columns[..i + 1])
            == MissingColumns(names, columns[..i]) + if columns[i].0 in names then [] else [columns[i].0]
  {
    assert columns[..i + 1][..i] == columns[..i] && columns[..i + 1][i] == columns[i];
    assert columns[..i + 1] == columns[..i] + [columns[i]];
    KeySetAppend(columns[..i], [columns[i]]);
    KeySetSingleton(columns[i]);
  }

  /** A second pass over the same columns finds nothing to add. */
  lemma EnsureColumnsIdempotent(names: set<string>, columns: Dict<string, string>)
    ensures MissingColumns(names + KeySet(columns), columns) == []
  {
    NothingMissing(names + KeySet(columns), columns);
  }

  /** A table after `_ensure_columns`: the wanted names are present. A
      table that does not exist is not created. */
  function Widened(tables: map<string, set<string>>, table: string, columns: Dict<string, string>)
    : (t: map<string, set<string>>)
    ensures t.Keys == tables.Keys
    ensures table in tables ==> KeySet(columns) <= t[table] && tables[table] <= t[table]
    ensures forall n :: n in tables && n != table ==> t[n] == tables[n]
  {
    if table in tables then tables[table := tables[table] + KeySet(columns)] else tables
  }

  /** The tables after `create_all` and the additive migrations. */
  function Migrated(tables: map<string, set<string>>): map<string, set<string>>
  {
    Widened(Widened(CreatedAll(tables), "runs", RunsAdditive), "item_results", ItemResultsAdditive)
  }

  lemma DeclaresMigratedTables()
    ensures "runs" in Declared && "item_results" in Declared
  {
  }

  /** Whatever file it starts from, the migrated store has every declared
      table and every additive column. */
  lemma MigratedHasAdditiveColumns(tables: map<string, set<string>>)
    ensures Declared.Keys <= Migrated(tables).Keys
    ensures KeySet(RunsAdditive) <= Migrated(tables)["runs"]
    ensures KeySet(ItemResultsAdditive) <= Migrated(tables)["item_results"]
  {
    DeclaresMigratedTables();
  }

  function UnsupportedVersion(v: int): string
  {
    "Unsupported DB schema version " + IntToString(v) + ". Expected <= " + IntToString(SchemaVersion) + "."
  }

  class Database {
    /** The column names of each existing table. */
    var tables: map<string, set<string>>
    /** `schema_version` of the metadata row with id 1, if the row exists. */
    var schemaVersion: Option<int>

    /** An existing database file, possibly empty. */
    constructor(tables: map<string, set<string>>, schemaVersion: Option<int>)
      ensures this.tables == tables && this.schemaVersion == schemaVersion
    {
      this.tables := tables;
      this.schemaVersion := schemaVersion;
    }

    /** `metadata.create_all` */
    method CreateAll()
      modifies this
      ensures tables == CreatedAll(old(tables))
      ensures schemaVersion == old(schemaVersion)
    {
      tables := CreatedAll(tables);
    }

    /** `_ensure_columns`: reads the table's column names once, then adds
        each column not among them, in one transaction. Issuing the first
        `ALTER TABLE` on a table that does not exist fails. */
    method EnsureColumns(table: string, columns: Dict<string, string>) returns (r: Result<seq<string>, string>)
      requires DistinctKeys(columns)
      modifies this
      ensures table !in old(tables) ==> tables == old(tables) && (r.Err? <==> columns != [])
      ensures table in old(tables) ==> r == Ok(MissingColumns(old(tables)[table], columns))
      ensures r.Ok? ==> tables == Widened(old(tables), table, columns)
      ensures schemaVersion == old(schemaVersion)
    {
      if table !in tables {
        if columns == [] {
          return Ok([]);
        }
        return Err("no such table: " + table);
      }
      var names := tables[table];
      var current := names;
      var added: seq<string> := [];
      var i := 0;
      assert KeySet(columns[..0]) == {};
      while i < |columns|
        invariant 0 <= i <= |columns|
        invariant added == MissingColumns(names, columns[..i])
        invariant current == names + KeySet(columns[..i])
        invariant tables == old(tables) && schemaVersion == old(schemaVersion)
      {
        var name := columns[i].0;
        ColumnsSnoc(names, columns, i);
        if name !in names {
          current := current + {name};
          added := added + [name];
        }
        i := i + 1;
      }
      assert columns[..i] == columns;
      assert current == tables[table] + KeySet(columns);
      tables := tables[table := current];
      r := Ok(added);
    }

    /** `_migrate_additive_columns`: `runs`, then `item_results`. */
    method MigrateAdditiveColumns() returns (r: Result<(), string>)
      modifies this
      ensures "runs" in old(tables) && "item_results" in old(tables) ==> r.Ok?
      ensures r.Ok? ==> tables == Widened(Widened(old(tables), "runs", RunsAdditive), "item_results", ItemResultsAdditive)
      ensures schemaVersion == old(schemaVersion)
    {
      AdditiveColumnsDistinct();
      var runs := EnsureColumns("runs", RunsAdditive);
      if runs.Err? {
        return Err(runs.error);
      }
      var items := EnsureColumns("item_results", ItemResultsAdditive);
      if items.Err? {
        return Err(items.error);
      }
      r := Ok(());
    }

    /** The tables part of `init_db`: `create_all`, then the additive
        migrations, which cannot fail once both tables exist. */
    method CreateAndMigrate()
      modifies this
      ensures tables == Migrated(old(tables))
      ensures schemaVersion == old(schemaVersion)
    {
      CreateAll();
      DeclaresMigratedTables();
      var migrated := MigrateAdditiveColumns();
      assert migrated.Ok?;
    }

    /** The version gate of `init_db`: with no metadata row the current
        version is recorded; a newer recorded version is refused; an older
        one is raised to the current one. */
    method GateSchemaVersion() returns (r: Result<(), string>)
      modifies this
      ensures r.Err? <==> old(schemaVersion).Some? && old(schemaVersion).value > SchemaVersion
      ensures r.Ok? ==> schemaVersion == Some(SchemaVersion)
      ensures r.Err? ==> schemaVersion == old(schemaVersion) && r.error == UnsupportedVersion(old(schemaVersion).value)
      ensures tables == old(tables)
    {
      if schemaVersion.None? {
        schemaVersion := Some(SchemaVersion);
        return Ok(());
      }
      var existing := schemaVersion.value;
      if existing > SchemaVersion {
        return Err(UnsupportedVersion(existing));
      }
      if existing < SchemaVersion {
        schemaVersion := Some(SchemaVersion);
      }
      r := Ok(());
    }

    /** `init_db`: create, migrate, then the version gate. */
    method InitDb() returns (r: Result<(), string>)
      modifies this
      ensures tables == Migrated(old(tables))
      ensures r.Err? <==> old(schemaVersion).Some? && old(schemaVersion).value > SchemaVersion
      ensures r.Ok? ==> schemaVersion == Some(SchemaVersion)
      ensures r.Err? ==> schemaVersion == old(schemaVersion) && r.error == UnsupportedVersion(old(schemaVersion).value)
    {
      CreateAndMigrate();
      r := GateSchemaVersion();
    }

    /** `get_schema_version` */
    function GetSchemaVersion(): (r: Result<int, string>)
      reads this
      ensures r.Ok? <==> schemaVersion.Some?
      ensures r.Ok? ==> r.value == schemaVersion.value
      ensures r.Err? ==> r.error == "Schema metadata not initialized."
    {
      if schemaVersion.None? then Err("Schema metadata not initialized.") else Ok(schemaVersion.value)
    }
  }

  /** `init_db` then a read of the version: after a successful init the
      recorded version is the current one, whatever the file held before;
      a newer file stops at `init_db`'s error, before any read, and keeps
      its version. */
  method InitThenRead(db: Database) returns (v: Result<int, string>)
    modifies db
    ensures old(db.schemaVersion).None? || old(db.schemaVersion).value <= SchemaVersion ==> v == Ok(SchemaVersion)
    ensures old(db.schemaVersion).Some? && old(db.schemaVersion).value > SchemaVersion ==>
      v == Err(UnsupportedVersion(old(db.schemaVersion).value)) && db.schemaVersion == old(db.schemaVersion)
  {
    var r := db.InitDb();
    if r.Err? {
      return Err(r.error);
    }
    v := db.GetSchemaVersion();
  }
}
