/**
 * The database set-up of `ccpayroll/database/__init__.py`: which URLs name PostgreSQL,
 * the file path of a SQLite URL, and the schema upgrade `init_db` performs on SQLite,
 * with the `employees` table as its set of columns and its rows.
 */
module Schema {
  import opened Values

  /** `is_postgres_url(url)`. */
  predicate IsPostgresUrl(url: string)
  {
    "postgres:" <= url || "postgresql:" <= url
  }

  /** Both schemes Heroku hands out name PostgreSQL, and no SQLite URL does. */
  lemma PostgresSchemes(rest: string)
    ensures IsPostgresUrl("postgres://" + rest) && IsPostgresUrl("postgresql://" + rest)
    ensures !IsPostgresUrl("sqlite:///" + rest)
    ensures !IsPostgresUrl("postgresq://" + rest)
  {
    assert "postgres:" <= "postgres://" + rest;
    assert "postgresql:" <= "postgresql://" + rest;
    assert ("sqlite:///" + rest)[0] == 's';
    assert ("postgresq://" + rest)[8] == 'q' && ("postgresq://" + rest)[9] == ':';
  }

  const SqlitePrefix := "sqlite:///"

  /** The longest prefix of s without a line break: what `.+` matches at the start of s. */
  function Line(s: string): (r: string)
    ensures r <= s && forall i :: 0 <= i < |r| ==> r[i] != '\n'
    ensures |r| < |s| ==> s[|r|] == '\n'
  {
    if s == [] || s[0] == '\n' then [] else [s[0]] + Line(s[1..])
  }

  /**
   * The path `get_db` opens for a SQLite URL: group 1 of `re.match(r'sqlite:///(.+)', url)`,
   * or where that does not match, the URL with every `sqlite:///` removed.
   */
  function SqlitePath(url: string): (path: string)
  {
    if SqlitePrefix <= url && |url| > |SqlitePrefix| && url[|SqlitePrefix|] != '\n' then
      Line(url[|SqlitePrefix|..])
    else
      ReplaceAll(url, SqlitePrefix, "")
  }

  /** A one-line path after `sqlite:///` is the path opened. */
  lemma SqlitePathOfUrl(p: string)
    requires p != "" && forall i :: 0 <= i < |p| ==> p[i] != '\n'
    ensures SqlitePath(SqlitePrefix + p) == p
  {
    var url := SqlitePrefix + p;
    assert url[|SqlitePrefix|..] == p;
    assert url[|SqlitePrefix|] == p[0];
    LineOfOneLine(p);
  }

  lemma {:induction false} LineOfOneLine(s: string)
    requires forall i :: 0 <= i < |s| ==> s[i] != '\n'
    ensures Line(s) == s
  {
    if s != [] {
      LineOfOneLine(s[1..]);
    }
  }

  /** A URL without a `/` is taken as the path itself. */
  lemma SqlitePathOfPlainFile(url: string)
    requires forall i :: 0 <= i < |url| ==> url[i] != '/'
    ensures SqlitePath(url) == url
  {
    assert |url| < 8 || url[7] != SqlitePrefix[7];
    MissingCharNotContained(url, SqlitePrefix, 7);
    ReplaceAbsent(url, SqlitePrefix, "");
  }

  // ----- init_db on SQLite -----

  /** The columns of `employees` as `CREATE TABLE employees` declares them. */
  const EmployeeColumns: set<string> :=
    {"id", "name", "rate", "install_crew", "position", "pay_type", "salary", "commission_rate"}

  /** The legacy columns the installer_role rebuild copies. */
  const CopiedColumns: set<string> := {"id", "name", "rate", "install_crew", "installer_role"}

  type Row = map<string, Value>

  /** A row of the rebuilt table: position takes installer_role, pay_type its default, salary and commission NULL. */
  function RebuiltRow(r: Row): (n: Row)
    requires CopiedColumns <= r.Keys
    ensures n.Keys == EmployeeColumns
  {
    map["id" := r["id"], "name" := r["name"], "rate" := r["rate"], "install_crew" := r["install_crew"],
        "position" := r["installer_role"], "pay_type" := Text("hourly"), "salary" := Null,
        "commission_rate" := Null]
  }

  /**
   * The copied rows fit `employees_new`: every name is non-NULL (`NOT NULL`), no two
   * names are equal (`UNIQUE`) and no two non-NULL ids are equal (`PRIMARY KEY`, which
   * SQLite lets hold NULLs). Otherwise the `INSERT INTO employees_new ... SELECT` raises.
   */
  predicate CopyFits(rows: seq<Row>)
    requires forall i :: 0 <= i < |rows| ==> CopiedColumns <= rows[i].Keys
  {
    (forall i :: 0 <= i < |rows| ==> rows[i]["name"] != Null)
    && (forall i, j :: 0 <= i < j < |rows| ==> rows[i]["name"] != rows[j]["name"])
    && (forall i, j :: 0 <= i < j < |rows| && rows[i]["id"] != Null ==> rows[i]["id"] != rows[j]["id"])
  }

  /** The schema before `init_db` needs the installer_role rebuild. */
  predicate NeedsRebuild(columns: set<string>)
  {
    "installer_role" in columns && "position" !in columns
  }

  /** The SQLite database's schema: the other tables by name, and the employees table. */
  class SqliteDatabase {
    /** Names of the tables other than `employees`. */
    var tables: set<string>
    /** What `PRAGMA table_info(employees)` lists; empty while the table does not exist. */
    var columns: set<string>
    var rows: seq<Row>

    ghost predicate Valid()
      reads this
    {
      (columns == {} ==> rows == []) && forall i :: 0 <= i < |rows| ==> rows[i].Keys == columns
    }

    /**
     * The schema `init_db` leaves: every table there, and employees with pay_type and without
     * installer_role-but-no-position; a table with neither installer_role nor position counts.
     */
    ghost predicate Upgraded()
      reads this
    {
      {"pay_periods", "timesheet_entries"} <= tables && "pay_type" in columns && !NeedsRebuild(columns)
    }

    /** A database file that does not exist yet: no tables. */
    constructor ()
      ensures Valid() && tables == {} && columns == {} && rows == []
    {
      tables, columns, rows := {}, {}, [];
    }

    /**
     * `ALTER TABLE employees ADD COLUMN c DEFAULT d`: every row gets d in the new column.
     * It fails, changing nothing, when the column exists.
     */
    method AddColumn(c: string, default: Value) returns (ok: bool)
      requires Valid() && columns != {}
      modifies this
      ensures Valid() && tables == old(tables)
      ensures ok <==> c !in old(columns)
      ensures ok ==> columns == old(columns) + {c} && |rows| == |old(rows)|
                     && forall i :: 0 <= i < |rows| ==> rows[i] == old(rows)[i][c := default]
      ensures !ok ==> columns == old(columns) && rows == old(rows)
    {
      if c in columns {
        return false;
      }
      columns := columns + {c};
      var prior := rows;
      rows := seq(|prior|, i requires 0 <= i < |prior| => prior[i][c := default]);
      return true;
    }

    /**
     * `init_db()` on SQLite. The statements run in order and each table change is
     * committed as it runs, so a statement that raises ends the call (`ok` false) with
     * the changes before it kept. On success the schema is `Upgraded`.
     */
    method InitDb() returns (ok: bool)
      requires Valid()
      modifies this
      ensures Valid()
      ensures "pay_periods" in tables
      ensures ok ==> Upgraded()
      // no employees table: it is created with the full schema
      ensures old(columns) == {} ==> ok && columns == EmployeeColumns && rows == []
      // installer_role without position: the table is rebuilt from the copied columns
      ensures NeedsRebuild(old(columns)) ==>
                (ok <==> "employees_new" !in old(tables) && CopiedColumns <= old(columns) && CopyFits(old(rows)))
                && (ok ==> columns == EmployeeColumns && |rows| == |old(rows)|
                           && forall i :: 0 <= i < |rows| ==> rows[i] == RebuiltRow(old(rows)[i]))
                && (!ok ==> columns == old(columns) && rows == old(rows))
                && ("employees_new" !in old(tables) && CopiedColumns <= old(columns) && !CopyFits(old(rows)) ==>
                      tables == old(tables) + {"pay_periods", "employees_new"})
      // no pay_type: pay_type, salary and commission_rate are added, the other columns kept
      ensures old(columns) != {} && !NeedsRebuild(old(columns)) && "pay_type" !in old(columns) ==>
                (ok <==> "salary" !in old(columns) && "commission_rate" !in old(columns))
                && (ok ==> columns == old(columns) + {"pay_type", "salary", "commission_rate"}
                           && |rows| == |old(rows)|
                           && forall i :: 0 <= i < |rows| ==>
                                rows[i] == old(rows)[i]["pay_type" := Text("hourly")]["salary" := Null]["commission_rate" := Null])
                && (!ok ==> "pay_type" in columns)
      // otherwise employees is left as it is
      ensures old(columns) != {} && !NeedsRebuild(old(columns)) && "pay_type" in old(columns) ==>
                ok && columns == old(columns) && rows == old(rows)
      ensures ok ==> tables == old(tables) + {"pay_periods", "timesheet_entries"}
      // a second run on the schema it produces changes nothing
      ensures old(Upgraded()) ==> ok && tables == old(tables) && columns == old(columns) && rows == old(rows)
    {
      tables := tables + {"pay_periods"};
      if columns == {} {
        columns := EmployeeColumns;
      } else if NeedsRebuild(columns) {
        if "employees_new" in tables {
          // CREATE TABLE employees_new: the table already exists
          return false;
        }
        tables := tables + {"employees_new"};
        if !(CopiedColumns <= columns) {
          // INSERT ... SELECT names a column the old table lacks
          return false;
        }
        if !CopyFits(rows) {
          // INSERT ... SELECT breaks NOT NULL, UNIQUE or PRIMARY KEY; employees_new stays behind
          return false;
        }
        var prior := rows;
        var copied := seq(|prior|, i requires 0 <= i < |prior| => RebuiltRow(prior[i]));
        // DROP TABLE employees; ALTER TABLE employees_new RENAME TO employees
        tables := tables - {"employees_new"};
        columns, rows := EmployeeColumns, copied;
      } else if "pay_type" !in columns {
        var added := AddColumn("pay_type", Text("hourly"));
        assert added;
        added := AddColumn("salary", Null);
        if !added {
          return false;
        }
        added := AddColumn("commission_rate", Null);
        if !added {
          return false;
        }
      }
      tables := tables + {"timesheet_entries"};
      return true;
    }
  }
}
