/**
 * The SQLite database the application keeps its records in, as created by
 * `init_db` in `ccpayroll/database/__init__.py`: three tables held as maps from their
 * primary key to their rows, with the constraints the schema declares.
 */
module Tables {
  import opened Wrappers
  import opened Values

  /** A row of `pay_periods`, without its `id` primary key; every column is NOT NULL. */
  datatype PeriodRow = PeriodRow(name: Value, startDate: Value, endDate: Value)

  /** A row of `employees`, without its `id` primary key; `name` is NOT NULL UNIQUE. */
  datatype EmployeeRow = EmployeeRow(
    name: Value,
    rate: Value,
    installCrew: Value,
    position: Value,
    payType: Value,
    salary: Value,
    commissionRate: Value)

  /** A row of `timesheet_entries` without its INTEGER PRIMARY KEY: column name to value. */
  type Entry = map<string, Value>

  /** The three NOT NULL columns that are UNIQUE together. */
  const KeyColumns: set<string> := {"period_id", "employee_name", "day"}

  /** The columns `save_timesheet_entry` gives a default value when it inserts. */
  const DataColumns: set<string> :=
    {"hours", "pay", "project_name", "install_days", "install", "regular_hours", "overtime_hours", "job_name", "notes"}

  /** Every column of `timesheet_entries` except `id`. */
  const EntryColumns: set<string> := KeyColumns + DataColumns

  /** The value of `(period_id, employee_name, day)` in a row. */
  datatype EntryKey = EntryKey(periodId: Value, employeeName: Value, day: Value)

  function Column(e: Entry, c: string): Value
  {
    if c in e then e[c] else Null
  }

  function KeyOf(e: Entry): EntryKey
  {
    EntryKey(Column(e, "period_id"), Column(e, "employee_name"), Column(e, "day"))
  }

  /** None of the key's columns is NULL. */
  predicate KeyNotNull(k: EntryKey)
  {
    k.periodId != Null && k.employeeName != Null && k.day != Null
  }

  /** A row has exactly the table's columns and satisfies the NOT NULL constraints. */
  predicate WellFormedEntry(e: Entry)
  {
    e.Keys == EntryColumns && KeyNotNull(KeyOf(e))
  }

  /** UNIQUE (period_id, employee_name, day): no two rows share a key. */
  predicate KeysUnique(entries: map<int, Entry>)
  {
    forall a, b :: a in entries && b in entries && a != b ==> KeyOf(entries[a]) != KeyOf(entries[b])
  }

  /** Row e may be stored under id: it is well formed and its key is not another row's. */
  predicate Fits(entries: map<int, Entry>, id: int, e: Entry)
  {
    WellFormedEntry(e) && forall b :: b in entries && b != id ==> KeyOf(entries[b]) != KeyOf(e)
  }

  /** The constraints on `timesheet_entries`, and AUTOINCREMENT's next row id above every row id. */
  predicate EntriesValid(entries: map<int, Entry>, nextRowId: int)
  {
    (forall id :: id in entries ==> 0 < id < nextRowId && WellFormedEntry(entries[id]))
    && KeysUnique(entries) && 0 < nextRowId
  }

  /** The constraints on `employees`: a non-NULL id and name, and no name twice. */
  predicate EmployeesValid(employees: map<Value, EmployeeRow>)
  {
    (forall id :: id in employees ==> id != Null && employees[id].name != Null)
    && forall a, b :: a in employees && b in employees && a != b ==> employees[a].name != employees[b].name
  }

  /** The constraints on `pay_periods`: non-NULL values throughout. */
  predicate PeriodsValid(payPeriods: map<Value, PeriodRow>)
  {
    forall id :: id in payPeriods ==>
      id != Null && payPeriods[id].name != Null && payPeriods[id].startDate != Null && payPeriods[id].endDate != Null
  }

  /** The row id holding key k, if any; it is unique while the keys are. */
  ghost function EntryWithKey(entries: map<int, Entry>, k: EntryKey): (r: Option<int>)
    ensures r.Some? ==> r.value in entries && KeyOf(entries[r.value]) == k
    ensures r.None? ==> forall id :: id in entries ==> KeyOf(entries[id]) != k
  {
    if exists id :: id in entries && KeyOf(entries[id]) == k then
      var id :| id in entries && KeyOf(entries[id]) == k;
      Some(id)
    else None
  }

  /** Storing a row keeps the table's constraints exactly when the row fits under its id. */
  lemma StoreKeepsConstraints(entries: map<int, Entry>, nextRowId: int, id: int, e: Entry)
    requires EntriesValid(entries, nextRowId) && 0 < id < nextRowId && Fits(entries, id, e)
    ensures EntriesValid(entries[id := e], nextRowId)
  {
    var r := entries[id := e];
    forall a, b | a in r && b in r && a != b
      ensures KeyOf(r[a]) != KeyOf(r[b])
    {
      if a != id && b != id {
        assert r[a] == entries[a] && r[b] == entries[b];
      }
    }
  }

  /** Some element of a non-empty set: the row the database visits next, in an order the
   * model leaves open. */
  method PickOne<K>(s: set<K>) returns (x: K)
    requires s != {}
    ensures x in s
  {
    x :| x in s;
  }

  /** The database: its three tables and AUTOINCREMENT's counter. */
  class Database {
    var payPeriods: map<Value, PeriodRow>
    var employees: map<Value, EmployeeRow>
    var entries: map<int, Entry>
    var nextRowId: int

    ghost predicate Valid()
      reads this
    {
      PeriodsValid(payPeriods) && EmployeesValid(employees) && EntriesValid(entries, nextRowId)
    }

    /** A freshly created database: every table empty. */
    constructor ()
      ensures Valid()
      ensures payPeriods == map[] && employees == map[] && entries == map[]
    {
      payPeriods, employees, entries := map[], map[], map[];
      nextRowId := 1;
    }
  }
}
