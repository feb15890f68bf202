/**
 * `ccpayroll/models/timesheet_entry.py`: one day's work of one employee, its dictionary
 * form, and how it saves itself to, and deletes itself from, `timesheet_entries`.
 */
module TimesheetEntries {
  import opened Wrappers
  import opened Values
  import opened Sums
  import opened Tables

  /** The values of a timesheet entry; `id` is NULL (Python None) until the entry is saved. */
  datatype EntryRecord = EntryRecord(
    periodId: Value,
    employeeName: Value,
    day: Value,
    hours: Value,
    pay: Value,
    projectName: Value,
    installDays: Value,
    install: Value,
    id: Value)

  /** `to_dict()`. */
  function ToDict(r: EntryRecord): (d: Dict)
    ensures d.Keys == {"id", "period_id", "employee_name", "day", "hours", "pay", "project_name", "install_days", "install"}
  {
    map["id" := r.id, "period_id" := r.periodId, "employee_name" := r.employeeName, "day" := r.day,
        "hours" := r.hours, "pay" := r.pay, "project_name" := r.projectName,
        "install_days" := r.installDays, "install" := r.install]
  }

  /**
   * `from_dict(data)`: None where a required key is missing (KeyError); the optional text
   * fields default to '' and the id to None.
   */
  function FromDict(d: Dict): (r: Option<EntryRecord>)
    ensures r.None? <==> "period_id" !in d || "employee_name" !in d || "day" !in d
    ensures r.Some? ==> r.value.periodId == d["period_id"] && r.value.employeeName == d["employee_name"] && r.value.day == d["day"]
    ensures r.Some? && "hours" !in d ==> r.value.hours == Text("")
    ensures r.Some? && "pay" !in d ==> r.value.pay == Text("")
    ensures r.Some? && "project_name" !in d ==> r.value.projectName == Text("")
    ensures r.Some? && "install_days" !in d ==> r.value.installDays == Text("")
    ensures r.Some? && "install" !in d ==> r.value.install == Text("")
    ensures r.Some? && "id" !in d ==> r.value.id == Null
    ensures r.Some? ==> ("hours" in d ==> r.value.hours == d["hours"]) && ("pay" in d ==> r.value.pay == d["pay"])
                        && ("project_name" in d ==> r.value.projectName == d["project_name"])
                        && ("install_days" in d ==> r.value.installDays == d["install_days"])
                        && ("install" in d ==> r.value.install == d["install"]) && ("id" in d ==> r.value.id == d["id"])
  {
    if "period_id" in d && "employee_name" in d && "day" in d then
      Some(EntryRecord(d["period_id"], d["employee_name"], d["day"], Get(d, "hours", Text("")),
                       Get(d, "pay", Text("")), Get(d, "project_name", Text("")),
                       Get(d, "install_days", Text("")), Get(d, "install", Text("")), Get(d, "id", Null)))
    else None
  }

  /** `from_dict(to_dict(e)) == e`. */
  lemma DictRoundTrip(r: EntryRecord)
    ensures FromDict(ToDict(r)) == Some(r)
  {
  }

  /** The eight columns `save` writes, from the entry's values. */
  function SavedColumns(r: EntryRecord): (cols: map<string, Value>)
    ensures cols.Keys == KeyColumns + {"hours", "pay", "project_name", "install_days", "install"}
  {
    map["period_id" := r.periodId, "employee_name" := r.employeeName, "day" := r.day, "hours" := r.hours,
        "pay" := r.pay, "project_name" := r.projectName, "install_days" := r.installDays, "install" := r.install]
  }

  /** The row the INSERT of `save` creates: the eight columns, the four others NULL. */
  function InsertedRow(r: EntryRecord): (e: Entry)
    ensures e.Keys == EntryColumns && KeyOf(e) == EntryKey(r.periodId, r.employeeName, r.day)
  {
    map c | c in EntryColumns :: if c in SavedColumns(r) then SavedColumns(r)[c] else Null
  }

  /** The row the UPDATE of `save` leaves: the eight columns overwritten, the four others kept. */
  function UpdatedRow(prior: Entry, r: EntryRecord): (e: Entry)
    ensures e.Keys == prior.Keys + SavedColumns(r).Keys && KeyOf(e) == EntryKey(r.periodId, r.employeeName, r.day)
  {
    prior + SavedColumns(r)
  }

  /** An updated row has every saved column from the entry and every other column from the old row. */
  lemma UpdatedRowColumns(prior: Entry, r: EntryRecord)
    requires prior.Keys == EntryColumns
    ensures UpdatedRow(prior, r).Keys == EntryColumns
    ensures forall c :: c in SavedColumns(r) ==> UpdatedRow(prior, r)[c] == SavedColumns(r)[c]
    ensures forall c :: c in EntryColumns - SavedColumns(r).Keys ==> UpdatedRow(prior, r)[c] == prior[c]
  {
    assert SavedColumns(r).Keys <= EntryColumns;
  }

  /** The columns `save` leaves alone are the four that `migrate_db.py` added. */
  lemma KeptColumns(r: EntryRecord)
    ensures EntryColumns - SavedColumns(r).Keys == {"regular_hours", "overtime_hours", "job_name", "notes"}
  {
  }

  /**
   * The row id an integer value names. SQLite's `WHERE id = ?` would also match text
   * such as '5' or the real 5.0 against row 5, by the column's INTEGER affinity; that
   * conversion is not modelled, so only an integer names a row here.
   */
  function RowIdOf(v: Value): Option<int>
  {
    if v.Int? then Some(v.i) else None
  }

  /** A timesheet entry object; `save` fills in its id. */
  class TimesheetEntry {
    var periodId: Value
    var employeeName: Value
    var day: Value
    var hours: Value
    var pay: Value
    var projectName: Value
    var installDays: Value
    var install: Value
    var id: Value

    function Record(): EntryRecord
      reads this
    {
      EntryRecord(periodId, employeeName, day, hours, pay, projectName, installDays, install, id)
    }

    /** `TimesheetEntry(...)`, or `TimesheetEntry.from_dict(data)` once the dictionary is decoded. */
    constructor (r: EntryRecord)
      ensures Record() == r
    {
      periodId, employeeName, day := r.periodId, r.employeeName, r.day;
      hours, pay, projectName, installDays, install := r.hours, r.pay, r.projectName, r.installDays, r.install;
      id := r.id;
    }

    /**
     * `save()`: with no id, INSERT the entry and take the new row's id; with an id, UPDATE
     * the eight columns of the row with that id, if there is one. `ok` is false where the
     * database raises (a NULL key or a key another row has); then nothing changes.
     */
    method Save(db: Database) returns (ok: bool)
      requires db.Valid()
      modifies this, db
      ensures db.Valid()
      ensures db.payPeriods == old(db.payPeriods) && db.employees == old(db.employees)
      ensures Record() == old(Record()).(id := id)
      ensures old(id) == Null ==>
                var row := InsertedRow(old(Record()));
                (ok <==> Fits(old(db.entries), old(db.nextRowId), row))
                && (ok ==> db.entries == old(db.entries)[old(db.nextRowId) := row] && id == Int(old(db.nextRowId))
                           && db.nextRowId == old(db.nextRowId) + 1 && old(db.nextRowId) !in old(db.entries))
                && (!ok ==> db.entries == old(db.entries) && id == Null && db.nextRowId == old(db.nextRowId))
      ensures old(id) != Null ==> id == old(id) && db.nextRowId == old(db.nextRowId)
      ensures old(id) != Null && (RowIdOf(old(id)).None? || RowIdOf(old(id)).value !in old(db.entries)) ==>
                ok && db.entries == old(db.entries)
      ensures old(id) != Null && RowIdOf(old(id)).Some? && RowIdOf(old(id)).value in old(db.entries) ==>
                var i := RowIdOf(old(id)).value;
                var row := UpdatedRow(old(db.entries)[i], old(Record()));
                (ok <==> Fits(old(db.entries), i, row))
                && db.entries == (if ok then old(db.entries)[i := row] else old(db.entries))
    {
      if id == Null {
        ok := Insert(db);
      } else {
        ok := Update(db);
      }
    }

    /** The INSERT branch of `save()`: the new row takes the next row id, unless it breaks a constraint. */
    method Insert(db: Database) returns (ok: bool)
      requires db.Valid() && id == Null
      modifies this, db
      ensures db.Valid()
      ensures db.payPeriods == old(db.payPeriods) && db.employees == old(db.employees)
      ensures Record() == old(Record()).(id := id)
      ensures var row := InsertedRow(old(Record()));
              (ok <==> Fits(old(db.entries), old(db.nextRowId), row))
              && (ok ==> db.entries == old(db.entries)[old(db.nextRowId) := row] && id == Int(old(db.nextRowId))
                         && db.nextRowId == old(db.nextRowId) + 1 && old(db.nextRowId) !in old(db.entries))
              && (!ok ==> db.entries == old(db.entries) && id == Null && db.nextRowId == old(db.nextRowId))
    {
      var row := InsertedRow(Record());
      if Fits(db.entries, db.nextRowId, row) {
        StoreKeepsConstraints(db.entries, db.nextRowId + 1, db.nextRowId, row);
        db.entries := db.entries[db.nextRowId := row];
        id := Int(db.nextRowId);
        db.nextRowId := db.nextRowId + 1;
        ok := true;
      } else {
        ok := false;
      }
    }

    /** The UPDATE branch of `save()`: the row with this id, if any, takes the entry's columns. */
    method Update(db: Database) returns (ok: bool)
      requires db.Valid() && id != Null
      modifies db
      ensures db.Valid()
      ensures db.payPeriods == old(db.payPeriods) && db.employees == old(db.employees)
      ensures db.nextRowId == old(db.nextRowId)
      ensures RowIdOf(id).None? || RowIdOf(id).value !in old(db.entries) ==> ok && db.entries == old(db.entries)
      ensures RowIdOf(id).Some? && RowIdOf(id).value in old(db.entries) ==>
                var i := RowIdOf(id).value;
                var row := UpdatedRow(old(db.entries)[i], Record());
                (ok <==> Fits(old(db.entries), i, row))
                && db.entries == (if ok then old(db.entries)[i := row] else old(db.entries))
    {
      var rowId := RowIdOf(id);
      if rowId.Some? && rowId.value in db.entries {
        var i := rowId.value;
        var row := UpdatedRow(db.entries[i], Record());
        UpdatedRowColumns(db.entries[i], Record());
        if Fits(db.entries, i, row) {
          StoreKeepsConstraints(db.entries, db.nextRowId, i, row);
          db.entries := db.entries[i := row];
          ok := true;
        } else {
          ok := false;
        }
      } else {
        // UPDATE ... WHERE id = ? matches no row
        ok := true;
      }
    }

    /** `delete()`: removes exactly the row with this entry's id, if there is one. */
    method Delete(db: Database)
      requires db.Valid()
      modifies db
      ensures db.Valid()
      ensures db.payPeriods == old(db.payPeriods) && db.employees == old(db.employees) && db.nextRowId == old(db.nextRowId)
      ensures db.entries == if RowIdOf(id).Some? then old(db.entries) - {RowIdOf(id).value} else old(db.entries)
    {
      var rowId := RowIdOf(id);
      if rowId.Some? {
        db.entries := db.entries - {rowId.value};
      }
    }
  }

  // ----- get_total_hours_for_period -----

  /** `CAST(hours AS REAL)` of a row; a NULL is skipped by SUM, which is adding 0. */
  function RowHours(e: Entry, cv: Conversions): real
  {
    CastReal(Column(e, "hours"), cv).GetOr(0.0)
  }

  function HoursOf(cv: Conversions): Entry -> real
  {
    (e: Entry) => RowHours(e, cv)
  }

  /** The rows `WHERE period_id = ? AND employee_name = ?` selects; `= NULL` selects none. */
  function Matching(entries: map<int, Entry>, periodId: Value, employeeName: Value): (ids: set<int>)
    ensures ids <= entries.Keys
    ensures periodId == Null || employeeName == Null ==> ids == {}
  {
    set id | id in entries && periodId != Null && employeeName != Null
                           && Column(entries[id], "period_id") == periodId
                           && Column(entries[id], "employee_name") == employeeName
  }

  /**
   * `get_total_hours_for_period(period_id, employee_id)`: the SUM of the hours of the
   * employee's rows in the period, visiting them in whatever order the database chooses;
   * 0.0 when there are none.
   */
  method GetTotalHoursForPeriod(db: Database, periodId: Value, employeeName: Value, cv: Conversions)
    returns (total: real)
    requires db.Valid()
    ensures total == SumKeys(db.entries, Matching(db.entries, periodId, employeeName), HoursOf(cv))
  {
    var keys := Matching(db.entries, periodId, employeeName);
    var rest := keys;
    total := 0.0;
    while rest != {}
      invariant rest <= keys
      invariant total + SumKeys(db.entries, rest, HoursOf(cv)) == SumKeys(db.entries, keys, HoursOf(cv))
      decreases |rest|
    {
      var id := PickOne(rest);
      SumKeysRemove(db.entries, rest, HoursOf(cv), id);
      total := total + RowHours(db.entries[id], cv);
      rest := rest - {id};
    }
  }

  /** With no rows, or no non-NULL hours among them, the total is 0.0. */
  lemma NoHoursTotalZero(entries: map<int, Entry>, periodId: Value, employeeName: Value, cv: Conversions)
    requires forall id :: id in Matching(entries, periodId, employeeName) ==> Column(entries[id], "hours") == Null
    ensures SumKeys(entries, Matching(entries, periodId, employeeName), HoursOf(cv)) == 0.0
  {
    var ids := Matching(entries, periodId, employeeName);
    forall id | id in ids
      ensures HoursOf(cv)(entries[id]) == 0.0
    {
      assert RowHours(entries[id], cv) == 0.0;
    }
    SumKeysZero(entries, ids, HoursOf(cv));
  }
}
