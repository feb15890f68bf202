/**
 * `ccpayroll/database/migration.py`: the upserts that write one pay period, one
 * employee or one timesheet field into the database, and the one-time copy of the
 * JSON files into an empty database.
 */
module Migration {
  import opened Wrappers
  import opened Values
  import opened Tables

  // ----- save_timesheet_entry -----

  /** The default `save_timesheet_entry` gives a column it inserts: 0 for the hour counts, '' otherwise. */
  function DefaultValue(c: string): Value
  {
    if c == "regular_hours" || c == "overtime_hours" then Int(0) else Text("")
  }

  /**
   * The row inserted for a key that has none: the key, the named field set to value and
   * every other column at its default. A field that is not one of the inserted columns
   * has nowhere to go and is dropped.
   */
  function NewEntry(k: EntryKey, field: string, value: Value): (e: Entry)
    ensures e.Keys == EntryColumns && KeyOf(e) == k
    ensures forall c :: c in DataColumns ==> e[c] == (if c == field then value else DefaultValue(c))
  {
    map c | c in EntryColumns ::
      if c == "period_id" then k.periodId
      else if c == "employee_name" then k.employeeName
      else if c == "day" then k.day
      else if c == field then value
      else DefaultValue(c)
  }

  /**
   * The table after `save_timesheet_entry(period_id, employee_name, day, field, value)`,
   * or None where the statement fails and changes nothing: an UPDATE of a column the
   * table does not have, or one that breaks the NOT NULL or UNIQUE constraints; an
   * INSERT with a NULL key. The UPDATE names its column in SQL, where names match
   * without regard to ASCII case; the INSERT looks the field up in a Python dict, where
   * they match exactly.
   */
  ghost function SaveEntryResult(entries: map<int, Entry>, nextRowId: int, k: EntryKey, field: string, value: Value)
    : Option<map<int, Entry>>
  {
    match EntryWithKey(entries, k)
    case Some(id) =>
      var e := entries[id][Lower(field) := value];
      if Lower(field) in EntryColumns && Fits(entries, id, e) then Some(entries[id := e]) else None
    case None =>
      if KeyNotNull(k) then Some(entries[nextRowId := NewEntry(k, field, value)]) else None
  }

  /** The constraints hold after every successful save: at most one row per key, no NULL key. */
  lemma SaveEntryKeepsConstraints(entries: map<int, Entry>, nextRowId: int, k: EntryKey, field: string, value: Value)
    requires EntriesValid(entries, nextRowId)
    requires SaveEntryResult(entries, nextRowId, k, field, value).Some?
    ensures EntriesValid(SaveEntryResult(entries, nextRowId, k, field, value).value,
                         if EntryWithKey(entries, k).Some? then nextRowId else nextRowId + 1)
  {
    var r := SaveEntryResult(entries, nextRowId, k, field, value).value;
    match EntryWithKey(entries, k)
    case Some(id) =>
      StoreKeepsConstraints(entries, nextRowId, id, entries[id][Lower(field) := value]);
    case None =>
      StoreKeepsConstraints(entries, nextRowId + 1, nextRowId, NewEntry(k, field, value));
  }

  /**
   * On an existing key the save changes only the named column (its name taken without
   * regard to case) of that one row; every other row, and every other column of the
   * row, keeps its value.
   */
  lemma SaveEntryUpdatesOneColumn(entries: map<int, Entry>, nextRowId: int, id: int, field: string, value: Value)
    requires EntriesValid(entries, nextRowId) && id in entries
    requires SaveEntryResult(entries, nextRowId, KeyOf(entries[id]), field, value).Some?
    ensures var r := SaveEntryResult(entries, nextRowId, KeyOf(entries[id]), field, value).value;
            r.Keys == entries.Keys
            && (forall j :: j in entries && j != id ==> r[j] == entries[j])
            && r[id].Keys == entries[id].Keys && r[id][Lower(field)] == value
            && (forall c :: c in entries[id] && c != Lower(field) ==> r[id][c] == entries[id][c])
  {
    var k := KeyOf(entries[id]);
    var chosen := EntryWithKey(entries, k);
    assert chosen == Some(id);
    assert Lower(field) in EntryColumns;
    assert entries[id].Keys == EntryColumns;
  }

  /**
   * On a new key the save inserts exactly one row under the next row id: the key, the
   * defaults, and the named field if it is one of the defaulted columns.
   */
  lemma SaveEntryInsertsDefaults(entries: map<int, Entry>, nextRowId: int, k: EntryKey, field: string, value: Value)
    requires EntriesValid(entries, nextRowId) && KeyNotNull(k)
    requires forall id :: id in entries ==> KeyOf(entries[id]) != k
    ensures var r := SaveEntryResult(entries, nextRowId, k, field, value);
            r.Some? && nextRowId !in entries && r.value.Keys == entries.Keys + {nextRowId}
            && (forall j :: j in entries ==> r.value[j] == entries[j])
            && KeyOf(r.value[nextRowId]) == k
            && (field in DataColumns ==> r.value[nextRowId][field] == value)
            && (forall c :: c in DataColumns && c != field ==> r.value[nextRowId][c] == DefaultValue(c))
  {
    assert EntryWithKey(entries, k).None?;
  }

  /**
   * `save_timesheet_entry(period_id, employee_name, day, field, value)`: SELECT the row
   * with that key, then UPDATE its one column or INSERT a new row. `ok` is false where
   * the database raises; the table is then unchanged.
   */
  method SaveTimesheetEntry(db: Database, periodId: Value, employeeName: Value, day: Value, field: string, value: Value)
    returns (ok: bool)
    requires db.Valid()
    modifies db
    ensures db.Valid()
    ensures db.payPeriods == old(db.payPeriods) && db.employees == old(db.employees)
    ensures var r := SaveEntryResult(old(db.entries), old(db.nextRowId), EntryKey(periodId, employeeName, day), field, value);
            ok == r.Some? && db.entries == (if ok then r.value else old(db.entries))
    ensures db.nextRowId == if ok && EntryWithKey(old(db.entries), EntryKey(periodId, employeeName, day)).None?
                            then old(db.nextRowId) + 1 else old(db.nextRowId)
  {
    var k := EntryKey(periodId, employeeName, day);
    var r, inserted := SaveEntryRows(db.entries, db.nextRowId, k, field, value);
    ok := r.Some?;
    if ok {
      SaveEntryKeepsConstraints(db.entries, db.nextRowId, k, field, value);
      db.entries := r.value;
      if inserted {
        db.nextRowId := db.nextRowId + 1;
      }
    }
  }

  /**
   * The rows of `timesheet_entries` after the SELECT and then the UPDATE or INSERT of
   * `save_timesheet_entry`; `inserted` tells which of the two ran.
   */
  method SaveEntryRows(entries: map<int, Entry>, nextRowId: int, k: EntryKey, field: string, value: Value)
    returns (r: Option<map<int, Entry>>, inserted: bool)
    requires EntriesValid(entries, nextRowId)
    ensures r == SaveEntryResult(entries, nextRowId, k, field, value)
    ensures inserted == EntryWithKey(entries, k).None?
  {
    if exists id :: id in entries && KeyOf(entries[id]) == k {
      var id :| id in entries && KeyOf(entries[id]) == k;
      var e := entries[id][Lower(field) := value];
      SaveOnExistingKey(entries, nextRowId, k, field, value, id);
      inserted := false;
      if Lower(field) in EntryColumns && Fits(entries, id, e) {
        r := Some(entries[id := e]);
      } else {
        r := None;
      }
    } else {
      SaveOnNewKey(entries, nextRowId, k, field, value);
      inserted := true;
      if KeyNotNull(k) {
        r := Some(entries[nextRowId := NewEntry(k, field, value)]);
      } else {
        r := None;
      }
    }
  }

  /** A key held by row id: the save is the UPDATE of that row, which fails where the row would not fit. */
  lemma SaveOnExistingKey(entries: map<int, Entry>, nextRowId: int, k: EntryKey, field: string, value: Value, id: int)
    requires EntriesValid(entries, nextRowId) && id in entries && KeyOf(entries[id]) == k
    ensures EntryWithKey(entries, k) == Some(id)
    ensures var e := entries[id][Lower(field) := value];
            SaveEntryResult(entries, nextRowId, k, field, value)
            == if Lower(field) in EntryColumns && Fits(entries, id, e) then Some(entries[id := e]) else None
  {
  }

  /** A key no row holds: the save is the INSERT, which fails on a NULL key. */
  lemma SaveOnNewKey(entries: map<int, Entry>, nextRowId: int, k: EntryKey, field: string, value: Value)
    requires forall id :: id in entries ==> KeyOf(entries[id]) != k
    ensures EntryWithKey(entries, k).None?
    ensures SaveEntryResult(entries, nextRowId, k, field, value)
            == if KeyNotNull(k) then Some(entries[nextRowId := NewEntry(k, field, value)]) else None
  {
  }

  // ----- save_pay_period -----

  /**
   * The `pay_periods` table after `save_pay_period(period_data)`, an INSERT OR REPLACE
   * on the id; None where it raises: a missing key (KeyError) or a NULL value.
   */
  function UpsertPeriod(periods: map<Value, PeriodRow>, data: Dict): (r: Option<map<Value, PeriodRow>>)
    ensures r.None? <==> (!("id" in data && "name" in data && "start_date" in data && "end_date" in data)
                          || data["id"] == Null || data["name"] == Null || data["start_date"] == Null || data["end_date"] == Null)
    ensures r.Some? ==> r.value.Keys == periods.Keys + {data["id"]}
    ensures r.Some? ==> r.value[data["id"]] == PeriodRow(data["name"], data["start_date"], data["end_date"])
    ensures r.Some? ==> forall k :: k in periods && k != data["id"] ==> r.value[k] == periods[k]
    ensures r.Some? && PeriodsValid(periods) ==> PeriodsValid(r.value)
  {
    if "id" in data && "name" in data && "start_date" in data && "end_date" in data
       && data["id"] != Null && data["name"] != Null && data["start_date"] != Null && data["end_date"] != Null
    then Some(periods[data["id"] := PeriodRow(data["name"], data["start_date"], data["end_date"])])
    else None
  }

  /** `save_pay_period(period_data)`. */
  method SavePayPeriod(db: Database, data: Dict) returns (ok: bool)
    requires db.Valid()
    modifies db
    ensures db.Valid()
    ensures db.employees == old(db.employees) && db.entries == old(db.entries) && db.nextRowId == old(db.nextRowId)
    ensures ok == UpsertPeriod(old(db.payPeriods), data).Some?
    ensures db.payPeriods == if ok then UpsertPeriod(old(db.payPeriods), data).value else old(db.payPeriods)
  {
    var r := UpsertPeriod(db.payPeriods, data);
    if r.Some? {
      db.payPeriods := r.value;
    }
    ok := r.Some?;
  }

  // ----- save_employee -----

  /** The row `save_employee` writes: the given values, with its defaults for the missing ones. */
  function EmployeeRowOf(data: Dict): EmployeeRow
    requires "name" in data
  {
    EmployeeRow(data["name"], Get(data, "rate", Null), Get(data, "install_crew", Int(0)),
                Get(data, "position", Text("none")), Get(data, "pay_type", Text("hourly")),
                Get(data, "salary", Null), Get(data, "commission_rate", Null))
  }

  /**
   * The `employees` table after `save_employee(employee_data)`, an INSERT OR REPLACE:
   * the rows that clash with the new one on the id or on the UNIQUE name are deleted,
   * then the new row is inserted. None where it raises: a missing id or name
   * (KeyError), or a NULL id or name.
   */
  function UpsertEmployee(employees: map<Value, EmployeeRow>, data: Dict): (r: Option<map<Value, EmployeeRow>>)
    ensures r.None? <==> !("id" in data && "name" in data) || data["id"] == Null || data["name"] == Null
    ensures r.Some? ==> data["id"] in r.value && r.value[data["id"]] == EmployeeRowOf(data)
    ensures r.Some? ==> forall k :: k in r.value && k != data["id"] ==> k in employees && r.value[k] == employees[k]
    ensures r.Some? ==> forall k :: k in employees ==>
              (k in r.value <==> k == data["id"] || employees[k].name != data["name"])
  {
    if "id" in data && "name" in data && data["id"] != Null && data["name"] != Null then
      var id, row := data["id"], EmployeeRowOf(data);
      var kept := map k | k in employees && k != id && employees[k].name != row.name :: employees[k];
      Some(kept[id := row])
    else None
  }

  /** Each save leaves at most one employee per name. */
  lemma UpsertEmployeeKeepsConstraints(employees: map<Value, EmployeeRow>, data: Dict)
    requires EmployeesValid(employees) && UpsertEmployee(employees, data).Some?
    ensures EmployeesValid(UpsertEmployee(employees, data).value)
  {
    var r := UpsertEmployee(employees, data).value;
    var id := data["id"];
    forall a, b | a in r && b in r && a != b
      ensures r[a].name != r[b].name
    {
      if a == id {
        assert b in employees && r[b] == employees[b];
      } else if b == id {
        assert a in employees && r[a] == employees[a];
      } else {
        assert r[a] == employees[a] && r[b] == employees[b];
      }
    }
  }

  /** The defaults of `save_employee`: install_crew 0, position 'none', pay_type 'hourly'. */
  lemma UpsertEmployeeDefaults(employees: map<Value, EmployeeRow>, data: Dict)
    requires "id" in data && "name" in data && data["id"] != Null && data["name"] != Null
    requires "install_crew" !in data && "position" !in data && "pay_type" !in data
    ensures var r := UpsertEmployee(employees, data).value[data["id"]];
            r.installCrew == Int(0) && r.position == Text("none") && r.payType == Text("hourly")
  {
  }

  /** `save_employee(employee_data)`. */
  method SaveEmployee(db: Database, data: Dict) returns (ok: bool)
    requires db.Valid()
    modifies db
    ensures db.Valid()
    ensures db.payPeriods == old(db.payPeriods) && db.entries == old(db.entries) && db.nextRowId == old(db.nextRowId)
    ensures ok == UpsertEmployee(old(db.employees), data).Some?
    ensures db.employees == if ok then UpsertEmployee(old(db.employees), data).value else old(db.employees)
  {
    var r := UpsertEmployee(db.employees, data);
    if r.Some? {
      UpsertEmployeeKeepsConstraints(db.employees, data);
      db.employees := r.value;
    }
    ok := r.Some?;
  }

  // ----- migrate_json_to_db -----

  /** A JSON file in the data folder: absent, present but unreadable, or decoded. */
  datatype JsonFile<T> = Missing | Unreadable | Loaded(content: T)

  /** A timesheet file: employee name to day to field to value, each object in its key order. */
  type FieldsJson = seq<(string, Value)>
  type DaysJson = seq<(string, FieldsJson)>
  type TimesheetJson = seq<(string, DaysJson)>

  /** One call `save_timesheet_entry(period_id, employee_name, day, field, value)`. */
  datatype Write = Write(periodId: Value, employeeName: Value, day: Value, field: string, value: Value)

  /** The writes for one day's fields: one per truthy value, in order. */
  function FieldWrites(p: Value, e: Value, d: Value, fs: FieldsJson): (ws: seq<Write>)
    ensures forall w :: w in ws ==> Truthy(w.value) && w.periodId == p && w.employeeName == e && w.day == d
    ensures forall w :: w in ws ==> exists i :: 0 <= i < |fs| && w.field == fs[i].0 && w.value == fs[i].1
    ensures forall i :: 0 <= i < |fs| && Truthy(fs[i].1) ==> Write(p, e, d, fs[i].0, fs[i].1) in ws
  {
    if fs == [] then []
    else (if Truthy(fs[0].1) then [Write(p, e, d, fs[0].0, fs[0].1)] else []) + FieldWrites(p, e, d, fs[1..])
  }

  /**
   * The writes of a list of fields are those of its parts, one after the other: with
   * FieldWritesOne, exactly one write per truthy field, in the fields' order.
   */
  lemma {:induction false} FieldWritesAppend(p: Value, e: Value, d: Value, fs: FieldsJson, gs: FieldsJson)
    ensures FieldWrites(p, e, d, fs + gs) == FieldWrites(p, e, d, fs) + FieldWrites(p, e, d, gs)
  {
    if fs == [] {
      assert fs + gs == gs;
    } else {
      assert (fs + gs)[1..] == fs[1..] + gs;
      FieldWritesAppend(p, e, d, fs[1..], gs);
    }
  }

  /** One field gives one write when its value is truthy and none otherwise. */
  lemma FieldWritesOne(p: Value, e: Value, d: Value, field: string, value: Value)
    ensures FieldWrites(p, e, d, [(field, value)]) == if Truthy(value) then [Write(p, e, d, field, value)] else []
  {
    assert [(field, value)][1..] == [];
  }

  /** The writes for one employee's days. */
  function DayWrites(p: Value, e: Value, ds: DaysJson): (ws: seq<Write>)
    ensures forall w :: w in ws ==> Truthy(w.value) && w.periodId == p && w.employeeName == e
    ensures forall w :: w in ws ==> exists i, j :: 0 <= i < |ds| && 0 <= j < |ds[i].1|
                                                && w == Write(p, e, Text(ds[i].0), ds[i].1[j].0, ds[i].1[j].1)
    ensures forall i, j :: 0 <= i < |ds| && 0 <= j < |ds[i].1| && Truthy(ds[i].1[j].1) ==>
              Write(p, e, Text(ds[i].0), ds[i].1[j].0, ds[i].1[j].1) in ws
  {
    if ds == [] then []
    else
      var rest := DayWrites(p, e, ds[1..]);
      assert forall i :: 1 <= i < |ds| ==> ds[i] == ds[1..][i - 1];
      FieldWrites(p, e, Text(ds[0].0), ds[0].1) + rest
  }

  /** The writes for one timesheet file, in the order the nested loops issue them. */
  function FileWrites(p: Value, ts: TimesheetJson): (ws: seq<Write>)
    ensures forall w :: w in ws ==> Truthy(w.value) && w.periodId == p
    ensures forall w :: w in ws ==>
              exists i, j, m :: 0 <= i < |ts| && 0 <= j < |ts[i].1| && 0 <= m < |ts[i].1[j].1|
                                && w == Write(p, Text(ts[i].0), Text(ts[i].1[j].0), ts[i].1[j].1[m].0, ts[i].1[j].1[m].1)
    ensures forall i, j, m ::
              (0 <= i < |ts| && 0 <= j < |ts[i].1| && 0 <= m < |ts[i].1[j].1| && Truthy(ts[i].1[j].1[m].1)) ==>
              Write(p, Text(ts[i].0), Text(ts[i].1[j].0), ts[i].1[j].1[m].0, ts[i].1[j].1[m].1) in ws
  {
    if ts == [] then []
    else
      var rest := FileWrites(p, ts[1..]);
      assert forall i :: 1 <= i < |ts| ==> ts[i] == ts[1..][i - 1];
      DayWrites(p, Text(ts[0].0), ts[0].1) + rest
  }

  /** A timesheet file holding only falsy values leaves the table and its counter as they were. */
  lemma FalsyFileChangesNothing(entries: map<int, Entry>, nextRowId: int, p: Value, ts: TimesheetJson)
    requires forall i, j, m :: 0 <= i < |ts| && 0 <= j < |ts[i].1| && 0 <= m < |ts[i].1[j].1| ==>
               !Truthy(ts[i].1[j].1[m].1)
    ensures ApplyWrites(entries, nextRowId, FileWrites(p, ts)) == (entries, nextRowId)
  {
    var ws := FileWrites(p, ts);
    assert forall w :: w in ws ==> false;
    assert forall k :: 0 <= k < |ws| ==> ws[k] in ws;
  }

  /** The names `migrate_json_to_db` takes for timesheet files. */
  predicate IsTimesheetFile(name: string)
  {
    "timesheet_" <= name && EndsWith(name, ".json")
  }

  /** `filename.replace('timesheet_', '').replace('.json', '')`. */
  function PeriodIdOf(name: string): string
  {
    ReplaceAll(ReplaceAll(name, "timesheet_", ""), ".json", "")
  }

  /** The file `timesheet_<id>.json` that `save_timesheet` writes names period id again, for ids such as uuid4 text. */
  lemma PeriodIdOfFileName(id: string)
    requires forall i :: 0 <= i < |id| ==> id[i] != '_' && id[i] != '.'
    ensures IsTimesheetFile("timesheet_" + id + ".json")
    ensures PeriodIdOf("timesheet_" + id + ".json") == id
  {
    var name := "timesheet_" + id + ".json";
    assert name == "timesheet_" + (id + ".json");
    ReplaceFront("timesheet_", id + ".json", "");
    assert ReplaceAll(name, "timesheet_", "") == ReplaceAll(id + ".json", "timesheet_", "");
    MissingCharNotContained(id + ".json", "timesheet_", 9);
    ReplaceAbsent(id + ".json", "timesheet_", "");
    RemoveSuffix(id, ".json");
    assert name[|name| - 5..] == ".json";
  }

  /** The table and row-id counter after one write, or None where it raises. */
  ghost function SaveEntry(entries: map<int, Entry>, nextRowId: int, w: Write): Option<(map<int, Entry>, int)>
  {
    var k := EntryKey(w.periodId, w.employeeName, w.day);
    match SaveEntryResult(entries, nextRowId, k, w.field, w.value)
    case None => None
    case Some(r) => Some((r, if EntryWithKey(entries, k).Some? then nextRowId else nextRowId + 1))
  }

  /**
   * The table and counter after the writes of one timesheet file: each write in order,
   * until the first one that raises, which ends the file's `try` block.
   */
  ghost function ApplyWrites(entries: map<int, Entry>, nextRowId: int, ws: seq<Write>): (map<int, Entry>, int)
    decreases ws
  {
    if ws == [] then (entries, nextRowId)
    else
      match SaveEntry(entries, nextRowId, ws[0])
      case None => (entries, nextRowId)
      case Some(s) => ApplyWrites(s.0, s.1, ws[1..])
  }

  /** How many of the writes are attempted: all of them, or up to and including the first that raises. */
  ghost function Attempted(entries: map<int, Entry>, nextRowId: int, ws: seq<Write>): (n: nat)
    ensures n <= |ws|
    ensures ws != [] ==> 1 <= n
    decreases ws
  {
    if ws == [] then 0
    else
      match SaveEntry(entries, nextRowId, ws[0])
      case None => 1
      case Some(s) => 1 + Attempted(s.0, s.1, ws[1..])
  }

  /**
   * The writes of one timesheet file, each a `save_timesheet_entry` call, until the
   * first one that raises; `written` lists the writes attempted.
   */
  method WriteAll(db: Database, ws: seq<Write>) returns (ghost written: seq<Write>)
    requires db.Valid()
    modifies db
    ensures db.Valid()
    ensures db.payPeriods == old(db.payPeriods) && db.employees == old(db.employees)
    ensures (db.entries, db.nextRowId) == ApplyWrites(old(db.entries), old(db.nextRowId), ws)
    ensures written == ws[..Attempted(old(db.entries), old(db.nextRowId), ws)]
  {
    written := [];
    var j := 0;
    while j < |ws|
      invariant db.Valid()
      invariant db.payPeriods == old(db.payPeriods) && db.employees == old(db.employees)
      invariant j <= |ws| && written == ws[..j]
      invariant ApplyWrites(db.entries, db.nextRowId, ws[j..]) == ApplyWrites(old(db.entries), old(db.nextRowId), ws)
      invariant j + Attempted(db.entries, db.nextRowId, ws[j..]) == Attempted(old(db.entries), old(db.nextRowId), ws)
    {
      var w := ws[j];
      WriteStep(db.entries, db.nextRowId, ws, j);
      ghost var entries0, nextRowId0 := db.entries, db.nextRowId;
      var ok := SaveTimesheetEntry(db, w.periodId, w.employeeName, w.day, w.field, w.value);
      SavedAsWrite(entries0, nextRowId0, w, ok, db.entries, db.nextRowId);
      PrefixGrows(ws, j);
      written := written + [w];
      if !ok {
        return;
      }
      j := j + 1;
    }
  }

  /** What `save_timesheet_entry` does with the fields of w is the step SaveEntry of w. */
  lemma SavedAsWrite(entries: map<int, Entry>, nextRowId: int, w: Write, ok: bool,
                     entries': map<int, Entry>, nextRowId': int)
    requires var r := SaveEntryResult(entries, nextRowId, EntryKey(w.periodId, w.employeeName, w.day), w.field, w.value);
             ok == r.Some? && entries' == (if ok then r.value else entries)
    requires nextRowId' == if ok && EntryWithKey(entries, EntryKey(w.periodId, w.employeeName, w.day)).None?
                           then nextRowId + 1 else nextRowId
    ensures SaveEntry(entries, nextRowId, w) == if ok then Some((entries', nextRowId')) else None
  {
  }

  /** The write ws[j] and the ones after it: it raises and ends the file, or the rest follow from its new table. */
  lemma WriteStep(entries: map<int, Entry>, nextRowId: int, ws: seq<Write>, j: int)
    requires 0 <= j < |ws|
    ensures SaveEntry(entries, nextRowId, ws[j]).None? ==>
              ApplyWrites(entries, nextRowId, ws[j..]) == (entries, nextRowId)
              && Attempted(entries, nextRowId, ws[j..]) == 1
    ensures SaveEntry(entries, nextRowId, ws[j]).Some? ==>
              var s := SaveEntry(entries, nextRowId, ws[j]).value;
              ApplyWrites(entries, nextRowId, ws[j..]) == ApplyWrites(s.0, s.1, ws[j + 1..])
              && Attempted(entries, nextRowId, ws[j..]) == 1 + Attempted(s.0, s.1, ws[j + 1..])
  {
    assert ws[j..][0] == ws[j] && ws[j..][1..] == ws[j + 1..];
  }

  /** The `pay_periods` table after saving the rows in order, until the first that raises. */
  function UpsertPeriods(periods: map<Value, PeriodRow>, rows: seq<Dict>): (r: map<Value, PeriodRow>)
    ensures PeriodsValid(periods) ==> PeriodsValid(r)
    ensures periods.Keys <= r.Keys
    decreases rows
  {
    if rows == [] then periods
    else
      match UpsertPeriod(periods, rows[0])
      case None => periods
      case Some(p) => UpsertPeriods(p, rows[1..])
  }

  /** The `employees` table after saving the rows in order, until the first that raises. */
  function UpsertEmployees(employees: map<Value, EmployeeRow>, rows: seq<Dict>): (r: map<Value, EmployeeRow>)
    ensures EmployeesValid(employees) ==> EmployeesValid(r)
    decreases rows
  {
    if rows == [] then employees
    else
      match UpsertEmployee(employees, rows[0])
      case None => employees
      case Some(e) =>
        assert EmployeesValid(employees) ==> EmployeesValid(e) by {
          if EmployeesValid(employees) {
            UpsertEmployeeKeepsConstraints(employees, rows[0]);
          }
        }
        UpsertEmployees(e, rows[1..])
  }

  /**
   * The timesheet table and counter after the files of the listing: every file named
   * `timesheet_<id>.json` that decodes contributes its truthy values; a file whose
   * writes raise stops only itself.
   */
  ghost function ApplyFiles(entries: map<int, Entry>, nextRowId: int, listing: seq<(string, JsonFile<TimesheetJson>)>)
    : (map<int, Entry>, int)
    decreases listing
  {
    if listing == [] then (entries, nextRowId)
    else
      var s := ApplyFile(entries, nextRowId, listing[0].0, listing[0].1);
      ApplyFiles(s.0, s.1, listing[1..])
  }

  /** The table and counter after one file of the listing: its writes when it is a loaded timesheet file. */
  ghost function ApplyFile(entries: map<int, Entry>, nextRowId: int, name: string, file: JsonFile<TimesheetJson>)
    : (map<int, Entry>, int)
  {
    if IsTimesheetFile(name) && file.Loaded?
    then ApplyWrites(entries, nextRowId, FileWrites(Text(PeriodIdOf(name)), file.content))
    else (entries, nextRowId)
  }

  /** The file listing[f] and the ones after it: its writes, when it is a loaded timesheet file, then the rest. */
  lemma FileStep(entries: map<int, Entry>, nextRowId: int, listing: seq<(string, JsonFile<TimesheetJson>)>, f: int)
    requires 0 <= f < |listing|
    ensures var s := ApplyFile(entries, nextRowId, listing[f].0, listing[f].1);
            ApplyFiles(entries, nextRowId, listing[f..]) == ApplyFiles(s.0, s.1, listing[f + 1..])
  {
    assert listing[f..][0] == listing[f] && listing[f..][1..] == listing[f + 1..];
  }

  /**
   * `migrate_json_to_db()`. The pay periods and employees files are copied row by row
   * until a row fails; then every timesheet file in `listing` (the folder's entries, in
   * the order the folder lists them) whose name is `timesheet_<id>.json`, writing only
   * truthy values. Nothing happens when either table already holds a row.
   */
  method MigrateJsonToDb(db: Database, periodsFile: JsonFile<seq<Dict>>, employeesFile: JsonFile<seq<Dict>>,
                         listing: seq<(string, JsonFile<TimesheetJson>)>)
    requires db.Valid()
    modifies db
    ensures db.Valid()
    ensures |old(db.payPeriods)| > 0 || |old(db.employees)| > 0 ==>
              db.payPeriods == old(db.payPeriods) && db.employees == old(db.employees)
              && db.entries == old(db.entries) && db.nextRowId == old(db.nextRowId)
    ensures |old(db.payPeriods)| == 0 && |old(db.employees)| == 0 ==>
              db.payPeriods == (if periodsFile.Loaded? then UpsertPeriods(map[], periodsFile.content) else map[])
              && db.employees == (if employeesFile.Loaded? then UpsertEmployees(map[], employeesFile.content) else map[])
              && (db.entries, db.nextRowId) == ApplyFiles(old(db.entries), old(db.nextRowId), listing)
  {
    if |db.payPeriods| > 0 || |db.employees| > 0 {
      return;
    }
    if periodsFile.Loaded? {
      MigratePeriods(db, periodsFile.content);
    }
    if employeesFile.Loaded? {
      MigrateEmployees(db, employeesFile.content);
    }
    MigrateTimesheets(db, listing);
  }

  /** The pay periods loop of `migrate_json_to_db`: one save per row, stopping at the first that raises. */
  method MigratePeriods(db: Database, rows: seq<Dict>)
    requires db.Valid()
    modifies db
    ensures db.Valid()
    ensures db.payPeriods == UpsertPeriods(old(db.payPeriods), rows)
    ensures db.employees == old(db.employees) && db.entries == old(db.entries) && db.nextRowId == old(db.nextRowId)
  {
    var i := 0;
    while i < |rows|
      invariant db.Valid() && i <= |rows|
      invariant UpsertPeriods(db.payPeriods, rows[i..]) == UpsertPeriods(old(db.payPeriods), rows)
      invariant db.employees == old(db.employees) && db.entries == old(db.entries) && db.nextRowId == old(db.nextRowId)
    {
      assert rows[i..][0] == rows[i] && rows[i..][1..] == rows[i + 1..];
      var ok := SavePayPeriod(db, rows[i]);
      if !ok {
        return;
      }
      i := i + 1;
    }
  }

  /** The employees loop of `migrate_json_to_db`: one save per row, stopping at the first that raises. */
  method MigrateEmployees(db: Database, rows: seq<Dict>)
    requires db.Valid()
    modifies db
    ensures db.Valid()
    ensures db.employees == UpsertEmployees(old(db.employees), rows)
    ensures db.payPeriods == old(db.payPeriods) && db.entries == old(db.entries) && db.nextRowId == old(db.nextRowId)
  {
    var i := 0;
    while i < |rows|
      invariant db.Valid() && i <= |rows|
      invariant UpsertEmployees(db.employees, rows[i..]) == UpsertEmployees(old(db.employees), rows)
      invariant db.payPeriods == old(db.payPeriods) && db.entries == old(db.entries) && db.nextRowId == old(db.nextRowId)
    {
      assert rows[i..][0] == rows[i] && rows[i..][1..] == rows[i + 1..];
      var ok := SaveEmployee(db, rows[i]);
      if !ok {
        return;
      }
      i := i + 1;
    }
  }

  /** One file of the timesheet loop of `migrate_json_to_db`: a loaded timesheet file's writes. */
  method MigrateFile(db: Database, name: string, file: JsonFile<TimesheetJson>)
    requires db.Valid()
    modifies db
    ensures db.Valid()
    ensures (db.entries, db.nextRowId) == ApplyFile(old(db.entries), old(db.nextRowId), name, file)
    ensures db.payPeriods == old(db.payPeriods) && db.employees == old(db.employees)
  {
    if IsTimesheetFile(name) && file.Loaded? {
      var ws := FileWrites(Text(PeriodIdOf(name)), file.content);
      var done := WriteAll(db, ws);
    }
  }

  /** The timesheet loop of `migrate_json_to_db`: each timesheet file of the listing, in order. */
  method MigrateTimesheets(db: Database, listing: seq<(string, JsonFile<TimesheetJson>)>)
    requires db.Valid()
    modifies db
    ensures db.Valid()
    ensures (db.entries, db.nextRowId) == ApplyFiles(old(db.entries), old(db.nextRowId), listing)
    ensures db.payPeriods == old(db.payPeriods) && db.employees == old(db.employees)
  {
    var f := 0;
    while f < |listing|
      invariant db.Valid() && f <= |listing|
      invariant ApplyFiles(db.entries, db.nextRowId, listing[f..]) == ApplyFiles(old(db.entries), old(db.nextRowId), listing)
      invariant db.payPeriods == old(db.payPeriods) && db.employees == old(db.employees)
    {
      FileStep(db.entries, db.nextRowId, listing, f);
      MigrateFile(db, listing[f].0, listing[f].1);
      f := f + 1;
    }
  }
}
