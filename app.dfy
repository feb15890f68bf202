/**
 * The JSON-file version of the application in `app.py`: the upload file-name check, and
 * the routes that add and delete employees and pay periods and update one timesheet
 * cell, with the JSON files held in memory by `JsonStore`.
 */
module App {
  import opened Wrappers
  import opened Values
  import opened Dates

  // ----- allowed_file -----

  /** `filename.rsplit('.', 1)[1]`: the text after the last '.', or None without a '.'. */
  function AfterLastDot(f: string): Option<string>
  {
    if f == [] then None
    else if f[|f| - 1] == '.' then Some([])
    else
      match AfterLastDot(f[..|f| - 1])
      case None => None
      case Some(t) => Some(t + [f[|f| - 1]])
  }

  const AllowedExtensions: set<string> := {"xlsx", "xls"}

  /** `allowed_file(filename)`. */
  predicate AllowedFile(f: string)
  {
    var ext := AfterLastDot(f);
    ext.Some? && Lower(ext.value) in AllowedExtensions
  }

  /** The extension is the text after the one '.' that has no '.' after it. */
  lemma {:induction false} AfterLastDotAt(f: string, i: nat)
    requires i < |f| && f[i] == '.' && forall j :: i < j < |f| ==> f[j] != '.'
    ensures AfterLastDot(f) == Some(f[i + 1..])
    decreases |f|
  {
    if i < |f| - 1 {
      AfterLastDotAt(f[..|f| - 1], i);
      assert f[..|f| - 1][i + 1..] + [f[|f| - 1]] == f[i + 1..];
    }
  }

  /** Without a '.' there is no extension. */
  lemma {:induction false} AfterLastDotNone(f: string)
    requires forall j :: 0 <= j < |f| ==> f[j] != '.'
    ensures AfterLastDot(f) == None
    decreases |f|
  {
    if f != [] {
      AfterLastDotNone(f[..|f| - 1]);
    }
  }

  /**
   * A name is accepted exactly when it has a '.' and the text after its last '.', in
   * lower case, is xlsx or xls.
   */
  lemma AllowedFileIff(f: string)
    ensures (forall j :: 0 <= j < |f| ==> f[j] != '.') ==> !AllowedFile(f)
    ensures forall i :: 0 <= i < |f| && f[i] == '.' && (forall j :: i < j < |f| ==> f[j] != '.') ==>
              (AllowedFile(f) <==> Lower(f[i + 1..]) in AllowedExtensions)
  {
    if forall j :: 0 <= j < |f| ==> f[j] != '.' {
      AfterLastDotNone(f);
    }
    forall i | 0 <= i < |f| && f[i] == '.' && (forall j :: i < j < |f| ==> f[j] != '.')
      ensures AllowedFile(f) <==> Lower(f[i + 1..]) in AllowedExtensions
    {
      AfterLastDotAt(f, i);
    }
  }

  // ----- the JSON files -----

  /** A JSON object of scalars: one pay period or one employee. */
  type Record = map<string, Value>

  /** One day of one employee in a timesheet: field name to value. */
  type Slot = map<string, Value>

  /** `timesheet_<period id>.json`: employee name to day (`YYYY-MM-DD`) to slot. */
  type Timesheet = map<Value, map<string, Slot>>

  /** Every record has the key. */
  predicate AllHave(rs: seq<Record>, key: string)
  {
    forall i :: 0 <= i < |rs| ==> key in rs[i]
  }

  /** The values of a key across the records. */
  function ValuesOf(rs: seq<Record>, key: string): (vs: set<Value>)
    requires AllHave(rs, key)
    ensures forall i :: 0 <= i < |rs| ==> rs[i][key] in vs
    ensures forall v :: v in vs ==> exists i :: 0 <= i < |rs| && rs[i][key] == v
  {
    set i | 0 <= i < |rs| :: rs[i][key]
  }

  /** `any(r[key] == v for r in rs)`. */
  predicate AnyHas(rs: seq<Record>, key: string, v: Value)
    requires AllHave(rs, key)
  {
    exists i :: 0 <= i < |rs| && rs[i][key] == v
  }

  /** No two records share the key's value. */
  predicate Distinct(rs: seq<Record>, key: string)
    requires AllHave(rs, key)
  {
    forall i, j :: 0 <= i < j < |rs| ==> rs[i][key] != rs[j][key]
  }

  /** `[r for r in rs if r[key] != v]`. */
  function Without(rs: seq<Record>, key: string, v: Value): (r: seq<Record>)
    requires AllHave(rs, key)
    ensures AllHave(r, key) && |r| <= |rs|
    ensures forall x :: x in r ==> x in rs && x[key] != v
    ensures forall x :: x in rs && x[key] != v ==> x in r
  {
    if rs == [] then []
    else
      var rest := Without(rs[1..], key, v);
      assert forall x :: x in rs ==> x == rs[0] || x in rs[1..];
      if rs[0][key] != v then [rs[0]] + rest else rest
  }

  /** Filtering on a value no record has keeps the list as it is. */
  lemma {:induction false} WithoutAbsent(rs: seq<Record>, key: string, v: Value)
    requires AllHave(rs, key) && !AnyHas(rs, key, v)
    ensures Without(rs, key, v) == rs
  {
    if rs != [] {
      assert !AnyHas(rs[1..], key, v) by {
        forall i | 0 <= i < |rs[1..]|
          ensures rs[1..][i][key] != v
        {
          assert rs[1..][i] == rs[i + 1];
        }
      }
      WithoutAbsent(rs[1..], key, v);
      assert [rs[0]] + rs[1..] == rs;
    }
  }

  /** `next((r for r in rs if r[key] == v), None)`: the first record with the value. */
  function FirstWith(rs: seq<Record>, key: string, v: Value): (r: Option<Record>)
    requires AllHave(rs, key)
    ensures r.None? <==> !AnyHas(rs, key, v)
    ensures r.Some? ==> exists i :: 0 <= i < |rs| && rs[i] == r.value && r.value[key] == v
                                   && forall j :: 0 <= j < i ==> rs[j][key] != v
  {
    if rs == [] then None
    else if rs[0][key] == v then Some(rs[0])
    else
      var r := FirstWith(rs[1..], key, v);
      if r.Some? then
        var i :| 0 <= i < |rs[1..]| && rs[1..][i] == r.value && r.value[key] == v
                 && forall j :: 0 <= j < i ==> rs[1..][j][key] != v;
        assert rs[i + 1] == r.value;
        r
      else
        assert !AnyHas(rs, key, v) by {
          forall i | 1 <= i < |rs|
            ensures rs[i][key] != v
          {
            assert rs[i] == rs[1..][i - 1];
          }
        }
        r
  }

  /** The period record `add_pay_period` appends. */
  function PeriodRecord(id: string, name: string, start: string, end: string): Record
  {
    map["id" := Text(id), "name" := Text(name), "start_date" := Text(start), "end_date" := Text(end)]
  }

  /** The employee record `add_employee` appends. */
  function EmployeeRecord(id: string, name: string, rate: Value): Record
  {
    map["id" := Text(id), "name" := Text(name), "rate" := rate]
  }

  /** The slot a new day starts with: its weekday name and empty hours and pay. */
  function BlankSlot(dayName: string): (s: Slot)
    ensures s.Keys == {"day", "hours", "pay"}
    ensures s["hours"] == Text("") && s["pay"] == Text("") && !Truthy(s["pay"])
  {
    map["day" := Text(dayName), "hours" := Text(""), "pay" := Text("")]
  }

  /** `datetime.strptime(day, '%Y-%m-%d').strftime('%A').upper()`; None where strptime raises. */
  function DayNameOf(day: string): (r: Option<string>)
    ensures r.Some? <==> Strptime(day, IsoFormat).Some?
  {
    match Strptime(day, IsoFormat)
    case None => None
    case Some(d) => Some(WeekdayName(Weekday(d)))
  }

  /** What `add_pay_period` ended with. */
  datatype AddPeriodOutcome =
    | DatesMissing   // an empty start or end date: nothing is saved
    | BadDate        // strptime raised: nothing is saved
    | PeriodExists   // a period with the same name: nothing is saved
    | Overflow       // stepping past 9999-12-31 raised after the period list was saved
    | Added

  /** What `update_timesheet` ended with. */
  datatype UpdateOutcome =
    | MissingFields  // `{'success': False, ...}`
    | BadDay         // strptime of a new day raised: nothing is saved
    | Updated        // `{'success': True}`

  /** ds names the day with ordinal n, written `YYYY-MM-DD`. */
  predicate IsDayAt(ds: string, n: int)
  {
    var d := Strptime(ds, IsoFormat);
    d.Some? && Ordinal(d.value) == n && ds == Strftime(d.value, IsoFormat)
  }

  /** The day list `add_pay_period` builds: one `YYYY-MM-DD` text per day from start to end. */
  method PeriodDays(start: Date, end: Date) returns (days: Option<seq<string>>)
    requires Valid(start) && Valid(end)
    ensures days.None? <==> Ordinal(start) <= Ordinal(end) && end == MaxDate
    ensures days.Some? ==> |days.value| == (if Ordinal(start) <= Ordinal(end) then Ordinal(end) - Ordinal(start) + 1 else 0)
    ensures days.Some? ==> forall k :: 0 <= k < |days.value| ==> IsDayAt(days.value[k], Ordinal(start) + k)
  {
    var ds: seq<string> := [];
    var current := start;
    while Ordinal(current) <= Ordinal(end)
      invariant Valid(current)
      invariant Ordinal(current) == Ordinal(start) + |ds|
      invariant Ordinal(start) <= Ordinal(end) + 1 ==> Ordinal(current) <= Ordinal(end) + 1
      invariant Ordinal(start) > Ordinal(end) ==> ds == []
      invariant forall k :: 0 <= k < |ds| ==> IsDayAt(ds[k], Ordinal(start) + k)
      decreases Ordinal(end) - Ordinal(current)
    {
      IsoRoundTrip(current);
      ds := ds + [Strftime(current, IsoFormat)];
      var next := NextDay(current);
      if next.None? {
        OrdinalMax(end);
        return None;
      }
      current := next.value;
    }
    if end == MaxDate && Ordinal(start) <= Ordinal(end) {
      OrdinalMax(current);
      assert false;
    }
    return Some(ds);
  }

  /** The row every employee gets in a new timesheet: a blank slot for each day. */
  ghost function DayRow(days: seq<string>): map<string, Slot>
  {
    map ds | ds in days :: BlankSlot(DayNameOf(ds).GetOr(""))
  }

  /** The inner loop of the initialisation: a blank slot for each day, named by its weekday. */
  method BlankRow(days: seq<string>) returns (row: map<string, Slot>)
    requires forall k :: 0 <= k < |days| ==> DayNameOf(days[k]).Some?
    ensures row == DayRow(days)
  {
    row := map[];
    var j := 0;
    while j < |days|
      invariant 0 <= j <= |days|
      invariant row.Keys == set k | 0 <= k < j :: days[k]
      invariant forall ds :: ds in row ==> row[ds] == BlankSlot(DayNameOf(ds).GetOr(""))
    {
      var dayName := DayNameOf(days[j]).value;
      row := row[days[j] := BlankSlot(dayName)];
      j := j + 1;
    }
    DayRowIs(days, row);
  }

  /** A map from exactly the days, each to its blank slot, is the day row. */
  lemma DayRowIs(days: seq<string>, row: map<string, Slot>)
    requires row.Keys == set k | 0 <= k < |days| :: days[k]
    requires forall ds :: ds in row ==> row[ds] == BlankSlot(DayNameOf(ds).GetOr(""))
    ensures row == DayRow(days)
  {
    forall ds | ds in days
      ensures ds in row
    {
      var k :| 0 <= k < |days| && days[k] == ds;
    }
  }

  /** The timesheet `add_pay_period` initialises: the day row for every employee's name. */
  method BlankTimesheet(employees: seq<Record>, days: seq<string>) returns (ts: Timesheet)
    requires AllHave(employees, "name")
    requires forall k :: 0 <= k < |days| ==> DayNameOf(days[k]).Some?
    ensures ts.Keys == ValuesOf(employees, "name")
    ensures forall n :: n in ts ==> ts[n] == DayRow(days)
  {
    ts := map[];
    var i := 0;
    while i < |employees|
      invariant 0 <= i <= |employees|
      invariant ts.Keys == ValuesOf(employees[..i], "name")
      invariant forall n :: n in ts ==> ts[n] == DayRow(days)
    {
      var row := BlankRow(days);
      ts := ts[employees[i]["name"] := row];
      assert employees[..i + 1] == employees[..i] + [employees[i]];
      i := i + 1;
    }
    assert employees[..i] == employees;
  }

  /** `get_timesheet(period_id)`: the period's timesheet, or {} without a file. */
  function TimesheetOf(timesheets: map<Value, Timesheet>, periodId: string): Timesheet
  {
    if Text(periodId) in timesheets then timesheets[Text(periodId)] else map[]
  }

  /** The slot of (employee, day) in the period's timesheet, if there is one. */
  function PriorSlot(timesheets: map<Value, Timesheet>, periodId: string, employee: string, day: string): Option<Slot>
  {
    var ts := TimesheetOf(timesheets, periodId);
    if Text(employee) in ts && day in ts[Text(employee)] then Some(ts[Text(employee)][day]) else None
  }

  /**
   * The rate `update_timesheet` multiplies by: the first employee with the name, when its
   * rate is set and converts with float(); None otherwise.
   */
  function RateOf(employees: seq<Record>, name: string, cv: Conversions): (r: Option<real>)
    requires AllHave(employees, "name")
    ensures forall i :: 0 <= i < |employees| && employees[i]["name"] == Text(name)
                        && (forall j :: 0 <= j < i ==> employees[j]["name"] != Text(name)) ==>
              r == (if "rate" in employees[i] && Truthy(employees[i]["rate"]) then ToFloat(employees[i]["rate"], cv)
                    else None)
    ensures !AnyHas(employees, "name", Text(name)) ==> r.None?
  {
    match FirstWith(employees, "name", Text(name))
    case None => None
    case Some(e) =>
      forall i | 0 <= i < |employees| && employees[i]["name"] == Text(name)
                 && (forall j :: 0 <= j < i ==> employees[j]["name"] != Text(name))
        ensures employees[i] == e
      {
        var k :| 0 <= k < |employees| && employees[k] == e && e["name"] == Text(name)
                 && forall j :: 0 <= j < k ==> employees[j]["name"] != Text(name);
        assert !(k < i) && !(i < k);
      }
      if "rate" in e && Truthy(e["rate"]) then ToFloat(e["rate"], cv) else None
  }

  /**
   * The pay `update_timesheet` writes with the field: for non-empty hours of an employee
   * whose rate is set, `str(float(hours) * float(rate))` where both convert; else None.
   */
  function NewPay(employees: seq<Record>, employee: string, field: string, value: Value, cv: Conversions): (pay: Option<string>)
    requires AllHave(employees, "name")
    ensures field != "hours" || !Truthy(value) || !AnyHas(employees, "name", Text(employee)) ==> pay.None?
    ensures pay.Some? <==>
              field == "hours" && Truthy(value) && ToFloat(value, cv).Some? && RateOf(employees, employee, cv).Some?
  {
    if field == "hours" && Truthy(value) && RateOf(employees, employee, cv).Some? && ToFloat(value, cv).Some? then
      Some(cv.floatStr(ToFloat(value, cv).value * RateOf(employees, employee, cv).value))
    else None
  }

  /** The name `add_pay_period` gives a period: `%m.%d.%y to %m.%d.%y`. */
  function PeriodName(start: Date, end: Date): string
    requires Valid(start) && Valid(end)
  {
    Strftime(start, ShortDottedFormat) + " to " + Strftime(end, ShortDottedFormat)
  }

  /** ds is a day of the period from start to end, written `YYYY-MM-DD`. */
  predicate InPeriod(ds: string, start: Date, end: Date)
    requires Valid(start) && Valid(end)
  {
    var d := Strptime(ds, IsoFormat);
    d.Some? && Ordinal(start) <= Ordinal(d.value) <= Ordinal(end) && ds == Strftime(d.value, IsoFormat)
  }

  /**
   * The day row built from the period's day list has exactly the period's days, each with
   * its weekday name and empty hours and pay.
   */
  lemma DayRowOfPeriod(days: seq<string>, start: Date, end: Date)
    requires Valid(start) && Valid(end)
    requires |days| == if Ordinal(start) <= Ordinal(end) then Ordinal(end) - Ordinal(start) + 1 else 0
    requires forall k :: 0 <= k < |days| ==> IsDayAt(days[k], Ordinal(start) + k)
    ensures forall ds :: ds in DayRow(days) ==>
              InPeriod(ds, start, end)
              && DayRow(days)[ds] == BlankSlot(WeekdayName(Weekday(Strptime(ds, IsoFormat).value)))
    ensures forall d :: Valid(d) && Ordinal(start) <= Ordinal(d) <= Ordinal(end) ==> Strftime(d, IsoFormat) in DayRow(days)
  {
    forall ds | ds in DayRow(days)
      ensures InPeriod(ds, start, end)
    {
      var k :| 0 <= k < |days| && days[k] == ds;
    }
    forall d | Valid(d) && Ordinal(start) <= Ordinal(d) <= Ordinal(end)
      ensures Strftime(d, IsoFormat) in DayRow(days)
    {
      var k := Ordinal(d) - Ordinal(start);
      var p := Strptime(days[k], IsoFormat).value;
      OrdinalInjective(p, d);
      assert days[k] in days;
    }
  }

  /**
   * grid is a new period's timesheet: a row for every employee's name, holding exactly
   * the period's days, each with its weekday name and empty hours and pay.
   */
  ghost predicate IsBlankGrid(grid: Timesheet, employees: seq<Record>, start: Date, end: Date)
    requires AllHave(employees, "name") && Valid(start) && Valid(end)
  {
    grid.Keys == ValuesOf(employees, "name")
    && (forall n, ds :: n in grid && ds in grid[n] ==>
          InPeriod(ds, start, end)
          && grid[n][ds] == BlankSlot(WeekdayName(Weekday(Strptime(ds, IsoFormat).value))))
    && (forall n, d :: n in grid && Valid(d) && Ordinal(start) <= Ordinal(d) <= Ordinal(end) ==>
          Strftime(d, IsoFormat) in grid[n])
  }

  /**
   * The timesheet `add_pay_period` writes for a new period: for every employee's name, a
   * blank slot for each day from start to end. None where stepping past 9999-12-31 raises.
   */
  method NewTimesheet(employees: seq<Record>, start: Date, end: Date) returns (grid: Option<Timesheet>)
    requires AllHave(employees, "name") && Valid(start) && Valid(end)
    ensures grid.None? <==> Ordinal(start) <= Ordinal(end) && end == MaxDate
    ensures grid.Some? ==> IsBlankGrid(grid.value, employees, start, end)
  {
    var days := PeriodDays(start, end);
    if days.None? {
      return None;
    }
    forall k | 0 <= k < |days.value|
      ensures DayNameOf(days.value[k]).Some?
    {
      assert IsDayAt(days.value[k], Ordinal(start) + k);
    }
    var ts := BlankTimesheet(employees, days.value);
    DayRowOfPeriod(days.value, start, end);
    return Some(ts);
  }

  /** The outcome of the checks `add_pay_period` makes before it saves anything. */
  datatype FormCheck = Refused(outcome: AddPeriodOutcome) | Accepted(start: Date, end: Date)

  /**
   * The checks of `add_pay_period`, in order: both dates given, both parse as
   * `YYYY-MM-DD`, and no period has the name they make.
   */
  function CheckPeriodForm(payPeriods: seq<Record>, startText: string, endText: string): (c: FormCheck)
    requires AllHave(payPeriods, "name")
    ensures c.Refused? ==> c.outcome == DatesMissing || c.outcome == BadDate || c.outcome == PeriodExists
    ensures c == Refused(DatesMissing) <==> startText == "" || endText == ""
    ensures c == Refused(BadDate) <==>
              startText != "" && endText != ""
              && (Strptime(startText, IsoFormat).None? || Strptime(endText, IsoFormat).None?)
    ensures c == Refused(PeriodExists) ==>
              Strptime(startText, IsoFormat).Some? && Strptime(endText, IsoFormat).Some?
              && AnyHas(payPeriods, "name",
                        Text(PeriodName(Strptime(startText, IsoFormat).value, Strptime(endText, IsoFormat).value)))
    ensures c.Accepted? ==>
              Valid(c.start) && Valid(c.end)
              && Strptime(startText, IsoFormat) == Some(c.start) && Strptime(endText, IsoFormat) == Some(c.end)
              && !AnyHas(payPeriods, "name", Text(PeriodName(c.start, c.end)))
  {
    if startText == "" || endText == "" then Refused(DatesMissing)
    else
      var s, e := Strptime(startText, IsoFormat), Strptime(endText, IsoFormat);
      if s.None? || e.None? then Refused(BadDate)
      else if AnyHas(payPeriods, "name", Text(PeriodName(s.value, e.value))) then Refused(PeriodExists)
      else Accepted(s.value, e.value)
  }

  /** The record `add_pay_period` saves: the new id, the name from the dates, the dates as `YYYY-MM-DD`. */
  function NewPeriodRecord(freshId: string, start: Date, end: Date): (rec: Record)
    requires Valid(start) && Valid(end)
    ensures rec.Keys == {"id", "name", "start_date", "end_date"}
    ensures rec["id"] == Text(freshId) && rec["name"] == Text(PeriodName(start, end))
    ensures rec["start_date"] == Text(Strftime(start, IsoFormat)) && rec["end_date"] == Text(Strftime(end, IsoFormat))
  {
    PeriodRecord(freshId, PeriodName(start, end), Strftime(start, IsoFormat), Strftime(end, IsoFormat))
  }

  /** Appending a record with every key and a new name keeps the keys present and the names distinct. */
  lemma AppendRecord(rs: seq<Record>, rec: Record)
    requires AllHave(rs, "id") && AllHave(rs, "name") && "id" in rec && "name" in rec
    ensures AllHave(rs + [rec], "id") && AllHave(rs + [rec], "name")
    ensures Distinct(rs, "name") && !AnyHas(rs, "name", rec["name"]) ==> Distinct(rs + [rec], "name")
  {
    var rs' := rs + [rec];
    assert forall i :: 0 <= i < |rs| ==> rs'[i] == rs[i];
  }

  /**
   * The slot `update_timesheet` starts from: the one the timesheet has for (employee, day),
   * else a blank one named after the day's weekday; None where the day does not parse.
   */
  function SlotBefore(timesheets: map<Value, Timesheet>, periodId: string, employee: string, day: string): (s: Option<Slot>)
    ensures PriorSlot(timesheets, periodId, employee, day).Some? ==> s == PriorSlot(timesheets, periodId, employee, day)
    ensures PriorSlot(timesheets, periodId, employee, day).None? ==>
              (s.None? <==> DayNameOf(day).None?)
              && (s.Some? ==> s.value == BlankSlot(DayNameOf(day).value))
  {
    var prior := PriorSlot(timesheets, periodId, employee, day);
    if prior.Some? then prior
    else match DayNameOf(day)
      case None => None
      case Some(name) => Some(BlankSlot(name))
  }

  /**
   * The slot after `slot[field] = value`, and `slot['pay'] = pay` where a pay was computed:
   * the field holds the value unless the pay overwrote it, and every other entry is kept.
   */
  function UpdatedSlot(slot: Slot, field: string, value: Value, pay: Option<string>): (s: Slot)
    ensures s.Keys == slot.Keys + {field} + (if pay.Some? then {"pay"} else {})
    ensures pay.Some? ==> s["pay"] == Text(pay.value)
    ensures field != "pay" || pay.None? ==> s[field] == value
    ensures forall k :: k in slot && k != field && (pay.None? || k != "pay") ==> s[k] == slot[k]
  {
    var s := slot[field := value];
    if pay.Some? then s["pay" := Text(pay.value)] else s
  }

  /**
   * The timesheet with `timesheet[employee][day] = slot`, the employee's row created if
   * missing: every other row and every other day of the row is kept.
   */
  function Put(ts: Timesheet, employee: Value, day: string, slot: Slot): (ts': Timesheet)
    ensures ts'.Keys == ts.Keys + {employee}
    ensures forall n :: n in ts && n != employee ==> ts'[n] == ts[n]
    ensures ts'[employee].Keys == (if employee in ts then ts[employee].Keys else {}) + {day}
    ensures ts'[employee][day] == slot
    ensures forall d :: employee in ts && d in ts[employee] && d != day ==> ts'[employee][d] == ts[employee][d]
  {
    var row := if employee in ts then ts[employee] else map[];
    ts[employee := row[day := slot]]
  }

  /**
   * The JSON files of the data folder: `pay_periods.json`, `employees.json` and the
   * `timesheet_<period id>.json` files, by period id. A missing list file reads as [].
   */
  class JsonStore {
    var payPeriods: seq<Record>
    var employees: seq<Record>
    var timesheets: map<Value, Timesheet>

    /** Every record has the keys the routes index it by, as every record they write has. */
    ghost predicate Valid()
      reads this
    {
      AllHave(payPeriods, "id") && AllHave(payPeriods, "name")
      && AllHave(employees, "id") && AllHave(employees, "name")
    }

    /** An empty data folder. */
    constructor ()
      ensures Valid() && payPeriods == [] && employees == [] && timesheets == map[]
    {
      payPeriods, employees, timesheets := [], [], map[];
    }

    /**
     * `add_employee` (POST): refused for an empty name or one some employee already has;
     * otherwise a record with a fresh id, the name and the rate is appended. Names that
     * were distinct stay distinct.
     */
    method AddEmployee(name: string, rate: Value, freshId: string) returns (ok: bool)
      requires Valid()
      modifies this
      ensures Valid()
      ensures ok <==> name != "" && !AnyHas(old(employees), "name", Text(name))
      ensures employees == if ok then old(employees) + [EmployeeRecord(freshId, name, rate)] else old(employees)
      ensures payPeriods == old(payPeriods) && timesheets == old(timesheets)
      ensures Distinct(old(employees), "name") ==> Distinct(employees, "name")
    {
      if name == "" {
        return false;
      }
      if AnyHas(employees, "name", Text(name)) {
        return false;
      }
      employees := employees + [EmployeeRecord(freshId, name, rate)];
      return true;
    }

    /** `delete_employee(employee_id)`: every record with that id is dropped; timesheets keep the name's data. */
    method DeleteEmployee(employeeId: string)
      requires Valid()
      modifies this
      ensures Valid()
      ensures employees == Without(old(employees), "id", Text(employeeId))
      ensures payPeriods == old(payPeriods) && timesheets == old(timesheets)
    {
      employees := Without(employees, "id", Text(employeeId));
    }

    /** `delete_pay_period(period_id)`: every period with that id is dropped, and its timesheet file removed. */
    method DeletePayPeriod(periodId: string)
      requires Valid()
      modifies this
      ensures Valid()
      ensures payPeriods == Without(old(payPeriods), "id", Text(periodId))
      ensures timesheets == old(timesheets) - {Text(periodId)}
      ensures employees == old(employees)
    {
      payPeriods := Without(payPeriods, "id", Text(periodId));
      timesheets := timesheets - {Text(periodId)};
    }

    /**
     * The saving half of `add_pay_period`, once the form passed its checks: the period is
     * appended and saved; then every employee gets a blank slot for each of its days in a
     * new timesheet, unless stepping past 9999-12-31 raises first.
     */
    method SaveNewPeriod(start: Date, end: Date, freshId: string) returns (r: AddPeriodOutcome)
      requires Valid() && Dates.Valid(start) && Dates.Valid(end)
      modifies this
      ensures Valid() && employees == old(employees)
      ensures payPeriods == old(payPeriods) + [NewPeriodRecord(freshId, start, end)]
      ensures r == Overflow || r == Added
      ensures r == Overflow <==> Ordinal(start) <= Ordinal(end) && end == MaxDate
      ensures r == Overflow ==> timesheets == old(timesheets)
      ensures r == Added ==>
                Text(freshId) in timesheets
                && timesheets == old(timesheets)[Text(freshId) := timesheets[Text(freshId)]]
                && IsBlankGrid(timesheets[Text(freshId)], employees, start, end)
      ensures Distinct(old(payPeriods), "name") && !AnyHas(old(payPeriods), "name", Text(PeriodName(start, end))) ==>
                Distinct(payPeriods, "name")
    {
      var rec := NewPeriodRecord(freshId, start, end);
      AppendPeriod(rec);
      var grid := NewTimesheet(employees, start, end);
      if grid.None? {
        return Overflow;
      }
      StoreTimesheet(Text(freshId), grid.value);
      return Added;
    }

    /** `save_pay_periods` of the list with rec appended. */
    method AppendPeriod(rec: Record)
      requires Valid() && "id" in rec && "name" in rec
      modifies this
      ensures Valid() && employees == old(employees) && timesheets == old(timesheets)
      ensures payPeriods == old(payPeriods) + [rec]
      ensures Distinct(old(payPeriods), "name") && !AnyHas(old(payPeriods), "name", rec["name"]) ==>
                Distinct(payPeriods, "name")
    {
      AppendRecord(payPeriods, rec);
      payPeriods := payPeriods + [rec];
    }

    /** `save_timesheet(key, grid)`: the file for key now holds grid, and no other changes. */
    method StoreTimesheet(key: Value, grid: Timesheet)
      requires Valid()
      modifies this
      ensures Valid() && employees == old(employees) && payPeriods == old(payPeriods)
      ensures timesheets == old(timesheets)[key := grid]
    {
      timesheets := timesheets[key := grid];
    }

    /**
     * `add_pay_period` (POST). Empty dates, dates strptime rejects and a name some period
     * already has are refused with nothing saved; otherwise the period is saved as
     * `SaveNewPeriod` describes. Period names that were distinct stay distinct.
     */
    method AddPayPeriod(startText: string, endText: string, freshId: string) returns (r: AddPeriodOutcome)
      requires Valid()
      modifies this
      ensures Valid() && employees == old(employees)
      ensures var c := CheckPeriodForm(old(payPeriods), startText, endText);
              (c.Refused? ==> r == c.outcome && payPeriods == old(payPeriods) && timesheets == old(timesheets))
              && (c.Accepted? ==>
                    payPeriods == old(payPeriods) + [NewPeriodRecord(freshId, c.start, c.end)]
                    && (r == Overflow <==> Ordinal(c.start) <= Ordinal(c.end) && c.end == MaxDate)
                    && (r == Overflow ==> timesheets == old(timesheets))
                    && (r != Overflow ==>
                          r == Added && Text(freshId) in timesheets
                          && timesheets == old(timesheets)[Text(freshId) := timesheets[Text(freshId)]]
                          && IsBlankGrid(timesheets[Text(freshId)], employees, c.start, c.end)))
      ensures Distinct(old(payPeriods), "name") ==> Distinct(payPeriods, "name")
    {
      var c := CheckPeriodForm(payPeriods, startText, endText);
      if c.Refused? {
        return c.outcome;
      }
      r := SaveNewPeriod(c.start, c.end, freshId);
    }

    /**
     * `update_timesheet(period_id)`: refused when employee, day or field is empty. A
     * missing (employee, day) slot starts blank, which needs the day to parse. The field
     * takes the value; writing non-empty hours for an employee with a rate also sets the
     * pay to hours times rate, where both convert. Nothing else in the timesheet changes.
     */
    method UpdateTimesheet(periodId: string, employee: string, day: string, field: string, value: Value,
                           cv: Conversions) returns (r: UpdateOutcome)
      requires Valid()
      modifies this
      ensures Valid() && payPeriods == old(payPeriods) && employees == old(employees)
      ensures r == MissingFields <==> employee == "" || day == "" || field == ""
      ensures r != Updated ==> timesheets == old(timesheets)
      ensures r == BadDay <==> r != MissingFields && SlotBefore(old(timesheets), periodId, employee, day).None?
      ensures r == Updated ==>
                SlotBefore(old(timesheets), periodId, employee, day).Some?
                && timesheets == old(timesheets)[Text(periodId) :=
                     Put(TimesheetOf(old(timesheets), periodId), Text(employee), day,
                         UpdatedSlot(SlotBefore(old(timesheets), periodId, employee, day).value, field, value,
                                     NewPay(old(employees), employee, field, value, cv)))]
    {
      if employee == "" || day == "" || field == "" {
        return MissingFields;
      }
      var slot := SlotBefore(timesheets, periodId, employee, day);
      if slot.None? {
        return BadDay;
      }
      var pay := NewPay(employees, employee, field, value, cv);
      timesheets := timesheets[Text(periodId) :=
                      Put(TimesheetOf(timesheets, periodId), Text(employee), day, UpdatedSlot(slot.value, field, value, pay))];
      return Updated;
    }
  }
}
