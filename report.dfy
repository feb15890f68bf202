/**
 * The aggregation half of `generate_report` in `app.py`: for the periods processed, the pay
 * of every employee in every period, summed per employee across periods and per period
 * across employees, and the list of employees with pay.
 */
module Report {
  import opened Wrappers
  import opened Values
  import opened Sums
  import opened Tables
  import opened App

  // ----- one employee in one period -----

  /** What one day adds: its `pay` where that is set and float() takes it, else nothing. */
  function SlotPay(slot: Slot, cv: Conversions): (pay: real)
    ensures "pay" !in slot || !Truthy(slot["pay"]) || ToFloat(slot["pay"], cv).None? ==> pay == 0.0
    ensures "pay" in slot && Truthy(slot["pay"]) && ToFloat(slot["pay"], cv).Some? ==>
              pay == ToFloat(slot["pay"], cv).value
  {
    if "pay" in slot && Truthy(slot["pay"]) then ToFloat(slot["pay"], cv).GetOr(0.0) else 0.0
  }

  function PayOf(cv: Conversions): Slot -> real
  {
    (slot: Slot) => SlotPay(slot, cv)
  }

  /** The employee's pay in one timesheet: the sum over their days, 0 without a row. */
  ghost function EmployeeTotal(ts: Timesheet, name: Value, cv: Conversions): real
  {
    if name in ts then SumMap(ts[name], PayOf(cv)) else 0.0
  }

  /** `get_timesheet(period['id'])`: the timesheet file of the period, {} where there is none. */
  function TimesheetAt(timesheets: map<Value, Timesheet>, periodId: Value): Timesheet
  {
    if periodId in timesheets then timesheets[periodId] else map[]
  }

  /** The record's `id` and `name`; every record the store holds has both. */
  function IdOf(r: Record): Value
  {
    if "id" in r then r["id"] else Null
  }

  function NameOf(r: Record): Value
  {
    if "name" in r then r["name"] else Null
  }

  /** The grid of the report: the pay of employee record e in period record p. */
  ghost function Amount(timesheets: map<Value, Timesheet>, cv: Conversions): (Record, Record) -> real
  {
    (p: Record, e: Record) =>
      EmployeeTotal(TimesheetAt(timesheets, IdOf(p)), NameOf(e), cv)
  }

  /**
   * The inner loop of `generate_report` over one employee's days, in the order the
   * dictionary yields them.
   */
  method EmployeePeriodTotal(ts: Timesheet, name: Value, cv: Conversions) returns (total: real)
    ensures total == EmployeeTotal(ts, name, cv)
  {
    total := 0.0;
    if name in ts {
      var row := ts[name];
      var rest := row.Keys;
      while rest != {}
        invariant rest <= row.Keys
        invariant total + SumKeys(row, rest, PayOf(cv)) == SumMap(row, PayOf(cv))
        decreases |rest|
      {
        var day := PickOne(rest);
        SumKeysRemove(row, rest, PayOf(cv), day);
        total := total + SlotPay(row[day], cv);
        rest := rest - {day};
      }
    }
  }

  /** An employee without a row in the timesheet, or whose days carry no usable pay, totals 0. */
  lemma EmployeeWithoutPay(ts: Timesheet, name: Value, cv: Conversions)
    requires name in ts ==> forall day :: day in ts[name] ==>
               "pay" !in ts[name][day] || !Truthy(ts[name][day]["pay"]) || ToFloat(ts[name][day]["pay"], cv).None?
    ensures EmployeeTotal(ts, name, cv) == 0.0
  {
    if name in ts {
      SumKeysZero(ts[name], ts[name].Keys, PayOf(cv));
    }
  }

  // ----- which periods -----

  /** `[r for r in rs if r[key] == v]`. */
  function Only(rs: seq<Record>, key: string, v: Value): (r: seq<Record>)
    requires AllHave(rs, key)
    ensures AllHave(r, key) && |r| <= |rs|
    ensures forall x :: x in r <==> x in rs && x[key] == v
  {
    if rs == [] then []
    else
      var rest := Only(rs[1..], key, v);
      assert forall x :: x in rs <==> x == rs[0] || x in rs[1..];
      if rs[0][key] == v then [rs[0]] + rest else rest
  }

  /** `periods_to_process`: with a period id, the periods with that id; without one, all of them. */
  function PeriodsToProcess(payPeriods: seq<Record>, periodId: Value): (ps: seq<Record>)
    requires AllHave(payPeriods, "id") && AllHave(payPeriods, "name")
    ensures AllHave(ps, "id") && AllHave(ps, "name")
    ensures !Truthy(periodId) ==> ps == payPeriods
    ensures Truthy(periodId) ==> forall p :: p in ps <==> p in payPeriods && p["id"] == periodId
  {
    if Truthy(periodId) then
      var ps := Only(payPeriods, "id", periodId);
      assert forall i :: 0 <= i < |ps| ==> ps[i] in ps;
      ps
    else payPeriods
  }

  // ----- what the report holds -----

  /** One item of `employee_pay_by_period[name]`. */
  datatype PeriodPay = PeriodPay(period: Value, pay: real)

  /**
   * `period_data`: one dictionary holding the period's name under 'period', each employee
   * name's amount under that name, and the period's total under 'total'. The keys share
   * one space, so an employee named 'period' or 'total' collides with them.
   */
  type PeriodData = map<Value, Value>

  const PeriodKey := Text("period")
  const TotalKey := Text("total")

  datatype ReportData = ReportData(
    totals: map<Value, real>,                 // employee_total_pay
    byPeriod: map<Value, seq<PeriodPay>>,     // employee_pay_by_period
    periodTotals: map<Value, PeriodData>,     // period_totals
    active: seq<Value>,                       // active_employees
    processed: seq<Value>)                    // periods_processed


  /** f restricted to the employee records named n: what `employee_total_pay[n] +=` adds. */
  function Masked(f: (Record, Record) -> real, n: Value): (Record, Record) -> real
  {
    (p: Record, e: Record) => if NameOf(e) == n then f(p, e) else 0.0
  }

  /** `employee_total_pay[n]`: every amount of every record named n, over the periods. */
  function NameTotal(periods: seq<Record>, employees: seq<Record>, f: (Record, Record) -> real, n: Value): real
  {
    SumByRows(periods, employees, Masked(f, n))
  }

  /** The items one period appends to `employee_pay_by_period[n]`: one per record named n. */
  function RowEntries(p: Record, es: seq<Record>, f: (Record, Record) -> real, n: Value): seq<PeriodPay>
  {
    if es == [] then []
    else
      var e := es[|es| - 1];
      RowEntries(p, es[..|es| - 1], f, n) + (if NameOf(e) == n then [PeriodPay(NameOf(p), f(p, e))] else [])
  }

  /** `employee_pay_by_period[n]` after the periods. */
  function EntriesFor(ps: seq<Record>, es: seq<Record>, f: (Record, Record) -> real, n: Value): seq<PeriodPay>
  {
    if ps == [] then [] else EntriesFor(ps[..|ps| - 1], es, f, n) + RowEntries(ps[|ps| - 1], es, f, n)
  }

  /**
   * `period_data` after the employee records es: first the period's name under 'period',
   * then each record's amount under its name, a later write to a key replacing an earlier.
   */
  function RowData(p: Record, es: seq<Record>, f: (Record, Record) -> real): PeriodData
  {
    if es == [] then map[PeriodKey := NameOf(p)]
    else RowData(p, es[..|es| - 1], f)[NameOf(es[|es| - 1]) := Real(f(p, es[|es| - 1]))]
  }

  /** `period_data` as stored: RowData with the period's total written last, under 'total'. */
  function PeriodDataOf(p: Record, es: seq<Record>, f: (Record, Record) -> real): PeriodData
  {
    RowData(p, es, f)[TotalKey := Real(SumRow(p, es, f))]
  }

  /** The number under 'total' in a period's data. */
  function TotalOf(d: PeriodData): real
  {
    if TotalKey in d && d[TotalKey].Real? then d[TotalKey].x else 0.0
  }

  /** `period_totals` after the periods: keyed by period name, a later period overwriting an earlier one. */
  function PeriodTable(ps: seq<Record>, es: seq<Record>, f: (Record, Record) -> real): map<Value, PeriodData>
  {
    if ps == [] then map[]
    else PeriodTable(ps[..|ps| - 1], es, f)[NameOf(ps[|ps| - 1]) := PeriodDataOf(ps[|ps| - 1], es, f)]
  }

  /**
   * `idx` lists, in increasing order, exactly the positions of the employees whose total
   * is above 0, and `names` holds their names at those positions: `names` is the
   * order-preserving filter of the employee list.
   */
  ghost predicate ActivePositions(es: seq<Record>, totals: map<Value, real>, idx: seq<int>, names: seq<Value>)
    requires AllHave(es, "name") && forall i :: 0 <= i < |es| ==> es[i]["name"] in totals
  {
    && |idx| == |names|
    && (forall k :: 0 <= k < |idx| ==> 0 <= idx[k] < |es| && names[k] == es[idx[k]]["name"]
                                       && totals[es[idx[k]]["name"]] > 0.0)
    && (forall k, l :: 0 <= k < l < |idx| ==> idx[k] < idx[l])
    && (forall i :: 0 <= i < |es| && totals[es[i]["name"]] > 0.0 ==> i in idx)
  }

  /** `active_employees`: the names, in employee order, whose total is above 0. */
  function ActiveNames(es: seq<Record>, totals: map<Value, real>): (r: seq<Value>)
    requires AllHave(es, "name") && forall i :: 0 <= i < |es| ==> es[i]["name"] in totals
    ensures |r| <= |es|
    ensures forall n :: n in r <==> exists i :: 0 <= i < |es| && es[i]["name"] == n && totals[n] > 0.0
  {
    if es == [] then []
    else
      var rest := ActiveNames(es[1..], totals);
      assert forall i :: 1 <= i < |es| ==> es[i] == es[1..][i - 1];
      assert forall i :: 0 <= i < |es[1..]| ==> es[1..][i] == es[i + 1];
      if totals[es[0]["name"]] > 0.0 then [es[0]["name"]] + rest else rest
  }

  /** The active list is the sub-list of the employee names kept in their original order. */
  lemma {:induction false} ActiveNamesInOrder(es: seq<Record>, totals: map<Value, real>)
    requires AllHave(es, "name") && forall i :: 0 <= i < |es| ==> es[i]["name"] in totals
    ensures exists idx :: ActivePositions(es, totals, idx, ActiveNames(es, totals))
  {
    if es == [] {
      assert ActiveNames(es, totals) == [];
      assert ActivePositions(es, totals, [], []);
    } else {
      var tail := es[1..];
      assert forall i :: 0 <= i < |tail| ==> tail[i] == es[i + 1];
      ActiveNamesInOrder(tail, totals);
      var idx :| ActivePositions(tail, totals, idx, ActiveNames(tail, totals));
      var idx' := InOrderStep(es, totals, idx);
    }
  }

  /** Positions for the tail's active list give positions for the whole list's. */
  lemma InOrderStep(es: seq<Record>, totals: map<Value, real>, idx: seq<int>) returns (idx': seq<int>)
    requires es != [] && AllHave(es, "name") && forall i :: 0 <= i < |es| ==> es[i]["name"] in totals
    requires ActivePositions(es[1..], totals, idx, ActiveNames(es[1..], totals))
    ensures ActivePositions(es, totals, idx', ActiveNames(es, totals))
  {
    var rest := ActiveNames(es[1..], totals);
    var shifted := ShiftedPositions(es, totals, idx, rest);
    idx' := ConsPositions(es, totals, shifted, rest);
    assert ActiveNames(es, totals) == if totals[es[0]["name"]] > 0.0 then [es[0]["name"]] + rest else rest;
  }

  /** Positions of the tail, moved up by one and preceded by 0 when the head is active. */
  lemma ConsPositions(es: seq<Record>, totals: map<Value, real>, shifted: seq<int>, rest: seq<Value>)
      returns (idx': seq<int>)
    requires es != [] && AllHave(es, "name") && forall i :: 0 <= i < |es| ==> es[i]["name"] in totals
    requires |shifted| == |rest|
    requires forall k :: 0 <= k < |shifted| ==>
               1 <= shifted[k] < |es| && rest[k] == es[shifted[k]]["name"] && totals[es[shifted[k]]["name"]] > 0.0
    requires forall k, l :: 0 <= k < l < |shifted| ==> shifted[k] < shifted[l]
    requires forall i :: 1 <= i < |es| && totals[es[i]["name"]] > 0.0 ==> i in shifted
    ensures ActivePositions(es, totals, idx', if totals[es[0]["name"]] > 0.0 then [es[0]["name"]] + rest else rest)
  {
    if totals[es[0]["name"]] > 0.0 {
      idx' := [0] + shifted;
      var names := [es[0]["name"]] + rest;
      forall k | 0 <= k < |idx'|
        ensures 0 <= idx'[k] < |es| && names[k] == es[idx'[k]]["name"] && totals[es[idx'[k]]["name"]] > 0.0
      {
        if k > 0 {
          assert idx'[k] == shifted[k - 1] && names[k] == rest[k - 1];
        }
      }
      IncreasingCons(shifted);
      forall i | 0 <= i < |es| && totals[es[i]["name"]] > 0.0
        ensures i in idx'
      {
        if i > 0 {
          assert i in shifted;
        }
      }
    } else {
      idx' := shifted;
    }
  }

  /** Putting 0 before increasing positive positions keeps them increasing. */
  lemma IncreasingCons(shifted: seq<int>)
    requires forall k :: 0 <= k < |shifted| ==> 1 <= shifted[k]
    requires forall k, l :: 0 <= k < l < |shifted| ==> shifted[k] < shifted[l]
    ensures forall k, l :: 0 <= k < l < |[0] + shifted| ==> ([0] + shifted)[k] < ([0] + shifted)[l]
  {
    var idx := [0] + shifted;
    forall k, l | 0 <= k < l < |idx|
      ensures idx[k] < idx[l]
    {
      assert idx[l] == shifted[l - 1];
      if k > 0 {
        assert idx[k] == shifted[k - 1];
      }
    }
  }

  /** The tail's positions moved up by one: every active position after the head, in order. */
  lemma ShiftedPositions(es: seq<Record>, totals: map<Value, real>, idx: seq<int>, rest: seq<Value>)
      returns (shifted: seq<int>)
    requires es != [] && AllHave(es, "name") && forall i :: 0 <= i < |es| ==> es[i]["name"] in totals
    requires ActivePositions(es[1..], totals, idx, rest)
    ensures |shifted| == |rest|
    ensures forall k :: 0 <= k < |shifted| ==>
              1 <= shifted[k] < |es| && rest[k] == es[shifted[k]]["name"] && totals[es[shifted[k]]["name"]] > 0.0
    ensures forall k, l :: 0 <= k < l < |shifted| ==> shifted[k] < shifted[l]
    ensures forall i :: 1 <= i < |es| && totals[es[i]["name"]] > 0.0 ==> i in shifted
  {
    var tail := es[1..];
    shifted := seq(|idx|, k requires 0 <= k < |idx| => idx[k] + 1);
    forall k | 0 <= k < |shifted|
      ensures 1 <= shifted[k] < |es| && rest[k] == es[shifted[k]]["name"] && totals[es[shifted[k]]["name"]] > 0.0
    {
      assert tail[idx[k]] == es[shifted[k]];
    }
    forall i | 1 <= i < |es| && totals[es[i]["name"]] > 0.0
      ensures i in shifted
    {
      assert tail[i - 1] == es[i];
      assert i - 1 in idx;
      var k :| 0 <= k < |idx| && idx[k] == i - 1;
      assert shifted[k] == i;
    }
  }

  // ----- one step of each loop -----

  lemma RowPrefix(p: Record, es: seq<Record>, j: int, f: (Record, Record) -> real)
    requires 0 <= j < |es|
    ensures SumRow(p, es[..j + 1], f) == SumRow(p, es[..j], f) + f(p, es[j])
  {
    assert es[..j + 1][..j] == es[..j];
  }

  lemma EntriesPrefix(p: Record, es: seq<Record>, j: int, f: (Record, Record) -> real, n: Value)
    requires 0 <= j < |es|
    ensures RowEntries(p, es[..j + 1], f, n) ==
              RowEntries(p, es[..j], f, n) + (if NameOf(es[j]) == n then [PeriodPay(NameOf(p), f(p, es[j]))] else [])
    ensures RowData(p, es[..j + 1], f) == RowData(p, es[..j], f)[NameOf(es[j]) := Real(f(p, es[j]))]
  {
    assert es[..j + 1][..j] == es[..j];
  }

  /**
   * The running totals and lists of `generate_report` after the periods ps: each name's
   * total and list over ps.
   */
  ghost predicate Accumulated(ps: seq<Record>, es: seq<Record>, f: (Record, Record) -> real, names: set<Value>,
                              totals: map<Value, real>, byPeriod: map<Value, seq<PeriodPay>>)
  {
    totals.Keys == names && byPeriod.Keys == names
    && (forall n :: n in names ==> totals[n] == NameTotal(ps, es, f, n))
    && (forall n :: n in names ==> byPeriod[n] == EntriesFor(ps, es, f, n))
  }

  /** Before any period: every name's total is 0 and its list empty. */
  lemma AccumulatedStart(ps: seq<Record>, es: seq<Record>, f: (Record, Record) -> real, names: set<Value>,
                         totals: map<Value, real>, byPeriod: map<Value, seq<PeriodPay>>)
    requires totals.Keys == names && byPeriod.Keys == names
    requires forall n :: n in names ==> totals[n] == 0.0 && byPeriod[n] == []
    ensures Accumulated(ps[..0], es, f, names, totals, byPeriod)
    ensures PeriodTable(ps[..0], es, f) == map[]
  {
    assert ps[..0] == [];
  }

  /** One more period: each name's total grows by its row of the period, its list by its items. */
  lemma AccumulateStep(ps: seq<Record>, i: int, es: seq<Record>, f: (Record, Record) -> real, names: set<Value>,
                       totals: map<Value, real>, byPeriod: map<Value, seq<PeriodPay>>,
                       totals': map<Value, real>, byPeriod': map<Value, seq<PeriodPay>>)
    requires 0 <= i < |ps|
    requires Accumulated(ps[..i], es, f, names, totals, byPeriod)
    requires RowAccumulated(ps[i], es, f, names, totals, byPeriod, totals', byPeriod')
    ensures Accumulated(ps[..i + 1], es, f, names, totals', byPeriod')
  {
    var qs := ps[..i + 1];
    assert qs[..i] == ps[..i];
    assert qs[i] == ps[i];
  }

  /** One more period: its data is stored under its name. */
  lemma PeriodTableStep(ps: seq<Record>, i: int, es: seq<Record>, f: (Record, Record) -> real)
    requires 0 <= i < |ps|
    ensures PeriodTable(ps[..i + 1], es, f) == PeriodTable(ps[..i], es, f)[NameOf(ps[i]) := PeriodDataOf(ps[i], es, f)]
  {
    var qs := ps[..i + 1];
    assert qs[..i] == ps[..i];
    assert qs[i] == ps[i];
  }

  /**
   * The running totals and lists within one period p, after the employee records es:
   * each name has gained its amounts of p over es.
   */
  ghost predicate RowAccumulated(p: Record, es: seq<Record>, f: (Record, Record) -> real, names: set<Value>,
                                 totals0: map<Value, real>, byPeriod0: map<Value, seq<PeriodPay>>,
                                 totals: map<Value, real>, byPeriod: map<Value, seq<PeriodPay>>)
    requires totals0.Keys == names && byPeriod0.Keys == names
  {
    totals.Keys == names && byPeriod.Keys == names
    && (forall n :: n in names ==> totals[n] == totals0[n] + SumRow(p, es, Masked(f, n)))
    && (forall n :: n in names ==> byPeriod[n] == byPeriod0[n] + RowEntries(p, es, f, n))
  }

  /**
   * One employee record's step of the inner loop: its amount goes to its own name's total
   * and list and to no other name's, and to the period's total and amounts.
   */
  lemma RowStep(p: Record, es: seq<Record>, j: int, f: (Record, Record) -> real, names: set<Value>,
                totals0: map<Value, real>, byPeriod0: map<Value, seq<PeriodPay>>,
                totals: map<Value, real>, byPeriod: map<Value, seq<PeriodPay>>, total: real, row: PeriodData,
                amount: real)
    requires 0 <= j < |es| && "name" in es[j]
    requires totals0.Keys == names && byPeriod0.Keys == names && NameOf(es[j]) in names && amount == f(p, es[j])
    requires RowState(p, es, j, f, names, totals0, byPeriod0, totals, byPeriod, total, row)
    ensures RowState(p, es, j + 1, f, names, totals0, byPeriod0,
                     totals[NameOf(es[j]) := totals[NameOf(es[j])] + amount],
                     byPeriod[NameOf(es[j]) := byPeriod[NameOf(es[j])] + [PeriodPay(NameOf(p), amount)]],
                     total + amount, row[NameOf(es[j]) := Real(amount)])
  {
    PrefixGrows(es, j);
    RowAppend(p, es[..j], es[j], f, names, totals0, byPeriod0, totals, byPeriod, amount);
  }

  /**
   * The state of the inner loop of `generate_report` after the first j employee records:
   * the names' totals and lists, the period's total and its data.
   */
  ghost predicate RowState(p: Record, es: seq<Record>, j: int, f: (Record, Record) -> real, names: set<Value>,
                           totals0: map<Value, real>, byPeriod0: map<Value, seq<PeriodPay>>,
                           totals: map<Value, real>, byPeriod: map<Value, seq<PeriodPay>>, total: real, row: PeriodData)
    requires totals0.Keys == names && byPeriod0.Keys == names
  {
    0 <= j <= |es|
    && RowAccumulated(p, es[..j], f, names, totals0, byPeriod0, totals, byPeriod)
    && total == SumRow(p, es[..j], f)
    && row == RowData(p, es[..j], f)
  }

  /** RowStep for the record e appended to es. */
  lemma RowAppend(p: Record, es: seq<Record>, e: Record, f: (Record, Record) -> real, names: set<Value>,
                  totals0: map<Value, real>, byPeriod0: map<Value, seq<PeriodPay>>,
                  totals: map<Value, real>, byPeriod: map<Value, seq<PeriodPay>>, amount: real)
    requires totals0.Keys == names && byPeriod0.Keys == names && NameOf(e) in names && amount == f(p, e)
    requires RowAccumulated(p, es, f, names, totals0, byPeriod0, totals, byPeriod)
    ensures RowAccumulated(p, es + [e], f, names, totals0, byPeriod0,
                           totals[NameOf(e) := totals[NameOf(e)] + amount],
                           byPeriod[NameOf(e) := byPeriod[NameOf(e)] + [PeriodPay(NameOf(p), amount)]])
    ensures SumRow(p, es + [e], f) == SumRow(p, es, f) + amount
    ensures RowData(p, es + [e], f) == RowData(p, es, f)[NameOf(e) := Real(amount)]
  {
    var ne := NameOf(e);
    var pp := PeriodPay(NameOf(p), amount);
    var totals' := totals[ne := totals[ne] + amount];
    var byPeriod' := byPeriod[ne := byPeriod[ne] + [pp]];
    forall n | n in names
      ensures totals'[n] == totals0[n] + SumRow(p, es + [e], Masked(f, n))
      ensures byPeriod'[n] == byPeriod0[n] + RowEntries(p, es + [e], f, n)
    {
      NameStep(p, es, e, f, n, totals0[n], byPeriod0[n], totals, byPeriod, amount);
    }
    RowGrows(p, es, e, f, ne, amount);
  }

  /** The step of RowStep for one name n. */
  lemma NameStep(p: Record, es: seq<Record>, e: Record, f: (Record, Record) -> real, n: Value,
                 total0: real, list0: seq<PeriodPay>,
                 totals: map<Value, real>, byPeriod: map<Value, seq<PeriodPay>>, amount: real)
    requires amount == f(p, e) && n in totals && n in byPeriod && NameOf(e) in totals && NameOf(e) in byPeriod
    requires totals[n] == total0 + SumRow(p, es, Masked(f, n))
    requires byPeriod[n] == list0 + RowEntries(p, es, f, n)
    ensures totals[NameOf(e) := totals[NameOf(e)] + amount][n] == total0 + SumRow(p, es + [e], Masked(f, n))
    ensures byPeriod[NameOf(e) := byPeriod[NameOf(e)] + [PeriodPay(NameOf(p), amount)]][n]
            == list0 + RowEntries(p, es + [e], f, n)
  {
    RowGrows(p, es, e, f, n, amount);
    var pp := PeriodPay(NameOf(p), amount);
    if n == NameOf(e) {
      assert (list0 + RowEntries(p, es, f, n)) + [pp] == list0 + (RowEntries(p, es, f, n) + [pp]);
    } else {
      assert RowEntries(p, es, f, n) + [] == RowEntries(p, es, f, n);
    }
  }

  /** What one more record adds to a name's share of a period, to its items and to the period's sums. */
  lemma RowGrows(p: Record, es: seq<Record>, e: Record, f: (Record, Record) -> real, n: Value, amount: real)
    requires amount == f(p, e)
    ensures SumRow(p, es + [e], Masked(f, n)) == SumRow(p, es, Masked(f, n)) + (if NameOf(e) == n then amount else 0.0)
    ensures RowEntries(p, es + [e], f, n) ==
              RowEntries(p, es, f, n) + (if NameOf(e) == n then [PeriodPay(NameOf(p), amount)] else [])
    ensures SumRow(p, es + [e], f) == SumRow(p, es, f) + amount
    ensures RowData(p, es + [e], f) == RowData(p, es, f)[NameOf(e) := Real(amount)]
  {
    var qs := es + [e];
    assert qs[..|qs| - 1] == es;
    assert qs[|qs| - 1] == e;
  }

  // ----- generate_report -----

  /** The amount of e in period p is e's pay in p's timesheet. */
  lemma AmountIs(timesheets: map<Value, Timesheet>, cv: Conversions, p: Record, e: Record)
    ensures Amount(timesheets, cv)(p, e) == EmployeeTotal(TimesheetAt(timesheets, IdOf(p)), NameOf(e), cv)
  {
  }

  /**
   * The body of `generate_report`'s loop for one period: every employee record's amount is
   * added to its name's total and appended to its name's list, and the period's data is built.
   */
  method ProcessPeriod(p: Record, employees: seq<Record>, timesheets: map<Value, Timesheet>, cv: Conversions,
                       totals: map<Value, real>, byPeriod: map<Value, seq<PeriodPay>>)
    returns (totals': map<Value, real>, byPeriod': map<Value, seq<PeriodPay>>, data: PeriodData)
    requires "id" in p && "name" in p && AllHave(employees, "name")
    requires totals.Keys == byPeriod.Keys && forall i :: 0 <= i < |employees| ==> employees[i]["name"] in totals
    ensures RowAccumulated(p, employees, Amount(timesheets, cv), totals.Keys, totals, byPeriod, totals', byPeriod')
    ensures data == PeriodDataOf(p, employees, Amount(timesheets, cv))
  {
    ghost var names := totals.Keys;
    ghost var f := Amount(timesheets, cv);
    var ts := TimesheetAt(timesheets, IdOf(p));
    var periodTotal := 0.0;
    var row := map[PeriodKey := NameOf(p)];
    totals', byPeriod' := totals, byPeriod;
    var j := 0;
    assert employees[..0] == [];
    while j < |employees|
      invariant RowState(p, employees, j, f, names, totals, byPeriod, totals', byPeriod', periodTotal, row)
    {
      var name := NameOf(employees[j]);
      var amount := EmployeePeriodTotal(ts, name, cv);
      AmountIs(timesheets, cv, p, employees[j]);
      RowStep(p, employees, j, f, names, totals, byPeriod, totals', byPeriod', periodTotal, row, amount);
      totals' := totals'[name := totals'[name] + amount];
      byPeriod' := byPeriod'[name := byPeriod'[name] + [PeriodPay(NameOf(p), amount)]];
      periodTotal := periodTotal + amount;
      row := row[name := Real(amount)];
      j := j + 1;
    }
    assert employees[..j] == employees;
    data := row[TotalKey := Real(periodTotal)];
  }

  /** One period of the loop of `generate_report`: its amounts join the running totals and lists. */
  method AccumulatePeriod(periods: seq<Record>, i: int, employees: seq<Record>, timesheets: map<Value, Timesheet>,
                          cv: Conversions, ghost names: set<Value>, totals: map<Value, real>,
                          byPeriod: map<Value, seq<PeriodPay>>)
    returns (totals': map<Value, real>, byPeriod': map<Value, seq<PeriodPay>>, data: PeriodData)
    requires 0 <= i < |periods| && "id" in periods[i] && "name" in periods[i] && AllHave(employees, "name")
    requires forall k :: 0 <= k < |employees| ==> employees[k]["name"] in names
    requires Accumulated(periods[..i], employees, Amount(timesheets, cv), names, totals, byPeriod)
    ensures Accumulated(periods[..i + 1], employees, Amount(timesheets, cv), names, totals', byPeriod')
    ensures data == PeriodDataOf(periods[i], employees, Amount(timesheets, cv))
  {
    totals', byPeriod', data := ProcessPeriod(periods[i], employees, timesheets, cv, totals, byPeriod);
    AccumulateStep(periods, i, employees, Amount(timesheets, cv), names, totals, byPeriod, totals', byPeriod');
  }

  /**
   * The loop of `generate_report` over the periods: starting from 0 and an empty list for
   * every name, each period's amounts are accumulated and its data is stored under its name.
   */
  method AccumulatePeriods(periods: seq<Record>, employees: seq<Record>, timesheets: map<Value, Timesheet>,
                           cv: Conversions, names: set<Value>)
    returns (totals: map<Value, real>, byPeriod: map<Value, seq<PeriodPay>>, periodTotals: map<Value, PeriodData>)
    requires AllHave(periods, "id") && AllHave(periods, "name") && AllHave(employees, "name")
    requires forall i :: 0 <= i < |employees| ==> employees[i]["name"] in names
    ensures Accumulated(periods, employees, Amount(timesheets, cv), names, totals, byPeriod)
    ensures periodTotals == PeriodTable(periods, employees, Amount(timesheets, cv))
  {
    ghost var f := Amount(timesheets, cv);
    totals := map n | n in names :: 0.0;
    byPeriod := map n | n in names :: [];
    AccumulatedStart(periods, employees, f, names, totals, byPeriod);
    periodTotals := map[];
    var i := 0;
    while i < |periods|
      invariant 0 <= i <= |periods|
      invariant totals.Keys == names && byPeriod.Keys == names
      invariant Accumulated(periods[..i], employees, f, names, totals, byPeriod)
      invariant periodTotals == PeriodTable(periods[..i], employees, f)
    {
      var data;
      totals, byPeriod, data := AccumulatePeriod(periods, i, employees, timesheets, cv, names, totals, byPeriod);
      PeriodTableStep(periods, i, employees, f);
      periodTotals := periodTotals[NameOf(periods[i]) := data];
      i := i + 1;
    }
    assert periods[..i] == periods;
  }

  /** `periods_processed`: the names of the periods processed, in order. */
  function NamesOf(ps: seq<Record>): (names: seq<Value>)
    requires AllHave(ps, "name")
    ensures |names| == |ps| && forall i :: 0 <= i < |ps| ==> names[i] == ps[i]["name"]
  {
    seq(|ps|, i requires 0 <= i < |ps| => ps[i]["name"])
  }

  /**
   * `generate_report(period_id)` up to its charts: the loop over the periods processed, with
   * the running totals of every employee name, and the names with pay.
   */
  method GenerateReport(store: JsonStore, periodId: Value, cv: Conversions) returns (rep: ReportData)
    requires store.Valid()
    ensures var periods := PeriodsToProcess(store.payPeriods, periodId);
            var names := ValuesOf(store.employees, "name");
            var f := Amount(store.timesheets, cv);
            rep.totals.Keys == names && rep.byPeriod.Keys == names
            && (forall n :: n in names ==> rep.totals[n] == NameTotal(periods, store.employees, f, n))
            && (forall n :: n in names ==> rep.byPeriod[n] == EntriesFor(periods, store.employees, f, n))
            && rep.periodTotals == PeriodTable(periods, store.employees, f)
            && rep.active == ActiveNames(store.employees, rep.totals)
            && |rep.processed| == |periods| && (forall i :: 0 <= i < |periods| ==> rep.processed[i] == periods[i]["name"])
  {
    var periods := PeriodsToProcess(store.payPeriods, periodId);
    var names := ValuesOf(store.employees, "name");
    var totals, byPeriod, periodTotals := AccumulatePeriods(periods, store.employees, store.timesheets, cv, names);
    var active := ActiveNames(store.employees, totals);
    rep := ReportData(totals, byPeriod, periodTotals, active, NamesOf(periods));
  }

  // ----- what the totals amount to -----

  /**
   * Within one period, the record es[k] is the only one named NameOf(es[k]) when names are
   * distinct: its name's share of the period is its own amount, and it appends one item.
   */
  lemma {:induction false} SingleRecordRow(p: Record, es: seq<Record>, f: (Record, Record) -> real, k: int, j: int)
    requires AllHave(es, "name") && Distinct(es, "name") && 0 <= k < |es| && 0 <= j <= |es|
    ensures SumRow(p, es[..j], Masked(f, NameOf(es[k]))) == if k < j then f(p, es[k]) else 0.0
    ensures RowEntries(p, es[..j], f, NameOf(es[k])) == if k < j then [PeriodPay(NameOf(p), f(p, es[k]))] else []
    ensures k < j ==> NameOf(es[k]) in RowData(p, es[..j], f) && RowData(p, es[..j], f)[NameOf(es[k])] == Real(f(p, es[k]))
  {
    if j > 0 {
      SingleRecordRow(p, es, f, k, j - 1);
      PrefixGrows(es, j - 1);
      RowGrows(p, es[..j - 1], es[j - 1], f, NameOf(es[k]), f(p, es[j - 1]));
      assert j - 1 != k ==> NameOf(es[j - 1]) != NameOf(es[k]) by {
        if j - 1 < k {
          assert es[j - 1]["name"] != es[k]["name"];
        } else if k < j - 1 {
          assert es[k]["name"] != es[j - 1]["name"];
        }
      }
    }
  }

  /** With distinct names, an employee's total is the sum of their own amounts over the periods. */
  lemma {:induction false} NameTotalDistinct(ps: seq<Record>, es: seq<Record>, f: (Record, Record) -> real, k: int)
    requires AllHave(es, "name") && Distinct(es, "name") && 0 <= k < |es|
    ensures NameTotal(ps, es, f, NameOf(es[k])) == SumCol(ps, es[k], f)
  {
    if ps != [] {
      NameTotalDistinct(ps[..|ps| - 1], es, f, k);
      SingleRecordRow(ps[|ps| - 1], es, f, k, |es|);
      assert es[..|es|] == es;
    }
  }

  /**
   * With distinct names, an employee's list has exactly one item per period processed, in
   * period order: the period's name and the employee's amount in it.
   */
  lemma {:induction false} EntriesDistinct(ps: seq<Record>, es: seq<Record>, f: (Record, Record) -> real, k: int)
    requires AllHave(es, "name") && Distinct(es, "name") && 0 <= k < |es|
    ensures |EntriesFor(ps, es, f, NameOf(es[k]))| == |ps|
    ensures forall i :: 0 <= i < |ps| ==>
              EntriesFor(ps, es, f, NameOf(es[k]))[i] == PeriodPay(NameOf(ps[i]), f(ps[i], es[k]))
  {
    if ps != [] {
      var qs := ps[..|ps| - 1];
      var n := NameOf(es[k]);
      EntriesDistinct(qs, es, f, k);
      SingleRecordRow(ps[|ps| - 1], es, f, k, |es|);
      assert es[..|es|] == es;
      var last := [PeriodPay(NameOf(ps[|ps| - 1]), f(ps[|ps| - 1], es[k]))];
      assert EntriesFor(ps, es, f, n) == EntriesFor(qs, es, f, n) + last;
      forall i | 0 <= i < |ps|
        ensures EntriesFor(ps, es, f, n)[i] == PeriodPay(NameOf(ps[i]), f(ps[i], es[k]))
      {
        if i < |qs| {
          assert qs[i] == ps[i];
        }
      }
    }
  }

  /**
   * With distinct names, a period's data holds each employee's own amount under their
   * name, unless that name is 'total', whose entry the period's total replaces.
   */
  lemma PeriodDataDistinct(p: Record, es: seq<Record>, f: (Record, Record) -> real, k: int)
    requires AllHave(es, "name") && Distinct(es, "name") && 0 <= k < |es| && NameOf(es[k]) != TotalKey
    ensures NameOf(es[k]) in PeriodDataOf(p, es, f)
    ensures PeriodDataOf(p, es, f)[NameOf(es[k])] == Real(f(p, es[k]))
  {
    SingleRecordRow(p, es, f, k, |es|);
    assert es[..|es|] == es;
  }

  /** Whatever the employees are called, 'total' holds the period's total: an employee named 'total' loses their amount. */
  lemma PeriodDataTotal(p: Record, es: seq<Record>, f: (Record, Record) -> real)
    ensures TotalKey in PeriodDataOf(p, es, f) && PeriodDataOf(p, es, f)[TotalKey] == Real(SumRow(p, es, f))
    ensures TotalOf(PeriodDataOf(p, es, f)) == SumRow(p, es, f)
  {
  }

  /**
   * 'period' holds the period's name unless an employee is named 'period'; then it holds
   * the amount of the last such employee instead.
   */
  lemma {:induction false} PeriodDataName(p: Record, es: seq<Record>, f: (Record, Record) -> real)
    ensures PeriodKey in PeriodDataOf(p, es, f)
    ensures (forall e :: e in es ==> NameOf(e) != PeriodKey) ==> PeriodDataOf(p, es, f)[PeriodKey] == NameOf(p)
    ensures forall k :: 0 <= k < |es| && NameOf(es[k]) == PeriodKey
                        && (forall j :: k < j < |es| ==> NameOf(es[j]) != PeriodKey) ==>
              PeriodDataOf(p, es, f)[PeriodKey] == Real(f(p, es[k]))
  {
    RowDataName(p, es, f);
  }

  lemma {:induction false} RowDataName(p: Record, es: seq<Record>, f: (Record, Record) -> real)
    ensures PeriodKey in RowData(p, es, f)
    ensures (forall e :: e in es ==> NameOf(e) != PeriodKey) ==> RowData(p, es, f)[PeriodKey] == NameOf(p)
    ensures forall k :: 0 <= k < |es| && NameOf(es[k]) == PeriodKey
                        && (forall j :: k < j < |es| ==> NameOf(es[j]) != PeriodKey) ==>
              RowData(p, es, f)[PeriodKey] == Real(f(p, es[k]))
  {
    if es != [] {
      var qs := es[..|es| - 1];
      RowDataName(p, qs, f);
      assert forall e :: e in qs ==> e in es;
    }
    forall k | 0 <= k < |es| && NameOf(es[k]) == PeriodKey && (forall j :: k < j < |es| ==> NameOf(es[j]) != PeriodKey)
      ensures RowData(p, es, f)[PeriodKey] == Real(f(p, es[k]))
    {
      LastNamedPeriod(p, es, f, k);
    }
  }

  /** The record es[k], the last one named 'period', has its amount under that key. */
  lemma {:induction false} LastNamedPeriod(p: Record, es: seq<Record>, f: (Record, Record) -> real, k: int)
    requires 0 <= k < |es| && NameOf(es[k]) == PeriodKey
    requires forall j :: k < j < |es| ==> NameOf(es[j]) != PeriodKey
    ensures PeriodKey in RowData(p, es, f) && RowData(p, es, f)[PeriodKey] == Real(f(p, es[k]))
  {
    var qs := es[..|es| - 1];
    if k < |es| - 1 {
      assert qs[k] == es[k];
      assert forall j :: k < j < |qs| ==> qs[j] == es[j];
      LastNamedPeriod(p, qs, f, k);
    }
  }

  /** The keys of a period's data: 'period', 'total' and the employee names. */
  lemma {:induction false} DataKeys(p: Record, es: seq<Record>, f: (Record, Record) -> real)
    ensures PeriodDataOf(p, es, f).Keys == {PeriodKey, TotalKey} + set e | e in es :: NameOf(e)
  {
    RowDataKeys(p, es, f);
  }

  lemma {:induction false} RowDataKeys(p: Record, es: seq<Record>, f: (Record, Record) -> real)
    ensures RowData(p, es, f).Keys == {PeriodKey} + set e | e in es :: NameOf(e)
  {
    if es != [] {
      var qs := es[..|es| - 1];
      RowDataKeys(p, qs, f);
      assert es == qs + [es[|es| - 1]];
    }
  }

  /**
   * `period_totals` has an entry for every period name, and each name holds the data of
   * the last period with that name.
   */
  lemma {:induction false} PeriodTableLast(ps: seq<Record>, es: seq<Record>, f: (Record, Record) -> real, k: int)
    requires 0 <= k < |ps| && forall j :: k < j < |ps| ==> NameOf(ps[j]) != NameOf(ps[k])
    ensures NameOf(ps[k]) in PeriodTable(ps, es, f)
    ensures PeriodTable(ps, es, f)[NameOf(ps[k])] == PeriodDataOf(ps[k], es, f)
  {
    if k < |ps| - 1 {
      var qs := ps[..|ps| - 1];
      assert forall j :: k < j < |qs| ==> qs[j] == ps[j];
      PeriodTableLast(qs, es, f, k);
    }
  }

  /** `period_totals` holds nothing but the processed periods' names. */
  lemma {:induction false} PeriodTableKeys(ps: seq<Record>, es: seq<Record>, f: (Record, Record) -> real)
    ensures PeriodTable(ps, es, f).Keys == set p | p in ps :: NameOf(p)
  {
    if ps != [] {
      var qs := ps[..|ps| - 1];
      PeriodTableKeys(qs, es, f);
      assert ps == qs + [ps[|ps| - 1]];
    }
  }

  lemma {:induction false} SumOfRows(ps: seq<Record>, es: seq<Record>, f: (Record, Record) -> real)
    ensures SumOf(ps, (p: Record) => SumRow(p, es, f)) == SumByRows(ps, es, f)
  {
    if ps != [] {
      SumOfRows(ps[..|ps| - 1], es, f);
    }
  }

  lemma {:induction false} SumOfCols(ps: seq<Record>, es: seq<Record>, f: (Record, Record) -> real)
    ensures SumOf(es, (e: Record) => SumCol(ps, e, f)) == SumByCols(ps, es, f)
  {
    if es != [] {
      SumOfCols(ps, es[..|es| - 1], f);
    }
  }

  /**
   * With distinct employee names, the employees' totals add up to the same amount as the
   * periods' totals: the two orders of the report's double sum agree.
   */
  lemma GrandTotals(ps: seq<Record>, es: seq<Record>, f: (Record, Record) -> real)
    requires AllHave(es, "name") && Distinct(es, "name")
    ensures SumOf(es, (e: Record) => NameTotal(ps, es, f, NameOf(e)))
            == SumOf(ps, (p: Record) => TotalOf(PeriodDataOf(p, es, f)))
  {
    forall i | 0 <= i < |es|
      ensures NameTotal(ps, es, f, NameOf(es[i])) == SumCol(ps, es[i], f)
    {
      NameTotalDistinct(ps, es, f, i);
    }
    SumOfPointwise(es, (e: Record) => NameTotal(ps, es, f, NameOf(e)), (e: Record) => SumCol(ps, e, f));
    SumOfCols(ps, es, f);
    SumOrderIrrelevant(ps, es, f);
    SumOfRows(ps, es, f);
    SumOfPointwise(ps, (p: Record) => TotalOf(PeriodDataOf(p, es, f)), (p: Record) => SumRow(p, es, f));
  }

  /** An employee name with no usable pay in any processed period totals 0. */
  lemma {:induction false} NoPayNoTotal(ps: seq<Record>, es: seq<Record>, f: (Record, Record) -> real, n: Value)
    requires forall i, j :: 0 <= i < |ps| && 0 <= j < |es| && NameOf(es[j]) == n ==> f(ps[i], es[j]) == 0.0
    ensures NameTotal(ps, es, f, n) == 0.0
  {
    if ps != [] {
      NoPayNoTotal(ps[..|ps| - 1], es, f, n);
      NoPayRow(ps[|ps| - 1], es, f, n, |ps| - 1, ps);
    }
  }

  lemma {:induction false} NoPayRow(p: Record, es: seq<Record>, f: (Record, Record) -> real, n: Value, i: int, ps: seq<Record>)
    requires 0 <= i < |ps| && p == ps[i]
    requires forall i, j :: 0 <= i < |ps| && 0 <= j < |es| && NameOf(es[j]) == n ==> f(ps[i], es[j]) == 0.0
    ensures SumRow(p, es, Masked(f, n)) == 0.0
  {
    if es != [] {
      var qs := es[..|es| - 1];
      assert forall j :: 0 <= j < |qs| ==> qs[j] == es[j];
      NoPayRow(p, qs, f, n, i, ps);
    }
  }
}
