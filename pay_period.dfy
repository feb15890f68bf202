/**
 * The pay period record of `ccpayroll/models/pay_period.py`: its dictionary form, the
 * list of its days, the name derived from its dates, and its deletion together with its
 * timesheet entries.
 */
module PayPeriods {
  import opened Wrappers
  import opened Values
  import opened Dates
  import opened Tables

  /** A pay period; the dates are meant to be `YYYY-MM-DD` text but are not checked. */
  datatype PayPeriod = PayPeriod(name: Value, startDate: Value, endDate: Value, id: Value)

  /** `to_dict()`. */
  function ToDict(p: PayPeriod): (d: Dict)
    ensures d.Keys == {"id", "name", "start_date", "end_date"}
  {
    map["id" := p.id, "name" := p.name, "start_date" := p.startDate, "end_date" := p.endDate]
  }

  /**
   * `from_dict(data)`, with `freshId` standing for the `uuid4()` used when there is no id;
   * None where a required key is missing (KeyError).
   */
  function FromDict(d: Dict, freshId: string): (r: Option<PayPeriod>)
    ensures r.None? <==> "name" !in d || "start_date" !in d || "end_date" !in d
    ensures r.Some? ==> r.value.name == d["name"] && r.value.startDate == d["start_date"] && r.value.endDate == d["end_date"]
    ensures r.Some? ==> r.value.id == if "id" in d then d["id"] else Text(freshId)
  {
    if "name" in d && "start_date" in d && "end_date" in d then
      Some(PayPeriod(d["name"], d["start_date"], d["end_date"], if "id" in d then d["id"] else Text(freshId)))
    else None
  }

  /** `from_dict(to_dict(p)) == p`. */
  lemma DictRoundTrip(p: PayPeriod, freshId: string)
    ensures FromDict(ToDict(p), freshId) == Some(p)
  {
  }

  // ----- days -----

  /** `datetime.strptime(v, '%Y-%m-%d')`; None where it raises. */
  function IsoDate(v: Value): Option<Date>
  {
    if v.Text? then Strptime(v.s, IsoFormat) else None
  }

  /** An entry of the list `get_days` returns: `{'date': ..., 'day': ...}`. */
  datatype DayItem = DayItem(date: string, day: string)

  /**
   * item describes the day with ordinal n: its date is that day written `YYYY-MM-DD` and
   * its name is the day's upper-case English weekday.
   */
  predicate IsDayItem(item: DayItem, n: int)
  {
    var d := Strptime(item.date, IsoFormat);
    d.Some? && Ordinal(d.value) == n && item.date == Strftime(d.value, IsoFormat)
    && item.day == WeekdayName(Weekday(d.value))
  }

  /**
   * `get_days()`: one item per day from the start date to the end date inclusive. None
   * where Python raises: a date that does not parse, or the step past 9999-12-31.
   */
  method GetDays(p: PayPeriod) returns (r: Option<seq<DayItem>>)
    ensures IsoDate(p.startDate).None? || IsoDate(p.endDate).None? ==> r.None?
    ensures IsoDate(p.startDate).Some? && IsoDate(p.endDate).Some? ==>
              var start, end := IsoDate(p.startDate).value, IsoDate(p.endDate).value;
              (r.None? <==> Ordinal(start) <= Ordinal(end) && end == MaxDate)
              && (r.Some? ==> |r.value| == (if Ordinal(start) <= Ordinal(end) then Ordinal(end) - Ordinal(start) + 1 else 0))
              && (r.Some? ==> forall k :: 0 <= k < |r.value| ==> IsDayItem(r.value[k], Ordinal(start) + k))
  {
    var s, e := IsoDate(p.startDate), IsoDate(p.endDate);
    if s.None? || e.None? {
      return None;
    }
    var start, end := s.value, e.value;
    var days: seq<DayItem> := [];
    var current := start;
    while Ordinal(current) <= Ordinal(end)
      invariant Valid(current)
      invariant Ordinal(current) == Ordinal(start) + |days|
      invariant Ordinal(start) <= Ordinal(end) + 1 ==> Ordinal(current) <= Ordinal(end) + 1
      invariant Ordinal(start) > Ordinal(end) ==> days == []
      invariant forall k :: 0 <= k < |days| ==> IsDayItem(days[k], Ordinal(start) + k)
      decreases Ordinal(end) - Ordinal(current)
    {
      IsoRoundTrip(current);
      days := days + [DayItem(Strftime(current, IsoFormat), WeekdayName(Weekday(current)))];
      var next := NextDay(current);
      if next.None? {
        // current is 9999-12-31, hence so is end
        OrdinalMax(end);
        return None;
      }
      current := next.value;
    }
    if end == MaxDate && Ordinal(start) <= Ordinal(end) {
      OrdinalMax(current);
      assert false;
    }
    return Some(days);
  }

  /** The description of a day is unique: two items for the same day are equal. */
  lemma DayItemUnique(a: DayItem, b: DayItem, n: int)
    requires IsDayItem(a, n) && IsDayItem(b, n)
    ensures a == b
  {
    var da, db := Strptime(a.date, IsoFormat).value, Strptime(b.date, IsoFormat).value;
    OrdinalInjective(da, db);
  }

  /** Consecutive items are consecutive calendar days, and their weekday names follow each other. */
  lemma ConsecutiveItems(a: DayItem, b: DayItem, n: int)
    requires IsDayItem(a, n) && IsDayItem(b, n + 1)
    ensures NextDay(Strptime(a.date, IsoFormat).value) == Strptime(b.date, IsoFormat)
    ensures b.day == WeekdayName((Weekday(Strptime(a.date, IsoFormat).value) + 1) % 7)
  {
    var da, db := Strptime(a.date, IsoFormat).value, Strptime(b.date, IsoFormat).value;
    NextDayOfOrdinal(da, db);
  }

  // ----- names -----

  /**
   * `generate_name_from_dates(start, end)`: "MM/DD/YY to MM/DD/YY", or "Pay Period MM/DD/YY"
   * with today's date when either date does not parse. The two-digit years read back as
   * the original dates for the years 1969-2068.
   */
  function GenerateNameFromDates(start: string, end: string, today: Date): (r: string)
    requires Valid(today)
    ensures Strptime(start, IsoFormat).Some? && Strptime(end, IsoFormat).Some? ==> |r| == 20 && r[8..12] == " to "
    ensures Strptime(start, IsoFormat).Some? && Strptime(end, IsoFormat).Some?
            && 1969 <= Strptime(start, IsoFormat).value.year <= 2068 ==>
              Strptime(r[..8], ShortSlashedFormat) == Strptime(start, IsoFormat)
    ensures Strptime(start, IsoFormat).Some? && Strptime(end, IsoFormat).Some?
            && 1969 <= Strptime(end, IsoFormat).value.year <= 2068 ==>
              Strptime(r[12..], ShortSlashedFormat) == Strptime(end, IsoFormat)
    ensures Strptime(start, IsoFormat).None? || Strptime(end, IsoFormat).None? ==> |r| == 19 && r[..11] == "Pay Period "
    ensures (Strptime(start, IsoFormat).None? || Strptime(end, IsoFormat).None?) && 1969 <= today.year <= 2068 ==>
              Strptime(r[11..], ShortSlashedFormat) == Some(today)
  {
    var s, e := Strptime(start, IsoFormat), Strptime(end, IsoFormat);
    if s.Some? && e.Some? then
      var a, b := Strftime(s.value, ShortSlashedFormat), Strftime(e.value, ShortSlashedFormat);
      ShortSlashedLength(s.value);
      ShortSlashedLength(e.value);
      var r := a + " to " + b;
      assert r[..8] == a && r[12..] == b;
      if 1969 <= s.value.year <= 2068 then
        ShortSlashedRoundTrip(s.value);
        if 1969 <= e.value.year <= 2068 then ShortSlashedRoundTrip(e.value); r else r
      else if 1969 <= e.value.year <= 2068 then ShortSlashedRoundTrip(e.value); r
      else r
    else
      var r := "Pay Period " + Strftime(today, ShortSlashedFormat);
      ShortSlashedLength(today);
      assert r[11..] == Strftime(today, ShortSlashedFormat);
      if 1969 <= today.year <= 2068 then ShortSlashedRoundTrip(today); r else r
  }

  lemma ShortSlashedLength(d: Date)
    requires Valid(d)
    ensures |Strftime(d, ShortSlashedFormat)| == 8
  {
    assert Strftime(d, [YearShort]) == Pad2(d.year % 100);
    assert Strftime(d, [Lit('/'), YearShort]) == "/" + Pad2(d.year % 100);
    assert Strftime(d, [DayNum, Lit('/'), YearShort]) == Pad2(d.day) + "/" + Pad2(d.year % 100);
    assert Strftime(d, [Lit('/'), DayNum, Lit('/'), YearShort]) == "/" + Pad2(d.day) + "/" + Pad2(d.year % 100);
  }

  // ----- delete -----

  /** The timesheet rows that remain once the rows of period `periodId` are gone. */
  function WithoutPeriod(entries: map<int, Entry>, periodId: Value): (r: map<int, Entry>)
    ensures r.Keys <= entries.Keys
    ensures forall id :: id in r ==> r[id] == entries[id] && Column(r[id], "period_id") != periodId
    ensures forall id :: id in entries && Column(entries[id], "period_id") != periodId ==> id in r
  {
    map id | id in entries && Column(entries[id], "period_id") != periodId :: entries[id]
  }

  /** Removing a period's rows keeps the table's constraints, and doing it twice is doing it once. */
  lemma WithoutPeriodKeepsConstraints(entries: map<int, Entry>, nextRowId: int, periodId: Value)
    requires EntriesValid(entries, nextRowId)
    ensures EntriesValid(WithoutPeriod(entries, periodId), nextRowId)
    ensures WithoutPeriod(WithoutPeriod(entries, periodId), periodId) == WithoutPeriod(entries, periodId)
  {
    var r := WithoutPeriod(entries, periodId);
    forall a, b | a in r && b in r && a != b
      ensures KeyOf(r[a]) != KeyOf(r[b])
    {
      assert r[a] == entries[a] && r[b] == entries[b];
    }
  }

  /** Removing exactly the rows selected by period id leaves WithoutPeriod. */
  lemma RemovedRowsOfPeriod(entries: map<int, Entry>, periodId: Value, ids: set<int>, remaining: map<int, Entry>)
    requires ids == set id | id in entries && Column(entries[id], "period_id") == periodId
    requires remaining.Keys == entries.Keys - ids
    requires forall id :: id in remaining ==> remaining[id] == entries[id]
    ensures remaining == WithoutPeriod(entries, periodId)
  {
    forall id | id in entries
      ensures id in remaining <==> Column(entries[id], "period_id") != periodId
    {
      assert id in ids <==> Column(entries[id], "period_id") == periodId;
    }
    assert remaining.Keys == WithoutPeriod(entries, periodId).Keys;
    forall id | id in remaining
      ensures remaining[id] == WithoutPeriod(entries, periodId)[id]
    {
    }
  }

  /**
   * `delete()`: select the ids of the period's timesheet rows, delete them one by one,
   * then delete the period's own row. Every other period and row is left as it was.
   */
  method Delete(p: PayPeriod, db: Database)
    requires db.Valid()
    modifies db
    ensures db.Valid()
    ensures db.payPeriods == old(db.payPeriods) - {p.id}
    ensures db.entries == WithoutPeriod(old(db.entries), p.id)
    ensures db.employees == old(db.employees) && db.nextRowId == old(db.nextRowId)
  {
    // the transaction's view of the table; it is committed as a whole
    var entries := db.entries;
    var ids := set id | id in db.entries && Column(db.entries[id], "period_id") == p.id;
    var rest := ids;
    while rest != {}
      invariant rest <= ids <= db.entries.Keys
      invariant entries.Keys == db.entries.Keys - (ids - rest)
      invariant forall id :: id in entries ==> entries[id] == db.entries[id]
      invariant unchanged(db)
      decreases |rest|
    {
      var id := PickOne(rest);
      entries := entries - {id};
      rest := rest - {id};
    }
    RemovedRowsOfPeriod(db.entries, p.id, ids, entries);
    WithoutPeriodKeepsConstraints(db.entries, db.nextRowId, p.id);
    db.entries := entries;
    db.payPeriods := db.payPeriods - {p.id};
  }
}
