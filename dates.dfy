/**
 * The calendar arithmetic the application gets from Python's `datetime`: proleptic
 * Gregorian dates from 0001-01-01 to 9999-12-31, their day numbers (`toordinal()`),
 * weekdays, stepping by one day (`+ timedelta(days=1)`), and the `strftime`/`strptime`
 * conversions for the formats the application uses.
 */
module Dates {
  import opened Wrappers
  import opened Values

  datatype Date = Date(year: int, month: int, day: int)

  predicate IsLeap(y: int)
  {
    y % 4 == 0 && (y % 100 != 0 || y % 400 == 0)
  }

  function DaysInYear(y: int): int
  {
    if IsLeap(y) then 366 else 365
  }

  function DaysInMonth(y: int, m: int): int
  {
    if m == 2 then (if IsLeap(y) then 29 else 28)
    else if m == 4 || m == 6 || m == 9 || m == 11 then 30
    else 31
  }

  /** The dates `datetime.date` accepts. */
  predicate Valid(d: Date)
  {
    1 <= d.year <= 9999 && 1 <= d.month <= 12 && 1 <= d.day <= DaysInMonth(d.year, d.month)
  }

  const MinDate := Date(1, 1, 1)
  const MaxDate := Date(9999, 12, 31)

  /** Days in the years before y. */
  function DaysBeforeYear(y: int): int
  {
    var p := y - 1;
    p * 365 + p / 4 - p / 100 + p / 400
  }

  /** Days in year y before the first of month m (m = 13 counts the whole year). */
  function DaysBeforeMonth(y: int, m: int): int
    requires 1 <= m <= 13
  {
    if m == 1 then 0 else DaysBeforeMonth(y, m - 1) + DaysInMonth(y, m - 1)
  }

  /** Python's `date.toordinal()`: 0001-01-01 is day 1. */
  function Ordinal(d: Date): int
    requires 1 <= d.month <= 12
  {
    DaysBeforeYear(d.year) + DaysBeforeMonth(d.year, d.month) + d.day
  }

  /** Python's `date.weekday()`: Monday is 0, Sunday is 6. */
  function Weekday(d: Date): (w: int)
    requires 1 <= d.month <= 12
    ensures 0 <= w < 7
  {
    (Ordinal(d) + 6) % 7
  }

  /** The weekday depends on the day number alone. */
  lemma WeekdayOfOrdinal(d: Date, n: int)
    requires 1 <= d.month <= 12 && Ordinal(d) == n
    ensures Weekday(d) == (n + 6) % 7
  {
  }

  const Saturday := 5
  const Sunday := 6

  /** `strftime('%A').upper()` in the C locale. */
  function WeekdayName(w: int): string
    requires 0 <= w < 7
  {
    ["MONDAY", "TUESDAY", "WEDNESDAY", "THURSDAY", "FRIDAY", "SATURDAY", "SUNDAY"][w]
  }

  // ----- the arithmetic of day numbers -----

  /** One more day in each of the terms of DaysBeforeYear exactly when y is a multiple of it. */
  lemma LeapTerms(p: int)
    ensures (p + 1) / 4 - p / 4 == if (p + 1) % 4 == 0 then 1 else 0
    ensures (p + 1) / 100 - p / 100 == if (p + 1) % 100 == 0 then 1 else 0
    ensures (p + 1) / 400 - p / 400 == if (p + 1) % 400 == 0 then 1 else 0
  {
  }

  /** Multiples of 400 are multiples of 100, which are multiples of 4. */
  lemma DivisorChain(y: int)
    ensures y % 400 == 0 ==> y % 100 == 0
    ensures y % 100 == 0 ==> y % 4 == 0
  {
    if y % 400 == 0 {
      assert y == 100 * (4 * (y / 400));
      MultipleMod(4 * (y / 400));
    }
    if y % 100 == 0 {
      assert y == 4 * (25 * (y / 100));
      MultipleMod(25 * (y / 100));
    }
  }

  /** A multiple of 100 leaves no remainder modulo 100, and one of 4 none modulo 4. */
  lemma MultipleMod(m: int)
    ensures (100 * m) % 100 == 0 && (4 * m) % 4 == 0
  {
  }

  lemma YearStep(y: int)
    ensures DaysBeforeYear(y + 1) == DaysBeforeYear(y) + DaysInYear(y)
  {
    LeapTerms(y - 1);
    DivisorChain(y);
  }

  lemma {:induction false} YearsGrow(y1: int, y2: int)
    requires y1 <= y2
    ensures DaysBeforeYear(y1) + 365 * (y2 - y1) <= DaysBeforeYear(y2)
    decreases y2 - y1
  {
    if y1 < y2 {
      YearStep(y1);
      YearsGrow(y1 + 1, y2);
    }
  }

  lemma WholeYear(y: int)
    ensures DaysBeforeMonth(y, 13) == DaysInYear(y)
  {
    assert DaysBeforeMonth(y, 2) == 31;
    assert DaysBeforeMonth(y, 3) == 31 + DaysInMonth(y, 2);
    assert DaysBeforeMonth(y, 4) == 62 + DaysInMonth(y, 2);
    assert DaysBeforeMonth(y, 5) == 92 + DaysInMonth(y, 2);
    assert DaysBeforeMonth(y, 6) == 123 + DaysInMonth(y, 2);
    assert DaysBeforeMonth(y, 7) == 153 + DaysInMonth(y, 2);
    assert DaysBeforeMonth(y, 8) == 184 + DaysInMonth(y, 2);
    assert DaysBeforeMonth(y, 9) == 215 + DaysInMonth(y, 2);
    assert DaysBeforeMonth(y, 10) == 245 + DaysInMonth(y, 2);
    assert DaysBeforeMonth(y, 11) == 276 + DaysInMonth(y, 2);
    assert DaysBeforeMonth(y, 12) == 306 + DaysInMonth(y, 2);
  }

  lemma {:induction false} MonthsGrow(y: int, m1: int, m2: int)
    requires 1 <= m1 <= m2 <= 13
    ensures DaysBeforeMonth(y, m1) + 28 * (m2 - m1) <= DaysBeforeMonth(y, m2)
    decreases m2 - m1
  {
    if m1 < m2 {
      MonthsGrow(y, m1, m2 - 1);
    }
  }

  /** The days of month m end no later than the year does. */
  lemma MonthInYear(y: int, m: int)
    requires 1 <= m <= 12
    ensures DaysBeforeMonth(y, m + 1) == DaysBeforeMonth(y, m) + DaysInMonth(y, m)
    ensures 0 <= DaysBeforeMonth(y, m) && DaysBeforeMonth(y, m + 1) <= DaysInYear(y)
  {
    MonthsGrow(y, 1, m);
    WholeYear(y);
    MonthsGrow(y, m + 1, 13);
  }

  /** Where a date's day number falls: inside its year, inside its month. */
  lemma OrdinalBounds(d: Date)
    requires Valid(d)
    ensures DaysBeforeYear(d.year) + DaysBeforeMonth(d.year, d.month) < Ordinal(d)
    ensures Ordinal(d) <= DaysBeforeYear(d.year) + DaysBeforeMonth(d.year, d.month + 1)
    ensures DaysBeforeYear(d.year) < Ordinal(d) <= DaysBeforeYear(d.year + 1)
  {
    YearStep(d.year);
    MonthInYear(d.year, d.month);
  }

  /** 9999-12-31 has the largest day number. */
  lemma OrdinalMax(d: Date)
    requires Valid(d)
    ensures Ordinal(d) <= Ordinal(MaxDate)
    ensures Ordinal(d) == Ordinal(MaxDate) ==> d == MaxDate
  {
    OrdinalBounds(d);
    OrdinalBounds(MaxDate);
    YearsGrow(d.year + 1, 10000);
    YearStep(9999);
    WholeYear(9999);
    if Ordinal(d) == Ordinal(MaxDate) {
      OrdinalInjective(d, MaxDate);
    }
  }

  /** Valid dates with the same day number fall in the same year. */
  lemma SameYear(a: Date, b: Date)
    requires Valid(a) && Valid(b) && Ordinal(a) == Ordinal(b)
    ensures a.year == b.year
  {
    OrdinalBounds(a);
    OrdinalBounds(b);
    if a.year < b.year {
      YearsGrow(a.year + 1, b.year);
      assert false;
    } else if b.year < a.year {
      YearsGrow(b.year + 1, a.year);
      assert false;
    }
  }

  /** Distinct valid dates have distinct day numbers. */
  lemma OrdinalInjective(a: Date, b: Date)
    requires Valid(a) && Valid(b) && Ordinal(a) == Ordinal(b)
    ensures a == b
  {
    SameYear(a, b);
    MonthInYear(a.year, a.month);
    MonthInYear(a.year, b.month);
    if a.month < b.month {
      MonthsGrow(a.year, a.month + 1, b.month);
      assert false;
    } else if b.month < a.month {
      MonthsGrow(a.year, b.month + 1, a.month);
      assert false;
    }
  }

  /** Day numbers run from 1 (0001-01-01) upwards. */
  lemma OrdinalPositive(d: Date)
    requires Valid(d)
    ensures Ordinal(d) >= 1
    ensures Ordinal(d) == 1 ==> d == MinDate
  {
    OrdinalBounds(d);
    YearsGrow(1, d.year);
    if d.month > 1 {
      MonthsGrow(d.year, 1, d.month);
    }
  }

  /** The day after d, or None past 9999-12-31 (where Python raises OverflowError). */
  function NextDay(d: Date): (r: Option<Date>)
    requires Valid(d)
    ensures r.None? <==> d == MaxDate
    ensures r.Some? ==> Valid(r.value) && Ordinal(r.value) == Ordinal(d) + 1
  {
    if d.day < DaysInMonth(d.year, d.month) then Some(Date(d.year, d.month, d.day + 1))
    else if d.month < 12 then Some(Date(d.year, d.month + 1, 1))
    else if d.year < 9999 then
      YearStep(d.year);
      WholeYear(d.year);
      Some(Date(d.year + 1, 1, 1))
    else None
  }

  /** The day before d, or None before 0001-01-01 (where Python raises OverflowError). */
  function PrevDay(d: Date): (r: Option<Date>)
    requires Valid(d)
    ensures r.None? <==> d == MinDate
    ensures r.Some? ==> Valid(r.value) && Ordinal(r.value) == Ordinal(d) - 1
  {
    if d.day > 1 then Some(Date(d.year, d.month, d.day - 1))
    else if d.month > 1 then Some(Date(d.year, d.month - 1, DaysInMonth(d.year, d.month - 1)))
    else if d.year > 1 then
      YearStep(d.year - 1);
      WholeYear(d.year - 1);
      Some(Date(d.year - 1, 12, 31))
    else None
  }

  /** `d - timedelta(days=k)`; None where the result would precede 0001-01-01. */
  function MinusDays(d: Date, k: nat): (r: Option<Date>)
    requires Valid(d)
    ensures r.None? <==> Ordinal(d) - k < 1
    ensures r.Some? ==> Valid(r.value) && Ordinal(r.value) == Ordinal(d) - k
    decreases k
  {
    if k == 0 then
      OrdinalPositive(d);
      Some(d)
    else
      match PrevDay(d)
      case None =>
        assert Ordinal(MinDate) == 1;
        None
      case Some(p) => MinusDays(p, k - 1)
  }

  /** The day whose ordinal is one more is the next day, one weekday on. */
  lemma NextDayOfOrdinal(a: Date, b: Date)
    requires Valid(a) && Valid(b) && Ordinal(b) == Ordinal(a) + 1
    ensures NextDay(a) == Some(b)
    ensures Weekday(b) == (Weekday(a) + 1) % 7
  {
    OrdinalMax(b);
    assert a != MaxDate;
    var next := NextDay(a);
    OrdinalInjective(next.value, b);
    WeekdayStep(a, b);
  }

  /** The day numbered one more is one weekday on. */
  lemma WeekdayStep(a: Date, b: Date)
    requires 1 <= a.month <= 12 && 1 <= b.month <= 12 && Ordinal(b) == Ordinal(a) + 1
    ensures Weekday(b) == (Weekday(a) + 1) % 7
  {
    var n := Ordinal(a);
    WeekdayOfOrdinal(a, n);
    WeekdayOfOrdinal(b, n + 1);
    SevenStep(n + 6);
  }

  lemma SevenStep(x: int)
    ensures (x + 1) % 7 == (x % 7 + 1) % 7
  {
  }

  // ----- strftime / strptime -----

  /** The directives of the formats the application uses. */
  datatype Directive = YearFull | YearShort | MonthNum | DayNum | Lit(c: char)

  type Format = seq<Directive>

  const IsoFormat: Format := [YearFull, Lit('-'), MonthNum, Lit('-'), DayNum]            // %Y-%m-%d
  const SlashedFormat: Format := [MonthNum, Lit('/'), DayNum, Lit('/'), YearFull]        // %m/%d/%Y
  const ShortSlashedFormat: Format := [MonthNum, Lit('/'), DayNum, Lit('/'), YearShort]  // %m/%d/%y
  const ShortDottedFormat: Format := [MonthNum, Lit('.'), DayNum, Lit('.'), YearShort]   // %m.%d.%y

  function DigitChar(n: int): char
    requires 0 <= n <= 9
  {
    ('0' as int + n) as char
  }

  function DigitValue(c: char): int
  {
    c as int - '0' as int
  }

  function Pad2(n: int): string
    requires 0 <= n < 100
  {
    [DigitChar(n / 10), DigitChar(n % 10)]
  }

  function Pad4(n: int): string
    requires 0 <= n < 10000
  {
    [DigitChar(n / 1000), DigitChar(n / 100 % 10), DigitChar(n / 10 % 10), DigitChar(n % 10)]
  }

  function Render(d: Date, x: Directive): string
    requires Valid(d)
  {
    match x
    case YearFull => Pad4(d.year)
    case YearShort => Pad2(d.year % 100)
    case MonthNum => Pad2(d.month)
    case DayNum => Pad2(d.day)
    case Lit(c) => [c]
  }

  /** `d.strftime(fmt)`. */
  function Strftime(d: Date, fmt: Format): string
    requires Valid(d)
  {
    if fmt == [] then "" else Render(d, fmt[0]) + Strftime(d, fmt[1..])
  }

  /** A field read by strptime: its value and the index just past it. */
  datatype Field = Field(value: int, next: nat)

  /** `%Y`: exactly four digits. */
  function ScanYearFull(s: string, i: nat): Option<Field>
  {
    if i + 4 <= |s| && IsDigit(s[i]) && IsDigit(s[i + 1]) && IsDigit(s[i + 2]) && IsDigit(s[i + 3])
    then Some(Field(1000 * DigitValue(s[i]) + 100 * DigitValue(s[i + 1]) + 10 * DigitValue(s[i + 2]) + DigitValue(s[i + 3]), i + 4))
    else None
  }

  /** `%y`: exactly two digits; 00-68 are 2000-2068, 69-99 are 1969-1999. */
  function ScanYearShort(s: string, i: nat): Option<Field>
  {
    if i + 2 <= |s| && IsDigit(s[i]) && IsDigit(s[i + 1]) then
      var v := 10 * DigitValue(s[i]) + DigitValue(s[i + 1]);
      Some(Field(if v <= 68 then 2000 + v else 1900 + v, i + 2))
    else None
  }

  /** `%m`: the first of the alternatives 1[0-2], 0[1-9], [1-9] that matches. */
  function ScanMonth(s: string, i: nat): Option<Field>
  {
    if i + 2 <= |s| && s[i] == '1' && '0' <= s[i + 1] <= '2' then Some(Field(10 + DigitValue(s[i + 1]), i + 2))
    else if i + 2 <= |s| && s[i] == '0' && '1' <= s[i + 1] <= '9' then Some(Field(DigitValue(s[i + 1]), i + 2))
    else if i + 1 <= |s| && '1' <= s[i] <= '9' then Some(Field(DigitValue(s[i]), i + 1))
    else None
  }

  /** `%d`: the first of the alternatives 3[01], [12]\d, 0[1-9], [1-9], ' '[1-9] that matches. */
  function ScanDay(s: string, i: nat): Option<Field>
  {
    if i + 2 <= |s| && s[i] == '3' && '0' <= s[i + 1] <= '1' then Some(Field(30 + DigitValue(s[i + 1]), i + 2))
    else if i + 2 <= |s| && '1' <= s[i] <= '2' && IsDigit(s[i + 1]) then Some(Field(10 * DigitValue(s[i]) + DigitValue(s[i + 1]), i + 2))
    else if i + 2 <= |s| && s[i] == '0' && '1' <= s[i + 1] <= '9' then Some(Field(DigitValue(s[i + 1]), i + 2))
    else if i + 1 <= |s| && '1' <= s[i] <= '9' then Some(Field(DigitValue(s[i]), i + 1))
    else if i + 2 <= |s| && s[i] == ' ' && '1' <= s[i + 1] <= '9' then Some(Field(DigitValue(s[i + 1]), i + 2))
    else None
  }

  function Set(acc: Date, x: Directive, v: int): Date
  {
    match x
    case YearFull => acc.(year := v)
    case YearShort => acc.(year := v)
    case MonthNum => acc.(month := v)
    case DayNum => acc.(day := v)
    case Lit(_) => acc
  }

  function ScanDirective(s: string, i: nat, x: Directive): Option<Field>
  {
    match x
    case YearFull => ScanYearFull(s, i)
    case YearShort => ScanYearShort(s, i)
    case MonthNum => ScanMonth(s, i)
    case DayNum => ScanDay(s, i)
    case Lit(c) => if i < |s| && s[i] == c then Some(Field(0, i + 1)) else None
  }

  /**
   * Matches s[i..] against fmt, filling in acc. Taking the first alternative of each
   * directive that matches is what the regular expression does here: every numeric
   * directive is followed by a non-digit literal or by the end of the format, so a
   * shorter alternative can never let the rest of the match succeed where the longer failed.
   */
  function Scan(s: string, i: nat, fmt: Format, acc: Date): Option<Date>
    decreases |fmt|
  {
    if fmt == [] then (if i == |s| then Some(acc) else None)
    else
      match ScanDirective(s, i, fmt[0])
      case None => None
      case Some(f) => Scan(s, f.next, fmt[1..], Set(acc, fmt[0], f.value))
  }

  /** `datetime.strptime(s, fmt)` as a date; None where it raises ValueError. */
  function Strptime(s: string, fmt: Format): (r: Option<Date>)
    ensures r.Some? ==> Valid(r.value)
  {
    var fields := Scan(s, 0, fmt, Date(1900, 1, 1));
    if fields.Some? && Valid(fields.value) then fields else None
  }

  // ----- round trips -----

  /** The value a directive stands for in d. */
  function FieldOf(d: Date, x: Directive): int
  {
    match x
    case YearFull => d.year
    case YearShort => d.year
    case MonthNum => d.month
    case DayNum => d.day
    case Lit(_) => 0
  }

  lemma DigitRoundTrip(n: int)
    requires 0 <= n <= 9
    ensures IsDigit(DigitChar(n)) && DigitValue(DigitChar(n)) == n
  {
  }

  lemma ScanMonthPadded(u: string, i: nat, m: int)
    requires 1 <= m <= 12 && i + 2 <= |u| && u[i] == Pad2(m)[0] && u[i + 1] == Pad2(m)[1]
    ensures ScanMonth(u, i) == Some(Field(m, i + 2))
  {
    DigitRoundTrip(m / 10);
    DigitRoundTrip(m % 10);
  }

  lemma ScanDayPadded(u: string, i: nat, n: int)
    requires 1 <= n <= 31 && i + 2 <= |u| && u[i] == Pad2(n)[0] && u[i + 1] == Pad2(n)[1]
    ensures ScanDay(u, i) == Some(Field(n, i + 2))
  {
    DigitRoundTrip(n / 10);
    DigitRoundTrip(n % 10);
  }

  lemma ScanYearPadded(u: string, i: nat, y: int)
    requires 0 <= y < 10000 && i + 4 <= |u|
    requires u[i] == Pad4(y)[0] && u[i + 1] == Pad4(y)[1] && u[i + 2] == Pad4(y)[2] && u[i + 3] == Pad4(y)[3]
    ensures ScanYearFull(u, i) == Some(Field(y, i + 4))
  {
    DigitRoundTrip(y / 1000);
    DigitRoundTrip(y / 100 % 10);
    DigitRoundTrip(y / 10 % 10);
    DigitRoundTrip(y % 10);
    FourDigits(y);
  }

  lemma FourDigits(y: int)
    requires 0 <= y < 10000
    ensures y == 1000 * (y / 1000) + 100 * (y / 100 % 10) + 10 * (y / 10 % 10) + y % 10
  {
    var t := y / 10;
    var h := t / 10;
    assert y == 10 * t + y % 10;
    assert t == 10 * h + t % 10;
    assert y / 100 == h;
    assert y / 1000 == h / 10;
    assert h == 10 * (h / 10) + h % 10;
  }

  /** `%y` reads back the year `%y` wrote when it lies in 1969-2068, the window the two digits name. */
  lemma ScanShortYearPadded(u: string, i: nat, y: int)
    requires 1969 <= y <= 2068 && i + 2 <= |u| && u[i] == Pad2(y % 100)[0] && u[i + 1] == Pad2(y % 100)[1]
    ensures ScanYearShort(u, i) == Some(Field(y, i + 2))
  {
    DigitRoundTrip(y % 100 / 10);
    DigitRoundTrip(y % 100 % 10);
  }

  /** What strptime reads back from the text strftime wrote: each field, whatever follows it. */
  lemma ScanRendered(d: Date, x: Directive, s: string, t: string)
    requires Valid(d) && (x.YearShort? ==> 1969 <= d.year <= 2068)
    ensures ScanDirective(s + Render(d, x) + t, |s|, x) == Some(Field(FieldOf(d, x), |s| + |Render(d, x)|))
  {
    var r := Render(d, x);
    var u := s + r + t;
    assert forall j :: 0 <= j < |r| ==> u[|s| + j] == r[j];
    match x
    case YearFull => ScanYearPadded(u, |s|, d.year);
    case MonthNum => ScanMonthPadded(u, |s|, d.month);
    case YearShort => ScanShortYearPadded(u, |s|, d.year);
    case DayNum => ScanDayPadded(u, |s|, d.day);
    case Lit(c) =>
  }

  /** The date fmt's fields describe: the fields of d where fmt has them, acc's elsewhere. */
  function Fill(d: Date, fmt: Format, acc: Date): Date
  {
    Date(if YearFull in fmt || YearShort in fmt then d.year else acc.year,
         if MonthNum in fmt then d.month else acc.month,
         if DayNum in fmt then d.day else acc.day)
  }

  lemma {:induction false} ScanStrftime(d: Date, fmt: Format, s: string, acc: Date)
    requires Valid(d)
    requires YearShort in fmt ==> 1969 <= d.year <= 2068
    ensures Scan(s + Strftime(d, fmt), |s|, fmt, acc) == Some(Fill(d, fmt, acc))
    decreases |fmt|
  {
    if fmt == [] {
      assert s + Strftime(d, fmt) == s;
    } else {
      var r := Render(d, fmt[0]);
      var rest := Strftime(d, fmt[1..]);
      assert s + Strftime(d, fmt) == s + r + rest;
      ScanRendered(d, fmt[0], s, rest);
      ScanStrftime(d, fmt[1..], s + r, Set(acc, fmt[0], FieldOf(d, fmt[0])));
      assert s + r + rest == (s + r) + rest;
      FillStep(d, fmt, acc);
    }
  }

  /** Setting the first directive's field of d, then filling from the rest, fills from fmt. */
  lemma FillStep(d: Date, fmt: Format, acc: Date)
    requires fmt != []
    ensures Fill(d, fmt[1..], Set(acc, fmt[0], FieldOf(d, fmt[0]))) == Fill(d, fmt, acc)
  {
    assert forall x :: x in fmt <==> x == fmt[0] || x in fmt[1..];
  }

  /** `strptime(d.strftime('%Y-%m-%d'), '%Y-%m-%d')` gives d back. */
  lemma IsoRoundTrip(d: Date)
    requires Valid(d)
    ensures Strptime(Strftime(d, IsoFormat), IsoFormat) == Some(d)
  {
    ScanStrftime(d, IsoFormat, "", Date(1900, 1, 1));
    assert "" + Strftime(d, IsoFormat) == Strftime(d, IsoFormat);
    assert Scan(Strftime(d, IsoFormat), 0, IsoFormat, Date(1900, 1, 1)) == Some(d);
  }

  /** `strptime(d.strftime('%m/%d/%Y'), '%m/%d/%Y')` gives d back. */
  lemma SlashedRoundTrip(d: Date)
    requires Valid(d)
    ensures Strptime(Strftime(d, SlashedFormat), SlashedFormat) == Some(d)
  {
    ScanStrftime(d, SlashedFormat, "", Date(1900, 1, 1));
    assert "" + Strftime(d, SlashedFormat) == Strftime(d, SlashedFormat);
    assert Scan(Strftime(d, SlashedFormat), 0, SlashedFormat, Date(1900, 1, 1)) == Some(d);
  }

  /**
   * `strptime(d.strftime('%m/%d/%y'), '%m/%d/%y')` gives d back exactly for the years
   * 1969-2068 that two digits can name.
   */
  lemma ShortSlashedRoundTrip(d: Date)
    requires Valid(d) && 1969 <= d.year <= 2068
    ensures Strptime(Strftime(d, ShortSlashedFormat), ShortSlashedFormat) == Some(d)
  {
    ScanStrftime(d, ShortSlashedFormat, "", Date(1900, 1, 1));
    assert "" + Strftime(d, ShortSlashedFormat) == Strftime(d, ShortSlashedFormat);
    assert Scan(Strftime(d, ShortSlashedFormat), 0, ShortSlashedFormat, Date(1900, 1, 1)) == Some(d);
  }

  /** Outside 1969-2068 the two-digit year reads back a century off. */
  lemma ShortYearShifted(d: Date)
    requires Valid(d) && !(1969 <= d.year <= 2068)
    ensures Strptime(Strftime(d, ShortSlashedFormat), ShortSlashedFormat) != Some(d)
  {
    ScanShortYearWindow(Strftime(d, ShortSlashedFormat), 0, ShortSlashedFormat, Date(1900, 1, 1));
  }

  /** A format whose only year directive is `%y` reads a year in 1969-2068. */
  lemma {:induction false} ScanShortYearWindow(s: string, i: nat, fmt: Format, acc: Date)
    requires YearFull !in fmt
    requires YearShort in fmt || 1969 <= acc.year <= 2068
    ensures Scan(s, i, fmt, acc).Some? ==> 1969 <= Scan(s, i, fmt, acc).value.year <= 2068
    decreases |fmt|
  {
    if fmt != [] {
      match ScanDirective(s, i, fmt[0])
      case None =>
      case Some(f) =>
        assert forall x :: x in fmt <==> x == fmt[0] || x in fmt[1..];
        ScanShortYearWindow(s, f.next, fmt[1..], Set(acc, fmt[0], f.value));
    }
  }
}
