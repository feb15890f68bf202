/**
 * The helpers of `ccpayroll/utils`: money formatting, date-format conversion between
 * the stored YYYY-MM-DD form and the displayed MM/DD/YYYY form, and the default
 * two-week pay-period window.
 */
module Utils {
  import opened Wrappers
  import opened Values
  import opened Dates

  // ----- format_currency -----

  /** Rounding to an integer with ties to even, as `format(x, '.2f')` rounds. */
  function RoundHalfEven(x: real): (n: int)
    ensures -0.5 <= n as real - x <= 0.5
    ensures x == x.Floor as real ==> n == x.Floor
  {
    var f := x.Floor;
    var frac := x - f as real;
    if frac < 0.5 then f
    else if frac > 0.5 then f + 1
    else if f % 2 == 0 then f
    else f + 1
  }

  /** Decimal digits of n, without leading zeros. */
  function NatToString(n: nat): (r: string)
    ensures r != [] && forall i :: 0 <= i < |r| ==> IsDigit(r[i])
    decreases n
  {
    if n < 10 then [DigitChar(n)] else NatToString(n / 10) + [DigitChar(n % 10)]
  }

  /** The number a string of decimal digits denotes. */
  function DigitsValue(s: string): int
  {
    if s == [] then 0 else 10 * DigitsValue(s[..|s| - 1]) + DigitValue(s[|s| - 1])
  }

  lemma {:induction false} NatToStringValue(n: nat)
    ensures DigitsValue(NatToString(n)) == n
    decreases n
  {
    var r := NatToString(n);
    if n < 10 {
      DigitRoundTrip(n);
      assert r[..|r| - 1] == [];
    } else {
      NatToStringValue(n / 10);
      DigitRoundTrip(n % 10);
      assert r[..|r| - 1] == NatToString(n / 10);
    }
  }

  /** `f"${value:.2f}"`: a dollar sign, a minus for negative amounts, whole dollars, two cent digits. */
  function FormatCurrency(v: real): (r: string)
    ensures |r| >= 5 && r[0] == '$' && r[|r| - 3] == '.'
    ensures r[1] == '-' <==> v < 0.0
    ensures IsDigit(r[|r| - 2]) && IsDigit(r[|r| - 1])
  {
    var cents := Cents(v);
    "$" + (if v < 0.0 then "-" else "") + NatToString(cents / 100) + "." + Pad2(cents % 100)
  }

  /** A whole number negated is whole. */
  lemma WholeNegated(y: real)
    ensures y.Floor as real == y ==> (-y).Floor as real == -y
  {
    var k := y.Floor;
    if k as real == y {
      var m := -k;
      assert -y == m as real;
      assert (m as real).Floor == m;
    }
  }

  /** The number of whole cents printed for v: |v| rounded to the cent. */
  function Cents(v: real): (c: nat)
    ensures -0.005 <= c as real / 100.0 - (if v < 0.0 then -v else v) <= 0.005
    ensures (v * 100.0).Floor as real == v * 100.0 ==> c as real / 100.0 == (if v < 0.0 then -v else v)
  {
    var magnitude := if v < 0.0 then -v else v;
    var x := magnitude * 100.0;
    WholeNegated(v * 100.0);
    assert x == v * 100.0 || x == -(v * 100.0);
    var c := RoundHalfEven(x);
    assert c as real / 100.0 - magnitude == (c as real - x) / 100.0;
    c
  }

  /** Reads back a currency string of the shape `$[-]digits.dd`. */
  function ParseCurrency(s: string): Option<real>
  {
    if |s| < 2 || s[0] != '$' then None
    else
      var negative := s[1] == '-';
      var body := if negative then s[2..] else s[1..];
      if |body| >= 4 && body[|body| - 3] == '.' && (forall i :: 0 <= i < |body| && i != |body| - 3 ==> IsDigit(body[i])) then
        var amount := DigitsValue(body[..|body| - 3]) as real + DigitsValue(body[|body| - 2..]) as real / 100.0;
        Some(if negative then -amount else amount)
      else None
  }

  lemma Pad2Value(n: int)
    requires 0 <= n < 100
    ensures DigitsValue(Pad2(n)) == n
  {
    var a, b := DigitChar(n / 10), DigitChar(n % 10);
    DigitRoundTrip(n / 10);
    DigitRoundTrip(n % 10);
    assert Pad2(n) == [a, b];
    assert [a, b][..1] == [a];
    assert [a][..0] == [];
    assert DigitsValue([a]) == DigitValue(a);
  }

  /** The part after the sign: whole digits, a point, two cent digits. */
  lemma CurrencyBody(whole: string, pad: string)
    requires whole != [] && forall i :: 0 <= i < |whole| ==> IsDigit(whole[i])
    requires |pad| == 2 && IsDigit(pad[0]) && IsDigit(pad[1])
    ensures var body := whole + "." + pad;
            |body| >= 4 && body[|body| - 3] == '.' &&
            (forall i :: 0 <= i < |body| && i != |body| - 3 ==> IsDigit(body[i])) &&
            body[..|body| - 3] == whole && body[|body| - 2..] == pad
  {
    var body := whole + "." + pad;
    assert body[..|body| - 3] == whole;
    assert body[|body| - 2..] == pad;
    forall i | 0 <= i < |body| && i != |body| - 3
      ensures IsDigit(body[i])
    {
      if i < |whole| {
        assert body[i] == whole[i];
      } else {
        assert body[i] == pad[i - |whole| - 1];
      }
    }
  }

  /** Reading back a printed amount gives the dollars and cents that were printed. */
  lemma ParsePrinted(negative: bool, cents: nat)
    ensures var amount := (cents / 100) as real + (cents % 100) as real / 100.0;
            ParseCurrency("$" + (if negative then "-" else "") + NatToString(cents / 100) + "." + Pad2(cents % 100))
            == Some(if negative then -amount else amount)
  {
    var whole := NatToString(cents / 100);
    var pad := Pad2(cents % 100);
    var sign := if negative then "-" else "";
    var body := whole + "." + pad;
    assert "$" + sign + whole + "." + pad == "$" + sign + body;
    CurrencyBody(whole, pad);
    ParseSigned(negative, body);
    NatToStringValue(cents / 100);
    Pad2Value(cents % 100);
  }

  /** A dollar sign, an optional minus and a body `digits.dd` read back as the body's amount, negated after a minus. */
  lemma ParseSigned(negative: bool, body: string)
    requires |body| >= 4 && body[|body| - 3] == '.'
    requires forall i :: 0 <= i < |body| && i != |body| - 3 ==> IsDigit(body[i])
    ensures var amount := DigitsValue(body[..|body| - 3]) as real + DigitsValue(body[|body| - 2..]) as real / 100.0;
            ParseCurrency("$" + (if negative then "-" else "") + body) == Some(if negative then -amount else amount)
  {
    var s := "$" + (if negative then "-" else "") + body;
    assert IsDigit(body[0]);
    assert (if negative then s[2..] else s[1..]) == body;
  }

  lemma CentsSplit(cents: nat)
    ensures (cents / 100) as real + (cents % 100) as real / 100.0 == cents as real / 100.0
  {
    assert cents == 100 * (cents / 100) + cents % 100;
    assert cents as real == 100.0 * (cents / 100) as real + (cents % 100) as real;
  }

  /** The printed amount is the amount to the nearest cent, and exact when it is a whole number of cents. */
  lemma CurrencyRoundTrip(v: real)
    ensures ParseCurrency(FormatCurrency(v)).Some?
    ensures -0.005 <= ParseCurrency(FormatCurrency(v)).value - v <= 0.005
    ensures (v * 100.0).Floor as real == v * 100.0 ==> ParseCurrency(FormatCurrency(v)) == Some(v)
  {
    var cents := Cents(v);
    ParsePrinted(v < 0.0, cents);
    CentsSplit(cents);
  }

  // ----- format_date / parse_date -----

  /** `format_date(s)`: YYYY-MM-DD to MM/DD/YYYY; anything that is not a valid date is returned unchanged. */
  function FormatDate(s: string): (r: string)
    ensures Strptime(s, IsoFormat).None? ==> r == s
    ensures Strptime(s, IsoFormat).Some? ==> Strptime(r, SlashedFormat) == Strptime(s, IsoFormat)
  {
    match Strptime(s, IsoFormat)
    case Some(d) =>
      SlashedRoundTrip(d);
      Strftime(d, SlashedFormat)
    case None => s
  }

  /** `parse_date(s)`: MM/DD/YYYY to YYYY-MM-DD; anything that does not parse is returned unchanged. */
  function ParseDate(s: string): (r: string)
    ensures Strptime(s, SlashedFormat).None? ==> r == s
    ensures Strptime(s, SlashedFormat).Some? ==> Strptime(r, IsoFormat) == Strptime(s, SlashedFormat)
  {
    match Strptime(s, SlashedFormat)
    case Some(d) =>
      IsoRoundTrip(d);
      Strftime(d, IsoFormat)
    case None => s
  }

  /** Ten characters `MM/DD/YYYY`, every field zero-padded. */
  predicate PaddedSlashed(s: string)
  {
    |s| == 10 && s[2] == '/' && s[5] == '/'
    && forall i :: 0 <= i < 10 && i != 2 && i != 5 ==> IsDigit(s[i])
  }

  lemma Pad2OfDigits(a: char, b: char)
    requires IsDigit(a) && IsDigit(b)
    ensures Pad2(10 * DigitValue(a) + DigitValue(b)) == [a, b]
  {
  }

  lemma Pad4OfDigits(a: char, b: char, c: char, e: char)
    requires IsDigit(a) && IsDigit(b) && IsDigit(c) && IsDigit(e)
    ensures Pad4(1000 * DigitValue(a) + 100 * DigitValue(b) + 10 * DigitValue(c) + DigitValue(e)) == [a, b, c, e]
  {
    DigitsOfFour(DigitValue(a), DigitValue(b), DigitValue(c), DigitValue(e));
  }

  /** The four decimal digits of a number below 10000 written from its digits. */
  lemma DigitsOfFour(a: int, b: int, c: int, e: int)
    requires 0 <= a <= 9 && 0 <= b <= 9 && 0 <= c <= 9 && 0 <= e <= 9
    ensures var v := 1000 * a + 100 * b + 10 * c + e;
            v / 1000 == a && v / 100 % 10 == b && v / 10 % 10 == c && v % 10 == e
  {
    var v := 1000 * a + 100 * b + 10 * c + e;
    assert v / 10 == 100 * a + 10 * b + c;
    assert v / 100 == 10 * a + b;
    assert v / 1000 == a;
  }

  /** On two digits, %m and %d either take both (reading their value) or only the first. */
  lemma ScanTwoDigits(u: string, i: nat)
    requires i + 2 <= |u| && IsDigit(u[i]) && IsDigit(u[i + 1])
    ensures ScanMonth(u, i).Some? ==>
              (ScanMonth(u, i).value.next == i + 1
               || ScanMonth(u, i).value == Field(10 * DigitValue(u[i]) + DigitValue(u[i + 1]), i + 2))
    ensures ScanDay(u, i).Some? ==>
              (ScanDay(u, i).value.next == i + 1
               || ScanDay(u, i).value == Field(10 * DigitValue(u[i]) + DigitValue(u[i + 1]), i + 2))
  {
  }

  /** What strptime('%m/%d/%Y') can read from a zero-padded string: exactly its three numbers. */
  lemma PaddedSlashedScan(s: string, d: Date)
    requires PaddedSlashed(s) && Strptime(s, SlashedFormat) == Some(d)
    ensures d.month == 10 * DigitValue(s[0]) + DigitValue(s[1])
    ensures d.day == 10 * DigitValue(s[3]) + DigitValue(s[4])
    ensures d.year == 1000 * DigitValue(s[6]) + 100 * DigitValue(s[7]) + 10 * DigitValue(s[8]) + DigitValue(s[9])
  {
    var f := SlashedFormat;
    var acc0 := Date(1900, 1, 1);
    assert f[1..] == [Lit('/'), DayNum, Lit('/'), YearFull];
    assert f[1..][1..] == [DayNum, Lit('/'), YearFull];
    assert f[1..][1..][1..] == [Lit('/'), YearFull];
    assert f[1..][1..][1..][1..] == [YearFull];
    ScanTwoDigits(s, 0);
    ScanTwoDigits(s, 3);
    var m := ScanMonth(s, 0).value;
    var acc1 := Set(acc0, MonthNum, m.value);
    assert Scan(s, 0, f, acc0) == Scan(s, 3, f[1..][1..], acc1);
    var e := ScanDay(s, 3).value;
    var acc2 := Set(acc1, DayNum, e.value);
    assert Scan(s, 0, f, acc0) == Scan(s, 6, f[1..][1..][1..][1..], acc2);
  }

  lemma SlashedText(d: Date)
    requires Valid(d)
    ensures Strftime(d, SlashedFormat) == Pad2(d.month) + "/" + Pad2(d.day) + "/" + Pad4(d.year)
  {
    var f := SlashedFormat;
    assert Strftime(d, [YearFull]) == Pad4(d.year);
    assert Strftime(d, [Lit('/'), YearFull]) == "/" + Pad4(d.year);
    assert Strftime(d, [DayNum, Lit('/'), YearFull]) == Pad2(d.day) + "/" + Pad4(d.year);
    assert Strftime(d, [Lit('/'), DayNum, Lit('/'), YearFull]) == "/" + Pad2(d.day) + "/" + Pad4(d.year);
  }

  /** A zero-padded MM/DD/YYYY string has '/' where %Y needs a digit: it is no YYYY-MM-DD date. */
  lemma PaddedSlashedNotIso(s: string)
    requires PaddedSlashed(s)
    ensures Strptime(s, IsoFormat) == None
  {
    assert ScanYearFull(s, 0) == None;
  }

  /** `format_date(parse_date(s)) == s` for every zero-padded MM/DD/YYYY string, valid or not. */
  lemma FormatParseRoundTrip(s: string)
    requires PaddedSlashed(s)
    ensures FormatDate(ParseDate(s)) == s
  {
    var parsed := Strptime(s, SlashedFormat);
    if parsed.None? {
      PaddedSlashedNotIso(s);
    } else {
      var d := parsed.value;
      PaddedSlashedDate(s, d);
      IsoRoundTrip(d);
      assert ParseDate(s) == Strftime(d, IsoFormat);
    }
  }

  /** The date read from a zero-padded MM/DD/YYYY string prints as that string. */
  lemma PaddedSlashedDate(s: string, d: Date)
    requires PaddedSlashed(s) && Strptime(s, SlashedFormat) == Some(d)
    ensures Strftime(d, SlashedFormat) == s
  {
    PaddedSlashedScan(s, d);
    Pad2OfDigits(s[0], s[1]);
    Pad2OfDigits(s[3], s[4]);
    Pad4OfDigits(s[6], s[7], s[8], s[9]);
    SlashedText(d);
    assert s == [s[0], s[1]] + "/" + [s[3], s[4]] + "/" + [s[6], s[7], s[8], s[9]];
  }

  // ----- generate_pay_period_dates -----

  /** The first and last day of a pay period. */
  datatype Window = Window(start: Date, end: Date)

  /**
   * The two weeks ending on the most recent Saturday on or before `reference`; None where
   * stepping back would pass 0001-01-01 (Python raises OverflowError).
   */
  function PayPeriodWindow(reference: Date): (r: Option<Window>)
    requires Valid(reference)
    ensures r.None? <==> Ordinal(reference) - (Weekday(reference) + 2) % 7 - 13 < 1
    ensures r.Some? ==> Valid(r.value.start) && Valid(r.value.end)
    ensures r.Some? ==> Ordinal(r.value.end) == Ordinal(reference) - (Weekday(reference) + 2) % 7
    ensures r.Some? ==> Ordinal(r.value.start) == Ordinal(r.value.end) - 13
  {
    var back := (Weekday(reference) + 2) % 7;
    match MinusDays(reference, back)
    case None => None
    case Some(end) =>
      match MinusDays(end, 13)
      case None => None
      case Some(start) => Some(Window(start, end))
  }

  /**
   * The window ends on a Saturday at most six days before the reference (on the reference
   * itself when that is a Saturday) and starts on the Sunday thirteen days earlier.
   */
  lemma PayPeriodWindowWeekdays(reference: Date, w: Window)
    requires Valid(reference) && PayPeriodWindow(reference) == Some(w)
    ensures Weekday(w.end) == Saturday && Weekday(w.start) == Sunday
    ensures Ordinal(w.end) <= Ordinal(reference) <= Ordinal(w.end) + 6
    ensures Weekday(reference) == Saturday ==> w.end == reference
  {
    BackToSaturday(reference, w.end, w.start);
  }

  /** Stepping back ((o + 6) % 7 + 2) % 7 days from day o lands on a Saturday; 13 more on a Sunday. */
  lemma SaturdayBack(o: int)
    ensures var back := ((o + 6) % 7 + 2) % 7;
            (o - back + 6) % 7 == Saturday && (o - back - 13 + 6) % 7 == Sunday
  {
    var q, r := o / 7, o % 7;
    assert o == 7 * q + r && 0 <= r < 7;
    assert (o + 6) % 7 == (r + 6) % 7;
  }

  lemma BackToSaturday(reference: Date, end: Date, start: Date)
    requires Valid(reference) && Valid(end) && Valid(start)
    requires Ordinal(end) == Ordinal(reference) - (Weekday(reference) + 2) % 7
    requires Ordinal(start) == Ordinal(end) - 13
    ensures Weekday(end) == Saturday && Weekday(start) == Sunday
    ensures Weekday(reference) == Saturday ==> end == reference
  {
    var o := Ordinal(reference);
    var back := (Weekday(reference) + 2) % 7;
    WeekdayOfOrdinal(reference, o);
    SaturdayBack(o);
    WeekdayOfOrdinal(end, o - back);
    WeekdayOfOrdinal(start, o - back - 13);
    if Weekday(reference) == Saturday {
      OrdinalInjective(end, reference);
    }
  }

  /** Start and end of a pay period as YYYY-MM-DD strings. */
  datatype DateRange = DateRange(start: string, end: string)

  /** The date a pay period is generated around: the parsed reference, or today when absent or empty. */
  function ReferenceDate(reference: Option<string>, today: Date): (r: Option<Date>)
    requires Valid(today)
    ensures r.Some? ==> Valid(r.value)
    ensures reference.None? || reference.value == "" ==> r == Some(today)
    ensures reference.Some? && reference.value != "" ==> r == Strptime(reference.value, IsoFormat)
  {
    if reference.Some? && reference.value != "" then Strptime(reference.value, IsoFormat) else Some(today)
  }

  /**
   * `generate_pay_period_dates(reference_date)`. An absent or empty reference means
   * today, passed in as `today`; None where Python raises (a reference that is not a
   * YYYY-MM-DD date, or a window before 0001-01-01). Otherwise the two strings are
   * canonical YYYY-MM-DD dates: a Sunday and the Saturday thirteen days later, the
   * latest Saturday on or before the reference.
   */
  function GeneratePayPeriodDates(reference: Option<string>, today: Date): (r: Option<DateRange>)
    requires Valid(today)
    ensures ReferenceDate(reference, today).None? ==> r.None?
    ensures ReferenceDate(reference, today).Some? ==> (
      var ref := ReferenceDate(reference, today).value;
      r.Some? <==> PayPeriodWindow(ref).Some?)
    ensures r.Some? ==> ReferenceDate(reference, today).Some?
    ensures r.Some? ==> (
      var ref := ReferenceDate(reference, today).value;
      var start := Strptime(r.value.start, IsoFormat);
      var end := Strptime(r.value.end, IsoFormat);
      start.Some? && end.Some?
      && Strftime(start.value, IsoFormat) == r.value.start && Strftime(end.value, IsoFormat) == r.value.end
      && Weekday(end.value) == Saturday && Weekday(start.value) == Sunday
      && Ordinal(start.value) == Ordinal(end.value) - 13
      && Ordinal(end.value) <= Ordinal(ref) <= Ordinal(end.value) + 6
      && (Weekday(ref) == Saturday ==> end.value == ref))
  {
    match ReferenceDate(reference, today)
    case None => None
    case Some(d) =>
      match PayPeriodWindow(d)
      case None => None
      case Some(w) =>
        WindowStrings(d, w);
        Some(DateRange(Strftime(w.start, IsoFormat), Strftime(w.end, IsoFormat)))
  }

  /** The printed window parses back to itself and keeps the weekday facts of the window. */
  lemma WindowStrings(reference: Date, w: Window)
    requires Valid(reference) && PayPeriodWindow(reference) == Some(w)
    ensures Valid(w.start) && Valid(w.end)
    ensures Strptime(Strftime(w.start, IsoFormat), IsoFormat) == Some(w.start)
    ensures Strptime(Strftime(w.end, IsoFormat), IsoFormat) == Some(w.end)
    ensures Weekday(w.end) == Saturday && Weekday(w.start) == Sunday
    ensures Ordinal(w.start) == Ordinal(w.end) - 13
    ensures Ordinal(w.end) <= Ordinal(reference) <= Ordinal(w.end) + 6
    ensures Weekday(reference) == Saturday ==> w.end == reference
  {
    PayPeriodWindowWeekdays(reference, w);
    IsoRoundTrip(w.start);
    IsoRoundTrip(w.end);
  }
}
