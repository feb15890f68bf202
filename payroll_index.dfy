/**
 * The offline payroll-index script over a workbook of weekly timesheets: reading a
 * period's dates out of a sheet name, ordering the sheets by start date, finding
 * the employee blocks in a sheet's first column, and summing the PAY column into
 * per-employee, per-period and grand totals.
 *
 * A sheet is the grid pandas reads: rows of cells that are blank (NaN), text or a
 * number. Reading the workbook, printing and the charts are outside the model.
 */
module PayrollIndex {
  import opened Wrappers
  import opened Values
  import opened Sums
  import Dates
  import Tables

  // ----- extract_date_range: the pattern (\d+\.\d+\.\d+)\s+[Tt][Oo]\s+(\d+\.\d+\.\d+) -----

  /** Length of the longest run of digits starting at i. */
  function DigitRun(s: string, i: nat): (n: nat)
    requires i <= |s|
    ensures i + n <= |s|
    decreases |s| - i
  {
    if i < |s| && IsDigit(s[i]) then 1 + DigitRun(s, i + 1) else 0
  }

  /** The run is all digits and stops at the end of the text or at a non-digit. */
  lemma {:induction false} DigitRunSpec(s: string, i: nat)
    requires i <= |s|
    ensures forall k :: i <= k < i + DigitRun(s, i) ==> IsDigit(s[k])
    ensures i + DigitRun(s, i) == |s| || !IsDigit(s[i + DigitRun(s, i)])
    decreases |s| - i
  {
    if i < |s| && IsDigit(s[i]) {
      DigitRunSpec(s, i + 1);
    }
  }

  /** Length of the longest run of white space starting at i. */
  function SpaceRun(s: string, i: nat): (n: nat)
    requires i <= |s|
    ensures i + n <= |s|
    decreases |s| - i
  {
    if i < |s| && IsSpace(s[i]) then 1 + SpaceRun(s, i + 1) else 0
  }

  /** The run is all white space and stops at the end of the text or at other text. */
  lemma {:induction false} SpaceRunSpec(s: string, i: nat)
    requires i <= |s|
    ensures forall k :: i <= k < i + SpaceRun(s, i) ==> IsSpace(s[k])
    ensures i + SpaceRun(s, i) == |s| || !IsSpace(s[i + SpaceRun(s, i)])
    decreases |s| - i
  {
    if i < |s| && IsSpace(s[i]) {
      SpaceRunSpec(s, i + 1);
    }
  }

  /** t is digits, a dot at a, digits, a dot at b, digits: the shape `\d+\.\d+\.\d+`. */
  predicate TripleShape(t: string, a: int, b: int)
  {
    0 < a && a + 1 < b && b + 1 < |t| && t[a] == '.' && t[b] == '.' &&
    forall k :: 0 <= k < |t| && k != a && k != b ==> IsDigit(t[k])
  }

  ghost predicate DottedTriple(t: string)
  {
    exists a, b :: TripleShape(t, a, b)
  }

  predicate AllSpace(s: string, from: int, to: int)
    requires 0 <= from <= to <= |s|
  {
    forall k :: from <= k < to ==> IsSpace(s[k])
  }

  /**
   * The pattern matches s from i on, its first group being s[i..e1], the separator
   * s[e1..v] and its second group s[v..e2].
   */
  ghost predicate RangeAt(s: string, i: int, e1: int, w: int, v: int, e2: int)
  {
    0 <= i <= e1 < w && w + 2 < v <= e2 <= |s| &&
    DottedTriple(s[i..e1]) && AllSpace(s, e1, w) &&
    (s[w] == 'T' || s[w] == 't') && (s[w + 1] == 'O' || s[w + 1] == 'o') &&
    AllSpace(s, w + 2, v) && DottedTriple(s[v..e2])
  }

  /** End of the greedy `\d+\.\d+\.\d+` starting at i, if it matches there. */
  function TripleAt(s: string, i: nat): (e: Option<nat>)
    requires i <= |s|
    ensures e.Some? ==> i < e.value <= |s|
  {
    var a := i + DigitRun(s, i);
    if a == i || a == |s| || s[a] != '.' then None
    else
      var b := a + 1 + DigitRun(s, a + 1);
      if b == a + 1 || b == |s| || s[b] != '.' then None
      else
        var c := b + 1 + DigitRun(s, b + 1);
        if c == b + 1 then None else Some(c)
  }

  /** Where a match ends its first group, starts its second and ends it. */
  datatype Groups = Groups(end1: nat, start2: nat, end2: nat)

  /**
   * The pattern anchored at i. Each `\d+` and `\s+` is followed by a character it
   * cannot consume, so taking every run whole is the only way to match.
   */
  function MatchAt(s: string, i: nat): Option<Groups>
    requires i <= |s|
  {
    var e1 := TripleAt(s, i);
    if e1.None? then None
    else
      var v := SeparatorEnd(s, e1.value);
      if v.None? then None
      else
        var e2 := TripleAt(s, v.value);
        if e2.None? then None else Some(Groups(e1.value, v.value, e2.value))
  }

  /** End of the greedy `\s+[Tt][Oo]\s+` starting at j, if it matches there. */
  function SeparatorEnd(s: string, j: nat): Option<nat>
    requires j <= |s|
  {
    var w := j + SpaceRun(s, j);
    if w == j || w + 2 > |s| || !(s[w] == 'T' || s[w] == 't') || !(s[w + 1] == 'O' || s[w + 1] == 'o') then None
    else
      var v := w + 2 + SpaceRun(s, w + 2);
      if v == w + 2 then None else Some(v)
  }

  /** `re.search`: the leftmost position from i on where the pattern matches. */
  function FirstMatch(s: string, i: nat): (p: Option<nat>)
    requires i <= |s|
    ensures p.None? <==> forall j :: i <= j <= |s| ==> MatchAt(s, j).None?
    ensures p.Some? ==> i <= p.value <= |s| && MatchAt(s, p.value).Some? &&
                        forall k :: i <= k < p.value ==> MatchAt(s, k).None?
    decreases |s| - i
  {
    if MatchAt(s, i).Some? then Some(i)
    else if i == |s| then None
    else FirstMatch(s, i + 1)
  }

  /** The (start, end) date texts of a sheet name; None stands for `(None, None)`. */
  function ExtractDateRange(name: string): Option<(string, string)>
  {
    var p := FirstMatch(name, 0);
    if p.None? then None
    else
      var g := MatchAt(name, p.value).value;
      MatchAtBounds(name, p.value);
      Some((name[p.value..g.end1], name[g.start2..g.end2]))
  }

  /** The groups of a match lie in order within the text. */
  lemma MatchAtBounds(s: string, i: nat)
    requires i <= |s| && MatchAt(s, i).Some?
    ensures i < MatchAt(s, i).value.end1 < MatchAt(s, i).value.start2 < MatchAt(s, i).value.end2 <= |s|
  {
  }

  /** A run ending exactly where the digits stop is the digit run. */
  lemma DigitRunExact(s: string, i: nat, n: nat)
    requires i + n <= |s|
    requires forall k :: i <= k < i + n ==> IsDigit(s[k])
    requires i + n == |s| || !IsDigit(s[i + n])
    ensures DigitRun(s, i) == n
  {
    DigitRunSpec(s, i);
  }

  /** A run ending exactly where the white space stops is the space run. */
  lemma SpaceRunExact(s: string, i: nat, n: nat)
    requires i + n <= |s|
    requires forall k :: i <= k < i + n ==> IsSpace(s[k])
    requires i + n == |s| || !IsSpace(s[i + n])
    ensures SpaceRun(s, i) == n
  {
    SpaceRunSpec(s, i);
  }

  /** What TripleAt finds is the shape `\d+\.\d+\.\d+` and cannot be extended by a digit. */
  lemma TripleAtSound(s: string, i: nat)
    requires i <= |s| && TripleAt(s, i).Some?
    ensures DottedTriple(s[i..TripleAt(s, i).value])
    ensures TripleAt(s, i).value == |s| || !IsDigit(s[TripleAt(s, i).value])
  {
    var a := i + DigitRun(s, i);
    var b := a + 1 + DigitRun(s, a + 1);
    var e := b + 1 + DigitRun(s, b + 1);
    DigitRunSpec(s, i);
    DigitRunSpec(s, a + 1);
    DigitRunSpec(s, b + 1);
    assert TripleAt(s, i).value == e;
    var t := s[i..e];
    forall k | 0 <= k < |t| && k != a - i && k != b - i
      ensures IsDigit(t[k])
    {
      assert t[k] == s[i + k];
    }
    assert TripleShape(t, a - i, b - i);
  }

  /** Wherever the shape starts at i, TripleAt finds it, taking the last run whole. */
  lemma TripleAtComplete(s: string, i: nat, e: nat, a: int, b: int)
    requires i <= e <= |s| && TripleShape(s[i..e], a, b)
    ensures TripleAt(s, i).Some? && TripleAt(s, i).value >= e
    ensures e == |s| || !IsDigit(s[e]) ==> TripleAt(s, i).value == e
  {
    var t := s[i..e];
    assert forall k :: 0 <= k < |t| ==> t[k] == s[i + k];
    DigitRunExact(s, i, a);
    assert s[i + a] == '.';
    DigitRunExact(s, i + a + 1, b - a - 1);
    assert s[i + b] == '.';
    DigitRunSpec(s, i + b + 1);
    if e == |s| || !IsDigit(s[e]) {
      DigitRunExact(s, i + b + 1, e - (i + b + 1));
    }
  }

  /** A match found at i is an occurrence of the pattern whose second group is taken whole. */
  lemma MatchAtSound(s: string, i: nat)
    requires i <= |s| && MatchAt(s, i).Some?
    ensures var g := MatchAt(s, i).value;
      (exists w :: RangeAt(s, i, g.end1, w, g.start2, g.end2)) && (g.end2 == |s| || !IsDigit(s[g.end2]))
  {
    var e1 := TripleAt(s, i).value;
    var w := e1 + SpaceRun(s, e1);
    var v := w + 2 + SpaceRun(s, w + 2);
    SpaceRunSpec(s, e1);
    SpaceRunSpec(s, w + 2);
    TripleAtSound(s, i);
    TripleAtSound(s, v);
    assert RangeAt(s, i, e1, w, v, TripleAt(s, v).value);
  }

  /** Every occurrence of the pattern at i is found there; the second group may only grow. */
  lemma MatchAtComplete(s: string, i: nat, e1: int, w: int, v: int, e2: int)
    requires RangeAt(s, i, e1, w, v, e2)
    ensures MatchAt(s, i).Some?
    ensures MatchAt(s, i).value.end1 == e1 && MatchAt(s, i).value.start2 == v && MatchAt(s, i).value.end2 >= e2
  {
    var a, b :| TripleShape(s[i..e1], a, b);
    TripleAtComplete(s, i, e1, a, b);
    assert !IsDigit(s[e1]);
    var c, d :| TripleShape(s[v..e2], c, d);
    assert s[v..e2][0] == s[v];
    SeparatorComplete(s, e1, w, v);
    TripleAtComplete(s, v, e2, c, d);
  }

  /** Spaces, `to` in either case and spaces again, up to a non-space, are the separator. */
  lemma SeparatorComplete(s: string, e1: nat, w: nat, v: nat)
    requires e1 < w && w + 2 < v < |s| && AllSpace(s, e1, w) && AllSpace(s, w + 2, v)
    requires (s[w] == 'T' || s[w] == 't') && (s[w + 1] == 'O' || s[w + 1] == 'o') && !IsSpace(s[v])
    ensures SeparatorEnd(s, e1) == Some(v)
  {
    assert !IsSpace(s[w]);
    SpaceRunExact(s, e1, w - e1);
    SpaceRunExact(s, w + 2, v - (w + 2));
  }

  /**
   * extract_date_range: None exactly when the pattern occurs nowhere in the name;
   * otherwise the groups of its leftmost occurrence, the second taken whole.
   */
  lemma ExtractDateRangeSpec(name: string)
    ensures ExtractDateRange(name).None? <==> forall i, e1, w, v, e2 :: !RangeAt(name, i, e1, w, v, e2)
    ensures ExtractDateRange(name).Some? ==>
      exists i, e1, w, v, e2 :: RangeAt(name, i, e1, w, v, e2) &&
        ExtractDateRange(name).value == (name[i..e1], name[v..e2]) &&
        (e2 == |name| || !IsDigit(name[e2])) &&
        forall j, f1, x, y, f2 :: j < i ==> !RangeAt(name, j, f1, x, y, f2)
  {
    var p := FirstMatch(name, 0);
    if p.None? {
      forall i, e1, w, v, e2 | RangeAt(name, i, e1, w, v, e2)
        ensures false
      {
        MatchAtComplete(name, i, e1, w, v, e2);
      }
    } else {
      var i := p.value;
      var g := MatchAt(name, i).value;
      MatchAtSound(name, i);
      forall j, f1, x, y, f2 | j < i && RangeAt(name, j, f1, x, y, f2)
        ensures false
      {
        MatchAtComplete(name, j, f1, x, y, f2);
      }
      var w :| RangeAt(name, i, g.end1, w, g.start2, g.end2);
      assert ExtractDateRange(name).value == (name[i..g.end1], name[g.start2..g.end2]);
    }
  }

  // ----- the order of the sheets -----

  const TemplateSheet := "PAYROLL TIMESHEET"
  const DefaultStart := Dates.Date(2025, 1, 1)

  /** extract_date: the start date of the name's range read as %m.%d.%y, or 2025-01-01. */
  function SheetStart(name: string): (d: Dates.Date)
    ensures Dates.Valid(d)
    ensures ExtractDateRange(name).None? ==> d == DefaultStart
  {
    var r := ExtractDateRange(name);
    if r.Some? && r.value.0 != "" then
      var p := Dates.Strptime(r.value.0, Dates.ShortDottedFormat);
      if p.Some? then p.value else DefaultStart
    else DefaultStart
  }

  /** Sort key: the start date as a day number, which orders valid dates as datetime does. */
  function SheetKey(name: string): int
  {
    Dates.Ordinal(SheetStart(name))
  }

  /** The list without every occurrence of x, other items in their order. */
  function Drop<T(==,!new)>(s: seq<T>, x: T): (r: seq<T>)
    ensures forall y :: y in r <==> y in s && y != x
    ensures multiset(r)[x] == 0
    ensures forall y :: y != x ==> multiset(r)[y] == multiset(s)[y]
  {
    if s == [] then []
    else
      assert s == [s[0]] + s[1..];
      (if s[0] == x then [] else [s[0]]) + Drop(s[1..], x)
  }

  /** x placed after every item of t whose key is not greater than its own. */
  function InsertBy<T>(x: T, t: seq<T>, key: T -> int): seq<T>
  {
    if t == [] then [x]
    else if key(x) < key(t[0]) then [x] + t
    else [t[0]] + InsertBy(x, t[1..], key)
  }

  /** Python's stable `list.sort(key=...)`, as an insertion sort. */
  function SortBy<T>(s: seq<T>, key: T -> int): seq<T>
  {
    if s == [] then [] else InsertBy(s[|s| - 1], SortBy(s[..|s| - 1], key), key)
  }

  predicate SortedBy<T>(s: seq<T>, key: T -> int)
  {
    forall i, j :: 0 <= i < j < |s| ==> key(s[i]) <= key(s[j])
  }

  /** The items of s whose key is k, in their order in s. */
  function WithKey<T>(s: seq<T>, key: T -> int, k: int): seq<T>
  {
    if s == [] then [] else (if key(s[0]) == k then [s[0]] else []) + WithKey(s[1..], key, k)
  }

  /** The sheets to process, in the order they are processed. */
  function SheetOrder(names: seq<string>): seq<string>
  {
    SortBy(Drop(names, TemplateSheet), SheetKey)
  }

  lemma {:induction false} WithKeyAppend<T>(s: seq<T>, t: seq<T>, key: T -> int, k: int)
    ensures WithKey(s + t, key, k) == WithKey(s, key, k) + WithKey(t, key, k)
  {
    if s != [] {
      assert (s + t)[1..] == s[1..] + t;
      WithKeyAppend(s[1..], t, key, k);
    } else {
      assert s + t == t;
    }
  }

  lemma {:induction false} WithKeyNone<T>(t: seq<T>, key: T -> int, k: int)
    requires forall i :: 0 <= i < |t| ==> key(t[i]) != k
    ensures WithKey(t, key, k) == []
  {
    if t != [] {
      WithKeyNone(t[1..], key, k);
    }
  }

  lemma {:induction false} InsertByPerm<T>(x: T, t: seq<T>, key: T -> int)
    ensures multiset(InsertBy(x, t, key)) == multiset(t) + multiset{x}
  {
    if t != [] && key(x) >= key(t[0]) {
      InsertByPerm(x, t[1..], key);
      assert t == [t[0]] + t[1..];
    }
  }

  lemma {:induction false} InsertBySorted<T>(x: T, t: seq<T>, key: T -> int)
    requires SortedBy(t, key)
    ensures SortedBy(InsertBy(x, t, key), key)
  {
    if t != [] && key(x) >= key(t[0]) {
      var u := t[1..];
      var ru := InsertBy(x, u, key);
      InsertBySorted(x, u, key);
      InsertByPerm(x, u, key);
      var r := [t[0]] + ru;
      forall j | 0 <= j < |ru| ensures key(t[0]) <= key(ru[j]) {
        assert ru[j] in multiset(ru);
        if ru[j] != x {
          assert ru[j] in multiset(u);
          var m :| 0 <= m < |u| && u[m] == ru[j];
          assert t[m + 1] == u[m];
        }
      }
      assert forall i, j :: 0 < i < j < |r| ==> r[i] == ru[i - 1] && r[j] == ru[j - 1];
    }
  }

  lemma {:induction false} InsertByStable<T>(x: T, t: seq<T>, key: T -> int, k: int)
    requires SortedBy(t, key)
    ensures WithKey(InsertBy(x, t, key), key, k) == WithKey(t, key, k) + (if key(x) == k then [x] else [])
  {
    var r := InsertBy(x, t, key);
    if t == [] {
      assert r[1..] == [];
    } else if key(x) < key(t[0]) {
      assert r[1..] == t;
      if key(x) == k {
        WithKeyNone(t, key, k);
      }
    } else {
      var u := t[1..];
      assert SortedBy(u, key) by {
        forall i, j | 0 <= i < j < |u| ensures key(u[i]) <= key(u[j]) {
          assert u[i] == t[i + 1] && u[j] == t[j + 1];
        }
      }
      InsertByStable(x, u, key, k);
      var ru := InsertBy(x, u, key);
      assert r[1..] == ru;
      assert WithKey(r, key, k) == (if key(t[0]) == k then [t[0]] else []) + WithKey(ru, key, k);
      assert WithKey(t, key, k) == (if key(t[0]) == k then [t[0]] else []) + WithKey(u, key, k);
    }
  }

  lemma {:induction false} SortByFacts<T>(s: seq<T>, key: T -> int)
    ensures SortedBy(SortBy(s, key), key)
    ensures multiset(SortBy(s, key)) == multiset(s)
    ensures forall k :: WithKey(SortBy(s, key), key, k) == WithKey(s, key, k)
  {
    if s != [] {
      var init := s[..|s| - 1];
      var last := s[|s| - 1];
      SortByFacts(init, key);
      InsertBySorted(last, SortBy(init, key), key);
      InsertByPerm(last, SortBy(init, key), key);
      assert s == init + [last];
      forall k ensures WithKey(SortBy(s, key), key, k) == WithKey(s, key, k) {
        InsertByStable(last, SortBy(init, key), key, k);
        WithKeyAppend(init, [last], key, k);
        assert [last][1..] == [];
      }
    }
  }

  /**
   * The template sheet is left out, the rest are ordered by start date, and sheets with
   * the same start date (among them all the undated ones) keep their workbook order.
   */
  lemma SheetOrderSpec(names: seq<string>)
    ensures forall n :: n in SheetOrder(names) <==> n in names && n != TemplateSheet
    ensures multiset(SheetOrder(names)) == multiset(Drop(names, TemplateSheet))
    ensures SortedBy(SheetOrder(names), SheetKey)
    ensures forall k :: WithKey(SheetOrder(names), SheetKey, k) == WithKey(Drop(names, TemplateSheet), SheetKey, k)
  {
    SortByFacts(Drop(names, TemplateSheet), SheetKey);
    var r := SheetOrder(names);
    forall n ensures n in r <==> n in Drop(names, TemplateSheet) {
      assert n in r <==> n in multiset(r);
    }
  }

  // ----- cells and the name predicate -----

  /** A cell as pandas reads it: NaN, text or a number. */
  datatype Cell = Blank | Str(s: string) | Num(x: real)

  type Row = seq<Cell>

  const WeekdayNames: set<string> := {"MONDAY", "TUESDAY", "WEDNESDAY", "THURSDAY", "FRIDAY", "SATURDAY", "SUNDAY"}
  const HeaderWords: set<string> := WeekdayNames + {"DAY", "DATE"}
  const SheetTitle := "CREATIVE CLOSETS PAYROLL TIME SHEET"

  /** First-column cell of a row; pandas rows always have one. */
  function FirstCell(row: Row): Cell
  {
    if |row| > 0 then row[0] else Blank
  }

  /** Text whose stripped form is upper case, longer than 3 and not one of the excluded words. */
  predicate NameLike(c: Cell, excluded: set<string>)
  {
    c.Str? && Upper(Strip(c.s)) == Strip(c.s) && |Strip(c.s)| > 3 && Strip(c.s) !in excluded
  }

  /** A first-column cell holding an employee's name. */
  predicate IsEmployeeName(c: Cell)
  {
    NameLike(c, HeaderWords + {SheetTitle})
  }

  /** A first-column cell that ends the block of the employee being scanned. */
  predicate EndsBlock(c: Cell)
  {
    NameLike(c, HeaderWords)
  }

  predicate IsWeekdayCell(c: Cell)
  {
    c.Str? && Strip(c.s) in WeekdayNames
  }

  predicate NamesEmployee(c: Cell, employee: string)
  {
    c.Str? && Strip(c.s) == employee
  }

  predicate HasLowercase(t: string)
  {
    exists k :: 0 <= k < |t| && 'a' <= t[k] <= 'z'
  }

  /** Text equals its upper-case form exactly when it has no lower-case letter. */
  lemma UpperFixed(t: string)
    ensures Upper(t) == t <==> !HasLowercase(t)
  {
    if Upper(t) == t {
      forall k | 0 <= k < |t| ensures !('a' <= t[k] <= 'z') {
        assert UpperChar(t[k]) == t[k];
      }
    } else {
      var k :| 0 <= k < |t| && Upper(t)[k] != t[k];
      assert UpperChar(t[k]) != t[k];
    }
  }

  /**
   * An employee name is a text cell whose stripped text has no lower-case letter, is
   * longer than 3 characters and is not a weekday, a column header or the sheet title.
   * Every such cell also ends the block before it, and no weekday cell does either.
   */
  lemma NamePredicates(c: Cell)
    ensures IsEmployeeName(c) <==>
      c.Str? && !HasLowercase(Strip(c.s)) && |Strip(c.s)| > 3 &&
      Strip(c.s) !in WeekdayNames && Strip(c.s) != "DAY" && Strip(c.s) != "DATE" && Strip(c.s) != SheetTitle
    ensures IsEmployeeName(c) ==> EndsBlock(c)
    ensures IsWeekdayCell(c) ==> !EndsBlock(c) && !IsEmployeeName(c)
  {
    if c.Str? {
      UpperFixed(Strip(c.s));
    }
  }

  // ----- the block scan -----

  /** What a row's first cell means to the scan for one employee. */
  datatype RowKind = OwnName | Weekday | OtherName | Other

  /**
   * The tests in the order the scan makes them. A weekday never ends a block
   * (NamePredicates), so the order of the last two does not matter.
   */
  function Classify(c: Cell, employee: string): RowKind
  {
    if NamesEmployee(c, employee) then OwnName
    else if IsWeekdayCell(c) then Weekday
    else if EndsBlock(c) then OtherName
    else Other
  }

  function KindOf(row: Row, employee: string): RowKind
  {
    Classify(FirstCell(row), employee)
  }

  /** The classification the scan for one employee applies to each row. */
  function KindsFor(employee: string): Row -> RowKind
  {
    (row: Row) => KindOf(row, employee)
  }

  /** The scan's state: whether the employee's block is open, and the rows collected. */
  datatype ScanState = ScanState(found: bool, rows: seq<Row>)

  /** One row of the scan: the name opens the block, weekdays are kept, the next name closes it. */
  function ScanStep(st: ScanState, row: Row, kind: Row -> RowKind): ScanState
  {
    match kind(row)
    case OwnName => ScanState(true, st.rows)
    case Weekday => if st.found then ScanState(true, st.rows + [row]) else st
    case OtherName => ScanState(false, st.rows)
    case Other => st
  }

  /** The state after scanning the rows in order. */
  function Scan(rows: seq<Row>, kind: Row -> RowKind): ScanState
  {
    if rows == [] then ScanState(false, [])
    else ScanStep(Scan(rows[..|rows| - 1], kind), rows[|rows| - 1], kind)
  }

  /** Rows j+1 .. n-1 hold no row that closes the block. */
  predicate OpenSince(rows: seq<Row>, kind: Row -> RowKind, j: int, n: int)
    requires 0 <= n <= |rows|
  {
    forall m :: 0 <= m && j < m < n ==> kind(rows[m]) != OtherName
  }

  /** Scanning one more row is one more step. */
  lemma ScanAdvance(rows: seq<Row>, i: nat, kind: Row -> RowKind)
    requires i < |rows|
    ensures Scan(rows[..i + 1], kind) == ScanStep(Scan(rows[..i], kind), rows[i], kind)
  {
    assert rows[..i + 1][..i] == rows[..i];
  }

  /** The rows this employee's block collects in one sheet. */
  method CollectEmployeeRows(rows: seq<Row>, employee: string) returns (collected: seq<Row>)
    ensures collected == Scan(rows, KindsFor(employee)).rows
  {
    var found := false;
    collected := [];
    var i := 0;
    while i < |rows|
      invariant 0 <= i <= |rows|
      invariant ScanState(found, collected) == Scan(rows[..i], KindsFor(employee))
    {
      ScanAdvance(rows, i, KindsFor(employee));
      match KindOf(rows[i], employee) {
        case OwnName =>
          found := true;
        case Weekday =>
          if found {
            collected := collected + [rows[i]];
          }
        case OtherName =>
          found := false;
        case Other =>
      }
      i := i + 1;
    }
    assert rows[..i] == rows;
  }

  /**
   * The block is open after the rows exactly when some row names the employee and
   * no later row is another name.
   */
  lemma {:induction false} FoundSpec(rows: seq<Row>, kind: Row -> RowKind)
    ensures Scan(rows, kind).found <==>
      exists j :: 0 <= j < |rows| && kind(rows[j]) == OwnName && OpenSince(rows, kind, j, |rows|)
  {
    if rows != [] {
      var n := |rows| - 1;
      var init := rows[..n];
      var kn := kind(rows[n]);
      FoundSpec(init, kind);
      assert forall j :: 0 <= j < n ==> rows[j] == init[j];
      if kn == OwnName {
        assert OpenSince(rows, kind, n, |rows|);
      } else if Scan(init, kind).found && kn != OtherName {
        var j :| 0 <= j < n && kind(init[j]) == OwnName && OpenSince(init, kind, j, n);
        assert OpenSince(rows, kind, j, |rows|);
      } else {
        forall j | 0 <= j < |rows| && kind(rows[j]) == OwnName
          ensures !OpenSince(rows, kind, j, |rows|)
        {
          if kn != OtherName {
            assert !OpenSince(init, kind, j, n);
          }
        }
      }
    }
  }

  /** Row k is a weekday row r reached while the block is open. */
  predicate CollectedAt(rows: seq<Row>, kind: Row -> RowKind, k: int, r: Row)
  {
    0 <= k < |rows| && rows[k] == r && kind(r) == Weekday && Scan(rows[..k], kind).found
  }

  /**
   * A row is collected exactly when it is a weekday row and the block is open when
   * the scan reaches it.
   */
  lemma {:induction false} CollectedSpec(rows: seq<Row>, kind: Row -> RowKind)
    ensures forall r :: r in Scan(rows, kind).rows <==> exists k :: CollectedAt(rows, kind, k, r)
  {
    if rows != [] {
      var n := |rows| - 1;
      var init := rows[..n];
      CollectedSpec(init, kind);
      forall k, r | 0 <= k < n
        ensures CollectedAt(rows, kind, k, r) <==> CollectedAt(init, kind, k, r)
      {
        assert rows[..k] == init[..k];
      }
      forall r
        ensures r in Scan(rows, kind).rows <==> exists k :: CollectedAt(rows, kind, k, r)
      {
        if CollectedAt(rows, kind, n, r) {
          assert r in Scan(rows, kind).rows;
        }
        if r in Scan(rows, kind).rows && r !in Scan(init, kind).rows {
          assert CollectedAt(rows, kind, n, r);
        }
      }
    }
  }

  /** An employee whose name is in no row of the sheet has no rows collected. */
  lemma {:induction false} AbsentEmployee(rows: seq<Row>, kind: Row -> RowKind)
    requires forall k :: 0 <= k < |rows| ==> kind(rows[k]) != OwnName
    ensures !Scan(rows, kind).found && Scan(rows, kind).rows == []
  {
    if rows != [] {
      AbsentEmployee(rows[..|rows| - 1], kind);
    }
  }

  // ----- the PAY column and the pay sums -----

  /** A header cell naming the pay column: text containing "PAY" once upper-cased. */
  predicate IsPayHeader(c: Cell)
  {
    c.Str? && Contains(Upper(c.s), "PAY")
  }

  /** The first column from `from` on whose header names the pay. */
  function PayColumnFrom(header: Row, from: nat): (col: Option<nat>)
    requires from <= |header|
    ensures col.None? <==> forall k :: from <= k < |header| ==> !IsPayHeader(header[k])
    ensures col.Some? ==> from <= col.value < |header| && IsPayHeader(header[col.value]) &&
                          forall k :: from <= k < col.value ==> !IsPayHeader(header[k])
    decreases |header| - from
  {
    if from == |header| then None
    else if IsPayHeader(header[from]) then Some(from)
    else PayColumnFrom(header, from + 1)
  }

  /** The pay column of a sheet, read from its second row; None when no header names it. */
  function PayColumn(header: Row): Option<nat>
  {
    PayColumnFrom(header, 0)
  }

  method FindPayColumn(header: Row) returns (col: Option<nat>)
    ensures col == PayColumn(header)
  {
    col := None;
    var k := 0;
    while k < |header|
      invariant 0 <= k <= |header|
      invariant forall j :: 0 <= j < k ==> !IsPayHeader(header[j])
    {
      if IsPayHeader(header[k]) {
        col := Some(k);
        return;
      }
      k := k + 1;
    }
  }

  /** One pay cell: blank and empty cells count 0, text counts what it parses to or 0. */
  function CellPay(c: Cell, cv: Conversions): (p: real)
    ensures c.Blank? || c == Str("") ==> p == 0.0
    ensures c.Num? ==> p == c.x
    ensures c.Str? && c.s != "" && cv.parseFloat(c.s).Some? ==> p == cv.parseFloat(c.s).value
    ensures c.Str? && cv.parseFloat(c.s).None? ==> p == 0.0
  {
    match c
    case Blank => 0.0
    case Num(x) => x
    case Str(s) => if s == "" then 0.0 else cv.parseFloat(s).GetOr(0.0)
  }

  /** The pay cell of a row in column col. */
  function RowPay(col: nat, cv: Conversions): Row -> real
  {
    (r: Row) => if col < |r| then CellPay(r[col], cv) else 0.0
  }

  /** The pay summed over the collected rows, in order. */
  method SumPayCells(rows: seq<Row>, col: nat, cv: Conversions) returns (total: real)
    ensures total == SumOf(rows, RowPay(col, cv))
  {
    total := 0.0;
    var i := 0;
    while i < |rows|
      invariant 0 <= i <= |rows|
      invariant total == SumOf(rows[..i], RowPay(col, cv))
    {
      var r := rows[i];
      if col < |r| {
        var c := r[col];
        if c.Num? {
          total := total + c.x;
        } else if c.Str? && c.s != "" {
          var p := cv.parseFloat(c.s);
          if p.Some? {
            total := total + p.value;
          }
        }
      }
      assert rows[..i + 1][..i] == rows[..i];
      i := i + 1;
    }
    assert rows[..i] == rows;
  }

  // ----- totals over the workbook -----

  /** A sheet of the workbook: its name and its rows. */
  datatype Sheet = Sheet(name: string, rows: seq<Row>)

  function SheetPayColumn(sh: Sheet): Option<nat>
  {
    if |sh.rows| < 2 then None else PayColumn(sh.rows[1])
  }

  /** An employee's pay in a sheet, read from column col: the pay cells of their day rows, summed. */
  function PayAt(sh: Sheet, col: nat, employee: string, cv: Conversions): real
  {
    SumOf(Scan(sh.rows, KindsFor(employee)).rows, RowPay(col, cv))
  }

  /** An employee's pay in a sheet: nothing when the sheet has no pay column. */
  function Pay(sh: Sheet, employee: string, cv: Conversions): real
  {
    var col := SheetPayColumn(sh);
    if col.Some? then PayAt(sh, col.value, employee, cv) else 0.0
  }

  /** The sheets that are processed: those with a pay column, in order. */
  function Processed(sheets: seq<Sheet>): seq<Sheet>
  {
    if sheets == [] then []
    else
      var sh := sheets[|sheets| - 1];
      Processed(sheets[..|sheets| - 1]) + (if SheetPayColumn(sh).Some? then [sh] else [])
  }

  /** A sheet is processed exactly when it is in the workbook and has a pay column. */
  lemma {:induction false} ProcessedSpec(sheets: seq<Sheet>)
    ensures forall sh :: sh in Processed(sheets) <==> sh in sheets && SheetPayColumn(sh).Some?
  {
    if sheets != [] {
      var init := sheets[..|sheets| - 1];
      ProcessedSpec(init);
      assert sheets == init + [sheets[|sheets| - 1]];
    }
  }

  /** The employee named in a row's first cell, stripped, if the cell is a name. */
  function RowName(row: Row): Option<string>
  {
    var c := FirstCell(row);
    if IsEmployeeName(c) then Some(Strip(c.s)) else None
  }

  /** The names that nameOf finds in the rows. */
  function NamesInRows(rows: seq<Row>, nameOf: Row -> Option<string>): set<string>
  {
    if rows == [] then {}
    else
      var n := nameOf(rows[|rows| - 1]);
      NamesInRows(rows[..|rows| - 1], nameOf) + (if n.Some? then {n.value} else {})
  }

  /** The names that nameOf finds in the rows of every sheet. */
  function NamesInSheets(sheets: seq<Sheet>, nameOf: Row -> Option<string>): set<string>
  {
    if sheets == [] then {}
    else NamesInSheets(sheets[..|sheets| - 1], nameOf) + NamesInRows(sheets[|sheets| - 1].rows, nameOf)
  }

  /** A name is collected exactly when some row of some sheet holds it. */
  lemma {:induction false} NamesInSheetsSpec(sheets: seq<Sheet>, nameOf: Row -> Option<string>)
    ensures forall n :: n in NamesInSheets(sheets, nameOf) <==>
      exists i, k :: 0 <= i < |sheets| && 0 <= k < |sheets[i].rows| && nameOf(sheets[i].rows[k]) == Some(n)
  {
    if sheets != [] {
      var m := |sheets| - 1;
      NamesInSheetsSpec(sheets[..m], nameOf);
      NamesInRowsSpec(sheets[m].rows, nameOf);
      assert forall i :: 0 <= i < m ==> sheets[..m][i] == sheets[i];
    }
  }

  lemma {:induction false} NamesInRowsSpec(rows: seq<Row>, nameOf: Row -> Option<string>)
    ensures forall n :: n in NamesInRows(rows, nameOf) <==>
      exists k :: 0 <= k < |rows| && nameOf(rows[k]) == Some(n)
  {
    if rows != [] {
      var m := |rows| - 1;
      NamesInRowsSpec(rows[..m], nameOf);
      assert forall k :: 0 <= k < m ==> rows[..m][k] == rows[k];
    }
  }

  /** The first pass: every employee name in the first column of every sheet. */
  method FindEmployees(sheets: seq<Sheet>) returns (names: set<string>)
    ensures names == NamesInSheets(sheets, RowName)
  {
    names := {};
    var i := 0;
    while i < |sheets|
      invariant 0 <= i <= |sheets|
      invariant names == NamesInSheets(sheets[..i], RowName)
    {
      var rows := sheets[i].rows;
      var seen := names;
      var k := 0;
      while k < |rows|
        invariant 0 <= k <= |rows|
        invariant names == seen + NamesInRows(rows[..k], RowName)
      {
        var c := FirstCell(rows[k]);
        if IsEmployeeName(c) {
          names := names + {Strip(c.s)};
        }
        assert rows[..k + 1][..k] == rows[..k];
        k := k + 1;
      }
      assert rows[..k] == rows;
      assert sheets[..i + 1][..i] == sheets[..i];
      i := i + 1;
    }
    assert sheets[..i] == sheets;
  }

  /** One entry of an employee's list of pays: the sheet and the pay in it. */
  datatype PeriodPay = PeriodPay(period: string, pay: real)

  /** Everything the script computes from the workbook. */
  datatype Indices = Indices(
    employees: set<string>,
    payByPeriod: map<string, seq<PeriodPay>>,   // employee -> one entry per processed sheet
    periodTotals: map<string, map<string, real>>, // sheet -> employee -> pay, plus "Total"
    totals: map<string, real>)                   // employee -> pay over all sheets

  /** An employee's entries over the processed sheets, in order. */
  function PaysOf(ps: seq<Sheet>, employee: string, cv: Conversions): seq<PeriodPay>
  {
    if ps == [] then [] else PaysOf(ps[..|ps| - 1], employee, cv) + [PeriodPay(ps[|ps| - 1].name, Pay(ps[|ps| - 1], employee, cv))]
  }

  /** One entry per processed sheet, in order, holding the sheet's name and the employee's pay there. */
  lemma {:induction false} PaysOfSpec(ps: seq<Sheet>, employee: string, cv: Conversions)
    ensures |PaysOf(ps, employee, cv)| == |ps|
    ensures forall i :: 0 <= i < |ps| ==> PaysOf(ps, employee, cv)[i] == PeriodPay(ps[i].name, Pay(ps[i], employee, cv))
  {
    if ps != [] {
      PaysOfSpec(ps[..|ps| - 1], employee, cv);
    }
  }

  /** A sheet's period data: each employee's pay and, under "Total", their sum. */
  ghost predicate IsPeriodData(data: map<string, real>, sh: Sheet, col: nat, names: set<string>, cv: Conversions)
  {
    data.Keys == names + {"Total"} &&
    (forall e :: e in names && e != "Total" ==> data[e] == PayAt(sh, col, e, cv)) &&
    data["Total"] == SumSet(names, (e: string) => PayAt(sh, col, e, cv))
  }

  function PayOfEntry(pp: PeriodPay): real
  {
    pp.pay
  }

  /** "Total" has lower-case letters, so no employee is called that. */
  lemma TotalIsNoName(sheets: seq<Sheet>)
    ensures "Total" !in NamesInSheets(sheets, RowName)
  {
    NamesInSheetsSpec(sheets, RowName);
    forall i, k | 0 <= i < |sheets| && 0 <= k < |sheets[i].rows|
      ensures RowName(sheets[i].rows[k]) != Some("Total")
    {
      RowNameNotTotal(sheets[i].rows[k]);
    }
  }

  lemma RowNameNotTotal(row: Row)
    ensures RowName(row) != Some("Total")
  {
    UpperFixed("Total");
    assert "Total"[1] == 'o';
  }

  /**
   * The second pass over one sheet complete: every name has its pay appended, and the
   * pays with their sum under "Total" are the sheet's period data.
   */
  lemma SheetDone(sh: Sheet, col: nat, names: set<string>, cv: Conversions, g: string -> real,
                  payByPeriod: map<string, seq<PeriodPay>>, payByPeriod': map<string, seq<PeriodPay>>,
                  pays: map<string, real>, total: real)
    requires payByPeriod.Keys == names && "Total" !in names
    requires forall e :: g(e) == PayAt(sh, col, e, cv)
    requires SheetProgress(sh.name, names, {}, g, payByPeriod, payByPeriod', pays, total)
    ensures payByPeriod'.Keys == names
    ensures forall e :: e in names ==> payByPeriod'[e] == payByPeriod[e] + [PeriodPay(sh.name, PayAt(sh, col, e, cv))]
    ensures IsPeriodData(pays["Total" := total], sh, col, names, cv)
  {
    assert names - {} == names;
    SumSetPointwise(names, g, (e: string) => PayAt(sh, col, e, cv));
  }

  /** One employee's pay in one sheet: their rows' pay cells, summed. */
  method EmployeePay(sh: Sheet, col: nat, employee: string, cv: Conversions) returns (pay: real)
    ensures pay == PayAt(sh, col, employee, cv)
  {
    var rows := CollectEmployeeRows(sh.rows, employee);
    pay := SumPayCells(rows, col, cv);
  }

  /** Moving e from the unvisited to the visited names adds its term to the running sum. */
  lemma SumSetGrow(names: set<string>, rest: set<string>, g: string -> real, e: string)
    requires e in rest && rest <= names
    ensures SumSet(names - (rest - {e}), g) == SumSet(names - rest, g) + g(e)
  {
    SumSetRemove(names - (rest - {e}), g, e);
    assert names - (rest - {e}) - {e} == names - rest;
  }

  /**
   * The second pass over one sheet part-way, g giving each name's pay in the sheet: the
   * names outside rest have their pay appended to their list and recorded in pays, and
   * total is the sum of those pays.
   */
  ghost predicate SheetProgress(period: string, names: set<string>, rest: set<string>, g: string -> real,
                                payByPeriod: map<string, seq<PeriodPay>>, payByPeriod': map<string, seq<PeriodPay>>,
                                pays: map<string, real>, total: real)
    requires payByPeriod.Keys == names
  {
    rest <= names && payByPeriod'.Keys == names
    && (forall e :: e in names ==>
          payByPeriod'[e] == payByPeriod[e] + (if e in rest then [] else [PeriodPay(period, g(e))]))
    && pays.Keys == names - rest
    && (forall e :: e in pays ==> pays[e] == g(e))
    && total == SumSet(names - rest, g)
  }

  /** Visiting one more name e of rest keeps SheetProgress. */
  lemma SheetStep(period: string, names: set<string>, rest: set<string>, g: string -> real,
                  payByPeriod: map<string, seq<PeriodPay>>, payByPeriod': map<string, seq<PeriodPay>>,
                  pays: map<string, real>, total: real, e: string, pay: real)
    requires payByPeriod.Keys == names && e in rest && pay == g(e)
    requires SheetProgress(period, names, rest, g, payByPeriod, payByPeriod', pays, total)
    ensures SheetProgress(period, names, rest - {e}, g, payByPeriod,
                          payByPeriod'[e := payByPeriod'[e] + [PeriodPay(period, pay)]], pays[e := pay], total + pay)
  {
    SumSetGrow(names, rest, g, e);
  }

  /** The second pass over one sheet: each employee's pay, appended to their list and summed. */
  method ProcessSheet(sh: Sheet, col: nat, names: set<string>, payByPeriod: map<string, seq<PeriodPay>>, cv: Conversions)
    returns (payByPeriod': map<string, seq<PeriodPay>>, data: map<string, real>)
    requires payByPeriod.Keys == names && "Total" !in names
    ensures payByPeriod'.Keys == names
    ensures forall e :: e in names ==> payByPeriod'[e] == payByPeriod[e] + [PeriodPay(sh.name, PayAt(sh, col, e, cv))]
    ensures IsPeriodData(data, sh, col, names, cv)
  {
    payByPeriod' := payByPeriod;
    var pays: map<string, real> := map[];
    var total := 0.0;
    var rest := names;
    ghost var g := (e: string) => PayAt(sh, col, e, cv);
    SumSetZero(names - rest, g);
    while rest != {}
      invariant SheetProgress(sh.name, names, rest, g, payByPeriod, payByPeriod', pays, total)
      decreases rest
    {
      var e := Tables.PickOne(rest);
      var pay := EmployeePay(sh, col, e, cv);
      SheetStep(sh.name, names, rest, g, payByPeriod, payByPeriod', pays, total, e, pay);
      payByPeriod' := payByPeriod'[e := payByPeriod'[e] + [PeriodPay(sh.name, pay)]];
      pays := pays[e := pay];
      total := total + pay;
      rest := rest - {e};
    }
    SheetDone(sh, col, names, cv, g, payByPeriod, payByPeriod', pays, total);
    data := pays["Total" := total];
  }

  /** No two sheets of a workbook share a name. */
  predicate DistinctNames(sheets: seq<Sheet>)
  {
    forall i, j :: 0 <= i < j < |sheets| ==> sheets[i].name != sheets[j].name
  }

  lemma ProcessedStep(sheets: seq<Sheet>, i: nat)
    requires i < |sheets|
    ensures Processed(sheets[..i + 1]) ==
      Processed(sheets[..i]) + (if SheetPayColumn(sheets[i]).Some? then [sheets[i]] else [])
  {
    assert sheets[..i + 1][..i] == sheets[..i];
  }

  lemma PaysOfStep(ps: seq<Sheet>, sh: Sheet, employee: string, cv: Conversions)
    ensures PaysOf(ps + [sh], employee, cv) == PaysOf(ps, employee, cv) + [PeriodPay(sh.name, Pay(sh, employee, cv))]
  {
    assert (ps + [sh])[..|ps|] == ps;
  }

  /**
   * The second pass over the workbook: for each sheet with a pay column, every employee's
   * pay is appended to their list and the sheet's period data is recorded under its name;
   * sheets without a pay column are skipped.
   */
  method PayPass(sheets: seq<Sheet>, names: set<string>, cv: Conversions)
    returns (payByPeriod: map<string, seq<PeriodPay>>, periodTotals: map<string, map<string, real>>)
    requires forall i :: 0 <= i < |sheets| ==> |sheets[i].rows| >= 2
    requires DistinctNames(sheets) && "Total" !in names
    ensures payByPeriod.Keys == names
    ensures forall e :: e in names ==> payByPeriod[e] == PaysOf(Processed(sheets), e, cv)
    ensures forall i :: 0 <= i < |sheets| ==> (sheets[i].name in periodTotals <==> SheetPayColumn(sheets[i]).Some?)
    ensures forall i :: 0 <= i < |sheets| && SheetPayColumn(sheets[i]).Some? ==>
              IsPeriodData(periodTotals[sheets[i].name], sheets[i], SheetPayColumn(sheets[i]).value, names, cv)
    ensures forall n :: n in periodTotals ==> exists i :: 0 <= i < |sheets| && sheets[i].name == n
  {
    payByPeriod := map e | e in names :: [];
    periodTotals := map[];
    var i := 0;
    while i < |sheets|
      invariant 0 <= i <= |sheets|
      invariant payByPeriod.Keys == names
      invariant forall e :: e in names ==> payByPeriod[e] == PaysOf(Processed(sheets[..i]), e, cv)
      invariant forall j :: 0 <= j < |sheets| ==> (sheets[j].name in periodTotals <==> j < i && SheetPayColumn(sheets[j]).Some?)
      invariant forall j :: 0 <= j < i && SheetPayColumn(sheets[j]).Some? ==>
                  IsPeriodData(periodTotals[sheets[j].name], sheets[j], SheetPayColumn(sheets[j]).value, names, cv)
      invariant forall n :: n in periodTotals ==> exists j :: 0 <= j < i && sheets[j].name == n
    {
      var sh := sheets[i];
      var col := FindPayColumn(sh.rows[1]);
      forall e | e in names {
        PaysGrow(sheets, i, col, e, cv);
      }
      if col.Some? {
        var data;
        payByPeriod, data := ProcessSheet(sh, col.value, names, payByPeriod, cv);
        periodTotals := periodTotals[sh.name := data];
      }
      i := i + 1;
    }
    assert sheets[..i] == sheets;
  }

  /** The entries after one more sheet: one more entry when it has a pay column, else the same. */
  lemma PaysGrow(sheets: seq<Sheet>, i: nat, col: Option<nat>, employee: string, cv: Conversions)
    requires i < |sheets| && |sheets[i].rows| >= 2 && col == PayColumn(sheets[i].rows[1])
    ensures col.Some? ==> PaysOf(Processed(sheets[..i + 1]), employee, cv)
                          == PaysOf(Processed(sheets[..i]), employee, cv) + [PeriodPay(sheets[i].name, PayAt(sheets[i], col.value, employee, cv))]
    ensures col.None? ==> PaysOf(Processed(sheets[..i + 1]), employee, cv) == PaysOf(Processed(sheets[..i]), employee, cv)
  {
    ProcessedStep(sheets, i);
    assert SheetPayColumn(sheets[i]) == col;
    if col.Some? {
      PaysOfStep(Processed(sheets[..i]), sheets[i], employee, cv);
    } else {
      assert Processed(sheets[..i + 1]) == Processed(sheets[..i]);
    }
  }

  /** Employee totals: the sum of each employee's entries. */
  method EmployeeTotals(payByPeriod: map<string, seq<PeriodPay>>) returns (totals: map<string, real>)
    ensures totals.Keys == payByPeriod.Keys
    ensures forall e :: e in totals ==> totals[e] == SumOf(payByPeriod[e], PayOfEntry)
  {
    totals := map[];
    var rest := payByPeriod.Keys;
    while rest != {}
      invariant rest <= payByPeriod.Keys && totals.Keys == payByPeriod.Keys - rest
      invariant forall e :: e in totals ==> totals[e] == SumOf(payByPeriod[e], PayOfEntry)
      decreases rest
    {
      var e := Tables.PickOne(rest);
      totals := totals[e := SumOf(payByPeriod[e], PayOfEntry)];
      rest := rest - {e};
    }
  }

  /**
   * compute_indices: the employees of every sheet; for each, one entry per processed
   * sheet in order; for each processed sheet, its period data; for each employee, the
   * sum of their entries.
   */
  method ComputeIndices(sheets: seq<Sheet>, cv: Conversions) returns (idx: Indices)
    requires forall i :: 0 <= i < |sheets| ==> |sheets[i].rows| >= 2
    requires DistinctNames(sheets)
    ensures idx.employees == NamesInSheets(sheets, RowName)
    ensures idx.payByPeriod.Keys == idx.employees && idx.totals.Keys == idx.employees
    ensures forall e :: e in idx.employees ==> idx.payByPeriod[e] == PaysOf(Processed(sheets), e, cv)
    ensures forall e :: e in idx.employees ==> idx.totals[e] == SumOf(idx.payByPeriod[e], PayOfEntry)
    ensures forall i :: 0 <= i < |sheets| ==> (sheets[i].name in idx.periodTotals <==> SheetPayColumn(sheets[i]).Some?)
    ensures forall i :: 0 <= i < |sheets| && SheetPayColumn(sheets[i]).Some? ==>
              IsPeriodData(idx.periodTotals[sheets[i].name], sheets[i], SheetPayColumn(sheets[i]).value, idx.employees, cv)
    ensures forall n :: n in idx.periodTotals ==> exists i :: 0 <= i < |sheets| && sheets[i].name == n
  {
    var names := FindEmployees(sheets);
    TotalIsNoName(sheets);
    var payByPeriod, periodTotals := PayPass(sheets, names, cv);
    var totals := EmployeeTotals(payByPeriod);
    idx := Indices(names, payByPeriod, periodTotals, totals);
  }

  /** Summing an employee's entries is summing their pay over the processed sheets. */
  lemma {:induction false} PaysOfSum(ps: seq<Sheet>, employee: string, cv: Conversions)
    ensures SumOf(PaysOf(ps, employee, cv), PayOfEntry) == SumOf(ps, (sh: Sheet) => Pay(sh, employee, cv))
  {
    if ps != [] {
      var init := ps[..|ps| - 1];
      PaysOfSum(init, employee, cv);
      var r := PaysOf(ps, employee, cv);
      assert r[..|r| - 1] == PaysOf(init, employee, cv);
    }
  }

  /**
   * The periods' "Total" entries add up to the employees' totals: every employee's pay
   * in every processed sheet is counted once either way.
   */
  lemma GrandTotal(ps: seq<Sheet>, names: set<string>, cv: Conversions)
    ensures SumOf(ps, (sh: Sheet) => SumSet(names, (e: string) => Pay(sh, e, cv)))
         == SumSet(names, (e: string) => SumOf(PaysOf(ps, e, cv), PayOfEntry))
  {
    var f := (sh: Sheet, e: string) => Pay(sh, e, cv);
    var row := (sh: Sheet) => SumSet(names, (e: string) => Pay(sh, e, cv));
    var col := (e: string) => SumOf(PaysOf(ps, e, cv), PayOfEntry);
    forall i | 0 <= i < |ps| ensures row(ps[i]) == RowSum(names, f, ps[i]) {
      RowSumIs(names, f, ps[i], (e: string) => Pay(ps[i], e, cv));
    }
    forall e | e in names ensures col(e) == ColSum(ps, f, e) {
      ColSumIs(ps, f, e, (sh: Sheet) => Pay(sh, e, cv));
      PaysOfSum(ps, e, cv);
    }
    SumSetOfSums(ps, names, f, row, col);
  }

  /** An employee named in no sheet earns nothing in any of them. */
  lemma AbsentEverywhere(ps: seq<Sheet>, employee: string, cv: Conversions)
    requires forall i, k :: 0 <= i < |ps| && 0 <= k < |ps[i].rows| ==> KindOf(ps[i].rows[k], employee) != OwnName
    ensures SumOf(PaysOf(ps, employee, cv), PayOfEntry) == 0.0
  {
    forall i | 0 <= i < |ps| ensures Pay(ps[i], employee, cv) == 0.0 {
      AbsentEmployee(ps[i].rows, KindsFor(employee));
    }
    PaysOfSum(ps, employee, cv);
    SumOfZero(ps, (sh: Sheet) => Pay(sh, employee, cv));
  }

  // ----- the period-over-period change index -----

  /** A change reported between entries index-1 and index, as a percentage of the former. */
  datatype Change = Change(index: nat, percent: real)

  /** The change from one pay to the next, in percent of the first. */
  function PercentChange(before: real, after: real): real
    requires before != 0.0
  {
    (after - before) / before * 100.0
  }

  /** `c` reports the change between two consecutive positive pays. */
  predicate IsChange(pays: seq<real>, c: Change)
  {
    1 <= c.index < |pays| && pays[c.index - 1] > 0.0 && pays[c.index] > 0.0 &&
    c.percent == PercentChange(pays[c.index - 1], pays[c.index])
  }

  /** The entry positions a change list reports on. */
  function IndexSet(changes: seq<Change>): set<nat>
  {
    set k | 0 <= k < |changes| :: changes[k].index
  }

  lemma IndexSetAppend(changes: seq<Change>, c: Change)
    ensures IndexSet(changes + [c]) == IndexSet(changes) + {c.index}
  {
    var s := changes + [c];
    assert s[|changes|] == c;
    forall k | 0 <= k < |changes| ensures s[k] == changes[k] { }
  }

  /**
   * The change index of one employee: for each pair of consecutive entries whose pays
   * are both positive, the relative change in percent.
   */
  method ChangeIndex(pays: seq<real>) returns (changes: seq<Change>)
    ensures forall k :: 0 <= k < |changes| ==> IsChange(pays, changes[k])
    ensures forall i :: 1 <= i < |pays| && pays[i - 1] > 0.0 && pays[i] > 0.0 ==>
              i in IndexSet(changes)
    ensures forall a, b :: 0 <= a < b < |changes| ==> changes[a].index < changes[b].index
  {
    changes := [];
    var anyPositive := false;
    var k := 0;
    while k < |pays|
      invariant 0 <= k <= |pays|
      invariant anyPositive <==> exists j :: 0 <= j < k && pays[j] > 0.0
    {
      if pays[k] > 0.0 {
        anyPositive := true;
      }
      k := k + 1;
    }
    if |pays| < 2 || !anyPositive {
      return;
    }
    var i := 1;
    while i < |pays|
      invariant 1 <= i <= |pays|
      invariant forall k :: 0 <= k < |changes| ==> IsChange(pays, changes[k]) && changes[k].index < i
      invariant forall j :: 1 <= j < i && pays[j - 1] > 0.0 && pays[j] > 0.0 ==>
                  j in IndexSet(changes)
      invariant forall a, b :: 0 <= a < b < |changes| ==> changes[a].index < changes[b].index
    {
      if pays[i - 1] > 0.0 && pays[i] > 0.0 {
        var c := Change(i, PercentChange(pays[i - 1], pays[i]));
        IndexSetAppend(changes, c);
        changes := changes + [c];
      }
      i := i + 1;
    }
  }

  /** A change is an increase exactly when the later pay is the larger. */
  lemma ChangeSign(before: real, after: real)
    requires before > 0.0 && after > 0.0
    ensures PercentChange(before, after) > 0.0 <==> after > before
    ensures PercentChange(before, after) == 0.0 <==> after == before
  {
  }
}
