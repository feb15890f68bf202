/**
 * Scalars as the application passes them around: the values of a JSON document or a
 * Python dictionary, and the values stored in an SQLite column. Also the handful of
 * text helpers (strip, upper, lower) the source takes from Python's `str`.
 */
module Values {
  import opened Wrappers

  /** A scalar: JSON `null` / Python `None` / SQL NULL, a string, a float or an int. */
  datatype Value = Null | Text(s: string) | Real(x: real) | Int(i: int)

  /** Python truthiness of a scalar: `None`, `''`, `0.0` and `0` are false. */
  predicate Truthy(v: Value)
  {
    match v
    case Null => false
    case Text(s) => s != ""
    case Real(x) => x != 0.0
    case Int(i) => i != 0
  }

  /** A decoded JSON object, a database row as a dict, or a Python dict passed in by a caller. */
  type Dict = map<string, Value>

  /** `d.get(key, default)`. */
  function Get(d: Dict, key: string, default: Value): Value
  {
    if key in d then d[key] else default
  }

  /**
   * The numeric conversions the source borrows from Python and SQLite. Their exact
   * grammar is not part of the model, so every operation that needs one receives them.
   */
  datatype Conversions = Conversions(
    parseFloat: string -> Option<real>,  // Python float(s); None where it raises ValueError
    parseInt: string -> Option<int>,     // Python int(s); None where it raises ValueError
    floatStr: real -> string,            // Python str(x) of a float
    castReal: string -> real)            // SQLite CAST(s AS REAL), which never fails

  /** Truncation toward zero, as Python's int() of a float. */
  function Trunc(x: real): int
  {
    if x >= 0.0 then x.Floor else -((-x).Floor)
  }

  /** Python `float(v)`; None where it raises (TypeError on None, ValueError on bad text). */
  function ToFloat(v: Value, cv: Conversions): Option<real>
  {
    match v
    case Null => None
    case Text(s) => cv.parseFloat(s)
    case Real(x) => Some(x)
    case Int(i) => Some(i as real)
  }

  /** Python `int(v)`; None where it raises. */
  function ToInt(v: Value, cv: Conversions): Option<int>
  {
    match v
    case Null => None
    case Text(s) => cv.parseInt(s)
    case Real(x) => Some(Trunc(x))
    case Int(i) => Some(i)
  }

  /** SQLite `CAST(v AS REAL)`; NULL stays NULL. */
  function CastReal(v: Value, cv: Conversions): Option<real>
  {
    match v
    case Null => None
    case Text(s) => Some(cv.castReal(s))
    case Real(x) => Some(x)
    case Int(i) => Some(i as real)
  }

  // ----- text -----

  predicate IsDigit(c: char)
  {
    '0' <= c <= '9'
  }

  /** The characters Python's `str.isspace()` (and the regex class `\s`) accept below U+0080. */
  predicate IsSpace(c: char)
  {
    c == ' ' || (9 <= c as int <= 13) || (28 <= c as int <= 31)
  }

  function UpperChar(c: char): char
  {
    if 'a' <= c <= 'z' then (c as int - 32) as char else c
  }

  function LowerChar(c: char): char
  {
    if 'A' <= c <= 'Z' then (c as int + 32) as char else c
  }

  /** Python `s.upper()` on the ASCII letters. */
  function Upper(s: string): (r: string)
    ensures |r| == |s|
    ensures forall i :: 0 <= i < |s| ==> r[i] == UpperChar(s[i])
  {
    if s == [] then [] else [UpperChar(s[0])] + Upper(s[1..])
  }

  /** Python `s.lower()` on the ASCII letters. */
  function Lower(s: string): (r: string)
    ensures |r| == |s|
    ensures forall i :: 0 <= i < |s| ==> r[i] == LowerChar(s[i])
  {
    if s == [] then [] else [LowerChar(s[0])] + Lower(s[1..])
  }

  /** Python `s.lstrip()`. */
  function StripLeft(s: string): (r: string)
    ensures |r| <= |s| && r == s[|s| - |r|..]
    ensures r == [] || !IsSpace(r[0])
    ensures forall i :: 0 <= i < |s| - |r| ==> IsSpace(s[i])
  {
    if s != [] && IsSpace(s[0]) then StripLeft(s[1..]) else s
  }

  /** Python `s.rstrip()`. */
  function StripRight(s: string): (r: string)
    ensures |r| <= |s| && r == s[..|r|]
    ensures r == [] || !IsSpace(r[|r| - 1])
    ensures forall i :: |r| <= i < |s| ==> IsSpace(s[i])
  {
    if s != [] && IsSpace(s[|s| - 1]) then StripRight(s[..|s| - 1]) else s
  }

  /** Python `s.strip()`. */
  function Strip(s: string): string
  {
    StripRight(StripLeft(s))
  }

  /** Python `t in s` for strings: t occurs in s as a contiguous substring. */
  predicate Contains(s: string, t: string)
  {
    t <= s || (s != [] && Contains(s[1..], t))
  }

  /** Python `s.endswith(t)`. */
  predicate EndsWith(s: string, t: string)
  {
    |t| <= |s| && s[|s| - |t|..] == t
  }

  /** Python `s.replace(pat, rep)`: every occurrence, scanning left to right without overlap. */
  function ReplaceAll(s: string, pat: string, rep: string): string
    requires pat != ""
    decreases |s|
  {
    if s == [] then []
    else if pat <= s then rep + ReplaceAll(s[|pat|..], pat, rep)
    else [s[0]] + ReplaceAll(s[1..], pat, rep)
  }

  /** Text that does not contain the pattern is left as it is. */
  lemma {:induction false} ReplaceAbsent(s: string, pat: string, rep: string)
    requires pat != "" && !Contains(s, pat)
    ensures ReplaceAll(s, pat, rep) == s
    decreases |s|
  {
    if s != [] {
      ReplaceAbsent(s[1..], pat, rep);
    }
  }

  /** Text lacking one of the pattern's characters cannot contain the pattern. */
  lemma {:induction false} MissingCharNotContained(s: string, pat: string, k: nat)
    requires k < |pat| && forall i :: 0 <= i < |s| ==> s[i] != pat[k]
    ensures !Contains(s, pat)
    decreases |s|
  {
    if k < |s| {
      assert s[k] != pat[k];
    }
    if s != [] {
      MissingCharNotContained(s[1..], pat, k);
    }
  }

  /** Removing the pattern from `s + pat`, where s lacks the pattern's first character, leaves s. */
  lemma {:induction false} RemoveSuffix(s: string, pat: string)
    requires pat != "" && forall i :: 0 <= i < |s| ==> s[i] != pat[0]
    ensures ReplaceAll(s + pat, pat, "") == s
    decreases |s|
  {
    if s == [] {
      assert pat + [] == pat;
      assert s + pat == pat;
      assert pat[|pat|..] == [];
    } else {
      assert (s + pat)[0] == s[0] != pat[0];
      assert (s + pat)[1..] == s[1..] + pat;
      RemoveSuffix(s[1..], pat);
    }
  }

  /** Text that starts with the pattern has it replaced there first. */
  lemma ReplaceFront(pat: string, t: string, rep: string)
    requires pat != ""
    ensures ReplaceAll(pat + t, pat, rep) == rep + ReplaceAll(t, pat, rep)
  {
    assert pat <= pat + t;
    assert (pat + t)[|pat|..] == t;
  }
}
