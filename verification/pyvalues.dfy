/** The slice of Python's value semantics that the shipping integration relies
    on: decoded JSON scalars, `dict.get`, truthiness (`not x`), the `float()`
    and `int()` coercions, `str.replace`, `str.title` and `sep.join`. */
module PyValues {

  datatype Option<+T> = None | Some(value: T)

  /** A value or the exception that stopped its computation. `:-` passes the
      first exception on, the way Python unwinds past the rest of a block. */
  datatype Result<+T, +E> = Ok(value: T) | Err(error: E)
  {
    predicate IsFailure() { Err? }

    function PropagateFailure<U>(): Result<U, E>
      requires Err?
    {
      Err(error)
    }

    function Extract(): T
      requires Ok?
    {
      value
    }
  }

  /** A decoded JSON scalar. JSON integers and JSON floats are both numbers
      here; Python treats them alike in every place this model looks at. */
  datatype Value = Null | Bool(b: bool) | Num(x: real) | Str(s: string)

  /** A decoded JSON object (a Python dict with string keys). */
  type Dict = map<string, Value>

  /** `d.get(key)`: `None` when the key is absent. */
  function Get(d: Dict, key: string): Value
  {
    if key in d then d[key] else Null
  }

  /** `d.get(key, default)`: the default only replaces an ABSENT key; a key
      that is present with value `None` yields `None`. */
  function GetOr(d: Dict, key: string, default: Value): Value
  {
    if key in d then d[key] else default
  }

  /** Python truthiness: `None`, `False`, `0`, `0.0` and `''` are falsy. */
  predicate Truthy(v: Value)
  {
    match v
    case Null => false
    case Bool(b) => b
    case Num(x) => x != 0.0
    case Str(s) => s != ""
  }

  // ---------------------------------------------------------------------
  // Numeric coercion: float(v) and int(v)
  // ---------------------------------------------------------------------

  predicate IsDigit(c: char) { '0' <= c <= '9' }

  predicate AllDigits(s: string) { forall i | 0 <= i < |s| :: IsDigit(s[i]) }

  /** The ASCII characters Python counts as white space: tab, line feed,
      vertical tab, form feed, carriage return, the four separators
      0x1C to 0x1F and the space. */
  predicate IsSpace(c: char) { '\t' <= c <= '\r' || '\U{1C}' <= c <= ' ' }

  predicate AllSpace(s: string) { forall i | 0 <= i < |s| :: IsSpace(s[i]) }

  /** `s` is `r` with white space before and after it. */
  predicate Surrounds(s: string, r: string)
  {
    exists i | 0 <= i <= |s| - |r| :: s[i..i + |r|] == r && AllSpace(s[..i]) && AllSpace(s[i + |r|..])
  }

  lemma AllSpaceConcat(a: string, b: string)
    requires AllSpace(a) && AllSpace(b)
    ensures AllSpace(a + b)
  {
  }

  /** `s.strip()` for ASCII white space: the result neither starts nor ends
      with white space, and `s` is the result with white space around it. */
  function Strip(s: string): (r: string)
    ensures r == [] || (!IsSpace(r[0]) && !IsSpace(r[|r| - 1]))
    ensures Surrounds(s, r)
    decreases |s|
  {
    if s != [] && IsSpace(s[0]) then
      var r := Strip(s[1..]);
      SpaceBefore(s, r);
      r
    else if s != [] && IsSpace(s[|s| - 1]) then
      var r := Strip(s[..|s| - 1]);
      SpaceAfter(s, r);
      r
    else
      assert s[0..0 + |s|] == s && AllSpace(s[..0]) && AllSpace(s[|s|..]);
      assert Surrounds(s, s);
      s
  }

  /** Stripping `s` without its leading space character: the character
      joins the space run in front. */
  lemma SpaceBefore(s: string, r: string)
    requires s != [] && IsSpace(s[0])
    requires Surrounds(s[1..], r)
    ensures Surrounds(s, r)
  {
    var t := s[1..];
    var i :| 0 <= i <= |t| - |r| && t[i..i + |r|] == r && AllSpace(t[..i]) && AllSpace(t[i + |r|..]);
    assert s[1 + i..1 + i + |r|] == t[i..i + |r|];
    assert s[..1 + i] == [s[0]] + t[..i];
    AllSpaceConcat([s[0]], t[..i]);
    assert s[1 + i + |r|..] == t[i + |r|..];
    assert 0 <= 1 + i <= |s| - |r| && s[1 + i..1 + i + |r|] == r && AllSpace(s[..1 + i]) && AllSpace(s[1 + i + |r|..]);
  }

  /** Stripping `s` without its trailing space character: the character
      joins the space run behind. */
  lemma SpaceAfter(s: string, r: string)
    requires s != [] && IsSpace(s[|s| - 1])
    requires Surrounds(s[..|s| - 1], r)
    ensures Surrounds(s, r)
  {
    var t := s[..|s| - 1];
    var i :| 0 <= i <= |t| - |r| && t[i..i + |r|] == r && AllSpace(t[..i]) && AllSpace(t[i + |r|..]);
    assert s[i..i + |r|] == t[i..i + |r|];
    assert s[..i] == t[..i];
    assert s[i + |r|..] == t[i + |r|..] + [s[|s| - 1]];
    AllSpaceConcat(t[i + |r|..], [s[|s| - 1]]);
    assert 0 <= i <= |s| - |r| && s[i..i + |r|] == r && AllSpace(s[..i]) && AllSpace(s[i + |r|..]);
  }

  function DigitsValue(s: string): nat
    requires AllDigits(s)
    decreases |s|
  {
    if s == [] then 0
    else 10 * DigitsValue(s[..|s| - 1]) + (s[|s| - 1] as int - '0' as int)
  }

  function Pow10(n: nat): (p: nat)
    ensures p >= 1
  {
    if n == 0 then 1 else 10 * Pow10(n - 1)
  }

  /** Position of the first occurrence of `c` in `s`. */
  function IndexOf(s: string, c: char): (k: nat)
    requires c in s
    ensures k < |s| && s[k] == c && c !in s[..k]
  {
    if s[0] == c then 0
    else
      assert c in s[1..] by { var j :| 0 <= j < |s| && s[j] == c; assert s[1..][j - 1] == c; }
      var k := 1 + IndexOf(s[1..], c);
      assert s[..k] == [s[0]] + s[1..][..k - 1];
      k
  }

  /** An unsigned decimal literal: digits, optionally a point and more
      digits, with at least one digit in all. */
  function ParseUnsignedDecimal(s: string): Option<real>
  {
    if '.' in s then
      var k := IndexOf(s, '.');
      var whole, frac := s[..k], s[k + 1..];
      if AllDigits(whole) && AllDigits(frac) && |whole| + |frac| > 0 then
        Some(DigitsValue(whole) as real + DigitsValue(frac) as real / Pow10(|frac|) as real)
      else None
    else if s != [] && AllDigits(s) then Some(DigitsValue(s) as real)
    else None
  }

  /** `float(s)` on a string: surrounding white space, an optional sign, then
      an unsigned decimal literal. */
  function ParseFloat(s: string): Option<real>
  {
    var t := Strip(s);
    if t != [] && (t[0] == '+' || t[0] == '-') then
      match ParseUnsignedDecimal(t[1..])
      case None => None
      case Some(x) => Some(if t[0] == '-' then -x else x)
    else ParseUnsignedDecimal(t)
  }

  /** `int(s)` on a string: surrounding white space, an optional sign, then
      one or more decimal digits (a point is refused). */
  function ParseInt(s: string): Option<int>
  {
    var t := Strip(s);
    var signed := t != [] && (t[0] == '+' || t[0] == '-');
    var digits := if signed then t[1..] else t;
    if digits != [] && AllDigits(digits) then
      Some(if signed && t[0] == '-' then -(DigitsValue(digits) as int) else DigitsValue(digits))
    else None
  }

  /** `int(x)` on a float truncates toward zero. */
  function TruncateTowardZero(x: real): int
  {
    if x >= 0.0 then x.Floor else -((-x).Floor)
  }

  /** `float(v)`; `None` stands for the ValueError or TypeError it raises. */
  function ToFloat(v: Value): Option<real>
  {
    match v
    case Null => None
    case Bool(b) => Some(if b then 1.0 else 0.0)
    case Num(x) => Some(x)
    case Str(s) => ParseFloat(s)
  }

  /** `int(v)`; `None` stands for the ValueError or TypeError it raises. */
  function ToInt(v: Value): Option<int>
  {
    match v
    case Null => None
    case Bool(b) => Some(if b then 1 else 0)
    case Num(x) => Some(TruncateTowardZero(x))
    case Str(s) => ParseInt(s)
  }

  // ---------------------------------------------------------------------
  // Strings: replace, title, join, containment
  // ---------------------------------------------------------------------

  /** `s.replace(a, b)` for single characters. */
  function ReplaceChar(s: string, a: char, b: char): (r: string)
    ensures |r| == |s|
  {
    seq(|s|, i requires 0 <= i < |s| => if s[i] == a then b else s[i])
  }

  predicate IsLetter(c: char) { 'a' <= c <= 'z' || 'A' <= c <= 'Z' }

  function Upper(c: char): char { if 'a' <= c <= 'z' then (c as int - 32) as char else c }

  function Lower(c: char): char { if 'A' <= c <= 'Z' then (c as int + 32) as char else c }

  /** `s.title()` on ASCII text: a letter is upper-cased when it starts a run
      of letters and lower-cased otherwise; other characters are kept. */
  function Title(s: string): (r: string)
    ensures |r| == |s|
  {
    seq(|s|, i requires 0 <= i < |s| => if i > 0 && IsLetter(s[i - 1]) then Lower(s[i]) else Upper(s[i]))
  }

  /** `sep.join(parts)`. */
  function Join(parts: seq<string>, sep: string): string
  {
    if parts == [] then ""
    else if |parts| == 1 then parts[0]
    else parts[0] + sep + Join(parts[1..], sep)
  }

  /** Python's `t in s` on strings. */
  predicate Contains(s: string, t: string)
  {
    exists i | 0 <= i <= |s| :: OccursAt(s, t, i)
  }

  predicate OccursAt(s: string, t: string, i: int)
  {
    0 <= i && i + |t| <= |s| && s[i..i + |t|] == t
  }

  lemma ContainsInConcat(a: string, t: string, b: string)
    ensures Contains(a + t + b, t)
  {
    var s := a + t + b;
    assert OccursAt(s, t, |a|);
  }

  lemma ContainsInSuffix(a: string, s: string, t: string)
    requires Contains(s, t)
    ensures Contains(a + s, t)
  {
    var i :| 0 <= i <= |s| && OccursAt(s, t, i);
    assert (a + s)[|a| + i..|a| + i + |t|] == s[i..i + |t|];
    assert OccursAt(a + s, t, |a| + i);
  }

  /** Every part is a substring of the joined text, whatever the separator:
      a message built with `'; '.join(...)` mentions each joined item. */
  lemma {:induction false} JoinContainsPart(parts: seq<string>, sep: string, k: nat)
    requires k < |parts|
    ensures Contains(Join(parts, sep), parts[k])
  {
    if |parts| == 1 {
      ContainsInConcat("", parts[0], "");
      assert "" + parts[0] + "" == parts[0];
    } else if k == 0 {
      ContainsInConcat("", parts[0], sep + Join(parts[1..], sep));
      assert "" + parts[0] + (sep + Join(parts[1..], sep)) == Join(parts, sep);
    } else {
      JoinContainsPart(parts[1..], sep, k - 1);
      ContainsInSuffix(parts[0] + sep, Join(parts[1..], sep), parts[k]);
      assert (parts[0] + sep) + Join(parts[1..], sep) == Join(parts, sep);
    }
  }
}
