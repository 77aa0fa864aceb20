/**
 * The slice of PHP 8 semantics the SDK and the plugin rely on: the values that
 * json_decode(..., true) produces, their boolean cast (what `if ($v)`, `empty()`
 * and array_filter test), loose comparison `==` against a string, string
 * conversion, trim(), and explode()/implode() on a one-character separator.
 */
module Php {

  /**
   * A PHP value after json_decode(..., true): null, booleans, integers, strings
   * and arrays keyed by string. Floats and integer-keyed arrays are not modelled.
   */
  datatype Value =
    | Null
    | Bool(b: bool)
    | Int(i: int)
    | Str(s: string)
    | Arr(entries: map<string, Value>)

  // ---------------------------------------------------------------- digits

  predicate IsDigit(c: char) {
    '0' <= c <= '9'
  }

  predicate IsDigits(s: string) {
    forall k :: 0 <= k < |s| ==> IsDigit(s[k])
  }

  /** A concatenation is all digits exactly when both parts are. */
  lemma IsDigitsConcat(a: string, b: string)
    ensures IsDigits(a + b) <==> IsDigits(a) && IsDigits(b)
  {
    if IsDigits(a + b) {
      forall k | 0 <= k < |a| ensures IsDigit(a[k]) {
        assert (a + b)[k] == a[k];
      }
      forall k | 0 <= k < |b| ensures IsDigit(b[k]) {
        assert (a + b)[|a| + k] == b[k];
      }
    }
    if IsDigits(a) && IsDigits(b) {
      forall k | 0 <= k < |a + b| ensures IsDigit((a + b)[k]) {
        if k < |a| { assert (a + b)[k] == a[k]; } else { assert (a + b)[k] == b[k - |a|]; }
      }
    }
  }

  /**
   * A numeric string as far as this model recognises one: one or more decimal
   * digits. (PHP also accepts a sign, a fraction, an exponent and surrounding
   * whitespace.)
   */
  predicate IsNumericString(s: string) {
    |s| > 0 && IsDigits(s)
  }

  function DigitValue(c: char): nat
    requires IsDigit(c)
  {
    c as int - '0' as int
  }

  function DigitChar(d: nat): (c: char)
    requires d < 10
    ensures IsDigit(c) && DigitValue(c) == d
  {
    ('0' as int + d) as char
  }

  /** The number a digit string denotes. */
  function DigitsValue(s: string): nat
    requires IsDigits(s)
    decreases |s|
  {
    if s == [] then 0 else 10 * DigitsValue(s[..|s| - 1]) + DigitValue(s[|s| - 1])
  }

  /** Decimal notation of a natural number, as PHP prints an int (`.`, `%d`, strval). */
  function Dec(n: nat): (s: string)
    ensures IsNumericString(s)
    decreases n
  {
    if n < 10 then [DigitChar(n)] else Dec(n / 10) + [DigitChar(n % 10)]
  }

  /** Reading back the decimal notation of n gives n. */
  lemma {:induction false} DecRoundTrip(n: nat)
    ensures DigitsValue(Dec(n)) == n
  {
    if n >= 10 {
      DecRoundTrip(n / 10);
      var s := Dec(n);
      assert s[..|s| - 1] == Dec(n / 10);
    }
  }

  /** PHP's int-to-string conversion. */
  function IntToString(i: int): (s: string)
    ensures |s| > 0 && (IsDigit(s[0]) || s[0] == '-')
  {
    if i < 0 then "-" + Dec(-i) else Dec(i)
  }

  /** String conversion, as in `.` and sprintf('%s'). */
  function ToStr(v: Value): string {
    match v
    case Null => ""
    case Bool(b) => if b then "1" else ""
    case Int(i) => IntToString(i)
    case Str(s) => s
    case Arr(_) => "Array"
  }

  // ---------------------------------------------------------------- truthiness

  /** empty() of a string: the empty string and "0". */
  predicate EmptyString(s: string) {
    s == "" || s == "0"
  }

  /** PHP's boolean cast; `empty($v)` is its negation. */
  predicate Truthy(v: Value) {
    match v
    case Null => false
    case Bool(b) => b
    case Int(i) => i != 0
    case Str(s) => !EmptyString(s)
    case Arr(m) => m != map[]
  }

  /** is_numeric(), with numeric strings as recognised by IsNumericString. */
  predicate IsNumeric(v: Value) {
    match v
    case Int(_) => true
    case Str(s) => IsNumericString(s)
    case _ => false
  }

  /** `!empty($v) || is_numeric($v)` on a string holds exactly when the string is not "". */
  lemma FilledStringIsNonEmpty(s: string)
    ensures Truthy(Str(s)) || IsNumeric(Str(s)) <==> s != ""
  {
    if s == "0" {
      assert IsDigit(s[0]);
    }
  }

  // ---------------------------------------------------------------- loose comparison

  /** PHP 8 `$v == $s` where $s is a string. */
  predicate LooseEquals(v: Value, s: string) {
    match v
    case Null => s == ""
    case Bool(b) => b == Truthy(Str(s))
    case Int(i) => if IsNumericString(s) then i == DigitsValue(s) else IntToString(i) == s
    case Str(t) =>
      if IsNumericString(t) && IsNumericString(s) then DigitsValue(t) == DigitsValue(s) else t == s
    case Arr(_) => false
  }

  /**
   * Against a constant that starts with a letter, such as a status code, loose
   * comparison holds for that very string and, PHP being PHP, for `true`.
   */
  lemma LooseEqualsWord(v: Value, w: string)
    requires |w| > 0 && 'A' <= w[0] <= 'Z'
    ensures LooseEquals(v, w) <==> v == Str(w) || v == Bool(true)
  {
    assert !IsDigit(w[0]);
    assert !IsNumericString(w);
    match v
    case Int(i) =>
      var t := IntToString(i);
      assert t != w by { assert t[0] != w[0]; }
    case _ =>
  }

  /** in_array($v, $list) with loose comparison, over a list of strings. */
  predicate InArray(v: Value, list: seq<string>)
    decreases |list|
  {
    |list| > 0 && (LooseEquals(v, list[0]) || InArray(v, list[1..]))
  }

  /**
   * in_array against a non-empty list of words that start with a capital letter:
   * the value is one of them, or it is `true`.
   */
  lemma {:induction false} InArrayWords(v: Value, list: seq<string>)
    requires forall i :: 0 <= i < |list| ==> |list[i]| > 0 && 'A' <= list[i][0] <= 'Z'
    ensures InArray(v, list) <==> |list| > 0 && (v == Bool(true) || (v.Str? && v.s in list))
    decreases |list|
  {
    if |list| > 0 {
      LooseEqualsWord(v, list[0]);
      InArrayWords(v, list[1..]);
      assert list == [list[0]] + list[1..];
    }
  }

  // ---------------------------------------------------------------- array_filter

  /** array_filter($m) without a callback: drops every entry whose value is falsy. */
  function ArrayFilter(m: map<string, Value>): (r: map<string, Value>)
    ensures forall k :: k in r <==> k in m && Truthy(m[k])
    ensures forall k :: k in r ==> r[k] == m[k]
  {
    map k | k in m && Truthy(m[k]) :: m[k]
  }

  // ---------------------------------------------------------------- trim

  /** The characters trim() strips by default: " \t\n\r\0\x0B". */
  predicate IsTrimChar(c: char) {
    c == ' ' || c == '\t' || c == '\n' || c == '\r' || c == 0 as char || c == 11 as char
  }

  function TrimLeft(s: string): (r: string)
    ensures |r| <= |s| && r == s[|s| - |r|..]
    ensures r == [] || !IsTrimChar(r[0])
    ensures forall k :: 0 <= k < |s| - |r| ==> IsTrimChar(s[k])
    decreases |s|
  {
    if s != [] && IsTrimChar(s[0]) then TrimLeft(s[1..]) else s
  }

  function TrimRight(s: string): (r: string)
    ensures |r| <= |s| && r == s[..|r|]
    ensures r == [] || !IsTrimChar(r[|r| - 1])
    ensures forall k :: |r| <= k < |s| ==> IsTrimChar(s[k])
    decreases |s|
  {
    if s != [] && IsTrimChar(s[|s| - 1]) then TrimRight(s[..|s| - 1]) else s
  }

  /** trim($s) with the default character list. */
  function Trim(s: string): string {
    TrimRight(TrimLeft(s))
  }

  /** trim() yields "" exactly for strings made only of whitespace. */
  lemma TrimEmptyIff(s: string)
    ensures Trim(s) == "" <==> forall k :: 0 <= k < |s| ==> IsTrimChar(s[k])
  {
    var l := TrimLeft(s);
    if l != [] {
      // the first character that TrimLeft keeps is not whitespace
      assert s[|s| - |l|] == l[0];
      assert !IsTrimChar(s[|s| - |l|]);
    }
    if Trim(s) == "" {
      // everything TrimLeft kept is whitespace, yet it keeps no leading whitespace
      assert l == [];
    }
  }

  /** trim() of a string that neither starts nor ends with whitespace is the identity. */
  lemma TrimFixesTrimmed(s: string)
    requires s == [] || (!IsTrimChar(s[0]) && !IsTrimChar(s[|s| - 1]))
    ensures Trim(s) == s
  {
  }

  /** trim() is idempotent: its result neither starts nor ends with whitespace. */
  lemma TrimIdempotent(s: string)
    ensures Trim(Trim(s)) == Trim(s)
  {
    var l := TrimLeft(s);
    var r := TrimRight(l);
    if r != [] {
      assert r[0] == l[0];
    }
    TrimFixesTrimmed(r);
  }

  // ---------------------------------------------------------------- explode / implode

  /** implode() with a one-character glue. */
  function Join(parts: seq<string>, sep: char): string
    decreases |parts|
  {
    if |parts| == 0 then ""
    else if |parts| == 1 then parts[0]
    else parts[0] + [sep] + Join(parts[1..], sep)
  }

  /** explode() on a one-character delimiter; like PHP's, it always yields at least one piece. */
  function Split(s: string, sep: char): (parts: seq<string>)
    ensures |parts| >= 1
    decreases |s|
  {
    if s == [] then [""]
    else
      var rest := Split(s[1..], sep);
      if s[0] == sep then [""] + rest else [[s[0]] + rest[0]] + rest[1..]
  }

  lemma {:induction false} SplitWithoutSep(x: string, sep: char)
    requires sep !in x
    ensures Split(x, sep) == [x]
    decreases |x|
  {
    if x != [] {
      SplitWithoutSep(x[1..], sep);
      assert [x[0]] + x[1..] == x;
    }
  }

  lemma {:induction false} SplitAtFirstSep(x: string, y: string, sep: char)
    requires sep !in x
    ensures Split(x + [sep] + y, sep) == [x] + Split(y, sep)
    decreases |x|
  {
    var s := x + [sep] + y;
    if x == [] {
      assert s[1..] == y;
    } else {
      assert s[1..] == x[1..] + [sep] + y;
      SplitAtFirstSep(x[1..], y, sep);
      assert [x[0]] + x[1..] == x;
    }
  }

  /** explode() undoes implode() when no piece contains the separator. */
  lemma {:induction false} SplitJoin(parts: seq<string>, sep: char)
    requires |parts| >= 1
    requires forall i :: 0 <= i < |parts| ==> sep !in parts[i]
    ensures Split(Join(parts, sep), sep) == parts
    decreases |parts|
  {
    if |parts| == 1 {
      SplitWithoutSep(parts[0], sep);
    } else {
      SplitJoin(parts[1..], sep);
      SplitAtFirstSep(parts[0], Join(parts[1..], sep), sep);
      assert [parts[0]] + parts[1..] == parts;
    }
  }
}
