/**
 * PHP values as Chiral Connector handles them: values read from the options
 * table and post meta, request fields, and bodies decoded with
 * json_decode(..., true). The module also holds the PHP conversions that the
 * plugin's branches depend on: empty(), isset(), the (bool), (int) and
 * string casts, absint() and trim().
 */
module Php {

  datatype Option<T> = None | Some(value: T)
  {
    function GetOr(default: T): T {
      if Some? then value else default
    }
  }

  /** A PHP value. Arrays with keys 0..n-1 are lists, arrays with string keys are maps. */
  datatype PhpValue =
    | PNull
    | PBool(b: bool)
    | PInt(i: int)
    | PStr(s: string)
    | PList(items: seq<PhpValue>)
    | PMap(fields: map<string, PhpValue>)

  /** PHP empty(): null, false, 0, "", "0" and the empty array. */
  predicate Empty(v: PhpValue) {
    match v
    case PNull => true
    case PBool(b) => !b
    case PInt(i) => i == 0
    case PStr(s) => s == "" || s == "0"
    case PList(xs) => |xs| == 0
    case PMap(m) => |m| == 0
  }

  /** The (bool) cast, which is also PHP's truthiness in `if ($v)`. */
  predicate Truthy(v: PhpValue) {
    !Empty(v)
  }

  predicate IsArray(v: PhpValue) {
    v.PList? || v.PMap?
  }

  /** `$v[$key]` read without a notice: null when `$v` has no such string key. */
  function Field(v: PhpValue, key: string): PhpValue {
    if v.PMap? && key in v.fields then v.fields[key] else PNull
  }

  /** isset($v[$key]): the key is present and its value is not null. */
  predicate Isset(v: PhpValue, key: string) {
    Field(v, key) != PNull
  }

  /** `isset($v[$key]) ? $v[$key] : $default`. */
  function FieldOr(v: PhpValue, key: string, default: PhpValue): (r: PhpValue)
    ensures Isset(v, key) ==> r == Field(v, key) && r != PNull
    ensures !Isset(v, key) ==> r == default
  {
    if Isset(v, key) then Field(v, key) else default
  }

  /** The elements a foreach over an array visits (a map's members are not ordered here). */
  function Elements(v: PhpValue): seq<PhpValue> {
    if v.PList? then v.items else []
  }

  /** count() of an array. */
  function Count(v: PhpValue): nat {
    match v
    case PList(xs) => |xs|
    case PMap(m) => |m|
    case _ => 0
  }

  // ---------------------------------------------------------------- strings

  predicate IsDigit(c: char) {
    '0' <= c <= '9'
  }

  /** The whitespace PHP skips before a leading-numeric string. */
  predicate IsNumericSpace(c: char) {
    c == ' ' || c == '\t' || c == '\n' || c == '\r' || c == '\U{B}' || c == '\U{C}'
  }

  /** The characters trim() strips by default. */
  predicate IsTrimChar(c: char) {
    c == ' ' || c == '\t' || c == '\n' || c == '\r' || c == '\0' || c == '\U{B}'
  }

  function TrimLeft(s: string): (r: string)
    ensures |r| <= |s| && r == s[|s| - |r|..]
    ensures |r| == 0 || !IsTrimChar(r[0])
  {
    if |s| > 0 && IsTrimChar(s[0]) then TrimLeft(s[1..]) else s
  }

  function TrimRight(s: string): (r: string)
    ensures |r| <= |s| && r == s[..|r|]
    ensures |r| == 0 || !IsTrimChar(r[|r| - 1])
  {
    if |s| > 0 && IsTrimChar(s[|s| - 1]) then TrimRight(s[..|s| - 1]) else s
  }

  /** PHP trim() with its default character list. */
  function Trim(s: string): string {
    TrimRight(TrimLeft(s))
  }

  /** strtoupper(): ASCII letters only, as in PHP 8.2 and later. */
  function Upper(s: string): (r: string)
    ensures |r| == |s|
    ensures forall i | 0 <= i < |s| :: if 'a' <= s[i] <= 'z' then r[i] == s[i] - 'a' + 'A' else r[i] == s[i]
  {
    if |s| == 0 then [] else
      var c := s[0];
      [if 'a' <= c <= 'z' then c - 'a' + 'A' else c] + Upper(s[1..])
  }

  // ---------------------------------------------------------------- numbers

  function DigitValue(c: char): nat
    requires IsDigit(c)
  {
    (c - '0') as nat
  }

  function DigitChar(d: nat): (c: char)
    requires d < 10
    ensures IsDigit(c) && DigitValue(c) == d
  {
    ('0' as int + d) as char
  }

  /** The longest prefix of `s` made of decimal digits. */
  function LeadingDigits(s: string): (r: string)
    ensures r <= s
    ensures forall i | 0 <= i < |r| :: IsDigit(r[i])
    ensures |r| == |s| || !IsDigit(s[|r|])
  {
    if |s| > 0 && IsDigit(s[0]) then [s[0]] + LeadingDigits(s[1..]) else []
  }

  /** The value of a string of decimal digits. */
  function DigitsValue(ds: string): nat
    requires forall i | 0 <= i < |ds| :: IsDigit(ds[i])
  {
    if |ds| == 0 then 0 else DigitsValue(ds[..|ds| - 1]) * 10 + DigitValue(ds[|ds| - 1])
  }

  function SkipNumericSpace(s: string): (r: string)
    ensures |r| <= |s| && r == s[|s| - |r|..]
    ensures |r| == 0 || !IsNumericSpace(r[0])
  {
    if |s| > 0 && IsNumericSpace(s[0]) then SkipNumericSpace(s[1..]) else s
  }

  /** (int) of a string: optional leading whitespace and sign, then the leading digits; 0 when there are none. */
  function StrToInt(s: string): int {
    var t := SkipNumericSpace(s);
    if |t| > 0 && t[0] == '-' then -(DigitsValue(LeadingDigits(t[1..])) as int)
    else if |t| > 0 && t[0] == '+' then DigitsValue(LeadingDigits(t[1..]))
    else DigitsValue(LeadingDigits(t))
  }

  /** The (int) cast, intval(). */
  function IntVal(v: PhpValue): int {
    match v
    case PNull => 0
    case PBool(b) => if b then 1 else 0
    case PInt(i) => i
    case PStr(s) => StrToInt(s)
    case PList(xs) => if |xs| == 0 then 0 else 1
    case PMap(m) => if |m| == 0 then 0 else 1
  }

  /** WordPress absint(): abs((int) $v). */
  function AbsInt(v: PhpValue): (r: nat)
    ensures IntVal(v) >= 0 ==> r == IntVal(v)
    ensures IntVal(v) < 0 ==> r == -IntVal(v)
  {
    var i := IntVal(v);
    if i < 0 then -i else i
  }

  function NatToDecimal(n: nat): (r: string)
    ensures |r| > 0
    ensures forall i | 0 <= i < |r| :: IsDigit(r[i])
  {
    if n < 10 then [DigitChar(n)] else NatToDecimal(n / 10) + [DigitChar(n % 10)]
  }

  /** Decimal form of an integer, as PHP's string conversion writes it. */
  function IntToDecimal(i: int): string {
    if i < 0 then "-" + NatToDecimal(-i) else NatToDecimal(i)
  }

  /** The string cast. */
  function StrVal(v: PhpValue): string {
    match v
    case PNull => ""
    case PBool(b) => if b then "1" else ""
    case PInt(i) => IntToDecimal(i)
    case PStr(s) => s
    case PList(_) => "Array"
    case PMap(_) => "Array"
  }

  lemma {:induction false} DigitsOfDecimal(n: nat)
    ensures DigitsValue(NatToDecimal(n)) == n
  {
    if n >= 10 {
      var r := NatToDecimal(n);
      var p := NatToDecimal(n / 10);
      assert r == p + [DigitChar(n % 10)];
      assert r[..|r| - 1] == p;
      DigitsOfDecimal(n / 10);
    }
  }

  lemma {:induction false} LeadingDigitsOfAllDigits(s: string)
    requires forall i | 0 <= i < |s| :: IsDigit(s[i])
    ensures LeadingDigits(s) == s
    decreases |s|
  {
    if |s| > 0 {
      LeadingDigitsOfAllDigits(s[1..]);
      assert [s[0]] + s[1..] == s;
    }
  }

  lemma DigitStringReadsBack(d: string)
    requires |d| > 0 && forall i | 0 <= i < |d| :: IsDigit(d[i])
    ensures StrToInt(d) == DigitsValue(d)
  {
    LeadingDigitsOfAllDigits(d);
    assert !IsNumericSpace(d[0]);
    assert SkipNumericSpace(d) == d;
  }

  lemma DecimalReadsBack(d: string, n: nat)
    requires d == NatToDecimal(n)
    ensures StrToInt(d) == n
  {
    DigitStringReadsBack(d);
    DigitsOfDecimal(n);
  }

  lemma NegativeDecimalReadsBack(d: string, n: nat)
    requires d == NatToDecimal(n)
    ensures StrToInt("-" + d) == -(n as int)
  {
    var m := "-" + d;
    LeadingDigitsOfAllDigits(d);
    DigitsOfDecimal(n);
    assert m[0] == '-' && !IsNumericSpace(m[0]);
    assert SkipNumericSpace(m) == m;
    assert m[1..] == d;
  }

  /**
   * Writing an integer as a string and reading it back with (int) gives the
   * integer again: post meta such as the retry counter comes back from the
   * database as a string.
   */
  lemma IntRoundTrip(i: int)
    ensures StrToInt(IntToDecimal(i)) == i
    ensures IntVal(PStr(StrVal(PInt(i)))) == i
  {
    if i < 0 {
      NegativeDecimalReadsBack(NatToDecimal(-i), -i);
    } else {
      DecimalReadsBack(NatToDecimal(i), i);
    }
  }
}
