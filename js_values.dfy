/** The JavaScript values the handlers receive in a request body or path, and
    the coercions they apply to them: truthiness, `== null`, `Number(...)`,
    `String(...)` of an id, `.trim()` and `.length`. */
module JsValues {
  import opened Wrappers

  /** The result of `Number(...)`: NaN or a finite number.  Numbers are exact
      reals; IEEE-754 rounding is not modelled. */
  datatype JsNum = NaN | Finite(r: real)

  /** A value parsed from a JSON body or taken from a URL path. */
  datatype JsValue = Undefined | Null | Bool(b: bool) | Number(n: JsNum) | Str(s: string)

  /** The outcome of an expression that may throw a TypeError, as calling
      `.trim()` on a number or a boolean does. */
  datatype Js<+T> = Val(value: T) | TypeError

  predicate IsIntegral(r: real) {
    r.Floor as real == r
  }

  /** `Number.isInteger(n)` */
  predicate IsInteger(n: JsNum) {
    n.Finite? && IsIntegral(n.r)
  }

  /** `v == null`, which holds of `null` and `undefined` alike */
  predicate IsNullish(v: JsValue) {
    v.Undefined? || v.Null?
  }

  /** Truthiness of a number: NaN and zero are falsy */
  predicate NumTruthy(n: JsNum) {
    n.Finite? && n.r != 0.0
  }

  /** Truthiness, as `!v` and `v || w` test it */
  predicate Truthy(v: JsValue) {
    match v
    case Undefined => false
    case Null => false
    case Bool(b) => b
    case Number(n) => NumTruthy(n)
    case Str(s) => s != ""
  }

  // ---------------------------------------------------------------------------
  // Whitespace, trim and length

  /** The characters `String.prototype.trim` removes and the regular-expression
      class `\s` matches: white space and line terminators. */
  predicate IsSpace(c: char) {
    c == '\t' || c == '\n' || c == '\U{000B}' || c == '\U{000C}' || c == '\r' || c == ' '
    || c == '\U{00A0}' || c == '\U{1680}' || ('\U{2000}' <= c <= '\U{200A}')
    || c == '\U{2028}' || c == '\U{2029}' || c == '\U{202F}' || c == '\U{205F}'
    || c == '\U{3000}' || c == '\U{FEFF}'
  }

  /** `s` with its leading white space removed */
  function TrimStart(s: string): (r: string)
    ensures |r| <= |s| && r == s[|s| - |r|..]
    ensures forall i :: 0 <= i < |s| - |r| ==> IsSpace(s[i])
    ensures r == [] || !IsSpace(r[0])
  {
    if s != [] && IsSpace(s[0]) then TrimStart(s[1..]) else s
  }

  /** `s` with its trailing white space removed */
  function TrimEnd(s: string): (r: string)
    ensures |r| <= |s| && r == s[..|r|]
    ensures forall i :: |r| <= i < |s| ==> IsSpace(s[i])
    ensures r == [] || !IsSpace(r[|r| - 1])
  {
    if s != [] && IsSpace(s[|s| - 1]) then TrimEnd(s[..|s| - 1]) else s
  }

  /** `s.trim()`: the infix of `s` that neither starts nor ends with white
      space, obtained by dropping only white space on either side */
  function Trim(s: string): (r: string)
    ensures var i := |s| - |TrimStart(s)|;
            i + |r| <= |s| && r == s[i..i + |r|]
            && (forall j :: 0 <= j < i ==> IsSpace(s[j]))
            && (forall j :: i + |r| <= j < |s| ==> IsSpace(s[j]))
    ensures r == [] || (!IsSpace(r[0]) && !IsSpace(r[|r| - 1]))
  {
    var t := TrimStart(s);
    var r := TrimEnd(t);
    DropBothEnds(s, t, r);
    r
  }

  /** Dropping white space from the front of `s` (giving `t`) and then from
      the back of `t` (giving `r`) leaves an infix of `s` surrounded by white
      space only */
  lemma DropBothEnds(s: string, t: string, r: string)
    requires |t| <= |s| && t == s[|s| - |t|..]
    requires forall j :: 0 <= j < |s| - |t| ==> IsSpace(s[j])
    requires t == [] || !IsSpace(t[0])
    requires |r| <= |t| && r == t[..|r|]
    requires forall j :: |r| <= j < |t| ==> IsSpace(t[j])
    requires r == [] || !IsSpace(r[|r| - 1])
    ensures var i := |s| - |t|;
            i + |r| <= |s| && r == s[i..i + |r|]
            && (forall j :: 0 <= j < i ==> IsSpace(s[j]))
            && (forall j :: i + |r| <= j < |s| ==> IsSpace(s[j]))
    ensures r == [] || (!IsSpace(r[0]) && !IsSpace(r[|r| - 1]))
  {
    var i := |s| - |t|;
    forall j | i + |r| <= j < |s| ensures IsSpace(s[j]) {
      assert s[j] == t[j - i];
    }
  }

  /** Trimming is idempotent: a trimmed name is stored as it is re-read */
  lemma TrimIdempotent(s: string)
    ensures Trim(Trim(s)) == Trim(s)
  {
    var t := Trim(s);
    assert t == [] || !IsSpace(t[0]);
    assert TrimStart(t) == t;
    assert t == [] || !IsSpace(t[|t| - 1]);
    assert TrimEnd(t) == t;
  }

  /** `s.length`: the number of UTF-16 code units, two for a character
      outside the Basic Multilingual Plane */
  function Utf16Length(s: string): (n: nat)
    ensures |s| <= n <= 2 * |s|
  {
    if s == [] then 0
    else Utf16Length(s[..|s| - 1]) + (if s[|s| - 1] as int > 0xFFFF then 2 else 1)
  }

  // ---------------------------------------------------------------------------
  // Number(string) and String(integer)

  predicate IsDigit(c: char) {
    '0' <= c <= '9'
  }

  predicate AllDigits(s: string) {
    forall i :: 0 <= i < |s| ==> IsDigit(s[i])
  }

  function DigitsValue(s: string): nat
    requires AllDigits(s)
  {
    if s == [] then 0 else 10 * DigitsValue(s[..|s| - 1]) + (s[|s| - 1] as int - '0' as int)
  }

  function Pow10(n: nat): (p: nat)
    ensures p >= 1
  {
    if n == 0 then 1 else 10 * Pow10(n - 1)
  }

  /** The position of the first `c` in `s`, if any */
  function IndexOf(s: string, c: char): (r: Option<nat>)
    ensures r.None? <==> c !in s
    ensures r.Some? ==> r.value < |s| && s[r.value] == c && c !in s[..r.value]
  {
    if s == [] then None
    else if s[0] == c then Some(0)
    else match IndexOf(s[1..], c)
      case None => None
      case Some(k) =>
        assert s[..k + 1] == [s[0]] + s[1..][..k];
        Some(k + 1)
  }

  /** An unsigned decimal literal: digits, optionally a point and more
      digits, with at least one digit in all ("12", "12.5", ".5", "12.") */
  function UnsignedDecimal(body: string): Option<real> {
    match IndexOf(body, '.')
    case None =>
      if body != [] && AllDigits(body) then Some(DigitsValue(body) as real) else None
    case Some(k) =>
      var whole, frac := body[..k], body[k + 1..];
      if AllDigits(whole) && AllDigits(frac) && |whole| + |frac| > 0
      then Some(DigitsValue(whole) as real + DigitsValue(frac) as real / Pow10(|frac|) as real)
      else None
  }

  /** `Number(t)` for an already trimmed string `t` */
  function ParseNumeric(t: string): JsNum {
    if t == "" then Finite(0.0)
    else
      var negative := t[0] == '-';
      var body := if t[0] == '-' || t[0] == '+' then t[1..] else t;
      match UnsignedDecimal(body)
      case None => NaN
      case Some(v) => Finite(if negative then -v else v)
  }

  /** `Number(s)` for a string: surrounding white space is ignored and the
      empty string is zero */
  function StringToNumber(s: string): JsNum {
    ParseNumeric(Trim(s))
  }

  /** `Number(v)` */
  function ToNumber(v: JsValue): JsNum {
    match v
    case Undefined => NaN
    case Null => Finite(0.0)
    case Bool(b) => Finite(if b then 1.0 else 0.0)
    case Number(n) => n
    case Str(s) => StringToNumber(s)
  }

  /** Decimal digits of a natural number, without leading zeros */
  function NatToString(n: nat): (s: string)
    ensures s != [] && AllDigits(s) && DigitsValue(s) == n
    ensures |s| > 1 ==> s[0] != '0'
  {
    var d := ['0' + (n % 10) as char];
    if n < 10 then d
    else
      var prefix := NatToString(n / 10);
      assert (prefix + d)[..|prefix + d| - 1] == prefix;
      prefix + d
  }

  /** The number an integer denotes */
  function FromInt(k: int): JsNum {
    Finite(k as real)
  }

  /** `String(i)` for an integer `i` */
  function IntToString(i: int): (s: string)
    ensures s != [] && !IsSpace(s[0]) && !IsSpace(s[|s| - 1])
  {
    var digits := NatToString(if i < 0 then -i else i);
    if i < 0 then "-" + digits else digits
  }

  /** A string with no white space at either end is its own trim */
  lemma TrimOfUnspaced(s: string)
    requires s != [] && !IsSpace(s[0]) && !IsSpace(s[|s| - 1])
    ensures Trim(s) == s
  {
    assert TrimStart(s) == s;
    assert TrimEnd(s) == s;
  }

  /** A non-empty run of digits reads as its decimal value */
  lemma DigitsParse(d: string)
    requires d != [] && AllDigits(d)
    ensures UnsignedDecimal(d) == Some(DigitsValue(d) as real)
  {
    assert forall j :: 0 <= j < |d| ==> d[j] != '.';
  }

  /** Reading back a printed integer gives that integer: `Number(String(i)) == i` */
  lemma IntToStringRoundTrip(i: int)
    ensures StringToNumber(IntToString(i)) == FromInt(i)
  {
    var s := IntToString(i);
    TrimOfUnspaced(s);
    var digits := NatToString(if i < 0 then -i else i);
    DigitsParse(digits);
    if i < 0 {
      assert s[1..] == digits;
    }
  }

  /** Distinct integers print to distinct strings */
  lemma IntToStringInjective(i: int, j: int)
    requires IntToString(i) == IntToString(j)
    ensures i == j
  {
    IntToStringRoundTrip(i);
    IntToStringRoundTrip(j);
  }

  // ---------------------------------------------------------------------------
  // Ids and trimming of request values

  /** `Number.isInteger(id) && id > 0` */
  predicate IsValidId(id: JsNum) {
    IsInteger(id) && id.r > 0.0
  }

  /** The integer a number denotes once `Number.isInteger` holds of it */
  function AsInt(id: JsNum): (k: int)
    requires IsInteger(id)
    ensures k as real == id.r
  {
    id.r.Floor
  }

  /** `IsValidId` holds exactly of the positive integers */
  lemma ValidIdsArePositiveIntegers(id: JsNum)
    ensures IsValidId(id) <==> exists k: nat :: k > 0 && id == FromInt(k)
  {
    if IsValidId(id) {
      var k: nat := id.r.Floor;
      assert id == FromInt(k);
    }
  }

  /** The path segment `String(k)` denotes a valid id exactly when k > 0 */
  lemma PrintedIdIsValid(k: int)
    ensures IsValidId(StringToNumber(IntToString(k))) <==> k > 0
  {
    IntToStringRoundTrip(k);
    assert (k as real).Floor == k;
  }

  /** `v.trim()`: a string is trimmed; anything else throws */
  function TrimValue(v: JsValue): Js<string> {
    if v.Str? then Val(Trim(v.s)) else TypeError
  }

  /** `v?.trim()`: `undefined` for null and undefined */
  function OptionalTrim(v: JsValue): Js<Option<string>> {
    if IsNullish(v) then Val(None)
    else if v.Str? then Val(Some(Trim(v.s)))
    else TypeError
  }

  /** `v?.trim() || null`: the trimmed string, or null when it is empty or
      `v` is null or undefined */
  function TrimmedOrNull(v: JsValue): (r: Js<Option<string>>)
    ensures r.TypeError? <==> !IsNullish(v) && !v.Str?
    ensures r == Val(None) <==> IsNullish(v) || (v.Str? && Trim(v.s) == "")
    ensures r.Val? && r.value.Some? ==> v.Str? && r.value.value == Trim(v.s)
    ensures r.Val? && r.value.Some? ==> r.value.value != [] && Trim(r.value.value) == r.value.value
  {
    match OptionalTrim(v)
    case TypeError => TypeError
    case Val(t) =>
      if t.Some? && t.value != "" then
        TrimIdempotent(v.s);
        Val(t)
      else Val(None)
  }

  /** A trimmed non-empty string passes `?.trim() || null` unchanged */
  lemma TrimmedOrNullOfTrimmed(s: string)
    requires s != "" && Trim(s) == s
    ensures TrimmedOrNull(Str(s)) == Val(Some(s))
  {
    assert OptionalTrim(Str(s)) == Val(Some(s));
  }
}
