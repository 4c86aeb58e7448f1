/**
 * The PHP values the license client works on: what `json_decode($body, true)`
 * produces, PHP's `empty()` test, array offsets read inside `empty()`, and
 * the coercion PHP applies when a function declared `null|string` returns a
 * scalar that is not a string.
 */
module PhpValues {
  import opened Wrappers

  /**
   * A decoded JSON value as PHP holds it. `JList` and `JObject` are both PHP
   * arrays (a list has integer keys, an object string keys). PHP's empty
   * array `[]` has two spellings here, `JList([])` and `JObject(map[])`:
   * both decode results (`[]` and `{}`) are that one PHP value, and every
   * predicate below treats them alike, but `==` on `Json` tells them apart.
   * `JList([])` is the spelling the model produces itself. Floating-point
   * numbers are not modelled.
   */
  datatype Json =
    | JNull
    | JBool(b: bool)
    | JInt(i: int)
    | JString(s: string)
    | JList(items: seq<Json>)
    | JObject(fields: map<string, Json>)

  /** PHP `is_array`. */
  predicate IsArray(v: Json) {
    v.JList? || v.JObject?
  }

  /** The canonical empty PHP array `[]`. */
  const EmptyArray: Json := JList([])

  /**
   * PHP `empty()`, equivalently the negation of truthiness: null, false, 0,
   * "", "0" and the empty array are empty, everything else is not.
   */
  predicate IsEmpty(v: Json) {
    match v
    case JNull => true
    case JBool(b) => !b
    case JInt(i) => i == 0
    case JString(s) => s == "" || s == "0"
    case JList(items) => |items| == 0
    case JObject(fields) => |fields| == 0
  }

  /**
   * `$v[key]` for a literal, non-numeric string key, as `empty()` and `??`
   * see it: the field of an object, and null when the key is absent or `$v`
   * is not an array (a list has only integer keys).
   */
  function Offset(v: Json, key: string): (r: Json)
    ensures r != JNull ==> v.JObject? && key in v.fields && r == v.fields[key]
    ensures v.JObject? && key in v.fields ==> r == v.fields[key]
  {
    if v.JObject? && key in v.fields then v.fields[key] else JNull
  }

  /** `$v[key] = x` on an object. */
  function WithField(v: Json, key: string, x: Json): (r: Json)
    requires v.JObject?
    ensures Offset(r, key) == x
    ensures forall k :: k != key ==> Offset(r, k) == Offset(v, k)
  {
    JObject(v.fields[key := x])
  }

  predicate IsDigit(c: char) {
    '0' <= c <= '9'
  }

  predicate AllDigits(s: string) {
    forall i :: 0 <= i < |s| ==> IsDigit(s[i])
  }

  /** The decimal digit character for `d`. */
  function DigitChar(d: nat): (c: char)
    requires d < 10
    ensures IsDigit(c) && c as int - '0' as int == d
  {
    ('0' as int + d) as char
  }

  /**
   * The decimal spelling of a natural number, as PHP's string conversion
   * writes it: digits only, and no leading zero except for 0 itself.
   */
  function NaturalDecimal(n: nat): (s: string)
    ensures |s| >= 1 && AllDigits(s)
    ensures s[0] == '0' <==> n == 0
    ensures n == 0 ==> s == "0"
  {
    if n < 10 then [DigitChar(n)] else NaturalDecimal(n / 10) + [DigitChar(n % 10)]
  }

  /** The value of a string of decimal digits, read most significant first. */
  function DigitsValue(s: string): (n: nat)
    requires AllDigits(s)
  {
    if s == [] then 0 else 10 * DigitsValue(s[..|s| - 1]) + (s[|s| - 1] as int - '0' as int)
  }

  /** Reading back the decimal spelling of `n` gives `n`. */
  lemma {:induction false} NaturalDecimalRoundTrip(n: nat)
    ensures DigitsValue(NaturalDecimal(n)) == n
  {
    if n >= 10 {
      var s := NaturalDecimal(n);
      assert s[..|s| - 1] == NaturalDecimal(n / 10);
      NaturalDecimalRoundTrip(n / 10);
    }
  }

  /**
   * PHP's `(string)` of an integer: a minus sign exactly for negative
   * numbers, followed by digits that read back as the magnitude.
   */
  function DecimalString(i: int): (s: string)
    ensures |s| >= 1 && (s[0] == '-' <==> i < 0)
    ensures i >= 0 ==> AllDigits(s) && DigitsValue(s) == i
    ensures i < 0 ==> AllDigits(s[1..]) && DigitsValue(s[1..]) == -i
    ensures i > 0 ==> s[0] != '0'
    ensures i < 0 ==> |s| >= 2 && s[1] != '0'
    ensures s != "" && s != "0" <==> i != 0
  {
    if i < 0 then
      NaturalDecimalRoundTrip(-i);
      var s := "-" + NaturalDecimal(-i);
      assert s[1..] == NaturalDecimal(-i);
      s
    else
      NaturalDecimalRoundTrip(i);
      NaturalDecimal(i)
  }

  /**
   * What a function declared `null|string` hands back when it returns the
   * truthy value `v` under PHP's coercive typing: a string as it is, an
   * integer in decimal, `true` as "1"; an array cannot be coerced and raises
   * a TypeError, modelled as `None`.
   */
  function ReturnedAsString(v: Json): (r: Option<string>)
    requires !IsEmpty(v)
    ensures r.None? <==> IsArray(v)
    ensures r.Some? ==> r.value != "" && r.value != "0"
    ensures v.JString? ==> r == Some(v.s)
    ensures v.JInt? ==> r == Some(DecimalString(v.i))
    ensures v.JBool? ==> r == Some("1")
  {
    match v
    case JString(s) => Some(s)
    case JInt(i) => Some(DecimalString(i))
    case JBool(_) => Some("1")
    case _ => None
  }
}
