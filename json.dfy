/**
 * JSON values as the browser hands them to the app (the result of
 * `response.json()` or `JSON.parse`), with the few JavaScript conversions the
 * app relies on: truthiness, property access, and conversion to text.
 */
module Json {
  import opened Wrappers

  /** A parsed JSON document. Numbers are modelled as integers. */
  datatype Json =
    | JNull
    | JBool(b: bool)
    | JNum(n: int)
    | JStr(s: string)
    | JArr(items: seq<Json>)
    | JObj(fields: map<string, Json>)

  /** JavaScript truthiness of a value (the test behind `if (v)` and `v || w`). */
  predicate Truthy(v: Json) {
    match v
    case JNull => false
    case JBool(b) => b
    case JNum(n) => n != 0
    case JStr(s) => s != ""
    case JArr(_) => true
    case JObj(_) => true
  }

  /** Truthiness of a property value; `undefined` (None) is falsy. */
  predicate TruthyOpt(v: Option<Json>) {
    v.Some? && Truthy(v.value)
  }

  /**
   * `v.key` on a non-null value: the property of an object, `undefined` for
   * any other kind of value. On `null` JavaScript throws a TypeError; callers
   * test for JNull first wherever the source can reach that case.
   */
  function Get(v: Json, key: string): (r: Option<Json>)
    ensures r.Some? ==> v.JObj? && key in v.fields && r.value == v.fields[key]
    ensures v.JObj? && key in v.fields ==> r.Some?
  {
    match v
    case JObj(fields) => if key in fields then Some(fields[key]) else None
    case _ => None
  }

  /** `a || b`: the first operand when it is truthy, otherwise the second. */
  function Or(a: Option<Json>, b: Json): Json {
    if TruthyOpt(a) then a.value else b
  }

  function DigitChar(d: nat): char
    requires d < 10
  {
    "0123456789"[d]
  }

  /** The decimal numeral of a natural number, as JavaScript prints integers. */
  function NatToString(n: nat): (r: string)
    ensures r != []
    ensures forall k :: 0 <= k < |r| ==> '0' <= r[k] <= '9'
    ensures n > 0 ==> r[0] != '0'
  {
    if n < 10 then [DigitChar(n)] else NatToString(n / 10) + [DigitChar(n % 10)]
  }

  /** The value of a string of decimal digits (the inverse of NatToString). */
  function DigitsValue(s: string): nat
    requires forall k :: 0 <= k < |s| ==> '0' <= s[k] <= '9'
  {
    if s == [] then 0
    else DigitsValue(s[..|s| - 1]) * 10 + (s[|s| - 1] as int - '0' as int)
  }

  /** Reading back the numeral NatToString prints gives the number again. */
  lemma {:induction false} NatToStringRoundTrip(n: nat)
    ensures DigitsValue(NatToString(n)) == n
  {
    var r := NatToString(n);
    if n >= 10 {
      NatToStringRoundTrip(n / 10);
      assert r[..|r| - 1] == NatToString(n / 10);
    }
  }

  /** Distinct numbers print as distinct numerals. */
  lemma NatToStringInjective(m: nat, n: nat)
    requires NatToString(m) == NatToString(n)
    ensures m == n
  {
    NatToStringRoundTrip(m);
    NatToStringRoundTrip(n);
  }

  /** `String(i)` for an integer. */
  function IntToString(i: int): (r: string)
    ensures r != []
    ensures r[0] == '-' <==> i < 0
  {
    if i < 0 then "-" + NatToString(-i) else NatToString(i)
  }

  /** Array.prototype.join: the parts separated by `sep`. */
  function Join(parts: seq<string>, sep: string): string {
    if parts == [] then ""
    else if |parts| == 1 then parts[0]
    else Join(parts[..|parts| - 1], sep) + sep + parts[|parts| - 1]
  }

  /**
   * `String(v)`: how a value is turned into text by a template literal, by
   * string concatenation or by `new Error(v)`. Arrays join their elements with
   * commas (null elements print as nothing); objects print as `[object Object]`.
   */
  function Display(v: Json): string {
    match v
    case JNull => "null"
    case JBool(b) => if b then "true" else "false"
    case JNum(n) => IntToString(n)
    case JStr(s) => s
    case JArr(xs) => Join(seq(|xs|, k requires 0 <= k < |xs| => if xs[k].JNull? then "" else Display(xs[k])), ",")
    case JObj(_) => "[object Object]"
  }

  /** `String(v)` of a property value; `undefined` prints as "undefined". */
  function ToStr(v: Option<Json>): string {
    if v.None? then "undefined" else Display(v.value)
  }

  /**
   * The value an input ends up with when a value is assigned to its `value`:
   * null becomes the empty string, undefined becomes "undefined".
   */
  function InputValue(v: Option<Json>): string {
    if v == Some(JNull) then "" else ToStr(v)
  }

  /**
   * The text an element ends up with when a value is assigned to its
   * `textContent`: null and undefined both clear it.
   */
  function TextContent(v: Option<Json>): string {
    if v.None? || v == Some(JNull) then "" else Display(v.value)
  }
}
