/**
 * The untyped values the widget receives from its host, with the handful of
 * JavaScript operators the data-shape layer applies to them: truthiness
 * (`if (v)`, `a || b`), property access, `typeof v === 'object'`, and
 * `String(v)`.
 */
module JsValues {

  /** A JavaScript number: a finite value or one of the three IEEE specials. */
  datatype Num = Fin(r: real) | NaN | PosInf | NegInf {
    predicate IsFinite() { Fin? }
  }

  /**
   * A JavaScript value as it appears in a host payload. An object is a map
   * from its own keys to their values; an array carries no named properties.
   */
  datatype JsValue =
    | JUndefined
    | JNull
    | JBool(b: bool)
    | JNum(n: Num)
    | JStr(s: string)
    | JArr(items: seq<JsValue>)
    | JObj(fields: map<string, JsValue>)

  /**
   * The engine primitives the model does not spell out: `parseFloat` on a
   * string, the shortest round-trip decimal form of a number that is not a
   * small integer, and the message of the `TypeError` thrown when property
   * `key` is read from `null` or `undefined` (the wording is the engine's).
   */
  datatype Runtime = Runtime(parseFloat: string -> Num, formatReal: real -> string,
                             readPropertyError: (JsValue, string) -> string)

  /** A value thrown by a failing operation: an `Error` object or anything else. */
  datatype Thrown = ErrorObject(message: string) | OtherValue(value: JsValue)

  /** The message a `catch` block reports: `error instanceof Error ? error.message : fallback`. */
  function MessageOf(t: Thrown): (m: string)
    ensures t.ErrorObject? ==> m == t.message
    ensures t.OtherValue? ==> m == "Unknown error occurred"
  {
    match t
    case ErrorObject(msg) => msg
    case OtherValue(_) => "Unknown error occurred"
  }

  /** JavaScript truthiness: every value is truthy except these seven. */
  predicate Truthy(v: JsValue) {
    match v
    case JUndefined => false
    case JNull => false
    case JBool(b) => b
    case JNum(n) => n != NaN && n != Fin(0.0)
    case JStr(s) => s != ""
    case JArr(_) => true
    case JObj(_) => true
  }

  /** `null` or `undefined`: the values `??` replaces and property reads throw on. */
  predicate Nullish(v: JsValue) {
    v.JNull? || v.JUndefined?
  }

  /** `a || b`: the left operand when it is truthy, the right one otherwise. */
  function Or(a: JsValue, b: JsValue): (r: JsValue)
    ensures Truthy(a) ==> r == a
    ensures !Truthy(a) ==> r == b
  {
    if Truthy(a) then a else b
  }

  /** `typeof v === 'object'`, which holds of `null` and of arrays as well. */
  predicate TypeofObject(v: JsValue) {
    v.JNull? || v.JArr? || v.JObj?
  }

  /** A plain object: non-null and not an array. */
  predicate IsRecord(v: JsValue) {
    v.JObj?
  }

  /** `key in v` for a value that is known to be an object. */
  predicate HasKey(v: JsValue, key: string) {
    v.JObj? && key in v.fields
  }

  /** `v[key]` on a non-nullish value: `undefined` unless `v` has the key as its own. */
  function Get(v: JsValue, key: string): (r: JsValue)
    ensures !HasKey(v, key) ==> r == JUndefined
    ensures HasKey(v, key) ==> r == v.fields[key]
  {
    if v.JObj? && key in v.fields then v.fields[key] else JUndefined
  }

  function DigitChar(d: nat): (c: char)
    requires d < 10
    ensures '0' <= c <= '9'
  {
    ['0', '1', '2', '3', '4', '5', '6', '7', '8', '9'][d]
  }

  function DigitValue(c: char): nat
    requires '0' <= c <= '9'
  {
    c as nat - '0' as nat
  }

  /** The decimal numeral of a natural number, as a template literal prints it. */
  function NatToString(n: nat): (s: string)
    ensures 1 <= |s|
    ensures forall i :: 0 <= i < |s| ==> '0' <= s[i] <= '9'
  {
    if n < 10 then [DigitChar(n)] else NatToString(n / 10) + [DigitChar(n % 10)]
  }

  /** The value a string of decimal digits denotes: the reference for `NatToString`. */
  function DecimalValue(s: string): nat
    requires forall i :: 0 <= i < |s| ==> '0' <= s[i] <= '9'
  {
    if s == [] then 0 else 10 * DecimalValue(s[..|s| - 1]) + DigitValue(s[|s| - 1])
  }

  lemma DigitRoundTrip(d: nat)
    requires d < 10
    ensures DigitValue(DigitChar(d)) == d
  {
  }

  /** Reading back the numeral of `n` gives `n`, so distinct numbers print differently. */
  lemma {:induction false} NatToStringRoundTrip(n: nat)
    ensures DecimalValue(NatToString(n)) == n
  {
    var s := NatToString(n);
    if n < 10 {
      DigitRoundTrip(n);
    } else {
      NatToStringRoundTrip(n / 10);
      DigitRoundTrip(n % 10);
      assert s[..|s| - 1] == NatToString(n / 10);
    }
  }

  function IntToString(i: int): string {
    if i < 0 then "-" + NatToString(-i) else NatToString(i)
  }

  /**
   * `String(n)` for a number: the specials by name, integers below 10^21 as
   * plain decimals, everything else through the engine's formatter.
   */
  function NumberToString(rt: Runtime, n: Num): string {
    match n
    case NaN => "NaN"
    case PosInf => "Infinity"
    case NegInf => "-Infinity"
    case Fin(r) =>
      if r.Floor as real == r && -1000000000000000000000.0 < r < 1000000000000000000000.0
      then IntToString(r.Floor)
      else rt.formatReal(r)
  }

  function Join(parts: seq<string>, sep: string): string {
    if parts == [] then ""
    else if |parts| == 1 then parts[0]
    else parts[0] + sep + Join(parts[1..], sep)
  }

  /**
   * `String(v)`. An array prints its elements joined by commas, with `null`
   * and `undefined` elements printed empty; every object prints the same.
   */
  function ToStr(rt: Runtime, v: JsValue): (s: string)
    ensures v.JStr? ==> s == v.s
    decreases v
  {
    match v
    case JUndefined => "undefined"
    case JNull => "null"
    case JBool(b) => if b then "true" else "false"
    case JNum(n) => NumberToString(rt, n)
    case JStr(s) => s
    case JArr(items) =>
      Join(seq(|items|, i requires 0 <= i < |items| =>
             if items[i].JNull? || items[i].JUndefined? then "" else ToStr(rt, items[i])), ",")
    case JObj(_) => "[object Object]"
  }
}
