/**
 * The JavaScript values the pages handle: records decoded from the backend's
 * JSON, form values and store state. Numbers are modelled as integers.
 */
module Js {

  datatype JsValue =
    | Undefined
    | Null
    | Bool(b: bool)
    | Num(n: int)
    | Str(s: string)
    | Arr(elems: seq<JsValue>)
    | Obj(fields: map<string, JsValue>)

  /** A plain object: form values, request bodies, store slices. */
  type Record = map<string, JsValue>

  /** JavaScript truthiness (`if (v)`, `!v`, `!!v`). */
  predicate Truthy(v: JsValue) {
    match v
    case Undefined => false
    case Null => false
    case Bool(b) => b
    case Num(n) => n != 0
    case Str(s) => s != ""
    case Arr(_) => true
    case Obj(_) => true
  }

  /** The falsy values are exactly undefined, null, false, 0 and "". */
  lemma FalsyValues(v: JsValue)
    ensures !Truthy(v) <==> v == Undefined || v == Null || v == Bool(false) || v == Num(0) || v == Str("")
  {
  }

  predicate Nullish(v: JsValue) {
    v.Undefined? || v.Null?
  }

  /** `a || b` */
  function Or(a: JsValue, b: JsValue): JsValue {
    if Truthy(a) then a else b
  }

  /** A field of a plain object; a missing key reads as undefined. */
  function Field(r: Record, key: string): JsValue {
    if key in r then r[key] else Undefined
  }

  /** `v?.key`: nullish and primitive values have none of the fields the pages read. */
  function Get(v: JsValue, key: string): JsValue {
    if v.Obj? then Field(v.fields, key) else Undefined
  }

  /** The own fields `{...v}` copies; only objects are spread by the pages. */
  function Spread(v: JsValue): Record {
    if v.Obj? then v.fields else map[]
  }

  /**
   * `===` between two values. Two object or array values are taken to be
   * distinct references, so they are never strictly equal.
   */
  predicate StrictEq(a: JsValue, b: JsValue) {
    !a.Obj? && !a.Arr? && a == b
  }

  function DigitChar(d: nat): char
    requires d < 10
  {
    "0123456789"[d]
  }

  /** The decimal text of a natural number, most significant digit first, with no leading zero. */
  function NatToString(n: nat): (r: string)
    ensures |r| >= 1
    ensures forall k :: 0 <= k < |r| ==> '0' <= r[k] <= '9'
    ensures r[0] == '0' <==> n == 0
  {
    if n < 10 then [DigitChar(n)] else NatToString(n / 10) + [DigitChar(n % 10)]
  }

  /** The number a text of decimal digits denotes. */
  function DecimalValue(s: string): nat
    requires forall k :: 0 <= k < |s| ==> '0' <= s[k] <= '9'
  {
    if |s| == 0 then 0 else DecimalValue(s[..|s| - 1]) * 10 + (s[|s| - 1] as int - '0' as int)
  }

  /** `String(n)` reads back as `n`. */
  lemma {:induction false} NatToStringReadsBack(n: nat)
    ensures DecimalValue(NatToString(n)) == n
  {
    if n >= 10 {
      NatToStringReadsBack(n / 10);
      var r := NatToString(n);
      assert r[..|r| - 1] == NatToString(n / 10);
    }
  }

  /** `String(n)` for an integer. */
  function IntToString(i: int): string {
    if i < 0 then "-" + NatToString(-i) else NatToString(i)
  }

  /** `parts.join(sep)` over texts. */
  function JoinWith(parts: seq<string>, sep: string): string {
    if parts == [] then ""
    else if |parts| == 1 then parts[0]
    else parts[0] + sep + JoinWith(parts[1..], sep)
  }

  function Concat(parts: seq<string>): string {
    if parts == [] then "" else parts[0] + Concat(parts[1..])
  }

  /** `String(v)`, as used by template literals and `+` with a string. */
  function ToJsString(v: JsValue): string
    decreases v
  {
    match v
    case Undefined => "undefined"
    case Null => "null"
    case Bool(b) => if b then "true" else "false"
    case Num(n) => IntToString(n)
    case Str(s) => s
    case Arr(xs) =>
      // Array.prototype.join writes null and undefined elements as empty text
      JoinWith(seq(|xs|, i requires 0 <= i < |xs| => if Nullish(xs[i]) then "" else ToJsString(xs[i])), ",")
    case Obj(_) => "[object Object]"
  }

  /**
   * The text React shows for a child value: strings and numbers as text,
   * booleans and nullish values as nothing, arrays element by element.
   */
  function RenderText(v: JsValue): string
    decreases v
  {
    match v
    case Num(n) => IntToString(n)
    case Str(s) => s
    case Arr(xs) => Concat(seq(|xs|, i requires 0 <= i < |xs| => RenderText(xs[i])))
    case _ => ""
  }

  /**
   * `String(n)` of a non-negative number reads back as the number, and React
   * shows strings and numbers as `String` writes them and booleans, nullish
   * values and objects as nothing.
   */
  lemma ScalarText(v: JsValue, n: nat)
    ensures DecimalValue(ToJsString(Num(n))) == n
    ensures v.Str? || v.Num? ==> RenderText(v) == ToJsString(v)
    ensures v.Undefined? || v.Null? || v.Bool? || v.Obj? ==> RenderText(v) == ""
  {
    NatToStringReadsBack(n);
  }

  /** `{v || ""}` in JSX: falsy values, zero included, show as empty text. */
  function ShowOrEmpty(v: JsValue): (r: string)
    ensures !Truthy(v) ==> r == ""
    ensures v.Str? ==> r == v.s
  {
    RenderText(Or(v, Str("")))
  }
}
