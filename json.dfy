/**
 * JSON values as the app's JavaScript sees them once parsed, with the
 * coercions its code applies to them: truthiness, property reads (which
 * throw on `null`), `String(x)` and the numeric coercion of `-`.
 */
module JsonModel {
  import opened JsText

  /** A parsed JSON value; numbers are restricted to integers. */
  datatype Json =
    | JNull
    | JBool(b: bool)
    | JNum(n: int)
    | JStr(s: string)
    | JArr(items: seq<Json>)
    | JObj(fields: map<string, Json>)

  /** A text that should hold JSON: either it parses to a value, or `JSON.parse` throws on it. */
  datatype Body = Encoded(value: Json) | Malformed(raw: string)

  /** The result of reading `x.k`: `undefined`, a value, or a TypeError because `x` is `null`. */
  datatype Read = Undef | Val(v: Json) | NullDeref

  /** JavaScript truthiness of a JSON value. */
  predicate Truthy(j: Json) {
    match j
    case JNull => false
    case JBool(b) => b
    case JNum(n) => n != 0
    case JStr(s) => s != ""
    case JArr(_) => true
    case JObj(_) => true
  }

  /** Truthiness of a property read; `undefined` is falsy. */
  predicate Holds(r: Read) {
    r.Val? && Truthy(r.v)
  }

  /** `j.k`. Only own data fields of objects are modelled; every other property reads as `undefined`. */
  function Prop(j: Json, k: string): (r: Read)
    ensures r.NullDeref? <==> j.JNull?
    ensures r.Val? ==> j.JObj? && k in j.fields && r.v == j.fields[k]
  {
    match j
    case JNull => NullDeref
    case JObj(f) => if k in f then Val(f[k]) else Undef
    case _ => Undef
  }

  /** `x?.k`: `undefined` when `x` is `null` or `undefined`. */
  function OptProp(x: Read, k: string): (r: Read)
    ensures !r.NullDeref?
  {
    if x.Val? && !x.v.JNull? then Prop(x.v, k) else Undef
  }

  /** `x || d` for a read `x` and a value `d`. */
  function Or(x: Read, d: Json): (r: Json)
    ensures Holds(x) ==> r == x.v
    ensures !Holds(x) ==> r == d
  {
    if Holds(x) then x.v else d
  }

  /** `String(j)`; array elements that are `null` print as the empty text, as `join` does. */
  function JsToString(j: Json): string {
    match j
    case JNull => "null"
    case JBool(b) => if b then "true" else "false"
    case JNum(n) => IntToString(n)
    case JStr(s) => s
    case JArr(items) => Join(seq(|items|, k requires 0 <= k < |items| => ItemText(items[k], JsToString(items[k]))), ",")
    case JObj(_) => "[object Object]"
  }

  /** How `join` prints one array element whose own text is `text`. */
  function ItemText(item: Json, text: string): string {
    if item.JNull? then "" else text
  }

  /** `items.join(sep)`. */
  function ArrayJoin(items: seq<Json>, sep: string): string {
    Join(seq(|items|, k requires 0 <= k < |items| => ItemText(items[k], JsToString(items[k]))), sep)
  }

  /** `String(r)` for a read; `undefined` prints as such. */
  function ReadToString(r: Read): string {
    if r.Val? then JsToString(r.v) else "undefined"
  }

  /** The numeric coercion `-` applies to a JSON value. */
  function ToNumber(j: Json): Number {
    match j
    case JNull => Int(0)
    case JBool(b) => Int(if b then 1 else 0)
    case JNum(n) => Int(n)
    case JStr(s) => StringToNumber(s)
    case JArr(_) => StringToNumber(JsToString(j))
    case JObj(_) => NaN
  }
}
