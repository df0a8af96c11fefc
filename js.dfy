/**
 * The JavaScript values the core inspects after `JSON.parse`, the
 * truthiness and property-access rules it applies to them, and the
 * library behaviour it leaves to the runtime (`JSON.parse`,
 * `JSON.stringify`, `String(v)`, `Number(v)`, SQLite's rendering of a
 * bound number) as an abstract bundle of functions.
 */
module Js {
  import opened Base

  /** A value `JSON.parse` can produce. */
  datatype Json =
    | JNull
    | JBool(b: bool)
    | JNum(n: real)
    | JStr(s: string)
    | JArr(items: seq<Json>)
    | JObj(fields: map<string, Json>)

  /** The result of `Number(v)`: a finite number, or NaN / an infinity. */
  datatype JsNumber = NotFinite | Num(x: real)

  /**
   * Library behaviour the core calls but does not define. `parse` is
   * `JSON.parse` (None when it throws), `stringify` is `JSON.stringify`,
   * `show` is `String(v)` on a number, array or object, `toNumber` is
   * `Number(v)` on a string, array or object, `sqlText` is the text
   * SQLite stores when a number is bound to a TEXT column, and
   * `bindComposite` is what the SQLite driver makes of an array or object
   * given as the value of one TEXT column: the text stored, or the error
   * raised. `show` and `toNumber` are taken never to raise.
   */
  datatype JsLib = JsLib(
    parse: string -> Option<Json>,
    stringify: Json -> string,
    show: Json -> string,
    toNumber: Json -> JsNumber,
    sqlText: real -> string,
    bindComposite: Json -> Result<string>)

  /** JavaScript truthiness of a parsed value. */
  predicate Truthy(v: Json) {
    match v
    case JNull => false
    case JBool(b) => b
    case JNum(n) => n != 0.0
    case JStr(s) => s != ""
    case JArr(_) => true
    case JObj(_) => true
  }

  /** Truthiness of a property read, where None is `undefined`. */
  predicate Present(o: Option<Json>) {
    o.Some? && Truthy(o.value)
  }

  /** `typeof v === "object" && v !== null`: arrays count as objects. */
  predicate IsObject(v: Json) {
    v.JArr? || v.JObj?
  }

  /**
   * `v.key` on a value other than null: the field of an object, and
   * `undefined` (None) for everything else, since no other parsed value
   * carries the property names the core reads.
   */
  function Get(v: Json, key: string): (r: Option<Json>)
    ensures r.Some? <==> v.JObj? && key in v.fields
    ensures r.Some? ==> r.value == v.fields[key]
  {
    if v.JObj? && key in v.fields then Some(v.fields[key]) else None
  }

  /** `String(v)`. */
  function ToJsString(lib: JsLib, v: Json): (r: string)
    ensures v.JStr? ==> r == v.s
  {
    match v
    case JStr(s) => s
    case JNull => "null"
    case JBool(b) => if b then "true" else "false"
    case _ => lib.show(v)
  }

  /** `Number(v)`, where None is `undefined`. */
  function ToNumber(lib: JsLib, o: Option<Json>): (r: JsNumber)
    ensures o.None? ==> r == NotFinite
    ensures o.Some? && o.value.JNum? ==> r == Num(o.value.n)
  {
    match o
    case None => NotFinite
    case Some(JNull) => Num(0.0)
    case Some(JBool(b)) => Num(if b then 1.0 else 0.0)
    case Some(JNum(x)) => Num(x)
    case Some(v) => lib.toNumber(v)
  }

  /** The row id a `WHERE id = n` comparison can match: an integral, finite number. */
  function RowKey(n: JsNumber): (r: Option<int>)
    ensures r.Some? <==> n.Num? && n.x == n.x.Floor as real
    ensures r.Some? ==> r.value as real == n.x
  {
    if n.Num? && n.x == n.x.Floor as real then Some(n.x.Floor) else None
  }
}
