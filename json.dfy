/**
 * The JavaScript values the client handles after JSON decoding, with the
 * handful of operators the source applies to them: truthiness, `||`, `??`,
 * optional property access `a?.k` and `a?.[0]`, and `typeof`.
 */
module Json {
  import opened Wrappers

  /**
   * A decoded JSON value. Numbers are reals (NaN and the infinities cannot
   * come out of JSON decoding). `undefined` is not a value here: it is the
   * `None` of an `Option<Json>`.
   */
  datatype Json =
    | JNull
    | JBool(b: bool)
    | JNum(n: real)
    | JStr(s: string)
    | JArr(items: seq<Json>)
    | JObj(fields: map<string, Json>)

  /**
   * JSON.parse and JSON.stringify are outside the model; they enter as
   * parameters. `parse` yields `None` where JSON.parse throws.
   */
  datatype Codec = Codec(parse: string -> Option<Json>, stringify: Json -> string)

  /** JavaScript truthiness of a possibly undefined value. */
  predicate Truthy(v: Option<Json>) {
    match v
    case None => false
    case Some(JNull) => false
    case Some(JBool(b)) => b
    case Some(JNum(n)) => n != 0.0
    case Some(JStr(s)) => s != ""
    case Some(_) => true
  }

  /** `undefined` or `null`: the values `??` and `?.` step over. */
  predicate Nullish(v: Option<Json>) {
    v == None || v == Some(JNull)
  }

  /** `a || b`. */
  function Or(a: Option<Json>, b: Option<Json>): Option<Json> {
    if Truthy(a) then a else b
  }

  /** `a ?? b`. */
  function Coalesce(a: Option<Json>, b: Option<Json>): Option<Json> {
    if Nullish(a) then b else a
  }

  /**
   * `a?.key` for a property name that is neither an array index nor a
   * built-in property (every name the source reads this way is of that
   * kind): only objects have it.
   */
  function Get(a: Option<Json>, key: string): Option<Json> {
    match a
    case Some(JObj(f)) => if key in f then Some(f[key]) else None
    case _ => None
  }

  /** `a?.[0]`: the first element of an array, key "0" of an object, the first character of a string. */
  function First(a: Option<Json>): Option<Json> {
    match a
    case Some(JArr(xs)) => if |xs| > 0 then Some(xs[0]) else None
    case Some(JObj(f)) => if "0" in f then Some(f["0"]) else None
    case Some(JStr(s)) => if |s| > 0 then Some(JStr([s[0]])) else None
    case _ => None
  }

  /** `typeof a === 'string'`. */
  predicate IsString(a: Option<Json>) {
    a.Some? && a.value.JStr?
  }

  /** `typeof a === 'object'` (true of null, arrays and objects). */
  predicate IsObject(a: Option<Json>) {
    a.Some? && (a.value.JNull? || a.value.JArr? || a.value.JObj?)
  }

  /** A defined string value. */
  function Str(s: string): Option<Json> {
    Some(JStr(s))
  }
}
