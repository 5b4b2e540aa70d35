/**
 * JSON values as the dashboard receives them from the backend, and the few
 * pieces of JavaScript semantics the components apply to them: truthiness,
 * `a || b`, property reads (which throw a TypeError on `null`/`undefined`),
 * `String(v)` and `new Error(v).message`.
 *
 * Numbers are integers; floating point is not modelled.
 */
module Json {
  import opened JsText

  datatype Option<+T> = None | Some(value: T)

  datatype Json =
    | JNull
    | JBool(b: bool)
    | JNum(n: int)
    | JStr(s: string)
    | JArr(items: seq<Json>)
    | JObj(fields: map<string, Json>)

  /** A JavaScript value read out of JSON data; `None` is `undefined`. */
  type Value = Option<Json>

  /** A JSON object as a record of named fields. */
  type Record = map<string, Json>

  /** An `Error` as the components see it: its message, and the `status` and
      `data` properties the API client attaches (undefined on other errors). */
  datatype Error = Error(message: string, status: Option<int>, data: Value)

  /** A call that either returns a value or throws. */
  datatype Result<+T> = Ok(value: T) | Fail(error: Error)

  function Str(s: string): Value {
    Some(JStr(s))
  }

  /** JavaScript truthiness (NaN is not modelled). */
  predicate Truthy(v: Value) {
    match v
    case None => false
    case Some(JNull) => false
    case Some(JBool(b)) => b
    case Some(JNum(n)) => n != 0
    case Some(JStr(s)) => s != ""
    case Some(JArr(_)) => true
    case Some(JObj(_)) => true
  }

  /** `a || b`: the first operand when it is truthy, else the second. */
  function Or(a: Value, b: Value): (r: Value)
    ensures Truthy(r) <==> Truthy(a) || Truthy(b)
    ensures r == a || r == b
  {
    if Truthy(a) then a else b
  }

  /** `j[key]` on a value that is not null: an object's field, else undefined.
      (Built-in properties of strings and arrays, such as `length`, are not
      read through here.) */
  function Prop(j: Json, key: string): (r: Value)
    ensures r.Some? ==> j.JObj? && key in j.fields && r.value == j.fields[key]
  {
    if j.JObj? && key in j.fields then Some(j.fields[key]) else None
  }

  /** A field of a record, or undefined. */
  function Get(r: Record, key: string): Value {
    if key in r then Some(r[key]) else None
  }

  /** The TypeError `v.key` throws when `v` is null or undefined. */
  function TypeError(what: string, key: string): Error {
    Error("Cannot read properties of " + what + " (reading '" + key + "')", None, None)
  }

  /** `v.key`: throws on null and undefined, otherwise reads the property. */
  function Member(v: Value, key: string): (r: Result<Value>)
    ensures r.Fail? <==> v == None || v == Some(JNull)
    ensures r.Ok? ==> r.value == Prop(v.value, key)
  {
    match v
    case None => Fail(TypeError("undefined", key))
    case Some(JNull) => Fail(TypeError("null", key))
    case Some(j) => Ok(Prop(j, key))
  }

  /** `String(v)`, as also used by template literals. */
  function ToText(v: Value): string {
    match v
    case None => "undefined"
    case Some(j) => JsonText(j)
  }

  /** `String(j)` for a JSON value; arrays join their elements with `,`,
      writing null elements as empty text. */
  function JsonText(j: Json): string
    decreases j
  {
    match j
    case JNull => "null"
    case JBool(b) => if b then "true" else "false"
    case JNum(n) => IntToString(n)
    case JStr(s) => s
    case JArr(items) =>
      Join(seq(|items|, i requires 0 <= i < |items| =>
        if items[i] == JNull then "" else JsonText(items[i])), ",")
    case JObj(_) => "[object Object]"
  }

  /** `new Error(v).message`: undefined gives the empty message. */
  function ErrorText(v: Value): string {
    if v == None then "" else ToText(v)
  }
}
