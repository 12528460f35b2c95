/**
 The JavaScript values the two RPC clients inspect: an optional value (a
 property that may be `undefined`), parsed JSON, JavaScript truthiness and
 property reads on parsed JSON.
 */
module JsValues {

  /** `None` stands for `undefined` (an absent property or argument). */
  datatype Option<+T> = None | Some(value: T)

  /** A value produced by `JSON.parse`. Numbers are restricted to integers. */
  datatype Json =
    | JNull
    | JBool(b: bool)
    | JNum(n: int)
    | JStr(s: string)
    | JArr(items: seq<Json>)
    | JObj(fields: map<string, Json>)

  /** JavaScript truthiness; `undefined`, `null`, `false`, `0` and `""` are falsy. */
  predicate Truthy(v: Option<Json>)
  {
    match v
    case None => false
    case Some(JNull) => false
    case Some(JBool(b)) => b
    case Some(JNum(n)) => n != 0
    case Some(JStr(s)) => s != ""
    case Some(JArr(_)) => true
    case Some(JObj(_)) => true
  }

  /** `typeof v === 'object'` (arrays and `null` included). */
  predicate IsObjectLike(v: Json)
  {
    v.JNull? || v.JArr? || v.JObj?
  }

  /**
   Reading property `key` of a parsed JSON value other than `null` (reading a
   property of `null` throws, which callers model themselves). Only own keys
   of objects are seen: the keys the clients read (`error`, `result`,
   `message`) are not inherited by objects, arrays, strings, numbers or
   booleans, so every non-object yields `undefined`.
   */
  function Prop(v: Json, key: string): (r: Option<Json>)
    requires !v.JNull?
    ensures r.Some? <==> v.JObj? && key in v.fields
    ensures r.Some? ==> r.value == v.fields[key]
  {
    if v.JObj? && key in v.fields then Some(v.fields[key]) else None
  }

  /** An empty JSON object `{}`, the default parameter object of the clients. */
  const EmptyObject: Json := JObj(map[])

  /** A parameter default `params = {}`: applies to `undefined` only, not to `null`. */
  function DefaultParams(params: Option<Json>): (r: Json)
    ensures params.None? ==> r == EmptyObject
    ensures params.Some? ==> r == params.value
  {
    match params
    case None => EmptyObject
    case Some(p) => p
  }
}
