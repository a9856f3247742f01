/**
 * A small model of the JavaScript values that the request hook and the cookie
 * wrapper inspect: enough structure to state truthiness, nullish coalescing
 * (`??`), property access, `Array.isArray` and `Object.keys(..).length`.
 * Numbers are integers; objects are maps from property names to values.
 */
module JsValues {

  datatype JsValue =
    | Undefined
    | Null
    | Bool(b: bool)
    | Num(n: int)
    | Str(s: string)
    | Arr(items: seq<JsValue>)
    | Obj(props: map<string, JsValue>)
    /** A `FormData` instance (a binary-upload payload); `id` tells instances apart. */
    | FormData(id: nat)

  /** `v === null || v === undefined`. */
  predicate Nullish(v: JsValue) {
    v.Undefined? || v.Null?
  }

  /** JavaScript truthiness: the falsy values are undefined, null, false, 0 and "". */
  predicate Truthy(v: JsValue) {
    match v
    case Undefined => false
    case Null => false
    case Bool(b) => b
    case Num(n) => n != 0
    case Str(s) => s != ""
    case _ => true
  }

  /** `a ?? b`. */
  function Coalesce(a: JsValue, b: JsValue): (r: JsValue)
    ensures !Nullish(a) ==> r == a
    ensures Nullish(a) ==> r == b
  {
    if Nullish(a) then b else a
  }

  /** `v[key]` for an own property; every other lookup gives `undefined`. */
  function GetProp(v: JsValue, key: string): JsValue {
    if v.Obj? && key in v.props then v.props[key] else Undefined
  }

  /** `v?.[key]`: `undefined` when `v` is nullish. */
  function OptionalGet(v: JsValue, key: string): (r: JsValue)
    ensures Nullish(v) ==> r == Undefined
  {
    if Nullish(v) then Undefined else GetProp(v, key)
  }

  /** `Array.isArray(v)`. */
  predicate IsArray(v: JsValue) {
    v.Arr?
  }

  /**
   * `Object.keys(v).length` for a non-nullish `v`: the own enumerable keys of an
   * object, the indices of an array or a string, none for other primitives and
   * for a `FormData` instance.
   */
  function OwnKeyCount(v: JsValue): nat {
    match v
    case Obj(props) => |props|
    case Arr(items) => |items|
    case Str(s) => |s|
    case _ => 0
  }
}
