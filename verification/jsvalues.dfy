/**
 * The JavaScript values the strategy inspects, and the truthiness rule that
 * `||` and `if (x)` apply to them. Every optional option or claim that the
 * caller leaves out reads as `Undefined`.
 */
module JsValues {

  datatype JsValue =
    | Undefined
    | Null
    | Bool(b: bool)
    | Num(n: real)
    | NaN
    | Str(s: string)
    | Arr(items: seq<JsValue>)
    | Obj(fields: map<string, JsValue>)

  /** JavaScript's ToBoolean: `undefined`, `null`, `false`, `0`, `NaN` and `""` are falsy. */
  predicate Truthy(v: JsValue) {
    match v
    case Undefined => false
    case Null => false
    case Bool(b) => b
    case Num(n) => n != 0.0
    case NaN => false
    case Str(s) => s != ""
    case Arr(_) => true
    case Obj(_) => true
  }

  /** Reading a property of these two throws a TypeError. */
  predicate IsNullish(v: JsValue) {
    v.Undefined? || v.Null?
  }

  /** The expression `a || b`: the first operand when it is truthy, else the second. */
  function Or(a: JsValue, b: JsValue): (r: JsValue)
    ensures Truthy(r) <==> Truthy(a) || Truthy(b)
    ensures Truthy(a) ==> r == a
    ensures !Truthy(a) ==> r == b
  {
    if Truthy(a) then a else b
  }

  /**
   * The property read `v.key` on a value that is neither `null` nor `undefined`.
   * Only the own data properties of objects are modelled. Of the keys the
   * strategy reads, only `sub` is also an inherited property of another kind
   * of value: strings carry the legacy `String.prototype.sub` method, which
   * this model reads as `Undefined`.
   */
  function Get(v: JsValue, key: string): JsValue
    requires !IsNullish(v)
  {
    if v.Obj? && key in v.fields then v.fields[key] else Undefined
  }

  /** The keys `Object.keys(v)` can return that matter here: an object's own keys. */
  function OwnFields(v: JsValue): map<string, JsValue> {
    if v.Obj? then v.fields else map[]
  }

  /** `s.startsWith(prefix)`. */
  predicate StartsWith(s: string, prefix: string) {
    |prefix| <= |s| && s[..|prefix|] == prefix
  }
}
