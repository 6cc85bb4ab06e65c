/**
  The JavaScript values that reach the updater: the settings object handed to
  the constructor and the repository records decoded from the upstream's JSON.
  Only the few operations the updater applies to them are given meaning here:
  truthiness, lodash's `isObject` / `isString` / `isEmpty` on strings, property
  reads, and `parseInt(v, 10)`.
 */
module JsValue {
  import opened NumberText

  /** Numbers are integers here; see the README for what that leaves out. */
  datatype Value =
    | Undefined
    | Null
    | Bool(b: bool)
    | Num(n: int)
    | Str(s: string)
    | Arr(items: seq<Value>)
    | Obj(props: map<string, Value>)

  /** JavaScript truthiness: undefined, null, false, 0 and "" are falsy. */
  predicate Truthy(v: Value) {
    match v
    case Undefined => false
    case Null => false
    case Bool(b) => b
    case Num(n) => n != 0
    case Str(s) => s != ""
    case Arr(_) => true
    case Obj(_) => true
  }

  /** `_.isObject`: arrays and plain objects (functions are not values here). */
  predicate IsObject(v: Value) {
    v.Arr? || v.Obj?
  }

  /** `_.isString(v) && !_.isEmpty(v)`. */
  predicate IsNonEmptyString(v: Value) {
    v.Str? && v.s != ""
  }

  /**
    Reading property `key` of a value that is neither null nor undefined:
    an own property of an object, the `length` of a string or array, and
    undefined for anything absent.
   */
  function Get(v: Value, key: string): Value {
    match v
    case Obj(props) => if key in props then props[key] else Undefined
    case Str(s) => if key == "length" then Num(|s|) else Undefined
    case Arr(items) => if key == "length" then Num(|items|) else Undefined
    case _ => Undefined
  }

  /**
    `parseInt(v, 10)`: the value is turned into text and its leading integer
    read; None stands for NaN. An array's text starts with its first element's
    text followed by a comma (or is empty), so only the first element counts;
    null, undefined, booleans and plain objects have no leading digits.
   */
  function ParseInt(v: Value): Option<int> {
    match v
    case Num(n) => Some(n)
    case Str(s) => ParseDecimal(s)
    case Arr(items) => if |items| == 0 then None else ParseInt(items[0])
    case _ => None
  }
}
