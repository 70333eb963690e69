/**
 * JavaScript values as the event source sees them after JSON decoding:
 * the inbound message, its `eventData`, and the values copied from it into
 * update parameters and audit descriptions.
 */
module Json {

  /**
   * A JSON value, plus `Undefined` for a property that is absent.
   * Numbers are integers: every code the core compares against is one.
   */
  datatype Value =
    | Undefined
    | Null
    | Bool(b: bool)
    | Num(n: int)
    | Str(str: string)
    | Arr(items: seq<Value>)
    | Obj(props: map<string, Value>)

  /** Property access `v.key` on a value that is not null or undefined. */
  function Get(v: Value, key: string): Value {
    if v.Obj? && key in v.props then v.props[key] else Undefined
  }

  /** Values on which a property access throws a TypeError. */
  predicate Nullish(v: Value) {
    v.Undefined? || v.Null?
  }

  /** JavaScript truthiness, as used by a conditional expression `v ? a : b`. */
  predicate Truthy(v: Value) {
    match v
    case Undefined => false
    case Null => false
    case Bool(b) => b
    case Num(n) => n != 0
    case Str(s) => s != ""
    case Arr(_) => true
    case Obj(_) => true
  }
}
