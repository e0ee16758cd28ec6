/**
 * JavaScript values as the handlers and the uploader see them, and the few
 * pieces of JavaScript semantics their code relies on: truthiness, `a || b`,
 * reading a property (undefined when absent) and the own properties that
 * lodash's `_.assign` copies.
 *
 * Numbers are integers: every numeric option of the uploads configuration is
 * a whole number (sizes in bytes, pixels, a quality in percent).
 */
module Json {

  datatype Value =
    | Undefined
    | Null
    | Bool(b: bool)
    | Num(n: int)
    | Str(s: string)
    | Arr(items: seq<Value>)
    | Obj(fields: map<string, Value>)

  const Empty: Value := Obj(map[])

  /** JavaScript truthiness: `undefined`, `null`, `false`, `0` and `''` are falsy. */
  predicate Truthy(v: Value) {
    match v
    case Undefined => false
    case Null => false
    case Bool(b) => b
    case Num(n) => n != 0
    case Str(s) => s != ""
    case Arr(_) => true
    case Obj(_) => true
  }

  /** `a || b`: the left operand when it is truthy, otherwise the right one. */
  function Or(a: Value, b: Value): Value {
    if Truthy(a) then a else b
  }

  /** `v[key]`: the property's value, `undefined` when `v` has no such property. */
  function Get(v: Value, key: string): Value {
    if v.Obj? && key in v.fields then v.fields[key] else Undefined
  }

  /** The own enumerable properties that `_.assign` and `_.omit` read from a source. */
  function Props(v: Value): map<string, Value> {
    if v.Obj? then v.fields else map[]
  }

  /**
   * How many times lodash's `_.forEach` calls its callback on `v`: once per
   * property of an object, per element of an array, per character of a string,
   * never for anything else.
   */
  function EntryCount(v: Value): nat {
    match v
    case Obj(m) => |m|
    case Arr(items) => |items|
    case Str(s) => |s|
    case _ => 0
  }

  /** The string elements of an array value, in order. */
  function Strings(items: seq<Value>): (r: seq<string>)
    ensures forall x :: x in r <==> Str(x) in items
  {
    if items == [] then []
    else (if items[0].Str? then [items[0].s] else []) + Strings(items[1..])
  }
}
