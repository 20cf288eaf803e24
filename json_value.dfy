/** The values a validator may be handed: anything `JSON.parse` or a caller
    can produce, plus `undefined` for a missing property. Numbers are exact
    reals; `NaN` is its own case. */
module Json {

  datatype Value =
    | Undefined
    | Null
    | Bool(b: bool)
    | Num(n: real)
    | NaN
    | Str(s: string)
    | Arr(items: seq<Value>)
    | Obj(fields: map<string, Value>)

  /** `obj[key]`: the property, or `undefined` when it is absent or the
      value is not an object. */
  function Get(v: Value, key: string): (r: Value)
    ensures v.Obj? && key in v.fields ==> r == v.fields[key]
    ensures !(v.Obj? && key in v.fields) ==> r == Undefined
  {
    if v.Obj? && key in v.fields then v.fields[key] else Undefined
  }

  /** `Number.isInteger` on a number. */
  predicate IsInteger(x: real) {
    x == x.Floor as real
  }

  /** JavaScript truthiness: `undefined`, `null`, `false`, `0`, `NaN` and
      the empty string are falsy; everything else, every array and object
      included, is truthy. */
  predicate Truthy(v: Value) {
    match v
    case Undefined => false
    case Null => false
    case Bool(b) => b
    case Num(n) => n != 0.0
    case NaN => false
    case Str(s) => s != ""
    case Arr(_) => true
    case Obj(_) => true
  }

  /** `undefined` or `null`: what `??` replaces. */
  predicate Nullish(v: Value) {
    v.Undefined? || v.Null?
  }
}
