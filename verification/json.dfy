/** The untyped `config.json` document as JavaScript sees it after
    `JSON.parse`, with JavaScript's truthiness and the number coercion that
    arithmetic on its fields performs. */
module Json {
  import opened Wrappers

  /** A JSON value. `NaN` is not produced by `JSON.parse`; it is the value
      arithmetic yields on operands that are not numbers. */
  datatype Value =
    | Null
    | Bool(b: bool)
    | Num(n: real)
    | NaN
    | Str(s: string)
    | Arr(items: seq<Value>)
    | Obj(fields: map<string, Value>)

  /** JavaScript truthiness: `false`, `0`, `NaN`, `""` and `null` are falsy. */
  predicate TruthyValue(v: Value) {
    match v
    case Null => false
    case Bool(b) => b
    case Num(n) => n != 0.0
    case NaN => false
    case Str(s) => s != ""
    case Arr(_) => true
    case Obj(_) => true
  }

  /** Truthiness of a property read; `None` is `undefined`, which is falsy. */
  predicate Truthy(o: Option<Value>) {
    o.Some? && TruthyValue(o.value)
  }

  /** `x === undefined || x === null`. */
  predicate Nullish(o: Option<Value>) {
    o.None? || o.value == Null
  }

  /** The property read `json.key` on a value that is not `null`: an object's
      own field, `undefined` for a missing key and for every other kind of
      value (none of the keys read here exists on strings, numbers or arrays). */
  function Get(json: Value, key: string): (r: Option<Value>)
    ensures r.Some? <==> json.Obj? && key in json.fields
  {
    if json.Obj? && key in json.fields then Some(json.fields[key]) else None
  }

  /** A JavaScript number: a real number or NaN (overflow to Infinity is not
      modelled; arithmetic is exact). */
  datatype Number = Finite(r: real) | NotANumber

  /** `Number(v)` for a truthy value: a number stays itself, `true` is 1, and
      strings, arrays and objects are taken as NaN. Under this coercion a
      truthy value never becomes 0, so it can always be used as a divisor
      (JavaScript itself turns `"0"` and `[]` into 0). */
  function ToNumber(v: Value): (x: Number)
    requires TruthyValue(v)
    ensures x != Finite(0.0)
    ensures v.Num? ==> x == Finite(v.n)
  {
    match v
    case Num(n) => Finite(n)
    case Bool(_) => Finite(1.0)
    case _ => NotANumber
  }
}
