/** The JavaScript values the relay handles: what `JSON.parse` can produce (plus `undefined`,
    the value of a missing property), their truthiness, `||`, property reads, and thrown values. */
module JsValue {

  /** A parsed JSON value, or `undefined`. Numbers are kept as reals: only whether a number is
      zero matters to the relay. */
  datatype Json =
    | Undefined
    | Null
    | Bool(b: bool)
    | Num(n: real)
    | Str(s: string)
    | Arr(items: seq<Json>)
    | Obj(fields: map<string, Json>)

  /** JavaScript truthiness (ToBoolean). JSON has no `NaN`, so the falsy values are exactly
      `undefined`, `null`, `false`, zero and the empty string; arrays and objects, even empty
      ones, are truthy. */
  function Truthy(v: Json): (b: bool)
    ensures !b <==> v in {Undefined, Null, Bool(false), Num(0.0), Str("")}
  {
    match v
    case Undefined => false
    case Null => false
    case Bool(b) => b
    case Num(n) => n != 0.0
    case Str(s) => s != ""
    case Arr(_) => true
    case Obj(_) => true
  }

  /** `a || b`: the left operand when it is truthy, otherwise the right one. */
  function Or(a: Json, b: Json): (r: Json)
    ensures r == a || r == b
    ensures Truthy(r) <==> Truthy(a) || Truthy(b)
    ensures Truthy(a) ==> r == a
    ensures !Truthy(a) ==> r == b
  {
    if Truthy(a) then a else b
  }

  /** `null` and `undefined`: reading a property of these throws a `TypeError`. */
  predicate IsNullish(v: Json)
  {
    v.Undefined? || v.Null?
  }

  /** `v[key]` for a value that is not nullish. Only an object has own properties with the keys the
      relay reads (none of them is inherited from a prototype), so every other value gives
      `undefined`. */
  function Get(v: Json, key: string): (r: Json)
    requires !IsNullish(v)
    ensures v.Obj? && key in v.fields ==> r == v.fields[key]
    ensures r != Undefined ==> v.Obj? && key in v.fields
  {
    match v
    case Obj(fields) => if key in fields then fields[key] else Undefined
    case _ => Undefined
  }

  /** A thrown value: an `Error` instance with its `message`, or any other value. */
  datatype Thrown = ErrorInstance(message: string) | OtherValue(value: Json)

  /** The outcome of an awaited step that may throw. */
  datatype Attempt<+T> = Done(value: T) | Threw(thrown: Thrown)
}
