/** The values `JSON.parse` produces, and the two JavaScript operations the
    pipeline applies to them: truthiness and property access. */
module Json {
  import opened Options

  datatype Value =
    | Null
    | Bool(b: bool)
    | Num(n: real)
    | Str(s: string)
    | Arr(items: seq<Value>)
    | Obj(fields: map<string, Value>)

  /** JavaScript truthiness: `null`, `false`, `0` and `""` are falsy;
      arrays and objects, even empty ones, are truthy. */
  predicate Truthy(v: Value): (b: bool)
    ensures !b <==> v in {Null, Bool(false), Num(0.0), Str("")}
  {
    match v
    case Null => false
    case Bool(b) => b
    case Num(n) => n != 0.0
    case Str(s) => s != ""
    case Arr(_) => true
    case Obj(_) => true
  }

  /** `v[key]` for one of the fixed property names the pipeline reads
      (never an array index, `length` or an inherited name): an object's
      own field, otherwise `undefined` (`None`). */
  function Member(v: Value, key: string): (r: Option<Value>)
    ensures r.Some? <==> v.Obj? && key in v.fields
    ensures r.Some? ==> r.value == v.fields[key]
  {
    if v.Obj? && key in v.fields then Some(v.fields[key]) else None
  }

  /** `x || fallback` where `x` may be `undefined`: true when `x` is defined
      and truthy. */
  predicate DefinedTruthy(x: Option<Value>) {
    x.Some? && Truthy(x.value)
  }
}
