/**
 * Python's dynamically typed values as they appear in the system's
 * dictionaries (`Dict[str, Any]`): tool result data, error details,
 * state metadata and the engine's structured data.
 */
module Values {
  import opened Wrappers
  import opened Text

  datatype Value =
    | Str(s: string)
    | Int(i: int)
    | Real(r: real)
    | Bool(b: bool)
    | Null
    | List(items: seq<Value>)
    | Dict(entries: map<string, Value>)
      /** Any other object, known only by its class name. */
    | Object(typeName: string)

  /** A Python dictionary with string keys. */
  type Data = map<string, Value>

  /** Python truthiness: `bool(v)`. */
  predicate Truthy(v: Value) {
    match v
    case Str(s) => |s| > 0
    case Int(i) => i != 0
    case Real(r) => r != 0.0
    case Bool(b) => b
    case Null => false
    case List(items) => |items| > 0
    case Dict(entries) => |entries| > 0
    case Object(_) => true
  }

  /** `d.get(key, default)` */
  function Get(d: Data, key: string, default: Value): (v: Value)
    ensures key in d ==> v == d[key]
    ensures key !in d ==> v == default
  {
    if key in d then d[key] else default
  }

  /** Python's `{**a, **b}`: every key of `b` overrides the same key of `a`. */
  function Merge(a: Data, b: Data): (m: Data)
    ensures m.Keys == a.Keys + b.Keys
    ensures forall k :: k in b ==> m[k] == b[k]
    ensures forall k :: k in a && k !in b ==> m[k] == a[k]
  {
    a + b
  }

  /** `str(n)` for any integer. */
  function IntToString(n: int): (r: string)
    ensures |r| >= 1
  {
    if n < 0 then "-" + NatToString(-n) else NatToString(n)
  }

  /**
   * `str(v)` as an f-string renders it. Strings, `None`, booleans and
   * integers are rendered exactly; floats, lists, dicts and other objects
   * are only rendered as a placeholder naming their type.
   */
  function Show(v: Value): (r: string)
    ensures v.Str? ==> r == v.s
    ensures v.Null? ==> r == "None"
  {
    match v
    case Str(s) => s
    case Int(i) => IntToString(i)
    case Real(_) => "<float>"
    case Bool(b) => if b then "True" else "False"
    case Null => "None"
    case List(_) => "<list>"
    case Dict(_) => "<dict>"
    case Object(t) => "<" + t + ">"
  }

  /** `type(v).__name__` */
  function TypeOf(v: Value): string {
    match v
    case Str(_) => "str"
    case Int(_) => "int"
    case Real(_) => "float"
    case Bool(_) => "bool"
    case Null => "NoneType"
    case List(_) => "list"
    case Dict(_) => "dict"
    case Object(t) => t
  }

  /** A Python `Optional[str]` as a value. */
  function OptStr(o: Option<string>): (v: Value)
    ensures o.Some? <==> v.Str?
    ensures o.Some? ==> v.s == o.value
  {
    match o
    case Some(s) => Str(s)
    case None => Null
  }
}
