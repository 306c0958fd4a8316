/** The slice of Python's runtime values that the adapter reads and builds:
    JSON-like values, the dictionary operations it uses (`d[k]`, `l[i]`,
    `d.get(k, default)`), truthiness, and the exceptions that can escape. */
module PyValues {
  import opened Wrappers

  newtype byte = x: int | 0 <= x < 256

  /** A Python value as it appears in request parameters and provider
      responses. Dictionaries have string keys; their insertion order is not
      represented. */
  datatype Value =
    | Null
    | Bool(b: bool)
    | Int(i: int)
    | Str(s: string)
    | Bytes(bytes: seq<byte>)
    | List(items: seq<Value>)
    | Dict(entries: map<string, Value>)

  /** The exceptions the adapter lets escape to its caller. */
  datatype Error =
    | TypeError(what: string)
    | KeyError(key: string)
    | IndexError
    | AttributeError(attribute: string)
    | AssertionError(message: string)

  /** Python's `bool(v)`. */
  predicate Truthy(v: Value)
  {
    match v
    case Null => false
    case Bool(b) => b
    case Int(i) => i != 0
    case Str(s) => s != ""
    case Bytes(bs) => bs != []
    case List(items) => items != []
    case Dict(entries) => entries != map[]
  }

  /** `None` for an absent optional string, the string otherwise. */
  function OptStr(s: Option<string>): (r: Value)
    ensures r.Null? <==> s.None?
    ensures s.Some? ==> r == Str(s.value)
  {
    match s
    case None => Null
    case Some(t) => Str(t)
  }

  /** `v[key]` with a string key. */
  function Subscript(v: Value, key: string): (r: Result<Value, Error>)
    ensures r.Success? <==> v.Dict? && key in v.entries
    ensures r.Success? ==> r.value == v.entries[key]
    ensures v.Dict? && key !in v.entries ==> r == Failure(KeyError(key))
    ensures !v.Dict? ==> r.Failure? && r.error.TypeError?
  {
    match v
    case Dict(entries) => if key in entries then Success(entries[key]) else Failure(KeyError(key))
    case _ => Failure(TypeError("object is not subscriptable by a string"))
  }

  /** `v[0]`, the first item of a list, string or byte string. */
  function First(v: Value): (r: Result<Value, Error>)
    ensures v.List? && v.items != [] ==> r == Success(v.items[0])
    ensures v.List? && v.items == [] ==> r == Failure(IndexError)
    ensures r.Success? ==> v.List? || v.Str? || v.Bytes?
    ensures r.Success? && v.Str? ==> r.value.Str?
    ensures r.Success? && v.Bytes? ==> r.value.Int?
  {
    match v
    case List(items) => if items != [] then Success(items[0]) else Failure(IndexError)
    case Str(s) => if s != "" then Success(Str([s[0]])) else Failure(IndexError)
    case Bytes(bs) => if bs != [] then Success(Int(bs[0] as int)) else Failure(IndexError)
    case Dict(entries) => Failure(KeyError("0"))
    case _ => Failure(TypeError("object is not subscriptable"))
  }

  /** `v.get(key, default)`; only a dictionary has `get`. */
  function Get(v: Value, key: string, default: Value): (r: Result<Value, Error>)
    ensures r.Success? <==> v.Dict?
    ensures v.Dict? && key in v.entries ==> r == Success(v.entries[key])
    ensures v.Dict? && key !in v.entries ==> r == Success(default)
    ensures !v.Dict? ==> r == Failure(AttributeError("get"))
  {
    match v
    case Dict(entries) => Success(if key in entries then entries[key] else default)
    case _ => Failure(AttributeError("get"))
  }

  /** The string inside a value that must be a `str`. */
  function AsStr(v: Value): (r: Result<string, Error>)
    ensures r.Success? <==> v.Str?
    ensures v.Str? ==> r.value == v.s
  {
    if v.Str? then Success(v.s) else Failure(TypeError("expected a string"))
  }
}
