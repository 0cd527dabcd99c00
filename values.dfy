/**
 * The values a decoded JSON log line can hold, and the handful of Python
 * operations the pipeline applies to them (`d.get`, `d[k]`, `.lower()`,
 * `in`, truthiness, `str()`).
 */
module Values {
  import opened Wrappers
  import opened Text
  import opened Order

  /**
   * A Python value produced by `json.loads`. A float is kept as its `repr`
   * text, since the model never does arithmetic on it.
   */
  datatype Value =
    | Null
    | Bool(b: bool)
    | Int(i: int)
    | Float(repr: string)
    | Str(s: string)
    | List(items: seq<Value>)
    | Dict(fields: map<string, Value>)

  /** A parsed log entry: a Python dict with string keys. */
  type Record = map<string, Value>

  /** `json.loads`: the decoded value, or `None` where it raises a decode error. */
  type Decoder = string -> Option<Value>

  /** `json.dumps` of a record: the text of one JSON object. */
  type Encoder = Record -> string

  /** `d.get(k, default)` on a dict known to be a dict. */
  function Get(d: Record, k: string, default: Value): Value {
    if k in d then d[k] else default
  }

  /** `v.get(k, default)`: only dicts have `get` (AttributeError otherwise). */
  function GetV(v: Value, k: string, default: Value): (r: Outcome<Value>)
    ensures r.Ok? <==> v.Dict?
    ensures r.Ok? && k in v.fields ==> r.value == v.fields[k]
    ensures r.Ok? && k !in v.fields ==> r.value == default
  {
    if v.Dict? then Ok(Get(v.fields, k, default)) else Raised
  }

  /** `v[k]` with a string key: a KeyError or TypeError unless `v` is a dict holding `k`. */
  function Subscript(v: Value, k: string): (r: Outcome<Value>)
    ensures r.Ok? <==> v.Dict? && k in v.fields
    ensures r.Ok? ==> r.value == v.fields[k]
  {
    if v.Dict? && k in v.fields then Ok(v.fields[k]) else Raised
  }

  /** A value used where Python needs a `str` (a regex subject, `.replace`, ...). */
  function AsStr(v: Value): (r: Outcome<string>)
    ensures r.Ok? <==> v.Str?
    ensures r.Ok? ==> r.value == v.s
  {
    if v.Str? then Ok(v.s) else Raised
  }

  /** `v.lower()`: only strings have it. */
  function LowerOf(v: Value): (r: Outcome<string>)
    ensures r.Ok? <==> v.Str?
    ensures r.Ok? ==> r.value == Lower(v.s)
  {
    if v.Str? then Ok(Lower(v.s)) else Raised
  }

  /**
   * `sub in v` for a string `sub`: a substring test on a string, membership
   * on a list, a key test on a dict, and a TypeError on anything else.
   */
  function InValue(sub: string, v: Value): (r: Outcome<bool>)
    ensures r.Ok? <==> (v.Str? || v.List? || v.Dict?)
    ensures v.Str? ==> r == Ok(Contains(v.s, sub))
    ensures v.List? ==> r == Ok(Str(sub) in v.items)
    ensures v.Dict? ==> r == Ok(sub in v.fields)
  {
    match v
    case Str(s) => Ok(Contains(s, sub))
    case List(xs) => Ok(Str(sub) in xs)
    case Dict(m) => Ok(sub in m)
    case _ => Raised
  }

  /** Python truthiness (`if v:`). */
  predicate Truthy(v: Value) {
    match v
    case Null => false
    case Bool(b) => b
    case Int(i) => i != 0
    case Float(r) => r != "0.0" && r != "-0.0"
    case Str(s) => s != []
    case List(xs) => xs != []
    case Dict(m) => m != map[]
  }

  /**
   * `str(v)`. Strings render as themselves and scalars as Python prints
   * them; a list or dict renders its items with `repr`, a dict in sorted key
   * order (Python would use insertion order, which a map does not keep).
   */
  function Show(v: Value): string
    decreases v, 1
  {
    match v
    case Null => "None"
    case Bool(b) => if b then "True" else "False"
    case Int(i) => IntToString(i)
    case Float(r) => r
    case Str(s) => s
    case List(xs) => "[" + Join(", ", seq(|xs|, k requires 0 <= k < |xs| => Repr(xs[k]))) + "]"
    case Dict(m) =>
      var keys := SortedSeq(m.Keys);
      SortedSeqSpec(m.Keys);
      "{" + Join(", ", seq(|keys|, k requires 0 <= k < |keys| =>
        "'" + keys[k] + "': " + Repr(m[keys[k]]))) + "}"
  }

  /** `repr(v)`: a string is quoted (escapes are not modelled), anything else is `str(v)`. */
  function Repr(v: Value): string
    decreases v, 2
  {
    if v.Str? then "'" + v.s + "'" else Show(v)
  }
}
