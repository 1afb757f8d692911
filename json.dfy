/** JSON values as python's `json` module produces them (dicts, lists, str, int, float,
    bool, None), and the dict accessors the serialisers use. */
module Json {
  import opened Wrappers

  datatype Value =
    | Null
    | Bool(b: bool)
    | Int(i: int)
    | Float(r: real)
    | Str(s: string)
    | Arr(items: seq<Value>)
    | Obj(fields: map<string, Value>)

  /** Python truthiness, used by the `x or default` idiom. */
  predicate Truthy(v: Value)
  {
    match v
    case Null => false
    case Bool(b) => b
    case Int(i) => i != 0
    case Float(r) => r != 0.0
    case Str(s) => s != ""
    case Arr(items) => items != []
    case Obj(fields) => fields != map[]
  }

  /** `data[key]`. */
  function Get(data: Value, key: string): (r: Result<Value>)
    ensures r.Ok? <==> data.Obj? && key in data.fields
    ensures r.Ok? ==> r.value == data.fields[key]
  {
    match data
    case Obj(fields) => if key in fields then Ok(fields[key]) else Err(KeyError(key))
    case _ => Err(TypeError)
  }

  /** `fields.get(key, default)` on a dict already known to be one. */
  function Lookup(fields: map<string, Value>, key: string, default: Value): (r: Value)
    ensures key in fields ==> r == fields[key]
    ensures key !in fields ==> r == default
  {
    if key in fields then fields[key] else default
  }

  /** `data.get(key, default)`. */
  function GetOr(data: Value, key: string, default: Value): (r: Result<Value>)
    ensures r.Ok? <==> data.Obj?
    ensures data.Obj? && key in data.fields ==> r == Ok(data.fields[key])
    ensures data.Obj? && key !in data.fields ==> r == Ok(default)
  {
    match data
    case Obj(fields) => Ok(if key in fields then fields[key] else default)
    case _ => Err(AttributeError("get"))
  }

  predicate IsInfix(needle: string, hay: string)
  {
    exists i {:trigger hay[i..]} :: 0 <= i <= |hay| - |needle| && hay[i..i + |needle|] == needle
  }

  /** `key in data`: a dict tests its keys, a list its items, a string its substrings. */
  function Contains(data: Value, key: string): (r: Result<bool>)
    ensures data.Obj? ==> r == Ok(key in data.fields)
  {
    match data
    case Obj(fields) => Ok(key in fields)
    case Arr(items) => Ok(Str(key) in items)
    case Str(s) => Ok(IsInfix(key, s))
    case _ => Err(TypeError)
  }

  /** A string, or `None` for python's None. */
  function OptStr(s: Option<string>): Value
  {
    match s
    case None => Null
    case Some(x) => Str(x)
  }

  /** Reads a value that the model types as a string (see README "Left out"). */
  function AsStr(v: Value): (r: Result<string>)
    ensures r.Ok? <==> v.Str?
    ensures r.Ok? ==> v == Str(r.value)
  {
    if v.Str? then Ok(v.s) else Err(TypeError)
  }

  /** Reads a value that is a string or None. */
  function AsOptStr(v: Value): (r: Result<Option<string>>)
    ensures r.Ok? <==> v.Str? || v.Null?
    ensures r.Ok? ==> OptStr(r.value) == v
  {
    match v
    case Null => Ok(None)
    case Str(s) => Ok(Some(s))
    case _ => Err(TypeError)
  }

  /** What a `for` loop over `v` visits, for a loop whose body fails on any element that is
      not a dict: a list yields its items; an empty dict or string yields nothing; a
      non-empty dict or string yields key or character strings, on which the body fails with
      `elementError`; anything else is not iterable. */
  function Iterate(v: Value, elementError: Error): (r: Result<seq<Value>>)
    ensures v.Arr? ==> r == Ok(v.items)
  {
    match v
    case Arr(items) => Ok(items)
    case Obj(fields) => if fields == map[] then Ok([]) else Err(elementError)
    case Str(s) => if s == "" then Ok([]) else Err(elementError)
    case _ => Err(TypeError)
  }

  /** Reads a list. */
  function AsArr(v: Value): (r: Result<seq<Value>>)
    ensures r.Ok? <==> v.Arr?
    ensures r.Ok? ==> v == Arr(r.value)
  {
    if v.Arr? then Ok(v.items) else Err(TypeError)
  }
}
