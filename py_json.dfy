/** The JSON values that cross the service boundary (the request body, the
    parsed output of the language model, the reply bodies), with the few
    Python operations the handlers apply to them. */
module PyJson {
  import opened Outcomes

  /** A decoded JSON document as Python holds it: None, bool, a number,
      str, list or dict. */
  datatype Json =
    | Null
    | Bool(b: bool)
    | Num(n: real)
    | Str(s: string)
    | Arr(elems: seq<Json>)
    | Obj(fields: map<string, Json>)

  /** Python truthiness: None, False, zero and empty containers are falsy. */
  predicate Truthy(v: Json) {
    match v
    case Null => false
    case Bool(b) => b
    case Num(n) => n != 0.0
    case Str(s) => s != []
    case Arr(e) => e != []
    case Obj(f) => f != map[]
  }

  /** `k in s` for two Python strings. */
  predicate IsSubstring(k: string, s: string)
    decreases |s|
  {
    k <= s || (s != [] && IsSubstring(k, s[1..]))
  }

  /** `key in v` for a str key: a dict tests its keys, a list its elements,
      a str its substrings; any other value raises TypeError. */
  function Contains(v: Json, key: string): Outcome<bool> {
    match v
    case Obj(f) => Ok(key in f)
    case Arr(e) => Ok(Str(key) in e)
    case Str(s) => Ok(IsSubstring(key, s))
    case _ => Raised
  }

  /** `v.get(key, default)`: only a dict has `get`; anything else raises
      AttributeError. */
  function Get(v: Json, key: string, default: Json): Outcome<Json> {
    match v
    case Obj(f) => Ok(if key in f then f[key] else default)
    case _ => Raised
  }
}
