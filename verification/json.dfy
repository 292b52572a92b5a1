/** Decoded JSON values as the enrichment client sees them after `response.json()`,
    with the two Python operations the client applies to them: truthiness and `dict.get`. */
module Json {

  /** A decoded JSON value. Numbers are integers only. */
  datatype Value =
    | Null
    | Bool(b: bool)
    | Int(n: int)
    | Str(s: string)
    | Arr(items: seq<Value>)
    | Obj(fields: map<string, Value>)

  /** Python truthiness of the decoded value: `None`, `False`, `0`, `""`, `[]` and `{}` are falsy. */
  predicate Truthy(v: Value) {
    match v
    case Null => false
    case Bool(b) => b
    case Int(n) => n != 0
    case Str(s) => s != ""
    case Arr(items) => |items| > 0
    case Obj(fields) => |fields| > 0
  }

  /** `d.get(key, default)` on a decoded object. */
  function GetOr(fields: map<string, Value>, key: string, default: Value): Value {
    if key in fields then fields[key] else default
  }

  /** `d.get(key)`: a missing key and an explicit `null` both read as `None`. */
  function Get(fields: map<string, Value>, key: string): Value {
    GetOr(fields, key, Null)
  }

  /** The values Python treats as false, as an explicit list. */
  const FalsyValues: set<Value> := {Null, Bool(false), Int(0), Str(""), Arr([]), Obj(map[])}

  /** A decoded value is falsy exactly when it is one of the six falsy constants. */
  lemma FalsyIffListed(v: Value)
    ensures !Truthy(v) <==> v in FalsyValues
  {
  }

  /** The default of `d.get(key, default)` is observable only for a missing key: two calls
      with different defaults agree exactly when the key is present. */
  lemma DefaultOnlyWhenMissing(fields: map<string, Value>, key: string, d1: Value, d2: Value)
    requires d1 != d2
    ensures GetOr(fields, key, d1) == GetOr(fields, key, d2) <==> key in fields
  {
  }
}
