/** JSON values as Python's `json.loads` builds them. An object is a map: two
    dictionaries that differ only in insertion order are the same value. */
module JsonValues {
  import opened Options

  datatype Json =
    | Null
    | Bool(b: bool)
    | Int(n: int)
    | Float(r: real)
    | Str(s: string)
    | List(items: seq<Json>)
    | Obj(fields: map<string, Json>)

  type Fields = map<string, Json>

  /** `json.loads`, with a decode error as `None`. */
  type Loads = string -> Option<Json>

  /** Python truthiness of a decoded value. */
  predicate Truthy(v: Json) {
    match v
    case Null => false
    case Bool(b) => b
    case Int(n) => n != 0
    case Float(r) => r != 0.0
    case Str(s) => s != ""
    case List(items) => items != []
    case Obj(fields) => fields != map[]
  }

  /** The value under a key, or a default. */
  function Get(fields: Fields, key: string, default: Json): Json {
    if key in fields then fields[key] else default
  }

  /** The value under a key, if there is one. */
  function Lookup(fields: Fields, key: string): Option<Json> {
    if key in fields then Some(fields[key]) else None
  }

  /** No float occurs anywhere in the value. */
  ghost predicate FloatFree(v: Json) {
    match v
    case Float(_) => false
    case List(items) => forall x | x in items :: FloatFree(x)
    case Obj(fields) => forall k | k in fields :: FloatFree(fields[k])
    case _ => true
  }

  /** Two dictionaries with the same lookups are the same. */
  lemma SameLookups(a: Fields, b: Fields)
    requires forall k :: Lookup(a, k) == Lookup(b, k)
    ensures a == b
  {
    forall k ensures (k in a <==> k in b) && (k in a ==> a[k] == b[k]) {
      assert Lookup(a, k) == Lookup(b, k);
    }
  }
}
