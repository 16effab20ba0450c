/** Values exchanged with the gateway: optional results and the JSON documents
    that every gateway call answers with. */
module Values {

  datatype Option<+T> = None | Some(value: T)

  /** A decoded JSON document, as the HTTP client hands it back. */
  datatype Json =
    | Null
    | Bool(b: bool)
    | Num(n: int)
    | Str(s: string)
    | Arr(items: seq<Json>)
    | Obj(fields: map<string, Json>)

  /** Python truthiness of a decoded value: `if result:` in the client code. */
  predicate Truthy(j: Json)
  {
    match j
    case Null => false
    case Bool(b) => b
    case Num(n) => n != 0
    case Str(s) => s != ""
    case Arr(items) => items != []
    case Obj(fields) => fields != map[]
  }

  /** `obj.get(key)` on an object: the field, or `None` (Null) when it is missing. */
  function Get(fields: map<string, Json>, key: string): (v: Json)
    ensures key in fields ==> v == fields[key]
    ensures key !in fields ==> v == Null
  {
    if key in fields then fields[key] else Null
  }
}
