/** The values JSON.parse can produce: trees. A number may be infinite (`1e999`). */
module Json {
  import opened Wrappers

  datatype Json =
    | Null
    | Bool(b: bool)
    | Number(finite: bool)
    | Str(s: string)
    | Arr(items: seq<Json>)
    | Obj(fields: map<string, Json>)

  /** `isJsonValue` on a parsed tree: only an infinite number can spoil it. */
  predicate IsValue(j: Json) {
    match j
    case Number(finite) => finite
    case Arr(items) => forall i | 0 <= i < |items| :: IsValue(items[i])
    case Obj(fields) => forall k | k in fields :: IsValue(fields[k])
    case _ => true
  }

  predicate IsObject(j: Json) {
    IsValue(j) && j.Obj?
  }

  /** `value[key]`, None standing for `undefined`. */
  function Field(j: Json, key: string): Option<Json> {
    if j.Obj? && key in j.fields then Some(j.fields[key]) else None
  }

  /** `value[key]` when that is a string. */
  function StringField(j: Json, key: string): Option<string> {
    match Field(j, key)
    case Some(Str(s)) => Some(s)
    case _ => None
  }

  predicate OnlyKeys(j: Json, allowed: set<string>) {
    j.Obj? ==> j.fields.Keys <= allowed
  }
}
