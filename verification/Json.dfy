/** Decoded JSON values, as Python holds them. */
module Json {

  datatype Json =
    | Null
    | Bool(flag: bool)
    | Int(number: int)
    | Float(fraction: real)
    | Text(text: string)
    | List(items: seq<Json>)
    | Dict(fields: map<string, Json>)

  type Object = map<string, Json>

  /** Lists and dicts cannot be looked up in a set or be a key of a dict: TypeError. */
  predicate Hashable(v: Json) { !v.List? && !v.Dict? }

  /** Values that are one dict key: True is 1, False is 0, and 1.0 is 1. */
  function KeyOf(v: Json): Json
  {
    match v
    case Bool(flag) => Float(if flag then 1.0 else 0.0)
    case Int(number) => Float(number as real)
    case _ => v
  }

  /** record.get(name) */
  function Field(o: Object, name: string): Json { if name in o then o[name] else Null }
}
