/** JSON values as request bodies carry them, and JavaScript truthiness on them. */
module Json {

  /** A parsed JSON value. Numbers are kept as integers. */
  datatype Json =
    | Null
    | Bool(b: bool)
    | Num(n: int)
    | Str(s: string)
    | Arr(items: seq<Json>)
    | Obj(fields: map<string, Json>)

  /** JavaScript truthiness: `null`, `false`, `0` and `""` are falsy, everything else truthy. */
  predicate Truthy(j: Json)
  {
    match j
    case Null => false
    case Bool(b) => b
    case Num(n) => n != 0
    case Str(s) => s != ""
    case Arr(_) => true
    case Obj(_) => true
  }

  /** A non-empty string, which is what Joi's `string()` accepts by default. */
  predicate JoiString(j: Json)
  {
    j.Str? && j.s != ""
  }

  /** An object whose keys are among `allowed` (Joi refuses unknown keys by default). */
  predicate ObjectWithKeys(j: Json, allowed: set<string>)
  {
    j.Obj? && j.fields.Keys <= allowed
  }
}
