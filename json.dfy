/** An abstract JSON value: what `json.loads` produces and `json.dumps` consumes.
    Parsing and serialising are external and enter the model as function parameters. */
module Json {

  datatype Json =
    | JNull
    | JBool(b: bool)
    | JNumber(n: int)
    | JString(s: string)
    | JArray(items: seq<Json>)
    | JObject(fields: map<string, Json>)

  /** The empty object `{}`. */
  const EmptyObject: Json := JObject(map[])
}
