/** The JSON values a wizard page posts. */
module JsonValues {
  datatype Json =
    | Null
    | Bool(b: bool)
    | Number(x: real)
    | Str(s: string)
    | List(items: seq<Json>)
    | Object(members: map<string, Json>)
}
