/**
 * JSON values as the program sees them after `JSON.parse` (or before
 * `JSON.stringify`). Only the shape of a value is modelled, not the JSON
 * text grammar: parsing and serialising are parameters of the handler.
 */
module JsonValue {

  datatype Json =
    | Null
    | Bool(b: bool)
    | Number(n: int)
    | Str(s: string)
    | Arr(items: seq<Json>)
    | Obj(fields: seq<(string, Json)>)
}
