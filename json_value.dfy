/**
 * The JSON documents the client sends: request bodies are built as
 * `map[string]interface{}` values in Go and marshalled to JSON.
 */
module JsonValue {

  datatype Value =
    | Str(s: string)
    | Int(n: int)
    | Bool(b: bool)
    | List(items: seq<Value>)
    | Obj(fields: map<string, Value>)
}
