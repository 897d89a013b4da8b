/** JSON values. Objects are finite maps: key order, prototypes and freezing are not modelled. */
module Json {

  datatype JsonValue =
    | Null
    | Bool(b: bool)
    | Num(n: real)
    | Str(s: string)
    | Array(elements: seq<JsonValue>)
    | Object(fields: map<string, JsonValue>)

  type JsonObject = map<string, JsonValue>
}
