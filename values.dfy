/** Values that cross the library's boundaries without being inspected by the core. */
module Values {

  /** A decoded JSON document as PHP's `json_decode` gives it without the
      associative flag: a JSON object becomes a `stdClass` (modelled by its
      property map) and a JSON array becomes a PHP list. */
  datatype Json =
    | JNull
    | JBool(b: bool)
    | JNumber(text: string)
    | JString(s: string)
    | JArray(items: seq<Json>)
    | JObject(properties: map<string, Json>)

  /** A request or response entity of the library, seen from outside the
      generic marshaller: its class and its serialisable properties. */
  datatype Entity = Entity(className: string, properties: map<string, Json>)
}
