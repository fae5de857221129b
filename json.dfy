/**
 * JSON-shaped values: what the `to_hash` methods build before a JSON library
 * turns them into text.
 */
module Json {

  datatype Json =
    | JInt(i: int)
    | JNumber(r: real)
    | JString(s: string)
    | JObject(fields: Object)

  /** A JSON object, i.e. a Python dict with string keys. */
  type Object = map<string, Json>
}
