/**
 * The values `json.loads` produces. Decoding itself (RFC 8259) is not part of
 * this model: wherever text is decoded, the decoder is a parameter.
 */
module Json {
  import opened Wrappers

  /** A decoded JSON value: Python's None, bool, int, float, str, list or dict. */
  datatype Json =
    | JNull
    | JBool(b: bool)
    | JInt(i: int)
    | JFloat(f: real)
    | JString(s: string)
    | JArray(items: seq<Json>)
    | JObject(fields: map<string, Json>)

  /** `json.loads`: a decoded value, or the `JSONDecodeError` message. */
  type Decoder = string -> Result<Json, string>

  /** `d.get(key, default)` on a decoded object. */
  function Get(fields: map<string, Json>, key: string, default: Json): Json
  {
    if key in fields then fields[key] else default
  }
}
