/** The values that decoding a JSON text can produce: null, booleans,
    integers, floats (kept apart from integers, as decoding keeps `550` and
    `550.0` apart, but as exact reals), strings, lists and string-keyed
    mappings. */
module JsonValue {
  datatype Json =
    | JNull
    | JBool(b: bool)
    | JInt(i: int)
    | JFloat(r: real)
    | JStr(s: string)
    | JArr(items: seq<Json>)
    | JObj(fields: map<string, Json>)
}
