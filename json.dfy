/**
 * JSON documents as value trees (RFC 8259, section 3). The byte-level lexer is
 * not modelled: a payload is already parsed. A number written without fraction
 * and exponent is `JInt`; any other number is `JFrac` with its exact value.
 */
module Json {
  datatype Json =
    | JNull
    | JBool(b: bool)
    | JInt(i: int)
    | JFrac(r: real)
    | JString(s: string)
    | JArray(items: seq<Json>)
    | JObject(members: map<string, Json>)
}
