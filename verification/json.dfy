/** JSON values, as the schema validator sees a document after parsing it. */
module Json {

  /** A parsed JSON value.  Numbers carry an abstract integer tag: no keyword
      of the query schema constrains a number, so their exact value (and any
      floating-point detail) never decides acceptance.  An object is a map from
      member names to values, i.e. a document after duplicate names have been
      resolved. */
  datatype Json =
    | JNull
    | JBool(b: bool)
    | JNumber(n: int)
    | JString(s: string)
    | JArray(items: seq<Json>)
    | JObject(fields: map<string, Json>)
}
