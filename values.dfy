/** Value types shared by the suggestion modules: an optional value (Python's
    None / TypeScript's null) and the JSON-like values that suggestion payloads,
    customization args and dictionary projections are made of. */
module Values {

  datatype Option<+T> = None | Some(value: T)

  /** A JSON value, as stored in the datastore's JsonProperty columns. */
  datatype Json =
    | JNull
    | JBool(b: bool)
    | JInt(i: int)
    | JString(s: string)
    | JList(items: seq<Json>)
    | JObject(fields: map<string, Json>)

  /** A Python dict with string keys. */
  type Dict = map<string, Json>
}
