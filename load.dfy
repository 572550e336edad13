/**
 * The manifest format of src/load.rs.  Every asset file holds a JSON envelope
 * `{ load_type_id, actual_value }`.  Reading and parsing a file is I/O: the
 * files a loader can read are given as a map from path to parsed envelope, and
 * a path missing from the map is a file that cannot be read or does not parse.
 */
module Load {

  /** A JSON value; numbers are kept exact because they are only copied. */
  datatype Json =
    | JNull
    | JBool(b: bool)
    | JNumber(n: real)
    | JString(s: string)
    | JArray(elems: seq<Json>)
    | JObject(fields: seq<(string, Json)>)

  /** `JSONLoad`: the envelope around every asset file. */
  datatype JsonLoad = JsonLoad(loadTypeId: string, actualValue: Json)

  /** The readable asset files, by path. */
  type Files = map<string, JsonLoad>

  /**
   * `LoadError` of the loaders' shared reading helpers.  Only the variant the
   * loaders build themselves is spelt out; every other failure of reading or
   * deserialising a manifest is kept as its message.
   */
  datatype LoadError = LoadIdError(actual: string, expected: string) | ReadFailed(reason: string)
}
