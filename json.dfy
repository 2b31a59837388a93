/** The JSON values the API returns, as the client hands them over already parsed. */
module Json {

  /** A JSON value. Numbers are modelled as integers (see README, "Left out"). */
  datatype Json =
    | JNull
    | JBool(b: bool)
    | JNumber(n: int)
    | JString(s: string)
    | JArray(elements: seq<Json>)
    | JObject(members: map<string, Json>)

  /** A JSON object: the shape of one resource, e.g. one person or one film. */
  type JsonObject = map<string, Json>
}
