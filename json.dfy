/** An abstract JSON value: what the serializer writes, without its bytes. */
module Json {

  /** Numbers keep their exact decimal form: the value is
      `unscaled * 10^-scale`, written with `scale` fraction digits. Object
      members keep the order in which they are written. */
  datatype Json =
    | JNull
    | JBool(b: bool)
    | JNumber(unscaled: int, scale: nat)
    | JString(s: string)
    | JArray(items: seq<Json>)
    | JObject(members: seq<(string, Json)>)

  /** The object `{"error": message}` that every failing tool call returns. */
  function ErrorObject(message: string): (j: Json)
    ensures IsErrorObject(j) && j.members[0].1.s == message
  {
    JObject([("error", JString(message))])
  }

  /** A single member named "error" whose value is a string. */
  predicate IsErrorObject(j: Json) {
    j.JObject? && |j.members| == 1 && j.members[0].0 == "error" && j.members[0].1.JString?
  }
}
