/** The values that the serialisers and the response envelope put into a JSON body. */
module JsonValue {
  import opened Wrappers

  /** A JSON value. `JTime` stands for the ISO-8601 text of a timestamp, left abstract. */
  datatype Json =
    | JNull
    | JBool(b: bool)
    | JNum(n: int)
    | JStr(s: string)
    | JArray(items: seq<Json>)
    | JObject(fields: map<string, Json>)
    | JTime(t: nat)

  /** A Python `Optional[str]`: `None` serialises as `null`. */
  function OptStr(o: Option<string>): (j: Json)
    ensures j == JNull <==> o.None?
    ensures o.Some? ==> j == JStr(o.value)
  {
    match o
    case None => JNull
    case Some(s) => JStr(s)
  }

  /** A Python `List[str]` as a JSON array of strings, element by element. */
  function JStrs(xs: seq<string>): (j: Json)
    ensures j.JArray? && |j.items| == |xs|
    ensures forall i :: 0 <= i < |xs| ==> j.items[i] == JStr(xs[i])
  {
    JArray(seq(|xs|, i requires 0 <= i < |xs| => JStr(xs[i])))
  }
}
