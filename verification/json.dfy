/** JSON values as Go's encoding/json sees them after decoding into
    `interface{}`: payloads are modelled as objects, never as bytes. */
module Json {
  import opened Wrappers

  /** `JUnsupported` stands for a Go value that json.Marshal refuses
      (a NaN or infinite float, a channel, a function). */
  datatype Json =
    | JNull
    | JBool(b: bool)
    | JNum(n: real)
    | JStr(s: string)
    | JArr(items: seq<Json>)
    | JObj(fields: map<string, Json>)
    | JUnsupported

  /** True iff json.Marshal can encode the value. */
  predicate Encodable(j: Json) {
    match j
    case JArr(items) => forall i | 0 <= i < |items| :: Encodable(items[i])
    case JObj(fields) => forall k | k in fields :: Encodable(fields[k])
    case JUnsupported => false
    case _ => true
  }

  /** A JSON array of strings, as a Go []string is encoded. */
  function Strings(ss: seq<string>): (j: Json)
    ensures j.JArr? && |j.items| == |ss|
    ensures forall i | 0 <= i < |ss| :: j.items[i] == JStr(ss[i])
    ensures Encodable(j)
  {
    if ss == [] then JArr([])
    else
      var rest := Strings(ss[1..]);
      JArr([JStr(ss[0])] + rest.items)
  }
}
