/** JSON-like values as they travel through request bodies, RPC arguments and
    response envelopes. Numbers are integers (no NaN, -0 or fractions). */
module Json {

  datatype Json =
    | JUndefined
    | JNull
    | JBool(b: bool)
    | JNum(n: int)
    | JStr(s: string)
    | JArr(items: seq<Json>)
    | JObj(fields: map<string, Json>)

  /** JavaScript falsiness: undefined, null, false, 0 and "". */
  predicate Falsy(j: Json) {
    j.JUndefined? || j.JNull? || j == JBool(false) || j == JNum(0) || j == JStr("")
  }

  /** `data || {}`. */
  function OrEmptyObject(data: Json): (r: Json)
    ensures !Falsy(r)
    ensures Falsy(data) ==> r == JObj(map[])
    ensures !Falsy(data) ==> r == data
  {
    if Falsy(data) then JObj(map[]) else data
  }
}
