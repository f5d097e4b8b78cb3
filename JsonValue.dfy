/** The values json.loads produces (and the dict/list configuration values
    built from them), as one datatype, with Python's truthiness and dict.get. */
module JsonValue {
  import opened Common

  datatype Json =
    | JNull
    | JBool(b: bool)
    | JNum(n: real)
    | JStr(s: string)
    | JArr(items: seq<Json>)
    | JObj(m: map<string, Json>)

  /** Python truthiness: None, False, 0, "", [] and {} are false. */
  predicate Truthy(j: Json)
  {
    match j
    case JNull => false
    case JBool(b) => b
    case JNum(n) => n != 0.0
    case JStr(s) => s != []
    case JArr(items) => items != []
    case JObj(m) => m != map[]
  }

  /** dict.get(key, default). */
  function GetOr(m: map<string, Json>, key: string, default: Json): (r: Json)
    ensures key in m ==> r == m[key]
    ensures key !in m ==> r == default
  {
    if key in m then m[key] else default
  }

  /** A list whose elements are all strings, as the strings; None otherwise. */
  function Strings(j: Json): (r: Option<seq<string>>)
    ensures r.Some? <==> j.JArr? && forall i :: 0 <= i < |j.items| ==> j.items[i].JStr?
    ensures r.Some? ==> |r.value| == |j.items| && forall i :: 0 <= i < |j.items| ==> j.items[i] == JStr(r.value[i])
    decreases if j.JArr? then |j.items| else 0
  {
    if !j.JArr? then None
    else if j.items == [] then Some([])
    else match (j.items[0], Strings(JArr(j.items[1..])))
      case (JStr(s), Some(rest)) =>
        assert forall i :: 1 <= i < |j.items| ==> j.items[i] == j.items[1..][i - 1];
        Some([s] + rest)
      case (_, _) =>
        assert forall i :: 1 <= i < |j.items| ==> j.items[i] == j.items[1..][i - 1];
        None
  }
}
