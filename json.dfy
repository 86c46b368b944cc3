/**
 * An abstract JSON value, standing for `serde_json::Value` after parsing.
 * Numbers are integers here; an object is its list of members in the
 * order the map yields them.
 */
module Json {
  import opened Wrappers

  datatype Json =
    | Null
    | Bool(b: bool)
    | Number(n: int)
    | Str(s: string)
    | Arr(items: seq<Json>)
    | Obj(members: seq<(string, Json)>)

  /** `value.get(key)`: the member's value of an object, nothing for other values. */
  function Get(j: Json, key: string): (r: Option<Json>)
    ensures r.Some? ==> j.Obj? && exists i :: 0 <= i < |j.members| && j.members[i] == (key, r.value)
    ensures j.Obj? && (forall i :: 0 <= i < |j.members| ==> j.members[i].0 != key) ==> r.None?
    ensures !j.Obj? ==> r.None?
  {
    if !j.Obj? then None else Lookup(j.members, key)
  }

  function Lookup(members: seq<(string, Json)>, key: string): (r: Option<Json>)
    ensures r.Some? ==> exists i :: 0 <= i < |members| && members[i] == (key, r.value)
    ensures (forall i :: 0 <= i < |members| ==> members[i].0 != key) <==> r.None?
  {
    if |members| == 0 then None
    else if members[0].0 == key then Some(members[0].1)
    else
      var r := Lookup(members[1..], key);
      assert r.Some? ==> members[1..][0..] == members[1..];
      r
  }

  /** `value.get(key).and_then(|v| v.as_str())`. */
  function GetStr(j: Json, key: string): (r: Option<string>)
    ensures r.Some? <==> Get(j, key).Some? && Get(j, key).value.Str?
  {
    match Get(j, key)
    case Some(Str(s)) => Some(s)
    case _ => None
  }

  /** `value.get(key).and_then(|v| v.as_bool())`. */
  function GetBool(j: Json, key: string): (r: Option<bool>)
    ensures r.Some? <==> Get(j, key).Some? && Get(j, key).value.Bool?
  {
    match Get(j, key)
    case Some(Bool(b)) => Some(b)
    case _ => None
  }
}
