/** JSON request bodies as the Express handlers receive them from the body parser. */
module Json {
  import opened Wrappers

  /** A JSON value. Arrays and objects are kept together as `Composite`: no rule of the model looks inside them. */
  datatype Value = Null | Bool(b: bool) | Num(n: real) | Str(s: string) | Composite

  /** A JSON object body: its members in the order they were written. */
  type Body = seq<(string, Value)>

  /** `body[key]`; `None` is `undefined`. A repeated key keeps its last value, as JSON.parse does. */
  function Field(body: Body, key: string): (r: Option<Value>)
    ensures r.Some? <==> exists i :: 0 <= i < |body| && body[i].0 == key
    ensures r.Some? ==> exists i :: 0 <= i < |body| && body[i] == (key, r.value) && forall j :: i < j < |body| ==> body[j].0 != key
    decreases |body|
  {
    if |body| == 0 then None
    else if body[|body| - 1].0 == key then Some(body[|body| - 1].1)
    else Field(body[..|body| - 1], key)
  }

  /** The first member, in written order, whose key is not in `keys`. */
  function FirstUnknown(body: Body, keys: set<string>): (r: Option<string>)
    ensures r.None? <==> forall i :: 0 <= i < |body| ==> body[i].0 in keys
    ensures r.Some? ==> r.value !in keys
    ensures r.Some? ==> exists i :: 0 <= i < |body| && body[i].0 == r.value && forall j :: 0 <= j < i ==> body[j].0 in keys
    decreases |body|
  {
    if |body| == 0 then None
    else if body[0].0 !in keys then Some(body[0].0)
    else
      var r := FirstUnknown(body[1..], keys);
      if r.Some? then
        var i :| 0 <= i < |body[1..]| && body[1..][i].0 == r.value && forall j :: 0 <= j < i ==> body[1..][j].0 in keys;
        assert body[i + 1].0 == r.value && forall j :: 0 <= j < i + 1 ==> body[j].0 in keys;
        r
      else r
  }
}
