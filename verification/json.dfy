/** The JSON values the registry writes with `encoding/json`, as a tree.
    Objects are maps from key to value: the order in which Go writes keys
    (struct field order, sorted map keys) is not part of the model. */
module Json {
  import opened Wrappers

  datatype Json =
    | Null
    | Str(str: string)
    | Arr(items: seq<Json>)
    | Obj(fields: map<string, Json>)

  /** The string stored under `key` of an object. */
  function StrField(j: Json, key: string): Option<string> {
    if j.Obj? && key in j.fields && j.fields[key].Str? then Some(j.fields[key].str) else None
  }

  /** How Go encodes a slice: `null` for a nil slice, an array otherwise.
      A slice built only by `append` is nil exactly when it is empty. */
  function ListJson<T>(xs: seq<T>, encode: T -> Json): (j: Json)
    ensures j.Null? <==> |xs| == 0
    ensures j.Arr? ==> |j.items| == |xs| && forall i :: 0 <= i < |xs| ==> j.items[i] == encode(xs[i])
  {
    if |xs| == 0 then Null else Arr(seq(|xs|, i requires 0 <= i < |xs| => encode(xs[i])))
  }

  /** Reading a slice back: `null` is the empty slice. */
  function DecodeList<T>(j: Json, decode: Json -> Option<T>): Option<seq<T>> {
    match j
    case Null => Some([])
    case Arr(items) =>
      if forall i :: 0 <= i < |items| ==> decode(items[i]).Some? then
        Some(seq(|items|, i requires 0 <= i < |items| => decode(items[i]).value))
      else
        None
    case _ => None
  }

  lemma ListRoundTrip<T>(xs: seq<T>, encode: T -> Json, decode: Json -> Option<T>)
    requires forall i :: 0 <= i < |xs| ==> decode(encode(xs[i])) == Some(xs[i])
    ensures DecodeList(ListJson(xs, encode), decode) == Some(xs)
  {
    if |xs| > 0 {
      var items := ListJson(xs, encode).items;
      assert forall i :: 0 <= i < |items| ==> decode(items[i]) == Some(xs[i]);
      assert DecodeList(ListJson(xs, encode), decode).value == xs;
    }
  }

  /** Go's `map[string]string` as a JSON object of strings. */
  function StringMapJson(m: map<string, string>): (j: Json)
    ensures j.Obj? && j.fields.Keys == m.Keys
  {
    Obj(map k | k in m :: Str(m[k]))
  }

  function DecodeStringMap(j: Json): Option<map<string, string>> {
    if j.Obj? && forall k :: k in j.fields ==> j.fields[k].Str? then
      Some(map k | k in j.fields :: j.fields[k].str)
    else
      None
  }

  lemma StringMapRoundTrip(m: map<string, string>)
    ensures DecodeStringMap(StringMapJson(m)) == Some(m)
  {
    var j := StringMapJson(m);
    assert forall k :: k in j.fields ==> j.fields[k] == Str(m[k]);
    var back := map k | k in j.fields :: j.fields[k].str;
    assert back.Keys == m.Keys;
    assert forall k :: k in m ==> back[k] == m[k];
    assert back == m;
  }
}
