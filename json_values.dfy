/**
 * The JSON values that the save files hold after `json.load`: the program
 * writes them with `json.dump` and reads them back as Python dicts, lists,
 * strings, integers, booleans and None.
 */
module JsonValues {
  import opened Wrappers

  /**
   * Why rebuilding an object from a dict fails: indexing something that is
   * not a dict, a missing `data[key]`, a keyword argument the constructor
   * does not take, a required one that is absent, or a value of the wrong
   * JSON type.
   */
  datatype DecodeError =
    | NotADict
    | MissingKey(key: string)
    | UnexpectedArgument
    | MissingArgument(name: string)
    | IllTyped(name: string)

  datatype Json =
    | JNull
    | JBool(b: bool)
    | JInt(i: int)
    | JStr(s: string)
    | JArray(items: seq<Json>)
    | JObject(fields: map<string, Json>)

  /** A Python list of strings as `json.dump` writes it. */
  function StringArray(xs: seq<string>): Json
  {
    JArray(seq(|xs|, k requires 0 <= k < |xs| => JStr(xs[k])))
  }

  /** Reads back a list of strings; `None` when the value is not one. */
  function AsStrings(j: Json): (r: Option<seq<string>>)
    ensures r.Some? <==> j.JArray? && forall k :: 0 <= k < |j.items| ==> j.items[k].JStr?
    ensures r.Some? ==> |r.value| == |j.items| && forall k :: 0 <= k < |r.value| ==> j.items[k] == JStr(r.value[k])
  {
    if j.JArray? && forall k :: 0 <= k < |j.items| ==> j.items[k].JStr? then
      Some(seq(|j.items|, k requires 0 <= k < |j.items| => j.items[k].s))
    else
      None
  }

  lemma StringArrayRoundTrip(xs: seq<string>)
    ensures AsStrings(StringArray(xs)) == Some(xs)
  {
    var r := AsStrings(StringArray(xs));
    assert r.Some?;
    assert |r.value| == |xs|;
    assert forall k :: 0 <= k < |xs| ==> r.value[k] == xs[k];
    assert r.value == xs;
  }
}
