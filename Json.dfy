/** JSON values and an abstract serializer standing for `JSONSerialization`.
    The serializer's internals are not modelled: it is any pair of functions
    whose decoder inverts its encoder wherever the encoder succeeds. */
module Json {
  import opened Wrappers

  newtype byte = x: int | 0 <= x < 256
  type Bytes = seq<byte>

  /** A JSON value. Numbers are integers in this model. */
  datatype Json =
    | JNull
    | JBool(b: bool)
    | JNumber(n: int)
    | JString(s: string)
    | JArray(elems: seq<Json>)
    | JObject(fields: map<string, Json>)

  type JsonObject = map<string, Json>

  /** `JSONSerialization.data(withJSONObject:)` (which may fail) and
      `JSONSerialization.jsonObject(with:)` (which may fail). */
  datatype Serializer = Serializer(encode: Json -> Option<Bytes>, decode: Bytes -> Option<Json>)

  /** What the model assumes of the serializer: whatever it writes, it reads back. */
  ghost predicate RoundTrips(s: Serializer) {
    forall j :: s.encode(j).Some? ==> s.decode(s.encode(j).value) == Some(j)
  }

  /** The cast `as? [String: any Sendable]`: succeeds exactly on JSON objects. */
  function AsObject(j: Json): (r: Option<JsonObject>)
    ensures r.Some? <==> j.JObject?
    ensures r.Some? ==> j == JObject(r.value)
  {
    if j.JObject? then Some(j.fields) else None
  }

  /** The JSON value of a `[[String: Any?]]`: an array of objects. */
  function ObjectArray(l: seq<JsonObject>): (j: Json)
    ensures j.JArray? && |j.elems| == |l|
    ensures forall i :: 0 <= i < |l| ==> j.elems[i] == JObject(l[i])
  {
    JArray(seq(|l|, i requires 0 <= i < |l| => JObject(l[i])))
  }

  /** The cast `as? [[String: Any?]]`: succeeds exactly on arrays whose
      every element is an object. */
  function AsObjectArray(j: Json): (r: Option<seq<JsonObject>>)
    ensures r.Some? <==> (j.JArray? && forall i :: 0 <= i < |j.elems| ==> j.elems[i].JObject?)
    ensures r.Some? ==> j == ObjectArray(r.value)
  {
    if j.JArray? && forall i :: 0 <= i < |j.elems| ==> j.elems[i].JObject? then
      var l := seq(|j.elems|, i requires 0 <= i < |j.elems| => j.elems[i].fields);
      assert ObjectArray(l).elems == j.elems;
      Some(l)
    else
      None
  }

  /** Casting the JSON of an array of objects gives the array back. */
  lemma AsObjectArrayOfObjectArray(l: seq<JsonObject>)
    ensures AsObjectArray(ObjectArray(l)) == Some(l)
  {
    var r := AsObjectArray(ObjectArray(l));
    assert r.Some?;
    assert |r.value| == |l|;
    forall i | 0 <= i < |l| ensures r.value[i] == l[i] {
      assert JObject(r.value[i]) == ObjectArray(l).elems[i] == JObject(l[i]);
    }
    assert r.value == l;
  }
}
