/**
 * JSON documents and the codec the translator calls (`json.loads` and
 * `json.dumps`). The codec's text format is not modelled: it is a pair of
 * function values supplied by the caller, and the lemmas that need the usual
 * decode-after-encode law take it as a hypothesis. Python's decoder keeps
 * only the last of repeated object keys, so that law is stated for documents
 * whose objects have distinct keys, which are all the decoder produces.
 */
module Json {
  import opened Wrappers

  datatype Json =
    | JNull
    | JBool(b: bool)
    | JNumber(n: int)
    | JString(s: string)
    | JArray(items: seq<Json>)
    | JObject(members: seq<(string, Json)>)

  /** `encode` is `json.dumps`; `decode` is `json.loads`, `None` where it raises. */
  datatype Codec = Codec(encode: Json -> string, decode: string -> Option<Json>)

  /** Every object, at any depth, has distinct keys (as a Python `dict` does). */
  ghost predicate WellFormed(j: Json) {
    match j
    case JArray(items) => forall i :: 0 <= i < |items| ==> WellFormed(items[i])
    case JObject(members) =>
      && (forall i, k :: 0 <= i < k < |members| ==> members[i].0 != members[k].0)
      && (forall i :: 0 <= i < |members| ==> WellFormed(members[i].1))
    case _ => true
  }

  /**
   * Decoding what was encoded gives a well-formed document back, and
   * whatever decodes is well-formed.
   */
  ghost predicate RoundTrips(codec: Codec) {
    && (forall j :: WellFormed(j) ==> codec.decode(codec.encode(j)) == Some(j))
    && (forall t :: codec.decode(t).Some? ==> WellFormed(codec.decode(t).value))
  }

  /** `json.dumps(json.loads(text))`, for text that parses. */
  function Canonical(codec: Codec, text: string): (r: string)
    requires codec.decode(text).Some?
  {
    codec.encode(codec.decode(text).value)
  }

  /**
   * Re-serialising keeps the document (the emitted text parses to what the
   * input text parsed to) and is idempotent.
   */
  lemma CanonicalKeepsDocument(codec: Codec, text: string)
    requires RoundTrips(codec)
    requires codec.decode(text).Some?
    ensures codec.decode(Canonical(codec, text)) == codec.decode(text)
    ensures Canonical(codec, Canonical(codec, text)) == Canonical(codec, text)
  {
    var j := codec.decode(text).value;
    assert codec.decode(codec.encode(j)) == Some(j);
  }
}
