/** The parsed request payload and the collaborators that turn bytes into a
    payload and back. Parsing and serialisation are opaque functions here:
    their byte-level behaviour belongs to the JSON library. */
module Payload {
  import opened Wrappers
  import opened Http

  /** A parsed JSON value, distinguished only by shape. */
  datatype Json =
    | JObject(members: seq<(string, Json)>)
    | JArray(items: seq<Json>)
    | JScalar(literal: string)
    | JNull

  /** The payload collaborators: the payload builder's parser (which may
      reject the body), the serialiser, and the extension that stamps a
      resource id onto an object's members. */
  datatype Codec = Codec(
    parse: Bytes -> Result<Json, string>,
    serialize: Json -> Bytes,
    setResourceId: (seq<(string, Json)>, string) -> seq<(string, Json)>)

  /** Serialising and re-parsing gives back the same value. */
  ghost predicate Lossless(codec: Codec) {
    forall v :: codec.parse(codec.serialize(v)) == Success(v)
  }

  /** Stamps `id` onto an object-shaped value; every other shape is returned as is. */
  function SetIfObject(v: Json, id: string, setResourceId: (seq<(string, Json)>, string) -> seq<(string, Json)>): (r: Json)
    ensures r.JObject? <==> v.JObject?
    ensures !v.JObject? ==> r == v
    ensures v.JObject? ==> r.members == setResourceId(v.members, id)
  {
    match v
    case JObject(members) => JObject(setResourceId(members, id))
    case _ => v
  }

  predicate IsLowerHexDigit(c: char) {
    '0' <= c <= '9' || 'a' <= c <= 'f'
  }

  /** The "N" text form of a GUID: 32 lower-case hex digits and no separators. */
  predicate IsGuidN(s: string) {
    |s| == 32 && forall i :: 0 <= i < |s| ==> IsLowerHexDigit(s[i])
  }

}
