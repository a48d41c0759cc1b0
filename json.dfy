/**
 * The handshake message: a JSON object (RFC 8259) followed by one NUL byte.
 *
 * The JSON library itself is not modelled. A `Codec` bundles the two library
 * calls the proxies make, `json.loads` (parse) and `json.dumps` (serialize), and
 * `RoundTrips` states the one fact the proxies rely on: parsing what was
 * serialized gives the same object back. Serialization may reorder keys or
 * change whitespace, so preservation is stated on objects, never on bytes.
 */
module Json {
  import opened Wire

  /** A JSON value as far as the proxies look at it. `Nested` stands for arrays,
      objects and floats; a float port is not modelled (see README, "Left out"). */
  datatype Value = Number(n: int) | Boolean(b: bool) | Text(s: string) | Null | Nested(raw: string)

  type Object = map<string, Value>

  /** `parse` yields None both for malformed text and for a top level that is not
      an object: either way the source's `json.loads(...)[key]` raises. */
  datatype Codec = Codec(parse: Bytes -> Option<Object>, serialize: Object -> Bytes)

  ghost predicate RoundTrips(codec: Codec) {
    forall obj: Object :: codec.parse(codec.serialize(obj)) == Some(obj)
  }

  /** The message terminator. */
  const Nul: Byte := 0

  /** `data[:-1]`: the frame minus its last byte, whatever that byte is; Python
      gives the empty string for an empty frame. */
  function Body(frame: Bytes): (body: Bytes)
    ensures |frame| > 0 ==> frame == body + [frame[|frame| - 1]]
    ensures |frame| == 0 ==> body == []
  {
    if |frame| == 0 then [] else frame[..|frame| - 1]
  }

  /** `json.dumps(obj) + '\x00'`. */
  function Frame(body: Bytes): (frame: Bytes)
    ensures |frame| == |body| + 1 && frame[|body|] == Nul
  {
    body + [Nul]
  }

  /** Stripping the final byte of an emitted frame yields the body, and an emitted
      frame is recognised by its terminator. */
  lemma BodyOfFrame(body: Bytes)
    ensures Body(Frame(body)) == body
  {
  }

  lemma FrameOfBody(frame: Bytes)
    requires |frame| > 0 && frame[|frame| - 1] == Nul
    ensures Frame(Body(frame)) == frame
  {
  }

  /** The object a received frame carries, if it parses. */
  function Decode(codec: Codec, frame: Bytes): Option<Object> {
    codec.parse(Body(frame))
  }

  /** The frame the proxy emits for an object. */
  function Encode(codec: Codec, obj: Object): Bytes {
    Frame(codec.serialize(obj))
  }

  /** Decoding an emitted frame recovers the object exactly. */
  lemma DecodeEncode(codec: Codec, obj: Object)
    requires RoundTrips(codec)
    ensures Decode(codec, Encode(codec, obj)) == Some(obj)
  {
    BodyOfFrame(codec.serialize(obj));
  }

  /** The integer a port value denotes under Python arithmetic: an int, or a bool
      (a subclass of int: True + 1 == 2, False == 0). Anything else makes `+ 1`,
      `- 1` or a socket bind raise. */
  function AsInt(v: Value): (r: Option<int>)
    ensures r.Some? <==> v.Number? || v.Boolean?
    ensures v.Number? ==> r == Some(v.n)
    ensures v.Boolean? ==> r == Some(if v.b then 1 else 0)
  {
    match v
    case Number(n) => Some(n)
    case Boolean(b) => Some(if b then 1 else 0)
    case _ => None
  }

  /** `json.loads(frame[:-1])[key]`, with the two ways it raises. */
  function Lookup(codec: Codec, frame: Bytes, key: string): (r: Result<Value>)
    ensures r.Ok? <==> Decode(codec, frame).Some? && key in Decode(codec, frame).value
    ensures r.Ok? ==> r.value == Decode(codec, frame).value[key]
    ensures Decode(codec, frame).None? ==> r == Err(MalformedJson)
    ensures Decode(codec, frame).Some? && key !in Decode(codec, frame).value ==> r == Err(MissingKey(key))
  {
    match Decode(codec, frame)
    case None => Err(MalformedJson)
    case Some(obj) => if key in obj then Ok(obj[key]) else Err(MissingKey(key))
  }
}
