/** `UserInfo` and the extraction of an ID token's payload in
    `src/easy_oauth/structs.py`.

    An ID token is a JWS compact serialisation (section 7.1 of RFC 7515):
    header, payload and signature, separated by dots, each base64url-encoded
    with its padding left out (section 2 of RFC 7515). Only the payload is
    read; the header and signature are never looked at. Base64 decoding and
    JSON parsing belong to libraries and are parameters here. */
module Structs {
  import opened Results
  import opened Text

  /** The user an ID token describes: email, subject and capabilities. */
  datatype UserInfo = UserInfo(email: string, sub: string, caps: set<nat>)

  type Bytes = seq<bv8>

  /** A decoded JSON value. */
  datatype Json =
    | JNull
    | JBool(b: bool)
    | JNumber(n: int)
    | JString(s: string)
    | JArray(items: seq<Json>)
    | JObject(fields: map<string, Json>)

  /** Why extraction failed: the wrong number of segments (the `assert` on
      the split), undecodable base64, undecodable JSON, or JSON that is not an
      object (the `isinstance` assertion). */
  datatype IdTokenError = SegmentCount(count: nat) | BadBase64 | BadJson | NotAnObject

  /** `"=" * (-len(segment) % 4)`: the fewest `=` characters that bring the
      segment to a multiple of four characters. */
  function Padding(segment: string): (pad: string)
    ensures |pad| < 4
    ensures (|segment| + |pad|) % 4 == 0
    ensures forall k :: 0 <= k < |pad| ==> pad[k] == '=' && (|segment| + k) % 4 != 0
  {
    seq((-|segment|) % 4, _ => '=')
  }

  /** `UserInfo.serieux_from_string` up to the JSON object it hands to the
      deserialiser: split on ".", insist on three segments, pad the middle
      one, base64url-decode it and parse it as JSON, insisting on an object. */
  function PayloadOf(idtoken: string, b64decode: string -> Option<Bytes>, loads: Bytes -> Option<Json>)
    : (r: Result<map<string, Json>, IdTokenError>)
    ensures |Split(idtoken, ".")| != 3 <==> r == Err(SegmentCount(|Split(idtoken, ".")|))
    ensures r.Ok? <==>
              && |Split(idtoken, ".")| == 3
              && var payload := Split(idtoken, ".")[1];
                 && b64decode(payload + Padding(payload)).Some?
                 && loads(b64decode(payload + Padding(payload)).value).Some?
                 && loads(b64decode(payload + Padding(payload)).value).value.JObject?
    ensures r.Ok? ==>
              var payload := Split(idtoken, ".")[1];
              loads(b64decode(payload + Padding(payload)).value) == Some(JObject(r.value))
  {
    var parts := Split(idtoken, ".");
    if |parts| != 3 then Err(SegmentCount(|parts|))
    else
      var padded := parts[1] + Padding(parts[1]);
      match b64decode(padded)
      case None => Err(BadBase64)
      case Some(bytes) =>
        match loads(bytes)
        case None => Err(BadJson)
        case Some(JObject(fields)) => Ok(fields)
        case Some(_) => Err(NotAnObject)
  }

  /** A token made of three dot-free segments splits into exactly those. */
  lemma SplitThree(header: string, payload: string, signature: string)
    requires !Occurs(header, ".") && !Occurs(payload, ".") && !Occurs(signature, ".")
    ensures Split(header + "." + payload + "." + signature, ".") == [header, payload, signature]
  {
    SplitFirst(payload, ".", signature);
    SplitWithoutSeparator(signature, ".");
    SplitFirst(header, ".", payload + "." + signature);
    assert header + "." + payload + "." + signature == header + "." + (payload + "." + signature);
  }

  /** Only the middle segment is decoded: tokens that share their payload
      segment yield the same result whatever their header and signature. */
  lemma HeaderAndSignatureIgnored(
    header: string, payload: string, signature: string,
    header': string, signature': string,
    b64decode: string -> Option<Bytes>, loads: Bytes -> Option<Json>)
    requires !Occurs(header, ".") && !Occurs(payload, ".") && !Occurs(signature, ".")
    requires !Occurs(header', ".") && !Occurs(signature', ".")
    ensures PayloadOf(header + "." + payload + "." + signature, b64decode, loads)
         == PayloadOf(header' + "." + payload + "." + signature', b64decode, loads)
  {
    SplitThree(header, payload, signature);
    SplitThree(header', payload, signature');
  }

  /** A token without any dot is refused before anything is decoded. */
  lemma {:induction false} DotlessTokenRefused(idtoken: string, b64decode: string -> Option<Bytes>, loads: Bytes -> Option<Json>)
    requires !Occurs(idtoken, ".")
    ensures PayloadOf(idtoken, b64decode, loads) == Err(SegmentCount(1))
  {
    SplitWithoutSeparator(idtoken, ".");
  }
}
