/** The wire form of an outbound request body, and exactly when it round-trips. */
module RequestCodec {
  import opened Wrappers
  import opened JsonValue
  import opened BindingCodec

  datatype FormPart = TextPart(name: string, value: string) | FilePart(name: string, path: string, filename: string)

  datatype RequestBody = JsonBody(value: Json) | Multipart(parts: seq<FormPart>)

  function EncodePart(part: FormPart): Json {
    match part
    case TextPart(name, value) =>
      Obj([Field("kind", Str("text")), Field("name", Str(name)), Field("value", Str(value))])
    case FilePart(name, path, filename) =>
      Obj([Field("kind", Str("file")), Field("name", Str(name)),
           Field("path", Str(path)), Field("filename", Str(filename))])
  }

  function EncodeParts(parts: seq<FormPart>): seq<Json> {
    if parts == [] then [] else [EncodePart(parts[0])] + EncodeParts(parts[1..])
  }

  /** A JSON body is emitted bare; only multipart gets an envelope. */
  function EncodeBody(body: RequestBody): Json {
    match body
    case JsonBody(value) => value
    case Multipart(parts) => Obj([Field("kind", Str("multipart")), Field("value", Arr(EncodeParts(parts)))])
  }

  function DecodePart(json: Json): Option<FormPart> {
    if !json.Obj? then None else
    var kind, name := StringMember(json.fields, "kind"), StringMember(json.fields, "name");
    if kind == Some("text") then
      var value := StringMember(json.fields, "value");
      if name.Some? && value.Some? then Some(TextPart(name.value, value.value)) else None
    else if kind == Some("file") then
      var path, filename := StringMember(json.fields, "path"), StringMember(json.fields, "filename");
      if name.Some? && path.Some? && filename.Some? then Some(FilePart(name.value, path.value, filename.value))
      else None
    else None
  }

  function DecodeParts(items: seq<Json>): Option<seq<FormPart>> {
    if items == [] then Some([]) else
    var first, rest := DecodePart(items[0]), DecodeParts(items[1..]);
    if first.Some? && rest.Some? then Some([first.value] + rest.value) else None
  }

  /** The heuristic of the decoder: an object whose top-level `kind` is the string `multipart`. */
  predicate LooksMultipart(json: Json) {
    json.Obj? && StringMember(json.fields, "kind") == Some("multipart")
  }

  function DecodeBody(json: Json): Option<RequestBody> {
    if !LooksMultipart(json) then Some(JsonBody(json)) else
    match Get(json.fields, "value")
    case Some(Arr(items)) =>
      var parts := DecodeParts(items);
      if parts.Some? then Some(Multipart(parts.value)) else None
    case _ => None
  }

  lemma PartRoundTrip(part: FormPart)
    ensures DecodePart(EncodePart(part)) == Some(part)
  {
    var fields := EncodePart(part).fields;
    assert "kind"[0] == 'k' && "name"[0] == 'n' && "value"[0] == 'v' && "path"[0] == 'p' && "filename"[0] == 'f';
    assert "text"[0] == 't' && "file"[0] == 'f';
    if part.TextPart? {
      forall name {:trigger Get(fields, name)} | name in {"kind", "name", "value"}
        ensures Get(fields, name) == if name == "kind" then Some(fields[0].value)
                                     else if name == "name" then Some(fields[1].value) else Some(fields[2].value)
      {
        GetOfThree(fields[0], fields[1], fields[2], name);
        GetOfTwo(fields[1], fields[2], name);
      }
    } else {
      forall name {:trigger Get(fields, name)} | name in {"kind", "name", "path", "filename"}
        ensures Get(fields, name) == if name == "kind" then Some(fields[0].value)
                                     else if name == "name" then Some(fields[1].value)
                                     else if name == "path" then Some(fields[2].value) else Some(fields[3].value)
      {
        assert fields == [fields[0]] + [fields[1], fields[2], fields[3]];
        GetFirst(fields[0], [fields[1], fields[2], fields[3]], name);
        GetOfThree(fields[1], fields[2], fields[3], name);
        GetOfTwo(fields[2], fields[3], name);
      }
    }
  }

  lemma {:induction false} PartsRoundTrip(parts: seq<FormPart>)
    ensures DecodeParts(EncodeParts(parts)) == Some(parts)
  {
    if parts != [] {
      PartRoundTrip(parts[0]);
      PartsRoundTrip(parts[1..]);
      assert EncodeParts(parts)[1..] == EncodeParts(parts[1..]);
      assert parts == [parts[0]] + parts[1..];
    }
  }

  lemma MultipartEnvelope(parts: seq<FormPart>)
    ensures LooksMultipart(EncodeBody(Multipart(parts)))
    ensures DecodeBody(EncodeBody(Multipart(parts))) == Some(Multipart(parts))
  {
    var fields := EncodeBody(Multipart(parts)).fields;
    assert "kind"[0] != "value"[0];
    GetOfTwo(fields[0], fields[1], "kind");
    GetOfTwo(fields[0], fields[1], "value");
    PartsRoundTrip(parts);
  }

  /** A body round-trips if and only if it is not a JSON object with a top-level `kind` of
      `multipart`; so every multipart list does. */
  lemma BodyRoundTripsExactly(body: RequestBody)
    ensures DecodeBody(EncodeBody(body)) == Some(body) <==> !(body.JsonBody? && LooksMultipart(body.value))
  {
    if body.Multipart? {
      MultipartEnvelope(body.parts);
    }
  }

  /** Decoding fails only on a look-alike whose parts are not all well-formed form parts. */
  lemma DecodingFailsExactly(json: Json)
    ensures DecodeBody(json).None? <==>
            && LooksMultipart(json)
            && !exists parts :: PartsOf(json, parts)
  {
    if LooksMultipart(json) && Get(json.fields, "value").Some? && Get(json.fields, "value").value.Arr? {
      var items := Get(json.fields, "value").value.items;
      if DecodeParts(items).Some? {
        DecodePartsExactly(items, DecodeParts(items).value);
        assert PartsOf(json, DecodeParts(items).value);
      } else {
        forall parts
          ensures !PartsOf(json, parts)
        {
          if PartsOf(json, parts) {
            DecodePartsExactly(items, parts);
          }
        }
      }
    }
  }

  /** The `value` member is an array whose items are these parts, position by position. */
  predicate PartsOf(json: Json, parts: seq<FormPart>) {
    && json.Obj?
    && Get(json.fields, "value").Some?
    && Get(json.fields, "value").value.Arr?
    && var items := Get(json.fields, "value").value.items;
       |items| == |parts| && forall i :: 0 <= i < |parts| ==> DecodePart(items[i]) == Some(parts[i])
  }

  lemma {:induction false} DecodePartsExactly(items: seq<Json>, parts: seq<FormPart>)
    ensures DecodeParts(items) == Some(parts) <==>
            |items| == |parts| && forall i :: 0 <= i < |parts| ==> DecodePart(items[i]) == Some(parts[i])
  {
    if items != [] && parts != [] {
      DecodePartsExactly(items[1..], parts[1..]);
      assert parts == [parts[0]] + parts[1..];
      assert forall i :: 0 < i < |parts| && i < |items| ==>
               items[i] == items[1..][i - 1] && parts[i] == parts[1..][i - 1];
      assert forall i :: 0 <= i < |parts[1..]| && i < |items[1..]| ==>
               items[1..][i] == items[i + 1] && parts[1..][i] == parts[i + 1];
    }
  }
}
