/**
 * The service envelope `ResponseModel`: a required `Message`, a leniently
 * decoded optional `StatusCode` and a required `Data`, under the JSON keys
 * declared by its `CodingKeys`.
 */
module Envelopes {
  import opened Wrappers
  import opened JsonValues

  const DataKey: string := "Data"
  const StatusCodeKey: string := "StatusCode"
  const MessageKey: string := "Message"

  /** The keys `CodingKeys` declares; no other key is read or written. */
  const CodingKeys: set<string> := {DataKey, StatusCodeKey, MessageKey}

  datatype Envelope = Envelope(message: string, statusCode: Option<int>, data: Bytes)

  /** An envelope whose status code fits a Swift `Int`, as every decoded one does. */
  predicate Representable(e: Envelope) {
    e.statusCode.Some? ==> InIntRange(e.statusCode.value)
  }

  /** Why a decode threw, in the terms of Swift's `DecodingError`. */
  datatype DecodeFailure =
    | InvalidJson              // the bytes are not JSON
    | NotAnObject              // no keyed container: the top level is not an object
    | KeyNotFound(key: string)
    | ValueNotFound(key: string)
    | TypeMismatch(key: string)
    | UndecodableData(key: string)
    | UndecodablePayload       // the caller's response type rejected the payload bytes

  /**
   * The foreign parts of JSON handling: turning bytes into a `Json` and back,
   * and the default (base64) strategy for `Data` in both directions.
   */
  datatype JsonCodec = JsonCodec(
    parse: Bytes -> Option<Json>,
    serialize: Json -> Bytes,
    decodeData: Json -> Option<Bytes>,
    encodeData: Bytes -> Json)

  /** The `Data` strategy reads back every byte string it writes. */
  ghost predicate DataRoundTrips(c: JsonCodec) {
    forall b :: c.decodeData(c.encodeData(b)) == Some(b)
  }

  /** `container.decode(String.self, forKey: .message)`: required, and must be a string. */
  function DecodeMessage(fields: map<string, Json>): (r: Result<string, DecodeFailure>)
    ensures r.Success? <==> MessageKey in fields && fields[MessageKey].JString?
    ensures r.Success? ==> fields[MessageKey] == JString(r.value)
    ensures MessageKey !in fields ==> r == Failure(KeyNotFound(MessageKey))
  {
    if MessageKey !in fields then Failure(KeyNotFound(MessageKey))
    else match fields[MessageKey]
      case JString(s) => Success(s)
      case JNull => Failure(ValueNotFound(MessageKey))
      case _ => Failure(TypeMismatch(MessageKey))
  }

  /**
   * `try? container.decodeIfPresent(Int.self, forKey: .statusCode)`: a missing
   * key or `null` gives nil, and so does a value that is not an `Int`, since
   * `try?` turns the error into nil. It never fails.
   */
  function DecodeStatusCode(fields: map<string, Json>): (r: Option<int>)
    ensures r.Some? ==> StatusCodeKey in fields && fields[StatusCodeKey] == EncodeInt(r.value)
    ensures r.Some? ==> InIntRange(r.value)
    ensures forall n :: InIntRange(n) && StatusCodeKey in fields && fields[StatusCodeKey] == EncodeInt(n) ==> r == Some(n)
  {
    if StatusCodeKey !in fields || fields[StatusCodeKey] == JNull then None
    else
      var r := DecodeInt(fields[StatusCodeKey]);
      assert forall n :: InIntRange(n) && fields[StatusCodeKey] == EncodeInt(n) ==> r == Some(n) by {
        forall n | InIntRange(n) && fields[StatusCodeKey] == EncodeInt(n) {
          IntRoundTrip(n);
        }
      }
      r
  }

  /** `container.decode(Data.self, forKey: .data)`: required, read with the `Data` strategy. */
  function DecodeData(fields: map<string, Json>, c: JsonCodec): (r: Result<Bytes, DecodeFailure>)
    ensures r.Success? <==> DataKey in fields && c.decodeData(fields[DataKey]).Some?
    ensures r.Success? ==> c.decodeData(fields[DataKey]) == Some(r.value)
  {
    if DataKey !in fields then Failure(KeyNotFound(DataKey))
    else match c.decodeData(fields[DataKey])
      case Some(b) => Success(b)
      case None => Failure(UndecodableData(DataKey))
  }

  /**
   * `ResponseModel.init(from:)` once a keyed container exists: the message is
   * read first, then the status code, then the data; the first failure wins.
   */
  function DecodeFields(fields: map<string, Json>, c: JsonCodec): (r: Result<Envelope, DecodeFailure>)
    ensures r.Success? <==> DecodeMessage(fields).Success? && DecodeData(fields, c).Success?
    ensures r.Success? ==>
      && r.value.message == DecodeMessage(fields).value
      && r.value.statusCode == DecodeStatusCode(fields)
      && r.value.data == DecodeData(fields, c).value
    ensures r.Success? ==> Representable(r.value)
    ensures DecodeMessage(fields).Failure? ==> r.Failure? && r.error == DecodeMessage(fields).error
  {
    match DecodeMessage(fields)
    case Failure(e) => Failure(e)
    case Success(message) =>
      var statusCode := DecodeStatusCode(fields);
      match DecodeData(fields, c)
      case Failure(e) => Failure(e)
      case Success(data) => Success(Envelope(message, statusCode, data))
  }

  /** `JSONDecoder().decode(ResponseModel.self, from: body)`. */
  function DecodeEnvelope(body: Bytes, c: JsonCodec): (r: Result<Envelope, DecodeFailure>)
    ensures c.parse(body).None? ==> r == Failure(InvalidJson)
    ensures r.Success? ==> c.parse(body).Some? && c.parse(body).value.JObject?
    ensures c.parse(body).Some? && c.parse(body).value.JObject? ==>
      r == DecodeFields(c.parse(body).value.fields, c)
    ensures c.parse(body).Some? && !c.parse(body).value.JObject? ==> r == Failure(NotAnObject)
    ensures r.Success? ==> Representable(r.value)
  {
    match c.parse(body)
    case None => Failure(InvalidJson)
    case Some(JObject(fields)) => DecodeFields(fields, c)
    case Some(_) => Failure(NotAnObject)
  }

  /**
   * The synthesised `Encodable` conformance: the same keys, with a nil status
   * code left out (`encodeIfPresent`).
   */
  function EncodeFields(e: Envelope, c: JsonCodec): (fields: map<string, Json>)
    ensures fields.Keys <= CodingKeys
    ensures MessageKey in fields && DataKey in fields
    ensures StatusCodeKey in fields <==> e.statusCode.Some?
    ensures fields[MessageKey] == JString(e.message)
    ensures fields[DataKey] == c.encodeData(e.data)
    ensures e.statusCode.Some? ==> fields[StatusCodeKey] == EncodeInt(e.statusCode.value)
  {
    var required := map[MessageKey := JString(e.message), DataKey := c.encodeData(e.data)];
    match e.statusCode
    case None => required
    case Some(code) => required[StatusCodeKey := EncodeInt(code)]
  }

  function EncodeEnvelope(e: Envelope, c: JsonCodec): Bytes {
    c.serialize(JObject(EncodeFields(e, c)))
  }

  /** Decoding the fields of an encoded envelope gives the envelope back. */
  lemma FieldsRoundTrip(e: Envelope, c: JsonCodec)
    requires DataRoundTrips(c)
    requires Representable(e)
    ensures DecodeFields(EncodeFields(e, c), c) == Success(e)
  {
    var fields := EncodeFields(e, c);
    assert fields[MessageKey] == JString(e.message);
    assert fields[DataKey] == c.encodeData(e.data);
    assert c.decodeData(c.encodeData(e.data)) == Some(e.data);
    match e.statusCode
    case None =>
    case Some(code) =>
      assert fields[StatusCodeKey] == EncodeInt(code);
      IntRoundTrip(code);
  }

  /**
   * The full round trip through bytes, `decode(encode(e)) == e`, whenever the
   * JSON writer's output for this envelope parses back to the object written.
   */
  lemma EnvelopeRoundTrip(e: Envelope, c: JsonCodec)
    requires DataRoundTrips(c)
    requires Representable(e)
    requires c.parse(EncodeEnvelope(e, c)) == Some(JObject(EncodeFields(e, c)))
    ensures DecodeEnvelope(EncodeEnvelope(e, c), c) == Success(e)
  {
    FieldsRoundTrip(e, c);
  }

  /** Keys outside `CodingKeys` are never looked at. */
  lemma UnknownKeysIgnored(fields: map<string, Json>, k: string, v: Json, c: JsonCodec)
    requires k !in CodingKeys
    ensures DecodeFields(fields[k := v], c) == DecodeFields(fields, c)
  {
    var f' := fields[k := v];
    assert k != MessageKey && k != StatusCodeKey && k != DataKey;
    assert DecodeMessage(f') == DecodeMessage(fields);
    assert DecodeStatusCode(f') == DecodeStatusCode(fields);
    assert DecodeData(f', c) == DecodeData(fields, c);
  }

  /**
   * The status code never decides whether decoding succeeds: whatever sits
   * under `StatusCode`, or if nothing does, the outcome and the message and
   * data are the same.
   */
  lemma StatusCodeIsLenient(fields: map<string, Json>, v: Json, c: JsonCodec)
    ensures DecodeFields(fields[StatusCodeKey := v], c).Success? <==> DecodeFields(fields, c).Success?
    ensures DecodeFields(fields - {StatusCodeKey}, c).Success? <==> DecodeFields(fields, c).Success?
    ensures DecodeFields(fields[StatusCodeKey := v], c).Success? ==>
      && DecodeFields(fields[StatusCodeKey := v], c).value.message == DecodeFields(fields, c).value.message
      && DecodeFields(fields[StatusCodeKey := v], c).value.data == DecodeFields(fields, c).value.data
    ensures DecodeFields(fields - {StatusCodeKey}, c).Success? ==>
      && DecodeFields(fields - {StatusCodeKey}, c).value.message == DecodeFields(fields, c).value.message
      && DecodeFields(fields - {StatusCodeKey}, c).value.data == DecodeFields(fields, c).value.data
      && DecodeFields(fields - {StatusCodeKey}, c).value.statusCode == None
  {
    var f1 := fields[StatusCodeKey := v];
    var f2 := fields - {StatusCodeKey};
    assert StatusCodeKey != MessageKey && StatusCodeKey != DataKey;
    assert DecodeMessage(f1) == DecodeMessage(fields);
    assert DecodeData(f1, c) == DecodeData(fields, c);
    assert DecodeMessage(f2) == DecodeMessage(fields);
    assert DecodeData(f2, c) == DecodeData(fields, c);
  }
}
