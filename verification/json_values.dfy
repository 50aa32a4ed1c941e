/**
 * The JSON values a decoder sees once the body bytes have been parsed, and the
 * two primitive decodings the envelope relies on: `Int` and `String`.
 * Parsing bytes into a `Json`, serialising it back, base64 `Data` and the
 * caller's payload type are foreign code and enter the model as parameters.
 */
module JsonValues {
  import opened Wrappers

  newtype byte = x: int | 0 <= x < 256

  type Bytes = seq<byte>

  /** A parsed JSON value. Numbers are held as exact `real` values. */
  datatype Json =
    | JNull
    | JBool(b: bool)
    | JNumber(n: real)
    | JString(s: string)
    | JArray(items: seq<Json>)
    | JObject(fields: map<string, Json>)

  /** Swift's `Int` is 64 bits wide on the platforms the library targets. */
  const IntMin: int := -0x8000_0000_0000_0000
  const IntMax: int := 0x7FFF_FFFF_FFFF_FFFF

  predicate InIntRange(n: int) {
    IntMin <= n <= IntMax
  }

  /** How an `Int` is written as JSON. */
  function EncodeInt(n: int): Json {
    JNumber(n as real)
  }

  /**
   * Decoding an `Int` accepts a number only when it is exactly representable
   * as an `Int`: integral (`1.0` is accepted) and inside the 64-bit range.
   */
  function DecodeInt(j: Json): (r: Option<int>)
    ensures r.Some? ==> j == EncodeInt(r.value) && InIntRange(r.value)
  {
    match j
    case JNumber(n) =>
      if n == n.Floor as real && InIntRange(n.Floor) then Some(n.Floor) else None
    case _ => None
  }

  /** Every representable `Int` survives being written and read back. */
  lemma IntRoundTrip(n: int)
    requires InIntRange(n)
    ensures DecodeInt(EncodeInt(n)) == Some(n)
  {
    assert (n as real).Floor == n;
  }

  /** Decoding a `String` accepts exactly the JSON strings. */
  function DecodeString(j: Json): (r: Option<string>)
    ensures r.Some? <==> j.JString?
    ensures r.Some? ==> j == JString(r.value)
  {
    if j.JString? then Some(j.s) else None
  }
}
