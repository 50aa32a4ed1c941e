/**
 * The service-level error-code table `EZAPIError`: a raw-value enum whose
 * only case is `error500`, with a human-readable message per case.
 */
module ApiErrors {
  import opened Wrappers

  datatype EzApiError = Error500

  /** The raw value each case is declared with. */
  function RawValue(e: EzApiError): int {
    match e
    case Error500 => 500
  }

  /** The failable initialiser `EZAPIError(rawValue:)`. */
  function FromRawValue(n: int): (r: Option<EzApiError>)
    ensures r.Some? ==> RawValue(r.value) == n
    ensures r.None? ==> forall e: EzApiError :: RawValue(e) != n
  {
    if n == 500 then Some(Error500) else None
  }

  /** The table is exactly the declared raw values: looking one up gives its case back. */
  lemma RawValueRoundTrip(e: EzApiError)
    ensures FromRawValue(RawValue(e)) == Some(e)
  {
  }

  /** Only 500 is in the table. */
  lemma OnlyFiveHundredIsKnown(n: int)
    ensures FromRawValue(n).Some? <==> n == 500
    ensures n == 500 ==> FromRawValue(n) == Some(Error500)
  {
  }

  /** The `message` property; every case has one. */
  function Message(e: EzApiError): (m: Option<string>)
    ensures m.Some? && |m.value| > 0
  {
    match e
    case Error500 => Some("Internal Server Error")
  }

  lemma Error500Message()
    ensures Message(Error500) == Some("Internal Server Error")
  {
  }
}
