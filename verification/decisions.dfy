/**
 * The `Decision` protocol and its four built-in conformers. A decision is a
 * pure predicate `shouldApply` plus an `apply` that yields exactly one
 * `DecisionAction`; the completion callback is flattened into a return value.
 */
module Decisions {
  import opened Wrappers
  import opened JsonValues
  import opened Envelopes
  import opened ApiErrors

  /** The parts of `Moya.Response` the pipeline reads. */
  datatype Response = Response(statusCode: int, data: Bytes)

  datatype EzResponseError =
    | DataIsNil
    | NonHttpResponse
    | TokenError
    | ResultModelDataIsNil
    | UnknownStatusCode
    | ApiError(error: EzApiError, resultModel: Option<Envelope>)
    | UnknownError(cause: DecodeFailure, response: Option<Response>)

  /** An opaque failure of the HTTP client (connectivity, DNS, timeout, ...). */
  datatype TransportError = TransportError(description: string)

  /** The Swift `Error` values that travel through the pipeline. */
  datatype PipelineError =
    | ServiceError(code: int)          // ServiceResponseStatusCodeDecision.ServiceError.error(code:)
    | Ez(error: EzResponseError)
    | Transport(failure: TransportError)

  /**
   * The four built-in decisions, plus a caller-written conformer of the
   * protocol, identified by a tag and given meaning by the `Context`.
   */
  datatype Decision =
    | ServiceResponseStatusCode
    | InitialParseResult
    | ResponseStatusCode
    | ParseResult
    | Custom(tag: nat)
  {
    predicate IsBuiltIn() {
      !Custom?
    }
  }

  /** `DecisionAction<T>`, with `V` standing for `T.ResponseType`. */
  datatype Action<V> =
    | ContinueWith(response: Response, resultModel: Option<Envelope>)
    | RestartWith(decisions: seq<Decision>)
    | Errored(error: PipelineError)
    | Done(value: V)

  /**
   * Everything the decisions use that lies outside this code, passed where
   * the source passes the request: the JSON machinery, the decoder of the
   * caller's response type, and the behaviour of caller-written decisions.
   */
  datatype Context<V> = Context(
    codec: JsonCodec,
    decodePayload: Bytes -> Option<V>,
    customApplies: (nat, Response, Option<Envelope>) -> bool,
    customApply: (nat, Response, Option<Envelope>) -> Action<V>)

  /** True when the transport status code is a success code. */
  predicate Is2xx(code: int) {
    200 <= code < 300
  }

  // ServiceResponseStatusCodeDecision

  function ServiceStatusApplies(resp: Response): (b: bool)
    ensures b <==> resp.statusCode < 200 || 300 <= resp.statusCode
  {
    !Is2xx(resp.statusCode)
  }

  function ServiceStatusApply<V>(ctx: Context<V>, resp: Response): (a: Action<V>)
    ensures a.Errored? && a.error.ServiceError? && a.error.code == resp.statusCode
  {
    Errored(ServiceError(resp.statusCode))
  }

  // InitialParseResultDecision

  /** Decodes the envelope from the body; the response is carried on unchanged. */
  function InitialParseApply<V>(ctx: Context<V>, resp: Response): (a: Action<V>)
    ensures a.ContinueWith? <==> DecodeEnvelope(resp.data, ctx.codec).Success?
    ensures a.ContinueWith? ==>
      a.response == resp && a.resultModel == Some(DecodeEnvelope(resp.data, ctx.codec).value)
    ensures a.Errored? ==>
      a.error == Ez(UnknownError(DecodeEnvelope(resp.data, ctx.codec).error, Some(resp)))
    ensures a.ContinueWith? || a.Errored?
  {
    match DecodeEnvelope(resp.data, ctx.codec)
    case Success(model) => ContinueWith(resp, Some(model))
    case Failure(cause) => Errored(Ez(UnknownError(cause, Some(resp))))
  }

  // ResponseStatusCodeDecision

  /** `!(resultModelData?.statusCode == 200)`. */
  function ResponseStatusApplies(env: Option<Envelope>): (b: bool)
    ensures b <==> env.None? || env.value.statusCode.None? || env.value.statusCode.value != 200
  {
    !(env.Some? && env.value.statusCode == Some(200))
  }

  /** Maps the service status code through the `EZAPIError` table; a nil code is looked up as 0. */
  function ResponseStatusApply<V>(ctx: Context<V>, env: Option<Envelope>): (a: Action<V>)
    ensures a.Errored? && a.error.Ez?
    ensures env.None? <==> a.error.error == ResultModelDataIsNil
    ensures env.Some? ==> match FromRawValue(StatusCodeOrZero(env.value))
      case Some(e) => a.error.error == ApiError(e, env)
      case None => a.error.error == UnknownStatusCode
  {
    match env
    case None => Errored(Ez(ResultModelDataIsNil))
    case Some(model) =>
      match FromRawValue(StatusCodeOrZero(model))
      case Some(e) => Errored(Ez(ApiError(e, Some(model))))
      case None => Errored(Ez(UnknownStatusCode))
  }

  /** `modelData.statusCode ?? 0`. */
  function StatusCodeOrZero(model: Envelope): int {
    match model.statusCode
    case Some(code) => code
    case None => 0
  }

  // ParseResultDecision

  /** Decodes the envelope's payload bytes into the caller's response type. */
  function ParseResultApply<V>(ctx: Context<V>, resp: Response, env: Option<Envelope>): (a: Action<V>)
    ensures a.Done? <==> env.Some? && ctx.decodePayload(env.value.data).Some?
    ensures a.Done? ==> ctx.decodePayload(env.value.data) == Some(a.value)
    ensures env.None? ==> a == Errored(Ez(DataIsNil))
    ensures env.Some? && ctx.decodePayload(env.value.data).None? ==>
      a == Errored(Ez(UnknownError(UndecodablePayload, Some(resp))))
  {
    match env
    case None => Errored(Ez(DataIsNil))
    case Some(model) =>
      match ctx.decodePayload(model.data)
      case Some(v) => Done(v)
      case None => Errored(Ez(UnknownError(UndecodablePayload, Some(resp))))
  }

  // Dispatch over the closed set of decisions

  /** `shouldApply`: a pure predicate over the current response and envelope. */
  function ShouldApply<V>(ctx: Context<V>, d: Decision, resp: Response, env: Option<Envelope>): bool {
    match d
    case ServiceResponseStatusCode => ServiceStatusApplies(resp)
    case InitialParseResult => true
    case ResponseStatusCode => ResponseStatusApplies(env)
    case ParseResult => true
    case Custom(tag) => ctx.customApplies(tag, resp, env)
  }

  /** `apply`: the one action a decision yields. */
  function Apply<V>(ctx: Context<V>, d: Decision, resp: Response, env: Option<Envelope>): Action<V> {
    match d
    case ServiceResponseStatusCode => ServiceStatusApply(ctx, resp)
    case InitialParseResult => InitialParseApply(ctx, resp)
    case ResponseStatusCode => ResponseStatusApply(ctx, env)
    case ParseResult => ParseResultApply(ctx, resp, env)
    case Custom(tag) => ctx.customApply(tag, resp, env)
  }

  /** The envelope parse applies to every state. */
  lemma InitialParseAlwaysApplies<V>(ctx: Context<V>, resp: Response, env: Option<Envelope>)
    ensures ShouldApply(ctx, InitialParseResult, resp, env)
  {
  }

  /** The payload parse applies to every state. */
  lemma ParseResultAlwaysApplies<V>(ctx: Context<V>, resp: Response, env: Option<Envelope>)
    ensures ShouldApply(ctx, ParseResult, resp, env)
  {
  }

  /** No built-in decision ever asks for a restart. */
  lemma BuiltInsNeverRestart<V>(ctx: Context<V>, d: Decision, resp: Response, env: Option<Envelope>)
    requires d.IsBuiltIn()
    ensures !Apply(ctx, d, resp, env).RestartWith?
  {
  }

  /** Only the envelope parse ever continues; every other built-in ends the pass. */
  lemma OnlyInitialParseContinues<V>(ctx: Context<V>, d: Decision, resp: Response, env: Option<Envelope>)
    requires d.IsBuiltIn() && d != InitialParseResult
    ensures !Apply(ctx, d, resp, env).ContinueWith?
  {
  }

  /** A failed envelope parse keeps the response it could not read. */
  lemma InitialParseKeepsResponse<V>(ctx: Context<V>, resp: Response, env: Option<Envelope>)
    ensures match Apply(ctx, InitialParseResult, resp, env)
      case ContinueWith(r, _) => r == resp
      case Errored(Ez(UnknownError(_, r))) => r == Some(resp)
      case _ => false
  {
  }
}
