/**
 * The four built-in decisions, in the order `Decision.swift` declares them,
 * and what a pass over them does to every transport response, proved
 * against a reference definition written directly from what each decision
 * does.
 */
module StandardChain {
  import opened Wrappers
  import opened JsonValues
  import opened Envelopes
  import opened ApiErrors
  import opened Decisions
  import opened Runner

  const Standard: seq<Decision> :=
    [ServiceResponseStatusCode, InitialParseResult, ResponseStatusCode, ParseResult]

  /**
   * What the chain does, decision by decision: a non-2xx transport status is a
   * service error; otherwise the body must hold an envelope; a service code
   * other than 200 is looked up in the error table; otherwise the payload is
   * decoded into the caller's type.
   */
  function Expected<V>(ctx: Context<V>, resp: Response): Outcome<V> {
    if resp.statusCode < 200 || resp.statusCode >= 300 then Failed(ServiceError(resp.statusCode))
    else match DecodeEnvelope(resp.data, ctx.codec)
      case Failure(cause) => Failed(Ez(UnknownError(cause, Some(resp))))
      case Success(model) =>
        if model.statusCode == Some(200) then
          match ctx.decodePayload(model.data)
          case Some(v) => Completed(v)
          case None => Failed(Ez(UnknownError(UndecodablePayload, Some(resp))))
        else if model.statusCode == Some(500) then Failed(Ez(ApiError(Error500, Some(model))))
        else Failed(Ez(UnknownStatusCode))
  }

  /** How many decisions the chain takes off the list before it stops. */
  function ExpectedSteps<V>(ctx: Context<V>, resp: Response): nat {
    if resp.statusCode < 200 || resp.statusCode >= 300 then 1
    else match DecodeEnvelope(resp.data, ctx.codec)
      case Failure(_) => 2
      case Success(model) => if model.statusCode == Some(200) then 4 else 3
  }

  /** The last two decisions, once an envelope has been parsed. */
  lemma EnvelopeStage<V>(ctx: Context<V>, resp: Response, model: Envelope)
    ensures var p := RunPass(ctx, resp, Some(model), [ResponseStatusCode, ParseResult]);
      if model.statusCode == Some(200) then
        p == Pass(match ctx.decodePayload(model.data)
                  case Some(v) => Completed(v)
                  case None => Failed(Ez(UnknownError(UndecodablePayload, Some(resp)))), 2)
      else if model.statusCode == Some(500) then p == Pass(Failed(Ez(ApiError(Error500, Some(model)))), 1)
      else p == Pass(Failed(Ez(UnknownStatusCode)), 1)
  {
    var ds := [ResponseStatusCode, ParseResult];
    assert ds[1..] == [ParseResult];
    assert ds[1..][1..] == [];
    if model.statusCode != Some(200) {
      OnlyFiveHundredIsKnown(StatusCodeOrZero(model));
    }
  }

  /** The last three decisions, on a 2xx response. */
  lemma BodyStage<V>(ctx: Context<V>, resp: Response, env: Option<Envelope>)
    ensures var p := RunPass(ctx, resp, env, [InitialParseResult, ResponseStatusCode, ParseResult]);
      match DecodeEnvelope(resp.data, ctx.codec)
      case Failure(cause) => p == Pass(Failed(Ez(UnknownError(cause, Some(resp)))), 1)
      case Success(model) =>
        var q := RunPass(ctx, resp, Some(model), [ResponseStatusCode, ParseResult]);
        p == Pass(q.outcome, q.consumed + 1)
  {
    var ds := [InitialParseResult, ResponseStatusCode, ParseResult];
    assert ds[1..] == [ResponseStatusCode, ParseResult];
  }

  /** A pass over the standard chain agrees with the reference, whatever envelope it starts with. */
  lemma StandardMatchesExpected<V>(ctx: Context<V>, resp: Response, env: Option<Envelope>)
    ensures RunPass(ctx, resp, env, Standard) == Pass(Expected(ctx, resp), ExpectedSteps(ctx, resp))
  {
    var tail := [InitialParseResult, ResponseStatusCode, ParseResult];
    assert Standard[1..] == tail;
    if Is2xx(resp.statusCode) {
      BodyStage(ctx, resp, env);
      if DecodeEnvelope(resp.data, ctx.codec).Success? {
        EnvelopeStage(ctx, resp, DecodeEnvelope(resp.data, ctx.codec).value);
      }
    }
  }

  /** A non-2xx response ends in `ServiceError(code)` after the first decision. */
  lemma Non2xxIsServiceError<V>(ctx: Context<V>, resp: Response)
    requires !Is2xx(resp.statusCode)
    ensures RunPass(ctx, resp, None, Standard) == Pass(Failed(ServiceError(resp.statusCode)), 1)
  {
    StandardMatchesExpected(ctx, resp, None);
  }

  /**
   * A 2xx response whose envelope decodes with status 200 and decodable
   * data ends in `.done(value)` after all four decisions, and the handler is
   * called exactly once, with that value.
   */
  lemma HappyPathCompletes<V>(ctx: Context<V>, resp: Response, model: Envelope, v: V)
    requires Is2xx(resp.statusCode)
    requires DecodeEnvelope(resp.data, ctx.codec) == Success(model)
    requires model.statusCode == Some(200)
    requires ctx.decodePayload(model.data) == Some(v)
    ensures RunPass(ctx, resp, None, Standard) == Pass(Completed(v), 4)
    ensures Observe(RunPass(ctx, resp, None, Standard).outcome).handled == [Success(v)]
  {
    StandardMatchesExpected(ctx, resp, None);
  }

  /** A known service code (only 500) ends in `apiError` carrying the parsed envelope. */
  lemma KnownServiceCodeIsApiError<V>(ctx: Context<V>, resp: Response, model: Envelope)
    requires Is2xx(resp.statusCode)
    requires DecodeEnvelope(resp.data, ctx.codec) == Success(model)
    requires model.statusCode.Some? && FromRawValue(model.statusCode.value).Some?
    ensures RunPass(ctx, resp, None, Standard).outcome
            == Failed(Ez(ApiError(FromRawValue(model.statusCode.value).value, Some(model))))
  {
    OnlyFiveHundredIsKnown(model.statusCode.value);
    StandardMatchesExpected(ctx, resp, None);
  }

  /** Any other code than 200, or none at all, ends in `unknownStatusCode`, whatever the data holds. */
  lemma OtherServiceCodeIsUnknown<V>(ctx: Context<V>, resp: Response, model: Envelope)
    requires Is2xx(resp.statusCode)
    requires DecodeEnvelope(resp.data, ctx.codec) == Success(model)
    requires model.statusCode != Some(200) && model.statusCode != Some(500)
    ensures RunPass(ctx, resp, None, Standard) == Pass(Failed(Ez(UnknownStatusCode)), 3)
  {
    StandardMatchesExpected(ctx, resp, None);
  }

  /** A 2xx response whose body is no envelope ends in `unknownError` carrying the response. */
  lemma UnreadableBodyIsUnknownError<V>(ctx: Context<V>, resp: Response)
    requires Is2xx(resp.statusCode)
    requires DecodeEnvelope(resp.data, ctx.codec).Failure?
    ensures RunPass(ctx, resp, None, Standard)
            == Pass(Failed(Ez(UnknownError(DecodeEnvelope(resp.data, ctx.codec).error, Some(resp)))), 2)
  {
    StandardMatchesExpected(ctx, resp, None);
  }

  /** The standard chain always settles: it is never fatal and never restarts. */
  lemma StandardAlwaysSettles<V>(ctx: Context<V>, resp: Response, env: Option<Envelope>)
    ensures RunPass(ctx, resp, env, Standard).outcome.Completed? || RunPass(ctx, resp, env, Standard).outcome.Failed?
  {
    StandardMatchesExpected(ctx, resp, env);
  }

  /**
   * As written, `.errored` never reaches the caller's handler, and a service
   * error is not an `EZResponseError`: a non-2xx response produces no
   * callback at all.
   */
  lemma Non2xxIsSilent<V>(ctx: Context<V>, resp: Response, rest: seq<Result<Response, TransportError>>)
    requires !Is2xx(resp.statusCode)
    ensures RunCall(ctx, [Success(resp)] + rest, None, Standard) == Settled(Failed(ServiceError(resp.statusCode)), 1)
    ensures Observe(RunCall(ctx, [Success(resp)] + rest, None, Standard).outcome) == Effects([], [], false)
  {
    Non2xxIsServiceError(ctx, resp);
  }

  /** Without the envelope parse ahead of them, the later decisions see no envelope. */
  lemma MissingEnvelopeErrors<V>(ctx: Context<V>, resp: Response)
    ensures RunPass(ctx, resp, None, [ResponseStatusCode]) == Pass(Failed(Ez(ResultModelDataIsNil)), 1)
    ensures RunPass(ctx, resp, None, [ParseResult]) == Pass(Failed(Ez(DataIsNil)), 1)
  {
  }

  // A caller-written decision that restarts

  /** Tag 0 restarts with `[Custom(1)]`; tag 1 completes with 42. Both always apply. */
  function RestartingContext(): Context<int> {
    Context(
      JsonCodec(b => None, j => [], j => None, b => JNull),
      b => None,
      (tag, r, e) => true,
      (tag, r, e) => if tag == 0 then RestartWith([Custom(1)]) else Done(42))
  }

  /**
   * A restart runs the new list from its head against the new response. Had
   * it resumed with the remaining list `[ServiceResponseStatusCode]`, the
   * second 500 response would have ended in `ServiceError(500)`.
   */
  lemma RestartUsesNewListNotRemaining()
    ensures var answers: seq<Result<Response, TransportError>> := [Success(Response(500, [])), Success(Response(500, []))];
            RunCall(RestartingContext(), answers, Some([Custom(0), ServiceResponseStatusCode]), Standard)
            == Settled(Completed(42), 2)
    ensures RunPass(RestartingContext(), Response(500, []), None, [ServiceResponseStatusCode]).outcome
            == Failed(ServiceError(500))
  {
    var ctx := RestartingContext();
    var answers: seq<Result<Response, TransportError>> := [Success(Response(500, [])), Success(Response(500, []))];
    var first := [Custom(0), ServiceResponseStatusCode];
    assert RunPass(ctx, Response(500, []), None, first).outcome == Restart([Custom(1)]);
    assert answers[1..] == [Success(Response(500, []))];
    assert RunPass(ctx, Response(500, []), None, [Custom(1)]).outcome == Completed(42);
    assert RunCall(ctx, answers[1..], Some([Custom(1)]), Standard) == Settled(Completed(42), 1);
    assert RunPass(ctx, Response(500, []), None, [ServiceResponseStatusCode])
           == Pass(Failed(ServiceError(500)), 1);
  }
}
