# EzNetworkLayer response pipeline, in Dafny

This project models the response-processing core of EzNetworkLayer, a Swift networking layer built on Moya. A transport call produces either a failure or a `Moya.Response`, which has a status code and a body. The response is then driven through an ordered list of `Decision` values. Each decision is a pure predicate `shouldApply` plus an `apply` that yields one `DecisionAction`:

- `continueWith` carries on with a new response and envelope;
- `restartWith` re-sends the request with a new decision list;
- `errored` stops with an error;
- `done` stops with the typed value.

The model covers four things:

- the four built-in decisions;
- the `handleDecision` runner and the success/failure split in `send`;
- the service envelope `ResponseModel`, with its JSON keys and required/optional decoding rules;
- the `EZAPIError` code table.

Modules follow the source files:

| module | file | models |
|---|---|---|
| `Wrappers` | wrappers.dfy | Swift `Optional` and `Result` |
| `JsonValues` | json_values.dfy | parsed JSON values; `Int` and `String` decoding |
| `ApiErrors` | api_errors.dfy | `EZAPIError`: raw values, failable initialiser, `message` |
| `Envelopes` | envelopes.dfy | `ResponseModel`: `CodingKeys`, `init(from:)`, the synthesised encoder |
| `Decisions` | decisions.dfy | `EZResponseError`, `DecisionAction`, the four built-in decisions |
| `Runner` | runner.dfy | `handleDecision`, `send`, restarts across transport calls, handler calls |
| `StandardChain` | standard_chain.dfy | the four built-ins in declaration order `[ServiceStatus, InitialParse, ResponseStatus, ParseResult]`, end to end |

Callbacks become return values. `RunPass` returns the pass's `Outcome` and the number of decisions it took off the list. `Send` adds the transport split. `RunCall` follows restarts, consuming one transport answer per `send`. `Observe` lists the calls an outcome makes: to the caller's handler, to `ezResponseErrorHandler`, or to `fatalError`.

Foreign code enters as function-valued parameters:

- `JsonCodec`: bytes to JSON and back, and the base64 strategy for `Data`;
- `Context.decodePayload`: decoding of the caller's `T.ResponseType`;
- `Context.customApplies` and `Context.customApply`: decisions that callers write against the open `Decision` protocol, represented here by `Custom(tag)`.

`restartWith` can only come from such a caller-written decision, because no built-in one produces it.

Facts about the code that shape the model:

- `Message` is required.
- The code table holds only 500.
- `.errored` never calls the caller's handler.
- A transport failure reaches the handler as the transport's own error.
- No retry decision exists.

`ResponseStatusCodeDecision` looks codes up with `APIError(rawValue:)`. That type is not in the core files, so the lookup is modelled as the `EZAPIError` table, which has the same single case, 500. The source reads a default decision list from `request.decisions`, but the request type does not declare it, so the default list is an explicit parameter of `Send` and `RunCall`.

## Model

| member | source | states |
|---|---|---|
| JsonValues.DecodeInt | EzNetworkLayer/ResponseModel.swift:32 | decoding an `Int` succeeds only on a number that is the encoding of an integer inside the 64-bit range |
| JsonValues.IntRoundTrip | EzNetworkLayer/ResponseModel.swift:32 | every 64-bit integer written as a JSON number reads back as itself |
| JsonValues.DecodeString | EzNetworkLayer/ResponseModel.swift:31 | a `String` decodes exactly from a JSON string, which it is the contents of |
| ApiErrors.FromRawValue | EzNetworkLayer/EZAPIError.swift:10-12 | the failable initialiser returns a case whose raw value is the input; nil means no case has that raw value |
| ApiErrors.RawValueRoundTrip | EzNetworkLayer/EZAPIError.swift:10-12 | `EZAPIError(rawValue: e.rawValue) == e` for every case |
| ApiErrors.OnlyFiveHundredIsKnown | EzNetworkLayer/EZAPIError.swift:10-12 | the initialiser succeeds iff the code is 500, and then gives `.error500` |
| ApiErrors.Message | EzNetworkLayer/EZAPIError.swift:16-21 | every case has a non-empty message |
| ApiErrors.Error500Message | EzNetworkLayer/EZAPIError.swift:16-21 | `.error500.message` is "Internal Server Error" |
| Envelopes.DecodeMessage | EzNetworkLayer/ResponseModel.swift:31 | `Message` decodes iff the key is present and holds a string; a missing key fails with key-not-found |
| Envelopes.DecodeStatusCode | EzNetworkLayer/ResponseModel.swift:32 | a status code is read exactly when `StatusCode` holds the encoding of an in-range integer, and it is that integer; every other case gives nil, never an error |
| Envelopes.DecodeData | EzNetworkLayer/ResponseModel.swift:33 | `Data` decodes iff the key is present and the `Data` strategy accepts its value |
| Envelopes.DecodeFields | EzNetworkLayer/ResponseModel.swift:27-34 | the envelope decodes iff `Message` and `Data` both decode; its fields equal the decoded values; a message failure is the error reported |
| Envelopes.DecodeEnvelope | EzNetworkLayer/ResponseModel.swift:27-34 | bytes that are not JSON fail as invalid JSON; a top level that is not an object fails as not-an-object; an object decodes exactly as its fields do; decoded envelopes have an `Int`-sized status code |
| Envelopes.EncodeFields | EzNetworkLayer/ResponseModel.swift:10-21 | the encoder writes only the coding keys "Data", "StatusCode" and "Message"; it writes the message as a string and the data with the `Data` strategy, and writes the status code as a number only when present |
| Envelopes.FieldsRoundTrip | EzNetworkLayer/ResponseModel.swift:10-34 | decoding the encoded fields of an envelope gives it back, given a `Data` strategy that reads back what it writes |
| Envelopes.EnvelopeRoundTrip | EzNetworkLayer/ResponseModel.swift:10-34 | `decode(encode(e)) == e` through bytes, given a `Data` strategy that reads back what it writes and a JSON writer whose output for this envelope parses back to the object written |
| Envelopes.UnknownKeysIgnored | EzNetworkLayer/ResponseModel.swift:17-21 | adding or changing a key outside "Data", "StatusCode" and "Message" never changes the decode |
| Envelopes.StatusCodeIsLenient | EzNetworkLayer/ResponseModel.swift:32 | whatever `StatusCode` holds, or its absence, never changes whether decoding succeeds or the decoded message and data |
| Decisions.ServiceStatusApplies | EzNetworkLayer/Decision/Decision.swift:54-60 | the transport-status decision applies iff the status code is below 200 or at least 300 |
| Decisions.ServiceStatusApply | EzNetworkLayer/Decision/Decision.swift:62-69 | it always yields errored `ServiceError.error(code)` with the response's status code |
| Decisions.InitialParseApply | EzNetworkLayer/Decision/Decision.swift:80-96 | continues iff the body decodes, with the same response and the parsed envelope; otherwise errors with `unknownError` carrying the cause and the response |
| Decisions.InitialParseAlwaysApplies | EzNetworkLayer/Decision/Decision.swift:74-78 | the envelope parse applies to every state |
| Decisions.ResponseStatusApplies | EzNetworkLayer/Decision/Decision.swift:101-107 | the service-status decision applies iff the envelope is absent, has no status code, or has a status code other than 200 |
| Decisions.ResponseStatusApply | EzNetworkLayer/Decision/Decision.swift:109-124 | an absent envelope gives `resultModelDataIsNil`; a code in the table, with nil read as 0, gives `apiError` carrying that envelope; any other code gives `unknownStatusCode` |
| Decisions.ParseResultApply | EzNetworkLayer/Decision/Decision.swift:135-152 | done iff an envelope is present and its data decodes, with the decoded value; an absent envelope gives `dataIsNil`; a payload that will not decode gives `unknownError` carrying the response |
| Decisions.ParseResultAlwaysApplies | EzNetworkLayer/Decision/Decision.swift:129-133 | the payload parse applies to every state |
| Decisions.BuiltInsNeverRestart | EzNetworkLayer/Decision/Decision.swift:62-152 | no built-in decision's `apply` yields `restartWith` |
| Decisions.OnlyInitialParseContinues | EzNetworkLayer/Decision/Decision.swift:62-152 | every built-in decision except the envelope parse ends the pass |
| Decisions.InitialParseKeepsResponse | EzNetworkLayer/Decision/Decision.swift:86-95 | the envelope parse either continues with the same response or errors with `unknownError` carrying it |
| Runner.RunPass | EzNetworkLayer/EZAPIBase.swift:69-140 | a pass takes at most the number of decisions in the list off it; running out is fatal and uses the whole list; every other ending uses at least one decision; a pass never produces a transport failure |
| Runner.SelectDecisions | EzNetworkLayer/EZAPIBase.swift:59 | an explicitly passed list wins over the request's default list |
| Runner.Send | EzNetworkLayer/EZAPIBase.swift:13-67 | a transport failure goes to the handler without evaluating any decision; a response starts a pass with no envelope over the selected list |
| Runner.Observe | EzNetworkLayer/EZAPIBase.swift:126-137 | done calls the handler exactly once with success; errored never calls it, and calls `ezResponseErrorHandler` exactly when the error is an `EZResponseError`; at most one handler call |
| Runner.RunCall | EzNetworkLayer/EZAPIBase.swift:119-125 | a call makes at most one transport call per answer; a settled call made at least one and did not end on a restart |
| Runner.SkipInapplicable | EzNetworkLayer/EZAPIBase.swift:83-96 | decisions that do not apply are skipped with the response and envelope unchanged, one decision each |
| Runner.ExhaustedIsFatal | EzNetworkLayer/EZAPIBase.swift:76-78 | a list none of whose decisions applies ends in the fatal configuration error, not a result |
| Runner.FirstApplicableDecides | EzNetworkLayer/EZAPIBase.swift:80-137 | the first decision that applies decides the pass; `continueWith` resumes with the decisions after it and the new state, not from the head |
| Runner.BuiltInPassNeverRestarts | EzNetworkLayer/EZAPIBase.swift:98-137 | a pass over built-in decisions only never ends in a restart |
| Runner.TransportFailureBypassesDecisions | EzNetworkLayer/EZAPIBase.swift:63-64 | a transport failure settles the call after one transport call and reaches the handler as that failure |
| Runner.RestartRunsNewList | EzNetworkLayer/EZAPIBase.swift:119-124 | after `restartWith(ds)` the call goes on as a new `send` with `ds` as its explicit list, costing one more transport call |
| Runner.BuiltInCallSettlesAtOnce | EzNetworkLayer/EZAPIBase.swift:119-124 | with built-in decisions only, a call settles on the first transport answer |
| Runner.AtMostOneDelivery | EzNetworkLayer/EZAPIBase.swift:126-137 | a call, through all its restarts, calls the handler at most once; not at all when it errored; and only for a success or a transport failure |
| StandardChain.EnvelopeStage | EzNetworkLayer/Decision/Decision.swift:101-152 | with an envelope in hand, status 200 leads to the payload decode; 500 leads to `apiError`; any other code leads to `unknownStatusCode` |
| StandardChain.BodyStage | EzNetworkLayer/Decision/Decision.swift:80-96 | on the remaining three decisions, a body that does not decode ends the pass; otherwise the parsed envelope is handed on |
| StandardChain.StandardMatchesExpected | EzNetworkLayer/Decision/Decision.swift:54-152 | a pass over the four built-ins in declaration order equals a reference outcome written directly from what each decision does, with its step count, for every response |
| StandardChain.Non2xxIsServiceError | EzNetworkLayer/Decision/Decision.swift:59-68 | a non-2xx response ends in `ServiceError(code)` after one decision |
| StandardChain.HappyPathCompletes | EzNetworkLayer/Decision/Decision.swift:86-145 | a 2xx response whose envelope has status 200 and decodable data ends in done after four decisions, calling the handler once with the value |
| StandardChain.KnownServiceCodeIsApiError | EzNetworkLayer/Decision/Decision.swift:115-117 | a service code found in the table ends in `apiError` with that case and the parsed envelope |
| StandardChain.OtherServiceCodeIsUnknown | EzNetworkLayer/Decision/Decision.swift:115-119 | a service code that is neither 200 nor in the table, or absent, ends in `unknownStatusCode` |
| StandardChain.UnreadableBodyIsUnknownError | EzNetworkLayer/Decision/Decision.swift:86-94 | a 2xx body that is no envelope ends in `unknownError` with the cause and the response |
| StandardChain.StandardAlwaysSettles | EzNetworkLayer/Decision/Decision.swift:62-152 | the standard order never hits the fatal error and never restarts |
| StandardChain.Non2xxIsSilent | EzNetworkLayer/EZAPIBase.swift:126-134 | a non-2xx response produces neither a handler call nor an `ezResponseErrorHandler` call |
| StandardChain.MissingEnvelopeErrors | EzNetworkLayer/Decision/Decision.swift:115-151 | without an envelope, the service-status decision gives `resultModelDataIsNil` and the payload parse gives `dataIsNil` |
| StandardChain.RestartUsesNewListNotRemaining | EzNetworkLayer/EZAPIBase.swift:119-124 | an example in which restarting with the new list completes, but resuming with the remaining list would have ended in `ServiceError(500)` |

## Left out

- The Moya transport (`self.request`) is an external HTTP client. Only its answer, a response or a failure, is modelled, as the input of `Send` and as the list of answers given to `RunCall`.
- JSON parsing and serialisation, the base64 `Data` strategy and decoding of the caller's response type are foreign library code. They are function parameters. The envelope round trip assumes that the `Data` strategy reads back every byte string it writes, and that the JSON writer's output for the one envelope in question parses back to the object written. No such assumption is made for JSON values in general.
- JsonValues.DecodeInt: decodes the exact value of a JSON number. Foundation's `JSONDecoder` reads a number with a fraction or exponent through `Double`, so it accepts `200.00000000000001` as the `Int` 200, but the model rejects it. Binary floating point is not modelled.
- Runner.Observe: a caller-written decision is taken to call its `done` closure exactly once, which the `Decision` protocol (`Decision.swift:38-43`) does not enforce. A conformer that calls it twice makes `handleDecision` call the handler twice (`EZAPIBase.swift:136-137`), and one that never calls it leaves the call pending. The "at most one handler call" in `Observe` and `Runner.AtMostOneDelivery` rests on this.
- The forced cast `request as! Target` in `send` (`EZAPIBase.swift:18`) traps when the request type is not the provider's `Target`. The model assumes the cast succeeds.
- Swift's `Int` is taken to be 64 bits wide, as on every platform the library targets.
- The `request` argument of `shouldApply` and `apply` is not modelled. The built-in decisions ignore it, and a caller-written decision gets its behaviour from the `Context` instead.
- `[weak self]` and the `guard let self` early return are memory management with no behaviour to state. Callbacks are return values.
- `ezResponseErrorHandler` has an empty body, so only the fact that it is called is recorded.
- The commented-out logging and fake-response blocks in `send` are dead code.
- The demo target, the view controller, and the base URL and headers in `EzTargetType.swift` are UI glue and placeholder configuration.
- `nonHTTPResponse` and `tokenError` are declared, but no code in these files produces them. They exist only as constructors.
- No retry decision exists in the code, so none is modelled. `restartWith` is handled by the runner and produced only by caller-written decisions.
- Cancellation of an in-flight call is not part of the code and is not modelled.
