/**
 * `MoyaProvider.send` and `handleDecision`: one pass drives a response
 * through the decision list, and a restart issues a fresh transport call
 * with a new list. Callbacks are flattened into return values; the handler
 * and `ezResponseErrorHandler` calls they would make are listed in `Effects`.
 */
module Runner {
  import opened Wrappers
  import opened Envelopes
  import opened Decisions

  /** How one pass, or one `send`, ends. */
  datatype Outcome<V> =
    | Completed(value: V)                    // `.done`
    | Failed(error: PipelineError)           // `.errored`
    | Restart(decisions: seq<Decision>)      // `.restartWith`
    | TransportFailed(failure: TransportError)
    | Fatal                                  // `fatalError`: no decision left

  /** An outcome, with how many decisions were taken off the list to reach it. */
  datatype Pass<V> = Pass(outcome: Outcome<V>, consumed: nat)

  /**
   * `handleDecision`: pops the head decision; if it does not apply, recurses
   * on the tail with the state unchanged; otherwise acts on its one action.
   */
  function RunPass<V>(ctx: Context<V>, resp: Response, env: Option<Envelope>, ds: seq<Decision>): (p: Pass<V>)
    ensures p.consumed <= |ds|
    ensures p.outcome.Fatal? ==> p.consumed == |ds|
    ensures !p.outcome.Fatal? ==> 0 < p.consumed
    ensures !p.outcome.TransportFailed?
    decreases |ds|
  {
    if ds == [] then Pass(Fatal, 0)
    else
      var current := ds[0];
      var rest := ds[1..];
      if !ShouldApply(ctx, current, resp, env) then
        var p := RunPass(ctx, resp, env, rest);
        Pass(p.outcome, p.consumed + 1)
      else
        match Apply(ctx, current, resp, env)
        case ContinueWith(resp', env') =>
          var p := RunPass(ctx, resp', env', rest);
          Pass(p.outcome, p.consumed + 1)
        case RestartWith(ds') => Pass(Restart(ds'), 1)
        case Errored(e) => Pass(Failed(e), 1)
        case Done(v) => Pass(Completed(v), 1)
  }

  /** `decisions ?? request.decisions`: an explicit list wins over the request's own. */
  function SelectDecisions(explicit: Option<seq<Decision>>, defaults: seq<Decision>): (ds: seq<Decision>)
    ensures explicit.Some? ==> ds == explicit.value
    ensures explicit.None? ==> ds == defaults
  {
    match explicit
    case Some(ds) => ds
    case None => defaults
  }

  /**
   * `send` once the transport has answered: a transport failure goes straight
   * to the handler without evaluating any decision; a response starts a pass
   * with no envelope.
   */
  function Send<V>(ctx: Context<V>, transport: Result<Response, TransportError>,
                   explicit: Option<seq<Decision>>, defaults: seq<Decision>): (p: Pass<V>)
    ensures transport.Failure? ==> p == Pass(TransportFailed(transport.error), 0)
    ensures transport.Success? ==>
      p == RunPass(ctx, transport.value, None, SelectDecisions(explicit, defaults))
  {
    match transport
    case Failure(e) => Pass(TransportFailed(e), 0)
    case Success(resp) => RunPass(ctx, resp, None, SelectDecisions(explicit, defaults))
  }

  /** The calls an outcome makes: to the caller's handler, to `ezResponseErrorHandler`, or `fatalError`. */
  datatype Effects<V> = Effects(
    handled: seq<Result<V, PipelineError>>,
    reported: seq<EzResponseError>,
    fatal: bool)

  /**
   * What a finished `send` does with its outcome: `.done` calls the handler
   * once with success and a transport failure once with failure; `.errored`
   * never calls the handler, and only an `EZResponseError` is passed to
   * `ezResponseErrorHandler`. A restart makes no call of its own.
   */
  function Observe<V>(o: Outcome<V>): (fx: Effects<V>)
    ensures |fx.handled| <= 1 && |fx.reported| <= 1
    ensures |fx.handled| == 1 <==> o.Completed? || o.TransportFailed?
    ensures o.Completed? ==> fx.handled == [Success(o.value)]
    ensures o.TransportFailed? ==> fx.handled == [Failure(Transport(o.failure))]
    ensures |fx.reported| == 1 <==> o.Failed? && o.error.Ez?
    ensures o.Failed? && o.error.Ez? ==> fx.reported == [o.error.error]
    ensures fx.fatal <==> o.Fatal?
    ensures fx.handled != [] ==> fx.reported == [] && !fx.fatal
  {
    match o
    case Completed(v) => Effects([Success(v)], [], false)
    case TransportFailed(e) => Effects([Failure(Transport(e))], [], false)
    case Failed(Ez(e)) => Effects([], [e], false)
    case Failed(_) => Effects([], [], false)
    case Restart(_) => Effects([], [], false)
    case Fatal => Effects([], [], true)
  }

  /** A whole call: how it ends, and how many transport calls it made. */
  datatype Call<V> =
    | Settled(outcome: Outcome<V>, transportCalls: nat)
    | Waiting(decisions: seq<Decision>, transportCalls: nat)  // a send is still waiting for the transport

  /**
   * One logical call, given the transport's answers in order, one per send.
   * `.restartWith` re-enters `send` with the new list as its explicit list.
   */
  function RunCall<V>(ctx: Context<V>, answers: seq<Result<Response, TransportError>>,
                      explicit: Option<seq<Decision>>, defaults: seq<Decision>): (c: Call<V>)
    ensures c.transportCalls <= |answers|
    ensures c.Settled? ==> !c.outcome.Restart? && 0 < c.transportCalls
    ensures c.Waiting? ==> c.transportCalls == |answers|
    decreases |answers|
  {
    if answers == [] then Waiting(SelectDecisions(explicit, defaults), 0)
    else
      var p := Send(ctx, answers[0], explicit, defaults);
      match p.outcome
      case Restart(ds') =>
        var c := RunCall(ctx, answers[1..], Some(ds'), defaults);
        c.(transportCalls := c.transportCalls + 1)
      case _ => Settled(p.outcome, 1)
  }

  // Properties of a pass

  /** No decision in `ds` applies to the given state. */
  ghost predicate NoneApplies<V>(ctx: Context<V>, resp: Response, env: Option<Envelope>, ds: seq<Decision>) {
    forall i :: 0 <= i < |ds| ==> !ShouldApply(ctx, ds[i], resp, env)
  }

  /** Decisions that do not apply are skipped and leave the state exactly as it was. */
  lemma {:induction false} SkipInapplicable<V>(ctx: Context<V>, resp: Response, env: Option<Envelope>,
                                              skipped: seq<Decision>, ds: seq<Decision>)
    requires NoneApplies(ctx, resp, env, skipped)
    ensures RunPass(ctx, resp, env, skipped + ds).outcome == RunPass(ctx, resp, env, ds).outcome
    ensures RunPass(ctx, resp, env, skipped + ds).consumed == |skipped| + RunPass(ctx, resp, env, ds).consumed
  {
    if skipped != [] {
      var all := skipped + ds;
      assert all[0] == skipped[0];
      assert all[1..] == skipped[1..] + ds;
      SkipInapplicable(ctx, resp, env, skipped[1..], ds);
    } else {
      assert skipped + ds == ds;
    }
  }

  /** A list none of whose decisions applies is the fatal configuration error. */
  lemma ExhaustedIsFatal<V>(ctx: Context<V>, resp: Response, env: Option<Envelope>, ds: seq<Decision>)
    requires NoneApplies(ctx, resp, env, ds)
    ensures RunPass(ctx, resp, env, ds) == Pass(Fatal, |ds|)
  {
    SkipInapplicable(ctx, resp, env, ds, []);
    assert ds + [] == ds;
  }

  /**
   * The first decision that applies decides the pass: a terminal action ends
   * it after `i + 1` decisions, and `.continueWith` resumes with the decisions
   * after position `i`, not with the head of the list.
   */
  lemma FirstApplicableDecides<V>(ctx: Context<V>, resp: Response, env: Option<Envelope>, ds: seq<Decision>, i: nat)
    requires i < |ds|
    requires NoneApplies(ctx, resp, env, ds[..i])
    requires ShouldApply(ctx, ds[i], resp, env)
    ensures match Apply(ctx, ds[i], resp, env)
      case ContinueWith(resp', env') =>
        RunPass(ctx, resp, env, ds) == Pass(RunPass(ctx, resp', env', ds[i+1..]).outcome,
                                            i + 1 + RunPass(ctx, resp', env', ds[i+1..]).consumed)
      case RestartWith(ds') => RunPass(ctx, resp, env, ds) == Pass(Restart(ds'), i + 1)
      case Errored(e) => RunPass(ctx, resp, env, ds) == Pass(Failed(e), i + 1)
      case Done(v) => RunPass(ctx, resp, env, ds) == Pass(Completed(v), i + 1)
  {
    SkipInapplicable(ctx, resp, env, ds[..i], ds[i..]);
    assert ds[..i] + ds[i..] == ds;
    assert ds[i..][0] == ds[i];
    assert ds[i..][1..] == ds[i+1..];
  }

  /** A list made only of built-in decisions never restarts. */
  lemma {:induction false} BuiltInPassNeverRestarts<V>(ctx: Context<V>, resp: Response, env: Option<Envelope>, ds: seq<Decision>)
    requires forall i :: 0 <= i < |ds| ==> ds[i].IsBuiltIn()
    ensures !RunPass(ctx, resp, env, ds).outcome.Restart?
    decreases |ds|
  {
    if ds != [] {
      BuiltInsNeverRestart(ctx, ds[0], resp, env);
      var rest := ds[1..];
      assert forall i :: 0 <= i < |rest| ==> rest[i] == ds[i + 1];
      if !ShouldApply(ctx, ds[0], resp, env) {
        BuiltInPassNeverRestarts(ctx, resp, env, rest);
      } else if Apply(ctx, ds[0], resp, env).ContinueWith? {
        var a := Apply(ctx, ds[0], resp, env);
        BuiltInPassNeverRestarts(ctx, a.response, a.resultModel, rest);
      }
    }
  }

  // Properties of a call

  /** A transport failure settles the call after one transport call, reaching the handler as a failure. */
  lemma TransportFailureBypassesDecisions<V>(ctx: Context<V>, e: TransportError,
                                             rest: seq<Result<Response, TransportError>>,
                                             explicit: Option<seq<Decision>>, defaults: seq<Decision>)
    ensures RunCall(ctx, [Failure(e)] + rest, explicit, defaults) == Settled(TransportFailed(e), 1)
    ensures Observe<V>(TransportFailed(e)).handled == [Failure(Transport(e))]
  {
  }

  /** After `.restartWith(ds')` the call goes on as a fresh `send` whose explicit list is `ds'`. */
  lemma RestartRunsNewList<V>(ctx: Context<V>, answers: seq<Result<Response, TransportError>>,
                              explicit: Option<seq<Decision>>, defaults: seq<Decision>, ds': seq<Decision>)
    requires answers != []
    requires Send(ctx, answers[0], explicit, defaults).outcome == Restart(ds')
    ensures var c := RunCall(ctx, answers[1..], Some(ds'), defaults);
            RunCall(ctx, answers, explicit, defaults) == c.(transportCalls := c.transportCalls + 1)
  {
  }

  /** A call whose lists hold only built-in decisions settles on the first transport answer. */
  lemma BuiltInCallSettlesAtOnce<V>(ctx: Context<V>, answers: seq<Result<Response, TransportError>>,
                                    explicit: Option<seq<Decision>>, defaults: seq<Decision>)
    requires answers != []
    requires forall i :: 0 <= i < |SelectDecisions(explicit, defaults)| ==> SelectDecisions(explicit, defaults)[i].IsBuiltIn()
    ensures RunCall(ctx, answers, explicit, defaults) == Settled(Send(ctx, answers[0], explicit, defaults).outcome, 1)
  {
    if answers[0].Success? {
      BuiltInPassNeverRestarts(ctx, answers[0].value, None, SelectDecisions(explicit, defaults));
    }
  }

  /**
   * Every call, through all its restarts, makes at most one handler call,
   * and none when it ends in `.errored`.
   */
  lemma AtMostOneDelivery<V>(ctx: Context<V>, answers: seq<Result<Response, TransportError>>,
                             explicit: Option<seq<Decision>>, defaults: seq<Decision>)
    ensures var c := RunCall(ctx, answers, explicit, defaults);
            c.Settled? ==> |Observe(c.outcome).handled| <= 1
    ensures var c := RunCall(ctx, answers, explicit, defaults);
            c.Settled? && c.outcome.Failed? ==> Observe(c.outcome).handled == []
    ensures var c := RunCall(ctx, answers, explicit, defaults);
            c.Settled? && Observe(c.outcome).handled != [] ==> c.outcome.Completed? || c.outcome.TransportFailed?
  {
  }
}
