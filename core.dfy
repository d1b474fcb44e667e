/** The request orchestrator: option merging, the `Core` class that owns the
    middleware list and the instance defaults, and how a call's outer
    promise settles. */
module Orchestrator {
  import opened Types
  import opened Errors
  import opened Racers
  import opened RequestMiddleware
  import opened Pipeline
  import Native

  /** The message of the error raised when the pipeline completes without a
      response. */
  const NoResponseMessage: string := "NONE REQUEST RESPONSE!"

  /** `mergeRequestOptions(base, over)`: `header` and `data` are merged key
      by key, `method` falls back from `over` to `base` to "GET", and every
      other property is taken from `over` when present there. */
  function Merge(base: Options, over: Options): (r: Options)
    ensures r.httpMethod.Present? && r.httpMethod.value != ""
    ensures TruthyText(over.httpMethod) ==> r.httpMethod == over.httpMethod
    ensures !TruthyText(over.httpMethod) && TruthyText(base.httpMethod) ==> r.httpMethod == base.httpMethod
    ensures !TruthyText(over.httpMethod) && !TruthyText(base.httpMethod) ==> r.httpMethod == Present("GET")
    ensures r.header.Present? && r.header.value.Keys == Entries(base.header).Keys + Entries(over.header).Keys
    ensures forall k :: k in Entries(over.header) ==> r.header.value[k] == Entries(over.header)[k]
    ensures forall k :: k in Entries(base.header) && k !in Entries(over.header) ==> r.header.value[k] == Entries(base.header)[k]
    ensures r.data.Present? && r.data.value.Keys == Entries(base.data).Keys + Entries(over.data).Keys
    ensures forall k :: k in Entries(over.data) ==> r.data.value[k] == Entries(over.data)[k]
    ensures forall k :: k in Entries(base.data) && k !in Entries(over.data) ==> r.data.value[k] == Entries(base.data)[k]
    ensures r.url == (if over.url.Absent? then base.url else over.url)
    ensures r.timeout == (if over.timeout.Absent? then base.timeout else over.timeout)
    ensures r.timeoutMessage == (if over.timeoutMessage.Absent? then base.timeoutMessage else over.timeoutMessage)
    ensures r.signal == (if over.signal.Absent? then base.signal else over.signal)
    ensures r.errorHandler == (if over.errorHandler.Absent? then base.errorHandler else over.errorHandler)
    ensures r.rest.Keys == base.rest.Keys + over.rest.Keys
    ensures forall k :: k in over.rest ==> r.rest[k] == over.rest[k]
    ensures forall k :: k in base.rest && k !in over.rest ==> r.rest[k] == base.rest[k]
    ensures WellFormed(base) && WellFormed(over) ==> WellFormed(r)
  {
    Spread(base, over).(
      header := Present(Entries(base.header) + Entries(over.header)),
      data := Present(Entries(base.data) + Entries(over.data)),
      httpMethod := Present(if TruthyText(over.httpMethod) then over.httpMethod.value
                            else if TruthyText(base.httpMethod) then base.httpMethod.value
                            else "GET"))
  }

  /** Merging again with the same call options changes nothing, so one
      merge per call suffices. */
  lemma MergeAgainChangesNothing(base: Options, over: Options)
    ensures Merge(Merge(base, over), over) == Merge(base, over)
  {
    var once := Merge(base, over);
    var twice := Merge(once, over);
    UnionAbsorbs(Entries(base.header), Entries(over.header));
    UnionAbsorbs(Entries(base.data), Entries(over.data));
    UnionAbsorbs(base.rest, over.rest);
  }

  lemma UnionAbsorbs<K, V>(m: map<K, V>, o: map<K, V>)
    ensures (m + o) + o == m + o
  {
    var u := m + o;
    assert (u + o).Keys == u.Keys;
    forall k | k in u ensures (u + o)[k] == u[k] {
    }
  }

  /** Merging is not associative: the "GET" fallback of an inner merge hides
      a method set further out. */
  lemma MergeIsNotAssociative()
    ensures exists a: Options, b: Options, c: Options :: Merge(Merge(a, b), c) != Merge(a, Merge(b, c))
  {
    var a := EmptyOptions.(httpMethod := Present("POST"));
    var b := EmptyOptions;
    var c := EmptyOptions;
    assert Merge(Merge(a, b), c).httpMethod == Present("POST");
    assert Merge(a, Merge(b, c)).httpMethod == Present("GET");
  }

  /** What the outer promise resolves with: the native result left in
      `ctx.res`, or whatever the error handler returned. */
  datatype Resolution = Response(res: TaroResult) | Recovered(value: Value)

  /** What an error handler does when called with an error, timed from the
      call: `Settled(0, Ok(v))` returns `v`, `Settled(0, Err(e))` throws `e`,
      and a promise it returns settles `at` milliseconds later, or never. */
  type Handling = (Handler, Error) -> Settlement<Value>

  /** The `.catch` branch, entered at time `t`: the error handler, when there
      is one, decides, and `resolve` follows a promise it returns; otherwise
      the error rejects the call. It never resolves with a native response. */
  function Catch(t: nat, error: Error, handler: Field<Handler>, handle: Handling): (r: Settlement<Resolution>)
    ensures !handler.Present? ==> r == Settled(t, Err(error))
    ensures handler.Present? ==> (r.Pending? <==> handle(handler.value, error).Pending?)
    ensures handler.Present? && handle(handler.value, error).Settled? ==>
      var h := handle(handler.value, error);
      && r.at == t + h.at
      && (h.outcome.Ok? ==> r.outcome == Ok(Recovered(h.outcome.value)))
      && (h.outcome.Err? ==> r.outcome == Err(h.outcome.error))
    ensures r.Settled? && r.outcome.Ok? ==> r.outcome.value.Recovered?
  {
    if handler.Present? then
      match handle(handler.value, error)
      case Pending => Pending
      case Settled(d, Ok(v)) => Settled(t + d, Ok(Recovered(v)))
      case Settled(d, Err(e)) => Settled(t + d, Err(e))
    else Settled(t, Err(error))
  }

  /** The error that reaches the `.catch` branch once the pipeline has
      completed as `done` leaving `res` in `ctx.res`: the pipeline's error,
      or the missing-response error thrown inside `.then`. */
  function Caught(done: Settlement<()>, res: Option<TaroResult>): (e: Option<Error>)
    ensures done.Settled? && e.None? ==> done.outcome.Ok? && res.Some?
    ensures done.Settled? && done.outcome.Err? ==> e == Some(done.outcome.error)
    ensures done.Settled? && done.outcome.Ok? && res.Some? ==> e.None?
    ensures done.Settled? && done.outcome.Ok? && res.None? ==> e == Some(PlainError(NoResponseMessage))
    ensures done.Pending? ==> e.None?
  {
    match done
    case Settled(_, Err(e)) => Some(e)
    case Settled(_, Ok(_)) => if res.Some? then None else Some(PlainError(NoResponseMessage))
    case Pending => None
  }

  /** How the outer promise of `request` settles once the pipeline has
      completed as `done`, leaving `res` in `ctx.res`: never before the
      pipeline, and with a native response only when the pipeline succeeded
      and left that response in `ctx.res`. */
  function Settle(done: Settlement<()>, res: Option<TaroResult>, handler: Field<Handler>,
                  handle: Handling): (r: Settlement<Resolution>)
    ensures done.Pending? ==> r.Pending?
    ensures r.Settled? ==> done.Settled? && r.at >= done.at
    ensures r.Settled? && r.outcome.Ok? && r.outcome.value.Response? ==>
      done.outcome.Ok? && r.at == done.at && res == Some(r.outcome.value.res)
  {
    match done
    case Pending => Pending
    case Settled(t, _) =>
      match Caught(done, res)
      case None => Settled(t, Ok(Response(res.value)))
      case Some(e) => Catch(t, e, handler, handle)
  }

  /** Without an error handler, the call resolves exactly when the pipeline
      succeeds with a response, and then with that response; otherwise it
      rejects with the pipeline's error or the missing-response error. */
  lemma SettleWithoutHandler(done: Settlement<()>, res: Option<TaroResult>, handler: Field<Handler>,
                             handle: Handling)
    requires !handler.Present?
    ensures var r := Settle(done, res, handler, handle);
      && (r.Pending? <==> done.Pending?)
      && (r.Settled? && r.outcome.Ok? <==> done.Settled? && done.outcome.Ok? && res.Some?)
      && (r.Settled? && r.outcome.Ok? ==> r.outcome.value == Response(res.value))
      && (r.Settled? && r.outcome.Err? ==> Caught(done, res) == Some(r.outcome.error) && r.at == done.at)
  {
  }

  /** With an error handler, every failure, the missing response included,
      is handed to it: the call follows what it returns or throws, a
      returned promise included. */
  lemma SettleWithHandler(done: Settlement<()>, res: Option<TaroResult>, handler: Field<Handler>,
                          handle: Handling)
    requires handler.Present?
    ensures var r := Settle(done, res, handler, handle);
      && (done.Pending? ==> r.Pending?)
      && (Caught(done, res).None? && done.Settled? ==> r == Settled(done.at, Ok(Response(res.value))))
      && (Caught(done, res).Some? ==>
            match handle(handler.value, Caught(done, res).value)
            case Pending => r.Pending?
            case Settled(d, Ok(v)) => r == Settled(done.at + d, Ok(Recovered(v)))
            case Settled(d, Err(e)) => r == Settled(done.at + d, Err(e)))
  {
  }

  /** A handler that neither throws nor returns a promise that rejects
      makes every settled call resolve. */
  lemma TotalHandlerNeverRejects(done: Settlement<()>, res: Option<TaroResult>, h: Handler, handle: Handling)
    requires forall e :: handle(h, e).Settled? ==> handle(h, e).outcome.Ok?
    ensures var r := Settle(done, res, Present(h), handle);
      r.Settled? ==> r.outcome.Ok?
  {
  }

  /** How `core.request(option)` settles, for a core with `initOptions`
      and `middleware`, a native request answering by `answer`, and error
      handlers behaving as `handle`. Without a handler a call only ever
      resolves with a response; when no middleware stops the chain, that
      response is the native result, delivered when it arrives. */
  function RequestOutcome(initOptions: Options, middleware: seq<Middleware>, option: Options,
                          answer: Options -> Settlement<TaroResult>, handle: Handling): (r: Settlement<Resolution>)
    ensures var req := Merge(initOptions, option);
      !req.errorHandler.Present? && r.Settled? && r.outcome.Ok? ==> r.outcome.value.Response?
    ensures var req := Merge(initOptions, option);
      AllNext(middleware) && r.Settled? && r.outcome.Ok? && r.outcome.value.Response? ==>
        answer(req) == Settled(r.at, Ok(r.outcome.value.res))
  {
    var req := Merge(initOptions, option);
    var c := Compose(middleware, req, answer(req), None, None);
    ReachesTransportIffAllNext(middleware, req, answer(req), None, None);
    Settle(c.done, c.res, req.errorHandler, handle)
  }

  /** With only passing middleware, no firing signal and no armed timeout,
      a successful native result is what the call resolves with. */
  lemma PlainSuccessResolves(initOptions: Options, middleware: seq<Middleware>, option: Options,
                             answer: Options -> Settlement<TaroResult>,
                             handle: Handling, t: nat, result: TaroResult)
    requires AllNext(middleware)
    requires var req := Merge(initOptions, option);
      !SignalFires(req) && !TimeoutArmed(req) && answer(req) == Settled(t, Ok(result))
    ensures RequestOutcome(initOptions, middleware, option, answer, handle) == Settled(t, Ok(Response(result)))
  {
    var req := Merge(initOptions, option);
    AllNextRunsStep(middleware, req, answer(req), None, None);
    NativeAloneDecides(req, answer(req));
  }

  /** A native failure at `t` with an error handler whose result fulfils
      with `v` after `d` milliseconds: the call resolves with `v` at `t + d`. */
  lemma HandlerRecoversNativeFailure(initOptions: Options, middleware: seq<Middleware>, option: Options,
                                     answer: Options -> Settlement<TaroResult>,
                                     handle: Handling, t: nat, msg: string, d: nat, v: Value)
    requires AllNext(middleware)
    requires var req := Merge(initOptions, option);
      && !SignalFires(req) && !TimeoutArmed(req) && req.errorHandler.Present?
      && answer(req) == Settled(t, Err(TransportFailure(msg)))
      && handle(req.errorHandler.value, TransportFailure(msg)) == Settled(d, Ok(v))
    ensures RequestOutcome(initOptions, middleware, option, answer, handle) == Settled(t + d, Ok(Recovered(v)))
  {
    var req := Merge(initOptions, option);
    AllNextRunsStep(middleware, req, answer(req), None, None);
    NativeAloneDecides(req, answer(req));
  }

  /** A 50ms timeout against a native result at 200ms, with only passing
      middleware and no error handler: the call rejects at 50ms with the
      timeout error carrying the merged request. */
  lemma TimeoutRejectsCall(initOptions: Options, middleware: seq<Middleware>, option: Options,
                           answer: Options -> Settlement<TaroResult>, handle: Handling, result: TaroResult)
    requires AllNext(middleware)
    requires var req := Merge(initOptions, option);
      && req.timeout == Present(50) && !TruthyText(req.timeoutMessage) && !SignalFires(req)
      && !req.errorHandler.Present? && answer(req) == Settled(200, Ok(result))
    ensures RequestOutcome(initOptions, middleware, option, answer, handle)
         == Settled(50, Err(RequestError("timeout of 50ms exceeded", Merge(initOptions, option), "Timeout")))
  {
    var req := Merge(initOptions, option);
    AllNextRunsStep(middleware, req, answer(req), None, None);
    TimeoutScenario(req, result);
  }

  /** A middleware that returns without calling its continuation and
      without a response makes the call fail with the missing-response
      error, which the error handler (if any) still sees. */
  lemma ShortCircuitHasNoResponse(initOptions: Options, middleware: seq<Middleware>, k: nat, option: Options,
                                  answer: Options -> Settlement<TaroResult>, handle: Handling)
    requires k < |middleware| && middleware[k].Stop? && AllNext(middleware[..k])
    ensures RequestOutcome(initOptions, middleware, option, answer, handle)
         == Catch(0, PlainError(NoResponseMessage), Merge(initOptions, option).errorHandler, handle)
  {
    var req := Merge(initOptions, option);
    FirstHaltDecides(middleware, k, req, answer(req), None, None);
  }

  /** `class Core`: the middleware list `use` appends to and the instance
      defaults every request is merged with. */
  class Core {
    var middleware: seq<Middleware>
    var initOptions: Options

    constructor (initOptions: Options := EmptyOptions)
      ensures this.initOptions == initOptions && middleware == []
    {
      middleware := [];
      this.initOptions := initOptions;
    }

    /** `use(fn)`: appends `fn`; nothing else changes. */
    method Use(fn: Middleware)
      modifies this
      ensures middleware == old(middleware) + [fn]
      ensures initOptions == old(initOptions)
    {
      middleware := middleware + [fn];
    }

    /** `request(option)`: merges, runs the pipeline on a fresh context and
      settles. The core itself is left unchanged. */
    method Request(option: Options, transport: Native.Transport,
                   handle: Handling) returns (s: Settlement<Resolution>)
      modifies transport
      ensures s == RequestOutcome(initOptions, middleware, option, transport.answer, handle)
      ensures transport.issued == old(transport.issued)
        + (if AllNext(middleware) then [Merge(initOptions, option)] else [])
    {
      var ctx := new Context(Merge(initOptions, option));
      var done := Dispatch(middleware, 0, ctx, transport);
      ReachesTransportIffAllNext(middleware, ctx.req, transport.answer(ctx.req), None, None);
      s := Settle(done, ctx.res, ctx.req.errorHandler, handle);
    }
  }
}
