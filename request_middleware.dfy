/** The terminal request step: it issues the native request, races it
    against the abort and timeout racers, and writes the response into the
    per-call context. */
module RequestMiddleware {
  import opened Types
  import opened Errors
  import opened Racers
  import Native

  /** The per-call context threaded through the pipeline. */
  class Context {
    var req: Options
    var res: Option<TaroResult>
    var data: Option<Value>

    constructor (req: Options)
      ensures this.req == req && res == None && data == None
    {
      this.req := req;
      res := None;
      data := None;
    }
  }

  /** The context fields a pipeline run can leave behind, and whether the
      run reached the native request. */
  datatype Completion = Completion(
    done: Settlement<()>,
    res: Option<TaroResult>,
    data: Option<Value>,
    reachedTransport: bool)

  /** No racer in `racers` has settled by time `t`. */
  predicate NoneSettlesBy<T>(racers: seq<Settlement<T>>, t: nat) {
    forall j :: 0 <= j < |racers| ==> racers[j].Pending? || racers[j].at > t
  }

  /** `Promise.race`: the first racer to settle decides; a racer earlier in
      the list wins a tie. */
  function Race<T>(racers: seq<Settlement<T>>): (r: Settlement<T>)
    ensures r.Pending? <==> forall i :: 0 <= i < |racers| ==> racers[i].Pending?
    ensures forall i :: 0 <= i < |racers| && racers[i].Settled? ==> r.Settled? && r.at <= racers[i].at
    ensures r.Settled? ==> exists w :: 0 <= w < |racers| && racers[w] == r && NoneSettlesBy(racers[..w], r.at)
  {
    if racers == [] then Pending
    else
      var rest := Race(racers[1..]);
      if racers[0].Settled? && (rest.Pending? || racers[0].at <= rest.at) then racers[0]
      else
        assert rest.Settled? ==> exists w :: 0 <= w < |racers| && racers[w] == rest && NoneSettlesBy(racers[..w], rest.at) by {
          if rest.Settled? {
            var w :| 0 <= w < |racers[1..]| && racers[1..][w] == rest && NoneSettlesBy(racers[1..][..w], rest.at);
            assert racers[w + 1] == rest;
            assert racers[..w + 1] == [racers[0]] + racers[1..][..w];
          }
        }
        rest
  }

  /** `timeout && timeout > 0`: the timeout racer takes part. */
  predicate TimeoutArmed(req: Options) {
    req.timeout.Present? && req.timeout.value > 0
  }

  /** The racers, in the order they are handed to `Promise.race`. */
  function Contenders(req: Options, native: Settlement<TaroResult>): (rs: seq<Settlement<TaroResult>>)
    ensures |rs| == if TimeoutArmed(req) then 3 else 2
    ensures rs[0] == AbortRacer(req) && rs[1] == native
    ensures TimeoutArmed(req) ==> rs[2] == TimeoutToThrow(req.timeout.value, req.timeoutMessage, req)
  {
    if TimeoutArmed(req) then [AbortRacer(req), native, TimeoutToThrow(req.timeout.value, req.timeoutMessage, req)]
    else [AbortRacer(req), native]
  }

  /** What the step's `response` promise settles with. Only the native
      request can fulfil it. */
  function StepResponse(req: Options, native: Settlement<TaroResult>): (r: Settlement<TaroResult>)
    ensures r.Settled? && r.outcome.Ok? ==> r == native
  {
    var rs := Contenders(req, native);
    var r := Race(rs);
    assert r.Settled? && r.outcome.Ok? ==> r == native by {
      if r.Settled? && r.outcome.Ok? {
        var w :| 0 <= w < |rs| && rs[w] == r;
      }
    }
    r
  }

  /** The step's effect on the context: the response and its body are
      written only on success, and then hold the native result; the step
      settles when the race does, and a failure is passed on unchanged. */
  function StepCompletion(req: Options, native: Settlement<TaroResult>,
                          res0: Option<TaroResult>, data0: Option<Value>): (c: Completion)
    ensures c.reachedTransport
    ensures c.done.Settled? && c.done.outcome.Ok? ==>
      native.Settled? && native.outcome.Ok? && c.done.at == native.at
      && c.res == Some(native.outcome.value) && c.data == Some(native.outcome.value.data)
    ensures !(c.done.Settled? && c.done.outcome.Ok?) ==> c.res == res0 && c.data == data0
    ensures var r := StepResponse(req, native);
      && (c.done.Pending? <==> r.Pending?)
      && (r.Settled? ==> c.done.Settled? && c.done.at == r.at && (c.done.outcome.Ok? <==> r.outcome.Ok?))
      && (r.Settled? && r.outcome.Err? ==> c.done.outcome == Err(r.outcome.error))
  {
    match StepResponse(req, native)
    case Pending => Completion(Pending, res0, data0, true)
    case Settled(t, Ok(r)) => Completion(Settled(t, Ok(())), Some(r), Some(r.data), true)
    case Settled(t, Err(e)) => Completion(Settled(t, Err(e)), res0, data0, true)
  }

  /** `requestMiddleware(ctx)`. The ghost `task` is the native request
      instance it creates. */
  method RequestStep(ctx: Context, transport: Native.Transport) returns (done: Settlement<()>, ghost task: Native.RequestTask)
    modifies ctx, transport
    ensures ctx.req == old(ctx.req)
    ensures transport.issued == old(transport.issued) + [ctx.req]
    ensures fresh(task) && task.settlement == transport.answer(ctx.req)
    ensures task.aborted <==> SignalFires(ctx.req)
    ensures Completion(done, ctx.res, ctx.data, true)
         == StepCompletion(ctx.req, transport.answer(ctx.req), old(ctx.res), old(ctx.data))
  {
    var req := ctx.req;
    var instance := transport.Issue(req);
    task := instance;
    var abortRacer := AbortToThrow(req, instance);
    var response: Settlement<TaroResult>;
    if req.timeout.Present? && req.timeout.value > 0 {
      response := Race([abortRacer, instance.settlement, TimeoutToThrow(req.timeout.value, req.timeoutMessage, req)]);
    } else {
      response := Race([abortRacer, instance.settlement]);
    }
    match response
    case Pending =>
      done := Pending;
    case Settled(t, Ok(r)) =>
      ctx.res := Some(r);
      ctx.data := Some(r.data);
      done := Settled(t, Ok(()));
    case Settled(t, Err(e)) =>
      done := Settled(t, Err(e));
  }

  /** With no firing signal and no armed timeout, the step settles exactly
      as the native request does. */
  lemma NativeAloneDecides(req: Options, native: Settlement<TaroResult>)
    requires !SignalFires(req) && !TimeoutArmed(req)
    ensures StepResponse(req, native) == native
  {
    var rs := Contenders(req, native);
    assert rs == [Pending, native];
  }

  /** The raced response is one of the racers, settled no later than any
      of them; `StepCompletion` carries it to the step. */
  lemma StepSettlesWithARacer(req: Options, native: Settlement<TaroResult>)
    ensures var r := StepResponse(req, native);
      && (r.Pending? <==> !SignalFires(req) && !TimeoutArmed(req) && native.Pending?)
      && (r.Settled? ==> r == native || r == AbortRacer(req)
                         || (TimeoutArmed(req) && r == TimeoutToThrow(req.timeout.value, req.timeoutMessage, req)))
      && (native.Settled? ==> r.Settled? && r.at <= native.at)
      && (TimeoutArmed(req) ==> r.Settled? && r.at <= req.timeout.value)
      && (SignalFires(req) ==> r.Settled? && r.at <= req.signal.value.firesAt.value)
  {
    var rs := Contenders(req, native);
    if TimeoutArmed(req) {
      assert rs[2].Settled? && rs[2].at == req.timeout.value;
    }
    if SignalFires(req) {
      assert rs[0].Settled? && rs[0].at == req.signal.value.firesAt.value;
    }
    var r := StepResponse(req, native);
    if r.Settled? {
      var w :| 0 <= w < |rs| && rs[w] == r;
    }
  }

  /** A native result that arrives strictly before the signal fires and
      before the timeout elapses is what the step yields. */
  lemma EarliestNativeWins(req: Options, native: Settlement<TaroResult>)
    requires native.Settled?
    requires SignalFires(req) ==> native.at < req.signal.value.firesAt.value
    requires TimeoutArmed(req) ==> native.at < req.timeout.value
    ensures StepResponse(req, native) == native
  {
    var rs := Contenders(req, native);
    var r := StepResponse(req, native);
    var w :| 0 <= w < |rs| && rs[w] == r;
    assert r.at <= native.at;
  }

  /** A timeout of 50ms against a native request settling at 200ms: the
      step rejects at 50ms with "timeout of 50ms exceeded". */
  lemma TimeoutScenario(req: Options, result: TaroResult)
    requires req.timeout == Present(50) && !TruthyText(req.timeoutMessage) && !SignalFires(req)
    ensures StepResponse(req, Settled(200, Ok(result)))
         == Settled(50, Err(RequestError("timeout of 50ms exceeded", req, "Timeout")))
  {
    assert NatToDecimal(50) == "50";
    assert TimeoutMessage(50, req.timeoutMessage) == "timeout of 50ms exceeded";
    var rs := Contenders(req, Settled(200, Ok(result)));
    var r := StepResponse(req, Settled(200, Ok(result)));
    var w :| 0 <= w < |rs| && rs[w] == r;
    assert rs[2].Settled? && rs[2].at == 50;
    assert r.at <= 50;
  }

  /** A signal fired at 10ms against a native request settling at 100ms:
      the step rejects at 10ms with the abort marker. */
  lemma AbortScenario(req: Options, result: TaroResult)
    requires req.signal == Present(Signal(Some(10)))
    requires TimeoutArmed(req) ==> req.timeout.value > 10
    ensures StepResponse(req, Settled(100, Ok(result))) == Settled(10, Err(PlainError(AbortedMarker)))
  {
    var rs := Contenders(req, Settled(100, Ok(result)));
    var r := StepResponse(req, Settled(100, Ok(result)));
    var w :| 0 <= w < |rs| && rs[w] == r;
    assert rs[0].Settled? && rs[0].at == 10;
    assert r.at <= 10;
  }
}
