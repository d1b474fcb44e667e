/** The middleware pipeline: the registered middleware, run in order,
    followed by the terminal request step. The composition library itself
    is not modelled; each middleware is described by what it does with its
    continuation. */
module Pipeline {
  import opened Types
  import opened Errors
  import opened RequestMiddleware
  import Native

  /** A middleware, by its effect on the pipeline:
      `Next` awaits its continuation and returns;
      `Stop` returns without calling its continuation;
      `Throw(e)` throws `e` without calling its continuation;
      `Respond(r)` sets `ctx.res` to `r` and returns without calling it. */
  datatype Middleware = Next | Stop | Throw(error: Error) | Respond(res: TaroResult)

  /** Every middleware passes control on. */
  predicate AllNext(chain: seq<Middleware>) {
    forall i :: 0 <= i < |chain| ==> chain[i].Next?
  }

  /** The completion of a middleware that does not call its continuation;
      middleware take no time. */
  function Halt(m: Middleware, res0: Option<TaroResult>, data0: Option<Value>): (c: Completion)
    requires !m.Next?
    ensures !c.reachedTransport && c.done.Settled? && c.done.at == 0 && c.data == data0
    ensures c.done.outcome.Err? <==> m.Throw?
    ensures m.Throw? ==> c.done.outcome.error == m.error
    ensures c.res == if m.Respond? then Some(m.res) else res0
  {
    match m
    case Stop => Completion(Settled(0, Ok(())), res0, data0, false)
    case Throw(e) => Completion(Settled(0, Err(e)), res0, data0, false)
    case Respond(r) => Completion(Settled(0, Ok(())), Some(r), data0, false)
  }

  /** What running `chain` and then the terminal step does to a context
      holding `req`, `res0` and `data0`, when the native request would
      settle as `native`. A run that reaches the native request ends exactly
      as the terminal step alone; one that does not ends at once, and only
      the terminal step writes `ctx.data`. */
  function Compose(chain: seq<Middleware>, req: Options, native: Settlement<TaroResult>,
                   res0: Option<TaroResult>, data0: Option<Value>): (c: Completion)
    ensures c.reachedTransport ==> c == StepCompletion(req, native, res0, data0)
    ensures !c.reachedTransport ==> c.done.Settled? && c.done.at == 0 && c.data == data0
    decreases |chain|
  {
    if chain == [] then StepCompletion(req, native, res0, data0)
    else if chain[0].Next? then Compose(chain[1..], req, native, res0, data0)
    else Halt(chain[0], res0, data0)
  }

  /** The native request is reached exactly when no middleware stops the
      chain. */
  lemma {:induction false} ReachesTransportIffAllNext(chain: seq<Middleware>, req: Options,
      native: Settlement<TaroResult>, res0: Option<TaroResult>, data0: Option<Value>)
    ensures Compose(chain, req, native, res0, data0).reachedTransport <==> AllNext(chain)
    decreases |chain|
  {
    if chain != [] {
      ReachesTransportIffAllNext(chain[1..], req, native, res0, data0);
      if chain[0].Next? {
        assert AllNext(chain) <==> AllNext(chain[1..]) by {
          if AllNext(chain[1..]) {
            forall i | 0 < i < |chain| ensures chain[i].Next? { assert chain[i] == chain[1..][i - 1]; }
          }
        }
      }
    }
  }

  /** When every middleware passes control on, the pipeline behaves as the
      terminal step alone. */
  lemma {:induction false} AllNextRunsStep(chain: seq<Middleware>, req: Options,
      native: Settlement<TaroResult>, res0: Option<TaroResult>, data0: Option<Value>)
    requires AllNext(chain)
    ensures Compose(chain, req, native, res0, data0) == StepCompletion(req, native, res0, data0)
    decreases |chain|
  {
    if chain != [] {
      assert AllNext(chain[1..]) by {
        forall i | 0 <= i < |chain[1..]| ensures chain[1..][i].Next? { assert chain[1..][i] == chain[i + 1]; }
      }
      AllNextRunsStep(chain[1..], req, native, res0, data0);
    }
  }

  /** The first middleware that does not pass control on decides the
      pipeline, and nothing after it runs. */
  lemma {:induction false} FirstHaltDecides(chain: seq<Middleware>, k: nat, req: Options,
      native: Settlement<TaroResult>, res0: Option<TaroResult>, data0: Option<Value>)
    requires k < |chain| && !chain[k].Next? && AllNext(chain[..k])
    ensures Compose(chain, req, native, res0, data0) == Halt(chain[k], res0, data0)
    decreases k
  {
    if k > 0 {
      assert chain[0] == chain[..k][0];
      var tail := chain[1..][..k - 1];
      assert AllNext(tail) by {
        forall i | 0 <= i < |tail| ensures tail[i].Next? { assert tail[i] == chain[..k][i + 1]; }
      }
      FirstHaltDecides(chain[1..], k - 1, req, native, res0, data0);
    }
  }

  /** Runs `chain[i..]` and then the terminal step on `ctx`, as the
      composed dispatch function does from its `i`-th middleware on. */
  method Dispatch(chain: seq<Middleware>, i: nat, ctx: Context, transport: Native.Transport) returns (done: Settlement<()>)
    requires i <= |chain|
    modifies ctx, transport
    ensures ctx.req == old(ctx.req)
    ensures var c := Compose(chain[i..], ctx.req, transport.answer(ctx.req), old(ctx.res), old(ctx.data));
      && done == c.done && ctx.res == c.res && ctx.data == c.data
      && transport.issued == old(transport.issued) + (if c.reachedTransport then [ctx.req] else [])
    decreases |chain| - i
  {
    if i == |chain| {
      ghost var task;
      done, task := RequestStep(ctx, transport);
    } else {
      match chain[i]
      case Next =>
        assert chain[i..][1..] == chain[i + 1..];
        done := Dispatch(chain, i + 1, ctx, transport);
      case Stop =>
        done := Settled(0, Ok(()));
      case Throw(e) =>
        done := Settled(0, Err(e));
      case Respond(r) =>
        ctx.res := Some(r);
        done := Settled(0, Ok(()));
    }
  }
}
