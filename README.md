# tarojs-request, modelled in Dafny

This project models the request orchestration of tarojs-request, a
middleware-based HTTP client built on the single native request call of the
Taro runtime (`Taro.request`). The model covers:

- how the options of a call are merged with a client's defaults
  (`mergeRequestOptions`);
- the `Core` class: its middleware list, its instance defaults, and how the
  promise returned by `request` settles, with the optional `errorHandler`;
- the terminal request step (`requestMiddleware`): it issues the native
  request, races it against an abort racer and an optional timeout racer,
  and writes `ctx.res` and `ctx.data` on success;
- the error records `RequestError` and `ResponseError`, and the racers
  `timeout2Throw` and `abort2Throw`;
- the client factory: the convenience call, `use`, `extend` and the default
  instance.

Promises become explicit outcomes: `Settlement<T>` is `Pending` (never
settles) or `Settled(at, Ok(v) | Err(e))`, where `at` is a time in
milliseconds after the request starts. `Promise.race` is `Race`: the earliest
racer decides, and on a tie the racer earlier in the list wins. The native
request is the `Native.Transport` class: each call is logged in `issued`, and
the constant function `answer` says how a request with given options settles.
An abort signal is described by the time its controller aborts, if ever. An
`errorHandler` is known by identity; what it does for a given error is the
parameter `handle` of type `Orchestrator.Handling`: it returns a value, throws,
or returns a promise that settles some milliseconds later (or never), which
`resolve` follows.

Option records are `Types.Options`. Every property is a `Field<T>`: `Absent`,
`Undefined` (present with the value `undefined`) or `Present(v)`. This keeps
the object-spread rule that a property present in the override wins even when
its value is `undefined`. The `method` property is called `httpMethod`,
because `method` is a Dafny keyword. Properties the core does not read
(`dataType`, `responseType`, ...) are kept by name in `rest`; a well-formed
record (`Types.WellFormed`) never holds a typed property's name there.

Modules follow the source files:

| module | file | source |
|---|---|---|
| `Types` | types.dfy | shapes of `src/type.ts`, object spread |
| `Errors` | errors.dfy | `RequestError`, `ResponseError` in `src/utils.ts` |
| `Native` | native.dfy | the `Taro.request` capability |
| `Racers` | racers.dfy | `timeout2Throw`, `abort2Throw` in `src/utils.ts` |
| `RequestMiddleware` | request_middleware.dfy | `src/middleware/request.ts` |
| `Pipeline` | pipeline.dfy | the composed middleware chain in `src/core.ts` |
| `Orchestrator` | core.dfy | `src/core.ts` |
| `Client` | client.dfy | `src/request.ts` |

Two behaviours of the code are worth stating outright:

- `'NONE REQUEST RESPONSE!'` is thrown inside `.then` (src/core.ts:95), so it
  reaches `.catch` and the `errorHandler` like any other failure
  (`Orchestrator.ShortCircuitHasNoResponse`, `Orchestrator.SettleWithHandler`).
- `method` is chosen with `||` (src/core.ts:28), so an empty string also
  falls back (`Orchestrator.Merge`). Because the convenience call's `method`
  parameter defaults to `'GET'` (src/request.ts:17), an instance-level
  `method` never takes effect through that call unless an empty string is
  passed explicitly (`Client.CallMethodDefaults`,
  `Client.EmptyMethodFallsBackToInstance`).

## Model

| member | source | states |
|---|---|---|
| `Types.Spread` | src/core.ts:20-22 | `{...base, ...over}` on the properties kept by name: a key of either side is kept, and the override's value wins for every key it has; well-formed records spread to a well-formed record |
| `Errors.Error.Name` | src/utils.ts:25-72 | the `name` of the two error classes and of a plain `Error`; only a plain `Error` is called "Error" |
| `Errors.NewRequestError` | src/utils.ts:25-34 | the error has name "RequestError", message `text`, the offending request, and `type` (defaulting to "RequestError") |
| `Errors.NewResponseError` | src/utils.ts:63-76 | name "ResponseError"; message is `text` when non-empty, else the native result's `errMsg`; stores response, data and request as given; `type` defaults to "ResponseError" |
| `Native.Transport.Issue` | src/middleware/request.ts:21 | one native request: logged once with exactly the given options, returns a fresh, not yet aborted task that settles as the environment answers for those options |
| `Native.RequestTask.Abort` | src/utils.ts:126 | `instance.abort()` marks the task aborted |
| `Racers.NatToDecimal` | src/utils.ts:98 | `${msec}` for a natural number is a non-empty digit string with no leading zero |
| `Racers.DecimalRoundTrip` | src/utils.ts:98 | reading the printed delay back gives the delay |
| `Racers.CanonicalRoundTrip` | src/utils.ts:98 | every canonical digit string is what some delay prints as, so printing is onto the canonical strings |
| `Racers.TimeoutMessage` | src/utils.ts:98 | a non-empty `timeoutMessage` is the message as given |
| `Racers.TimeoutMessageNamesDelay` | src/utils.ts:98 | without a custom message, the message is "timeout of ", then `${msec}` exactly as `NatToDecimal` prints it, then "ms exceeded", and those digits read back as the delay |
| `Racers.TimeoutToThrow` | src/utils.ts:93-104 | the timeout racer never fulfils: it rejects at `msec` with a RequestError of type "Timeout" carrying the request and the timeout message |
| `Racers.AbortRacer` | src/utils.ts:122-131 | the abort racer never fulfils; it never settles without a firing signal, and rejects with "__ABORTED__" when the signal fires |
| `Racers.AbortToThrow` | src/utils.ts:122-131 | settles as `AbortRacer`, and the task is aborted exactly when the signal fires |
| `RequestMiddleware.Context.constructor` | src/core.ts:82-85 | a fresh context holds the merged request and no response |
| `RequestMiddleware.Race` | src/middleware/request.ts:26-35 | `Promise.race`: pending exactly when every racer is; otherwise it is some racer, settled no later than any racer, and no racer before it in the list settled by then |
| `RequestMiddleware.Contenders` | src/middleware/request.ts:25-36 | the racers, in order, are the abort racer, the native request and, exactly when `timeout > 0`, the timeout racer for that delay, message and request |
| `RequestMiddleware.StepResponse` | src/middleware/request.ts:25-36 | the raced `response` fulfils only as the native request does: the abort and timeout racers never fulfil |
| `RequestMiddleware.StepCompletion` | src/middleware/request.ts:25-41 | the step reaches the native request and settles when the race does, at the race's time; it succeeds exactly when the race is won by a success, and then `ctx.res` is the native result and `ctx.data` its body; a failure is the race's error unchanged, and leaves `ctx.res` and `ctx.data` as they were |
| `RequestMiddleware.RequestStep` | src/middleware/request.ts:14-42 | issues the native request once with `ctx.req` unchanged; aborts the task exactly when the signal fires; on success writes `ctx.res` and `ctx.data = res.data`; on failure passes the error on and leaves them unchanged |
| `RequestMiddleware.NativeAloneDecides` | src/middleware/request.ts:32-35 | with no firing signal and no positive timeout, the step settles exactly as the native request |
| `RequestMiddleware.StepSettlesWithARacer` | src/middleware/request.ts:25-41 | the step never settles on its own: its outcome is the native one, the abort rejection or the timeout rejection; it is pending only when all are, and settles no later than the native result, the armed timeout and the firing signal |
| `RequestMiddleware.EarliestNativeWins` | src/middleware/request.ts:25-36 | a native result that arrives before the signal and the timeout is what the step yields |
| `RequestMiddleware.TimeoutScenario` | src/middleware/request.ts:25-30 | a 50ms timeout against a native request settling at 200ms rejects at 50ms with "timeout of 50ms exceeded", type "Timeout" |
| `RequestMiddleware.AbortScenario` | src/middleware/request.ts:26-29 | a signal fired at 10ms against a native request settling at 100ms rejects at 10ms with "__ABORTED__" |
| `Pipeline.Halt` | src/core.ts:86-90 | a middleware that does not call its continuation ends the pipeline at once without the native request: `Throw` fails with its error, `Respond` leaves its response in `ctx.res` |
| `Pipeline.Compose` | src/core.ts:86-90 | a run that reaches the native request ends exactly as the terminal step alone; one that does not ends at once, settled, with `ctx.data` untouched |
| `Pipeline.ReachesTransportIffAllNext` | src/core.ts:86-89 | the native request is reached exactly when every registered middleware passes control on |
| `Pipeline.AllNextRunsStep` | src/core.ts:86-89 | with only passing middleware, the pipeline behaves as the terminal step appended last |
| `Pipeline.FirstHaltDecides` | src/core.ts:86-89 | the first middleware that does not pass control on decides the pipeline; nothing after it runs |
| `Pipeline.Dispatch` | src/core.ts:86-90 | running the chain on a context changes it, and the native request log, exactly as `Compose` says, and never changes `ctx.req` |
| `Orchestrator.Merge` | src/core.ts:14-30 | method is the override's if truthy, else the base's if truthy, else "GET", so never empty; header and data are per-key unions with the override winning and no base key lost; every other property is the override's when present there, else the base's; well-formedness is kept |
| `Orchestrator.MergeAgainChangesNothing` | src/core.ts:20-29 | merging the result again with the same call options gives the same options |
| `Orchestrator.MergeIsNotAssociative` | src/core.ts:28 | merging is not associative: an inner merge's "GET" fallback hides a method set in the outer base |
| `Orchestrator.Catch` | src/core.ts:98-110 | with a handler, the call follows it: a returned value resolves, a throw rejects, a returned promise settles the call as and when it settles (or never); without one, the original error rejects at once; a native response never comes from here |
| `Orchestrator.Settle` | src/core.ts:90-110 | the call never settles before the pipeline; it resolves with a native response only when the pipeline succeeded leaving that response in `ctx.res`, and then at the pipeline's time |
| `Orchestrator.SettleWithoutHandler` | src/core.ts:90-110 | without a handler, the call resolves exactly when the pipeline succeeds with `ctx.res` set, with `ctx.res`; otherwise it rejects at once with the pipeline error or "NONE REQUEST RESPONSE!" |
| `Orchestrator.SettleWithHandler` | src/core.ts:90-110 | with a handler, every failure, the missing response included, goes to the handler, whose return resolves, whose throw rejects, and whose returned promise is followed with its delay added |
| `Orchestrator.TotalHandlerNeverRejects` | src/core.ts:99-106 | a handler that never throws and never returns a promise that rejects makes every settled call resolve |
| `Orchestrator.RequestOutcome` | src/core.ts:79-113 | without a handler a call resolves only with a response; when no middleware stops the chain, a response it resolves with is the native result, at the native settle time |
| `Orchestrator.PlainSuccessResolves` | src/core.ts:79-113 | passing middleware, no signal, no timeout and a native success: the call resolves with that exact native result |
| `Orchestrator.HandlerRecoversNativeFailure` | src/core.ts:98-103 | a native failure at `t` with a handler whose result fulfils with `v` after `d` ms resolves the call with `v` at `t + d` |
| `Orchestrator.TimeoutRejectsCall` | src/core.ts:79-110 | with only passing middleware and no handler, a 50ms timeout against a native result at 200ms makes the call reject at 50ms with "timeout of 50ms exceeded", type "Timeout", carrying the merged request |
| `Orchestrator.ShortCircuitHasNoResponse` | src/core.ts:90-97 | a middleware that returns without its continuation and without a response makes the call fail with "NONE REQUEST RESPONSE!", which the handler still sees |
| `Orchestrator.Core.constructor` | src/core.ts:47-50 | a new core has no middleware and holds the given instance options |
| `Orchestrator.Core.Use` | src/core.ts:60-65 | `use(fn)` appends `fn` at the end and changes nothing else |
| `Orchestrator.Core.Request` | src/core.ts:76-113 | `request` settles as the merged options run through the middleware and the terminal step, settled by the handler rule; the native request is issued once with the merged options exactly when no middleware stops the chain; the core is unchanged |
| `Client.CallOptions` | src/request.ts:15-19 | the convenience call's options have `url`, `data` and `method` from the arguments (when `extra` omits them, as its type requires) and every other property from `extra`; a well-formed `extra` gives well-formed options |
| `Client.CallMethodDefaults` | src/request.ts:17-19 | a call without a method is sent as "GET" to the URL passed, whatever method the instance options hold |
| `Client.EmptyMethodFallsBackToInstance` | src/request.ts:17-19 | only a call passing an empty method string, which the parameter's type rules out, is sent with the instance's method |
| `Client.Client.constructor` | src/request.ts:29-35 | `request(initOptions)` creates one new core holding `initOptions` (default `{}`) and no middleware |
| `Client.Client.Call` | src/request.ts:10-20 | the convenience call delegates to its own core's `request` once, with the built options |
| `Client.Client.Use` | src/request.ts:34 | the client's `use` appends to its own core's middleware list |
| `Client.Extend` | src/request.ts:45-49 | `extend(opts)` is `request(opts)`: a fresh client with a fresh core |
| `Client.SeparateClients` | src/request.ts:29-36 | two clients own two cores: middleware registered on one is not seen by the other |
| `Client.Library.constructor` | src/request.ts:51 | the default export is one client created at load time with empty options |

## Left out

- koa-compose is not modelled. A middleware is one of four shapes by what it does with its continuation: pass on, return, throw, or set `ctx.res` and return. Code that runs after the continuation returns, the onion order of that code, and the library's guard against calling the continuation twice are not captured. Middleware take no time and do not change `ctx.req`.
- `Taro.request` is an opaque capability: how a request settles is the function `answer`. What `abort()` does to the task's own later settlement is not modelled; by then the race is already decided.
- Real time and the event loop: timers, event listeners and promise scheduling become settle times in milliseconds. The order of racers that settle at the same time is taken to be list order. Timers that are never cleared are not modelled.
- `RequestMiddleware.RequestStep`: the abort listener stays registered after the race is decided, so `abort()` is called whenever the signal fires. The model states this eventual effect, not the moment it happens.
- A signal that is already aborted when the request starts never fires its `abort` event again; the model only has signals that fire after the request starts.
- Only object payloads are modelled for `data`; string, `ArrayBuffer` and `null` payloads are not. Header values and payload values are a small JSON-like `Value`.
- `timeout` is an integer; fractional and NaN timeouts and their printing are not modelled.
- Racers.TimeoutToThrow: the delay is an unbounded natural number. A timer delay above 2147483647 ms overflows and fires almost at once, and `Racers.NatToDecimal` prints plain digits where `${msec}` switches to exponent notation from 1e21 on; both are left out, so the model is faithful only for timeouts up to 2147483647 ms.
- `src/middleware/networkCheck.ts` is not part of this model: its only logic is one comparison around `Taro.getNetworkType`. `src/index.ts` only re-exports. `src/type.ts` has no behaviour and only shapes the datatypes.
- Generic type parameters (`ReqData`, `ResData`) are erased.
- `Core.initOptions` is a public field that callers could reassign; no operation of the model changes it. It is also aliased: `new Core(initOptions)` keeps the caller's object by reference (src/core.ts:49, src/request.ts:32) and every request spreads it again, so a caller who later mutates that object (say, sets a header) changes every later request. `Orchestrator.Core.constructor` and `Client.Client.constructor` store `Options` as a value and cannot show this.
- `Client.Library.constructor`: module loading happens once per program; the model has the constructor but cannot state that it runs only once.
