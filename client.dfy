/** The public surface: a client built around its own `Core`, its
    convenience call, `extend` and the default instance. */
module Client {
  import opened Types
  import opened Errors
  import opened Pipeline
  import opened Orchestrator
  import Native

  /** The `data` property of the call's option literal: an argument that is
      not passed is present with the value `undefined`. */
  function DataField(data: Option<map<string, Value>>): Field<map<string, Value>> {
    if data.Some? then Present(data.value) else Field.Undefined
  }

  /** The extra options omit `url`, `data` and `method`, as their type
      requires. */
  predicate OmitsPositional(extra: Options) {
    extra.url.Absent? && extra.data.Absent? && extra.httpMethod.Absent?
  }

  /** `{ url, data, method, ...extra }`. */
  function CallOptions(url: string, data: Option<map<string, Value>>, httpMethod: string, extra: Options): (r: Options)
    ensures OmitsPositional(extra) ==>
      r.url == Present(url) && r.data == DataField(data) && r.httpMethod == Present(httpMethod)
    ensures r.header == extra.header && r.timeout == extra.timeout
    ensures r.timeoutMessage == extra.timeoutMessage && r.signal == extra.signal
    ensures r.errorHandler == extra.errorHandler && r.rest == extra.rest
    ensures WellFormed(extra) ==> WellFormed(r)
  {
    var literal := EmptyOptions.(url := Present(url), data := DataField(data), httpMethod := Present(httpMethod));
    Spread(literal, extra)
  }

  /** A call that passes no method is sent as "GET" to the URL passed,
      whatever method the instance options hold: the defaulted argument is
      always a non-empty string, so the merge never falls back to the
      instance's method. */
  lemma CallMethodDefaults(initOptions: Options, url: string, data: Option<map<string, Value>>, extra: Options)
    requires OmitsPositional(extra)
    ensures var req := Merge(initOptions, CallOptions(url, data, "GET", extra));
      req.httpMethod == Present("GET") && req.url == Present(url)
  {
  }

  /** The instance's method is used only by a call that passes an empty
      method string explicitly. */
  lemma EmptyMethodFallsBackToInstance(initOptions: Options, url: string, data: Option<map<string, Value>>,
                                       extra: Options)
    requires OmitsPositional(extra) && TruthyText(initOptions.httpMethod)
    ensures Merge(initOptions, CallOptions(url, data, "", extra)).httpMethod == initOptions.httpMethod
  {
  }

  /** A client: the convenience call plus `use`, both bound to one `Core`. */
  class Client {
    const core: Core

    /** `request(initOptions)`, whose `initOptions` defaults to `{}`. */
    constructor (initOptions: Options := EmptyOptions)
      ensures fresh(core)
      ensures core.initOptions == initOptions && core.middleware == []
    {
      core := new Core(initOptions);
    }

    /** `instance(url, data, method, extra)`: one `core.request` call with
      the option literal built from the arguments. */
    method Call(transport: Native.Transport, handle: Handling,
                url: string, data: Option<map<string, Value>> := None,
                httpMethod: string := "GET", extra: Options := EmptyOptions)
      returns (s: Settlement<Resolution>)
      modifies transport
      ensures s == RequestOutcome(core.initOptions, core.middleware, CallOptions(url, data, httpMethod, extra),
                                  transport.answer, handle)
      ensures transport.issued == old(transport.issued)
        + (if AllNext(core.middleware) then [Merge(core.initOptions, CallOptions(url, data, httpMethod, extra))] else [])
    {
      s := core.Request(CallOptions(url, data, httpMethod, extra), transport, handle);
    }

    /** `instance.use`, bound to this client's core. */
    method Use(fn: Middleware)
      modifies core
      ensures core.middleware == old(core.middleware) + [fn]
      ensures core.initOptions == old(core.initOptions)
    {
      core.Use(fn);
    }
  }

  /** `extend(initOptions)`: a new client, as `request(initOptions)`. */
  method Extend(initOptions: Option<Options> := None) returns (c: Client)
    ensures fresh(c) && fresh(c.core)
    ensures c.core.initOptions == (if initOptions.Some? then initOptions.value else EmptyOptions)
    ensures c.core.middleware == []
  {
    if initOptions.Some? {
      c := new Client(initOptions.value);
    } else {
      c := new Client();
    }
  }

  /** Two clients own two cores: middleware registered on one is not seen
      by the other. */
  method SeparateClients(fn: Middleware) returns (a: Client, b: Client)
    ensures a.core != b.core
    ensures a.core.middleware == [fn] && b.core.middleware == []
  {
    a := Extend();
    b := Extend();
    a.Use(fn);
  }

  /** Loading the module: the default export is one client with empty
      instance options, created once. */
  class Library {
    const defaultInstance: Client

    constructor ()
      ensures fresh(defaultInstance) && fresh(defaultInstance.core)
      ensures defaultInstance.core.initOptions == EmptyOptions && defaultInstance.core.middleware == []
    {
      defaultInstance := new Client();
    }
  }
}
