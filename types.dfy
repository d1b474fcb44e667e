/** The shapes of the records the client works with: JavaScript values,
    option records whose fields may be absent, and the native request's
    success result. These carry no behaviour. */
module Types {

  datatype Option<+T> = None | Some(value: T)

  /** A JavaScript value, as far as payloads and headers need one. */
  datatype Value =
    | Undefined
    | Null
    | Bool(b: bool)
    | Num(n: int)
    | Str(s: string)
    | Obj(fields: map<string, Value>)

  /** One property of an object literal: missing, present with the value
      `undefined`, or present with a value. Object spread copies a property
      that is present even when its value is `undefined`. */
  datatype Field<+T> = Absent | Undefined | Present(value: T)

  /** An abort signal, described by when (in milliseconds after the request
      starts) its controller aborts, if ever. */
  datatype Signal = Signal(firesAt: Option<nat>)

  /** A caller-supplied error handler, known by identity only; what it does
      when called is given to the orchestrator separately. */
  datatype Handler = Handler(id: nat)

  /** The option record of one request. `data` is restricted to object
      payloads; `rest` holds every other field of the native request
      options (dataType, responseType, ...) by name. A well-formed record
      keeps the typed properties out of `rest` (`WellFormed`). */
  datatype Options = Options(
    url: Field<string>,
    data: Field<map<string, Value>>,
    header: Field<map<string, Value>>,
    httpMethod: Field<string>,
    timeout: Field<int>,
    timeoutMessage: Field<string>,
    signal: Field<Signal>,
    errorHandler: Field<Handler>,
    rest: map<string, Value>)

  /** The names of the properties `Options` types individually. */
  const TypedKeys: set<string> :=
    {"url", "data", "header", "method", "timeout", "timeoutMessage", "signal", "errorHandler"}

  /** No property is held twice: `rest` never names a typed property. */
  predicate WellFormed(o: Options) {
    o.rest.Keys !! TypedKeys
  }

  /** The object literal `{}`. */
  const EmptyOptions: Options :=
    Options(Absent, Absent, Absent, Absent, Absent, Absent, Absent, Absent, map[])

  /** The native request's success result; `data` is the parsed response body. */
  datatype TaroResult = TaroResult(
    data: Value,
    statusCode: int,
    header: map<string, Value>,
    errMsg: string)

  /** `f || other` for a string-typed property: only a present, non-empty
      string is truthy. */
  predicate TruthyText(f: Field<string>) {
    f.Present? && f.value != ""
  }

  /** The properties of an object-typed property, where spreading `undefined`
      or a missing property contributes nothing. */
  function Entries(f: Field<map<string, Value>>): map<string, Value> {
    if f.Present? then f.value else map[]
  }

  /** The property an object spread `{...base, ...over}` keeps. */
  function Pick<T>(over: Field<T>, base: Field<T>): Field<T> {
    if over.Absent? then base else over
  }

  /** `{...base, ...over}`: every property present in `over` wins, every
      other property of `base` survives. */
  function Spread(base: Options, over: Options): (r: Options)
    ensures r.rest.Keys == base.rest.Keys + over.rest.Keys
    ensures forall k :: k in over.rest ==> r.rest[k] == over.rest[k]
    ensures forall k :: k in base.rest && k !in over.rest ==> r.rest[k] == base.rest[k]
    ensures WellFormed(base) && WellFormed(over) ==> WellFormed(r)
  {
    Options(
      Pick(over.url, base.url),
      Pick(over.data, base.data),
      Pick(over.header, base.header),
      Pick(over.httpMethod, base.httpMethod),
      Pick(over.timeout, base.timeout),
      Pick(over.timeoutMessage, base.timeoutMessage),
      Pick(over.signal, base.signal),
      Pick(over.errorHandler, base.errorHandler),
      base.rest + over.rest)
  }
}
