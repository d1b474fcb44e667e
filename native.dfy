/** The native request primitive the client is built on, as an opaque
    capability: each call is logged, returns a fresh in-flight task, and the
    task settles as the environment decides. */
module Native {
  import opened Types
  import opened Errors

  /** One in-flight native request: how it settles on its own, and whether
      its `abort()` has been called. */
  class RequestTask {
    const settlement: Settlement<TaroResult>
    var aborted: bool

    constructor (settlement: Settlement<TaroResult>)
      ensures this.settlement == settlement && !aborted
    {
      this.settlement := settlement;
      aborted := false;
    }

    method Abort()
      modifies this
      ensures aborted
    {
      aborted := true;
    }
  }

  /** The native request function. `answer` says how a request with the
      given options settles; `issued` records every call in order. */
  class Transport {
    const answer: Options -> Settlement<TaroResult>
    var issued: seq<Options>

    constructor (answer: Options -> Settlement<TaroResult>)
      ensures this.answer == answer && issued == []
    {
      this.answer := answer;
      issued := [];
    }

    method Issue(req: Options) returns (task: RequestTask)
      modifies this
      ensures fresh(task) && !task.aborted
      ensures task.settlement == answer(req)
      ensures issued == old(issued) + [req]
    {
      task := new RequestTask(answer(req));
      issued := issued + [req];
    }
  }
}
