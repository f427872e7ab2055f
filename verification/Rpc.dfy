/** Calls, results and the handler router (kafig-go/rpc.go). Payloads are
    opaque text; handlers are arbitrary functions of the parameters and of a
    number that is fresh for every run, so a handler may behave differently
    each time it is called. */
module Rpc {
  datatype Option<+T> = None | Some(value: T)

  /** What a goroutine can report as an error. */
  datatype RpcError =
    | HandlerError(text: string)
    | HandlerPanic(what: string)
    | NotRegistered(name: string)

  /** How one run of a handler ends. */
  datatype HandlerRun =
    | Returned(value: Option<string>, err: Option<string>)
    | Panicked(what: string)

  type Handler = (string, nat) -> HandlerRun
  type Fallback = (string, string, nat) -> HandlerRun

  datatype Router = Router(
    sync: map<string, Handler>,
    async: map<string, Handler>,
    fallback: Option<Fallback>)

  /** A queued host call. `uid`, `inv` and `stale` are history: which draw made
      the promise, in which invocation the call was queued, and whether that
      happened while leftovers of an earlier invocation were being drained. */
  datatype Call = Call(uid: nat, id: nat, name: string, params: string, inv: nat, stale: bool)

  /** What a goroutine sends on the results channel. */
  datatype Result = Result(call: Call, value: Option<string>, err: Option<RpcError>)

  /** What the guest promise is told. */
  datatype Outcome = Resolved(json: string) | Rejected(err: RpcError)

  /** callWithRecover: a panic becomes an error and the value is lost. */
  function Recovered(call: Call, run: HandlerRun): Result {
    match run
    case Returned(v, e) => Result(call, v, if e.Some? then Some(HandlerError(e.value)) else None)
    case Panicked(w) => Result(call, None, Some(HandlerPanic(w)))
  }

  /** The body of one handler goroutine. */
  function RunHandler(router: Router, c: Call): Result {
    if c.name in router.async then Recovered(c, router.async[c.name](c.params, c.uid))
    else if c.name in router.sync then Recovered(c, router.sync[c.name](c.params, c.uid))
    else if router.fallback.Some? then Recovered(c, router.fallback.value(c.name, c.params, c.uid))
    else Result(c, None, Some(NotRegistered(c.name)))
  }

  /** The loop rejects if there is an error and otherwise resolves, an absent
      value being sent as JSON null. */
  function OutcomeOf(r: Result): Outcome {
    if r.err.Some? then Rejected(r.err.value)
    else Resolved(if r.value.Some? then r.value.value else "null")
  }

  function Answer(router: Router, c: Call): Outcome {
    OutcomeOf(RunHandler(router, c))
  }

  /** hostRPCSync: the handler is looked up among the synchronous ones only, then
      the fallback, and run inline. */
  function RunSyncHandler(router: Router, c: Call): Result {
    if c.name in router.sync then Recovered(c, router.sync[c.name](c.params, c.uid))
    else if router.fallback.Some? then Recovered(c, router.fallback.value(c.name, c.params, c.uid))
    else Result(c, None, Some(NotRegistered(c.name)))
  }

  function SyncAnswer(router: Router, c: Call): Outcome {
    OutcomeOf(RunSyncHandler(router, c))
  }

  /** An asynchronous registration decides alone: what else the method is
      registered as makes no difference to host.rpc. */
  lemma AsyncDecides(r: Router, c: Call, sync: map<string, Handler>, fallback: Option<Fallback>)
    requires c.name in r.async
    ensures Answer(r, c) == Answer(r.(sync := sync, fallback := fallback), c)
  {
  }

  /** Otherwise a synchronous one does, whatever the fallback. */
  lemma SyncDecides(r: Router, c: Call, async: map<string, Handler>, fallback: Option<Fallback>)
    requires c.name in r.sync
    ensures c.name !in r.async ==> Answer(r, c) == Answer(r.(fallback := fallback), c)
    ensures SyncAnswer(r, c) == SyncAnswer(r.(async := async, fallback := fallback), c)
  {
  }

  /** What a promise is told, by the handler that is found and the way its run on
      the call's own parameters ends. */
  lemma AnswerByHandler(r: Router, c: Call)
    ensures
      var run: Option<HandlerRun> :=
        if c.name in r.async then Some(r.async[c.name](c.params, c.uid))
        else if c.name in r.sync then Some(r.sync[c.name](c.params, c.uid))
        else if r.fallback.Some? then Some(r.fallback.value(c.name, c.params, c.uid))
        else None;
      Answer(r, c) == match run
        case None => Rejected(NotRegistered(c.name))
        case Some(Panicked(what)) => Rejected(HandlerPanic(what))
        case Some(Returned(_, Some(text))) => Rejected(HandlerError(text))
        case Some(Returned(Some(json), None)) => Resolved(json)
        case Some(Returned(None, None)) => Resolved("null")
  {
  }
}
