# Kafig: a verified model of the host/guest protocol

Kafig runs JavaScript in QuickJS inside a WebAssembly guest and answers the
guest's RPC calls from Go. This project models the parts of it that are hard to
get right by reading, and proves what they guarantee.

**RPC settlement.** A single-threaded Go loop, any number of handler goroutines
sharing a 16-slot channel, and a JavaScript table of pending promises on the
other side of the boundary. `Protocol` is the transition system: a guest segment
is an arbitrary finite trace of actions (make a promise, reach the host, report a
result, report an error, and the script's own calls of `__resolve_rpc`,
`__reject_rpc` and `__reset`, which are left on `globalThis`), the scheduler picks any goroutine at any time, handlers
return, fail or panic at will and may behave differently on every run, and
invocations follow each other on the same instance while goroutines of earlier
ones are still running. A `Draw` that is never followed by its `Send` is a
serialisation that threw after the table entry was inserted. Calls issued while
leftovers of an earlier invocation are drained are marked `stale`.
When a result is fed back, the payload may not fit, the settlement function may be
interrupted before its lookup, after the deletion or after the settlement and be
reported as a script error, or the export may trap. The `__reset` of a clean-up may
be interrupted too, which the code ignores.
`ProtocolProofs` shows that every step keeps one invariant; `ProtocolTheorems`,
`ProtocolLiveness`, `FastPath` and `Reports` draw the conclusions. `PromiseTable`,
`CallQueue`, `Goroutines` and `Instance` are the same code as objects that update
their fields in place, each method proved to take exactly the protocol's steps,
so that what is proved of all runs holds of them.

**Error wire format.** `JsonText` and `ErrorWire`: the guest's hand-written JSON
printer, a decoder following RFC 8259 (sections 2 to 7) with the choices of Go's
`encoding/json` (case-folded keys, last member wins, lone surrogates become
U+FFFD), and classification on both sides.

**Buffers.** `LinearMemory`: guest memory as bytes, an allocator that may hand out
any free block, exact-size frees as preconditions, nested buffers written by the
host during a running call, and 64-bit words that pack a pointer and a length.

**Interrupt accounting.** `Interrupts`: the guest's opcode counters and the CLI's
limit, over executions made of many segments, rejections and drains.

**CLI forwarding.** `Forwarder` is the transition system of `rpcForwarder` and
the JSON mode around it; `ForwardCalls` is the forwarder as an object with its map
of channels. `DigitGroups` is the CLI's number formatting.

## Where the code does less than it says

Each of these is a proved statement about the code, not an opinion of the model.

- `PROTOCOL.md:269-270` says that no RPC is pending when the result is reported.
  `ProtocolLiveness.ResultCanPrecedeAnswers` is a run in which one is. At any moment
  of an export none is pending if and only if the script holds no unsettled promise
  whose call reached the host, the drain left no call, and the script itself took no
  entry out whose call is outstanding (`ProtocolTheorems.ResultIsFinalIff`).
- `kafig-runtime/src/prelude.js:3-4` says that user code cannot tamper with
  `__resolve_rpc` and `__reject_rpc`. It cannot replace them, but it can call them
  and `__reset`: `ProtocolLiveness.ScriptCanSettleAhead` is a run in which a script
  settles its own promise while the host still has the call. Exactly the promises
  in `State.removed` are affected: their calls find no entry, and the host never
  settles them (`ProtocolTheorems.TablesAgree`, `SettledOnceAndInOwnInvocation`);
  every other promise still gets its own answer (`NilReturnSettlesEveryCall`).
- The drain of stale jobs comes after the host's reset, so a stale job's report
  counts as the new invocation's (`Reports.StaleJobCanAnswer`). The error, or the
  result, that an invocation is left with is its own if and only if it reported one
  itself or no drained job did (`Reports.ReplyIsOwnIff`).
- `kafig-go/instance.go:362-365` says that goroutines never block. That holds once
  their loop has returned (`ProtocolLiveness.ReturnedLoopsLeaveNoneBlocked`),
  but the loop itself does not watch the caller's context. Once that is done, the
  loop can block for ever if and only if some launched call has its result outside
  the channel (`ProtocolLiveness.DoneContextMayBlockIff`); before, every schedule
  returns (`EveryScheduleReturns`).
- Promise ids are 31 bits wide. An answer that finds an entry reaches its own
  promise if and only if fewer than 2^31 promises were made since
  (`ProtocolTheorems.AnswerReachesItsOwnPromiseIff`; `ProtocolLiveness.IdReuseMisroutes`
  is a run in which it does not).
- `kafig-runtime/src/tracking.rs:56-62` says that the drain does not affect the
  next invocation's tracking. The counters are indeed untouched, but a drained
  rejection that the host answers with an interrupt leaves the new invocation
  force-interrupted (`Interrupts.DiscardKeepsCounters`, both directions).
- The failure of `__reset` is ignored (`kafig-runtime/src/tracking.rs:98-102`), and
  the flag that asks for a clean-up is down by then. Entries of sent calls are left
  behind if and only if calls were made, `__reset` was interrupted, and there were
  such entries before the drain or a drained job made a call (`FastPath.SentEntriesLeftIff`,
  `InterruptedResetLeavesSentEntries`). No outstanding call can reach them.
- `Deliver` blocks exactly when an answer already placed for that call was not
  taken (`Forwarder.DeliverBlocksIffUnread`), and it is blocked for good exactly
  when that Forward has passed its select (`BlockedForEverIff`;
  `SecondAnswerCanWedgeTheReader` is such a run).
- While a command executes, an answer to a waiting request gets through, without
  the execution ending or the request being cancelled, if and only if no other kind
  of line is ahead of it (`Forwarder.AnswerArrivesIff`; `EarlyCommandCanDeadlock` is a
  run in which one is).
- `kafig-go/instance.go:540` says that `hostRPCSync` returns 0 when no handler is
  found. It returns 0 if and only if memory is refused
  (`LinearMemory.Memory.HostRPCSync`), and a missing handler is answered with a
  tagged error (`LinearMemory.ErrorTagIff`).

`PROTOCOL.md` also still describes `set_interrupt` and a global `__pendingRpcs`; the
model follows the code.

## Model

| member | source | states |
|---|---|---|
| `ProtocolProofs.StepKeepsInv` | kafig-go/instance.go:357-443 | every step of the host, the guest or a goroutine keeps the eleven-part invariant: numbering, conservation, results belong to their handlers, isolation, flagging, cleanliness, agreement of the tables, ownership of slots, the settlement log, draining, service |
| `ProtocolProofs.RunKeepsInv` | kafig-go/instance.go:357-443 | the invariant holds at the end of every run, with or without the clean-up fast path |
| `ProtocolTheorems.EveryCallInOnePlace` | kafig-go/instance.go:369-399 | at every point of every run each call queued in this invocation is in exactly one of queued, in its handler, ready, in the channel, dropped, settled, lost (received, but its settlement failed); nothing else is in any; `inflight` counts exactly those launched and not received; a result is dropped only once the context is done |
| `ProtocolTheorems.SettledOnceAndInOwnInvocation` | kafig-runtime/src/prelude.js:25-40 | over every run the host settles a promise at most once, never one whose entry a script took out, only by a call queued in its own invocation, and with that call's handler outcome, however late old goroutines finish and even after an id clash |
| `ProtocolTheorems.SettledAsTheHandlerEnded` | kafig-go/instance.go:417-433 | every promise the host settles is told what the call's asynchronous handler, else its synchronous one, else the fallback ended with on the call's parameters: the value, null for none, a rejection for an error, a panic or a missing handler |
| `ProtocolTheorems.FirstRegistrationDecides` | kafig-go/rpc.go:26-29 | whatever else the method is registered as, an asynchronous registration alone decides the outcome, and without one a synchronous registration does |
| `Rpc.AsyncDecides` | kafig-go/instance.go:417-420 | replacing the synchronous handlers and the fallback changes nothing for a method with an asynchronous handler |
| `Rpc.SyncDecides` | kafig-go/instance.go:555-558 | replacing the fallback, and for `host.rpcSync` the asynchronous handlers too, changes nothing for a method with a synchronous handler |
| `Rpc.AnswerByHandler` | kafig-go/instance.go:379-390 | what a promise is told for each way the handler that is found can end |
| `ProtocolTheorems.SettledByOwnCall` | kafig-runtime/src/prelude.js:17-40 | without an id clash the settling call is the promise's own: it carries the method and parameters with which that promise reached the host, and the outcome is the handler's on them |
| `ProtocolTheorems.SentIsOwnRequest` | kafig-runtime/src/prelude.js:17-23 | the request recorded for a promise is the method given when it was made and the text of its own host call, and neither changes |
| `ProtocolTheorems.NilReturnSettlesEveryCall` | kafig-go/instance.go:375-401 | when the loop returns nil, every call queued in the invocation was fed back exactly once, none was dropped or lost, and each promise got its own answer unless the drain made it or the script took its entry out |
| `ProtocolTheorems.ResultsKeepTheirOrder` | kafig-go/instance.go:369-377 | results are settled in the order in which they were sent: over every run of the loop, what was settled and then what was in the channel stay in front, and goroutines only add at the end |
| `ProtocolTheorems.BreakTakesTheFront` | kafig-go/instance.go:376-389 | an iteration that ends the loop takes the oldest result too, and counts it as settled exactly when it was |
| `ProtocolTheorems.ChannelHoldsSixteen` | kafig-go/instance.go:369 | over every run the channel holds at most 16 results, and a finished handler can send exactly when it holds fewer |
| `ProtocolTheorems.StartsLoopIff` | kafig-go/instance.go:207-211 | an invocation has a service loop if and only if it is asynchronous and queued a call, all its calls being launched then; a synchronous one launches none |
| `ProtocolTheorems.LoopGoesOnIff` | kafig-go/instance.go:392-398 | after an iteration the loop goes on if and only if no error is held and a call is launched or in flight; calls queued by an iteration that ends in an error are never launched |
| `ProtocolTheorems.TablesAgree` | kafig-go/instance.go:375-442 | between exports and at every moment inside them, before any error: every guest entry of the invocation whose call reached the host is outstanding on the host, and after a clean-up there are no others; every outstanding call has its entry unless the drain issued it or a script took the entry out, in which case it has none; without such calls the two sets are equal |
| `ProtocolTheorems.ResultIsFinalIff` | PROTOCOL.md:268-270 | whenever a script reports a result, no call is pending if and only if it holds no unsettled promise whose call reached the host, the drain left none, and no outstanding call's entry was taken out by the script |
| `ProtocolTheorems.ClashIff` | kafig-runtime/src/prelude.js:15-21 | with the counter below 2^53 a draw takes an id in use if and only if some outstanding or unsent promise is a multiple of 2^31 draws old |
| `ProtocolTheorems.ClashNeedsFullWindow` | kafig-runtime/src/prelude.js:15-21 | inserting never overwrites an entry in use while fewer than 2^31 ids were drawn since the oldest outstanding or unsent promise |
| `ProtocolTheorems.YoungRunNeverClashes` | kafig-runtime/src/prelude.js:15-21 | no id clashes in any run each of whose draws finds every outstanding or unsent promise less than 2^31 draws old, however many ids an invocation draws |
| `ProtocolTheorems.AnswerReachesItsOwnPromiseIff` | kafig-runtime/src/prelude.js:17-40 | an iteration whose answer finds an entry settles one promise if its settlement function got that far and none otherwise; that promise is the call's own if and only if fewer than 2^31 promises were made since |
| `ProtocolLiveness.LoopRunCosts` | kafig-go/instance.go:375-438 | work is conserved: each step of the loop and its goroutines lowers calls still to queue, launch, finish and receive by one, in any order |
| `ProtocolLiveness.LoopTerminates` | kafig-go/instance.go:375-401 | if the guest issues N calls in all, no schedule takes more than 3N steps, and a nil return takes exactly N iterations |
| `ProtocolLiveness.StuckIffAllDropped` | kafig-go/instance.go:375-376 | the loop is blocked for ever if and only if every launched call was dropped, which needs a done context; otherwise something can move, however many senders wait for the 16 slots |
| `ProtocolLiveness.EveryScheduleReturns` | kafig-go/instance.go:375-401 | while the context is not done every schedule is finite, and when nothing can move any more the loop has returned, with every call settled once if it was not cut short |
| `ProtocolLiveness.DoneContextMayBlockIff` | kafig-go/instance.go:375-376 | once the context is done, some schedule in which the guest issues nothing more blocks the loop for ever if and only if a launched call has its result outside the channel (with an error already reported: if and only if the channel is empty) |
| `ProtocolLiveness.ReceiveIsEventuallyEnabled` | kafig-go/instance.go:369-376 | goroutines alone take boundedly many steps, and when none can move a result is waiting |
| `ProtocolLiveness.CallerCancelCanBlockTheLoop` | kafig-go/instance.go:435-438 | a run in which the caller's context is done and the loop blocks for ever |
| `ProtocolLiveness.ResultCanPrecedeAnswers` | PROTOCOL.md:268-270 | a run in which the result is reported while a call is outstanding; `ResultIsFinalIff` has the condition |
| `ProtocolLiveness.ScriptCanSettleAhead` | kafig-runtime/src/prelude.js:61-63 | a run in which a script settles its own promise and reports a result while the host still has the call |
| `ProtocolLiveness.ReturnedLoopsLeaveNoneBlocked` | kafig-go/instance.go:362-367 | over every run, each finished handler of a loop that has returned can go on past its send at once |
| `Reports.ReplyIsOwnIff` | kafig-runtime/src/result.rs:98-139 | the error, and the result, that an invocation is left with is its own if and only if it reported one or no drained stale job did; one is held at all if and only if either did |
| `Reports.StepsReport` | kafig-go/instance.go:611-627 | after any steps the host holds the last error and the last result that the guest reported in them, or what it held before |
| `Reports.LastReportIsHeld` | kafig-go/instance.go:620-626 | the last report of a kind is the one that is held, and errors and results do not displace each other |
| `Reports.StaleJobCanAnswer` | kafig-runtime/src/tracking.rs:79-81 | a run in which a drained job's error is the next invocation's |
| `ProtocolLiveness.IdReuseMisroutes` | kafig-runtime/src/prelude.js:18-20 | a run of 2^31 further promises in which the first call's answer settles a later promise |
| `FastPath.FastPathRefinesAlwaysCleaning` | kafig-runtime/src/tracking.rs:64-72 | every run with the fast path is a run with a clean-up before each invocation, with the same settlements by the host, in the same order, the same queue, result and error, and the same slot for every outstanding call |
| `FastPath.StepRefines` | kafig-runtime/src/tracking.rs:64-103 | each step keeps the two sides equal up to leftover entries that no outstanding call or unsent promise can reach |
| `FastPath.FastPathLeavesOnlyFailedSends` | kafig-runtime/src/init.rs:85-96 | when the flag is down and the last `__reset` was not interrupted, no leftover entry belongs to a call that reached the host |
| `FastPath.SentEntriesLeftIff` | kafig-runtime/src/tracking.rs:96-102 | entries of sent calls outlive a clean-up if and only if calls were made, `__reset` was interrupted, and there was such an entry before the drain or a drained job made a call, provided the drained jobs take no entry out and reuse no id |
| `FastPath.InterruptedResetLeavesSentEntries` | kafig-runtime/src/tracking.rs:98-102 | a run that ends with the flag down and such an entry in the table |
| `PromiseIds.MaskedIsModulo` | kafig-runtime/src/prelude.js:18 | `& 0x7FFFFFFF` after ToInt32 (section 7.1.6 of ECMA-262) is the counter modulo 2^31 |
| `PromiseIds.FirstIds` | kafig-runtime/src/prelude.js:15-18 | the first promises have the ids 1, 2, 3 and so on, up to 2^31 - 1 |
| `PromiseIds.IdSurvivesCrossing` | kafig-go/instance.go:457 | an id survives the i32, uint32, uint64, i32 crossings unchanged |
| `PromiseTable.Prelude.MakeRpcPromise` | kafig-runtime/src/prelude.js:17-23 | draws the protocol's id for this draw number and inserts exactly one entry |
| `PromiseTable.Prelude.SettleRpc` | kafig-runtime/src/prelude.js:25-40 | deletes and settles the entry of this id once, as far as the call gets; an unknown id changes nothing |
| `PromiseTable.Prelude.ScriptSettles` | kafig-runtime/src/prelude.js:61-63 | a script's own call deletes the entry and is not among the host's settlements |
| `PromiseTable.Prelude.Reset` | kafig-runtime/src/prelude.js:54-56 | empties the table and keeps the id counter |
| `CallQueue.Slice.Append` | kafig-go/instance.go:527-531 | appending to the slice appends to the abstract queue, in place or in a new array |
| `CallQueue.Slice.Truncate` | kafig-go/instance.go:409-410 | truncation empties the abstract queue and leaves the backing array alone |
| `Goroutines.Pool.Take` | kafig-go/instance.go:413-439 | one move of a handler goroutine is the protocol's move, and leaves what is in the channel in front |
| `Goroutines.Pool.Receive` | kafig-go/instance.go:376 | any scheduling before the receive is a run of goroutine moves; what was in the channel before comes out first, in its order; the receive blocks only in a stuck state |
| `Instance.Instance.HostRPC` | kafig-go/instance.go:513-532 | one call is queued at the end and nothing else changes |
| `Instance.Instance.HostSetResult` | kafig-go/instance.go:620-626 | sets either the error or the result and leaves the other |
| `Instance.Instance.CallHost` | kafig-runtime/src/init.rs:87-96 | raises the clean-up flag and queues the call with the id stored in its frame |
| `Instance.Instance.Execute` | kafig-runtime/src/rpc.rs:33-40 | a guest segment takes exactly the protocol's segment for its trace |
| `Instance.Instance.DiscardStaleState` | kafig-runtime/src/tracking.rs:64-103 | fast path, drain and reset, the latter possibly interrupted, are the protocol's clean-up |
| `Instance.Instance.ResetForInvocation` | kafig-go/instance.go:629-635 | results, errors and the queue are cleared, the backing array is kept |
| `Instance.Instance.LaunchPendingRPCs` | kafig-go/instance.go:408-443 | the goroutines get exactly the queue's contents, in order, although the batch aliases the truncated queue; returns their number |
| `Instance.Instance.FeedBack` | kafig-go/instance.go:446-481 | a settled result with the guest's reaction, a settlement function that threw on its way and was reported, a trap, or a payload that could not be allocated: each leaves the protocol's state, and exactly the last two are errors of the call |
| `Instance.Instance.Iterate` | kafig-go/instance.go:379-398 | one loop body is one protocol iteration, stopping with the script's error or the feed error exactly when the protocol does |
| `Instance.Instance.ServiceRPCLoop` | kafig-go/instance.go:357-402 | the loop extends the run by goroutine moves and exactly the iterations its script prescribes; it terminates; nil means nothing outstanding and that every export came back; the feed error means that the last one could not be called or trapped, an error return carries the script's error; it blocks only in a stuck state |
| `Instance.Instance.Invoke` | kafig-go/instance.go:180-220 | an invocation extends the run by its first step and its loop; each kind of return happens under the stated condition; the error and the value are the last that the body and the iterations reported or, failing that, the drained jobs, the error being what `ErrorWire.ParseErrorJson` reads in its text |
| `Instance.AnsweredInvocation` | kafig-go/instance.go:207-219 | after an asynchronous invocation that replied, every call it queued was answered exactly once, with its own handler's outcome |
| `LinearMemory.PackRoundTrip` | kafig-go/instance.go:605 | for every non-null 32-bit pointer and 32-bit length the packed word is pointer * 2^32 + length, non-zero, fits 64 bits and unpacks to both |
| `LinearMemory.Memory.WasmAlloc` | kafig-go/instance.go:661-676 | a fresh block of the clamped size, or, exactly when memory is refused, an error and no block |
| `LinearMemory.Memory.WasmDealloc` | kafig-go/instance.go:678-683 | frees a live block of exactly the clamped size, and only that |
| `LinearMemory.Memory.Alloc` | kafig-runtime/src/alloc.rs:2-8 | null for length zero or no memory, else a block that overlaps no live one |
| `LinearMemory.Memory.Dealloc` | kafig-runtime/src/alloc.rs:11-17 | nothing for null or zero, else removes the one block, whose size must match |
| `LinearMemory.Memory.WriteSyncRPCResult` | kafig-go/instance.go:594-606 | 0 and no block exactly when memory is refused, else a word that unpacks to a fresh block holding the tag and the payload |
| `LinearMemory.Memory.HostRPCSync` | kafig-go/instance.go:541-590 | 0 exactly when memory is refused; otherwise the block holds the outcome of the sync handler, else the fallback, else an error |
| `LinearMemory.ErrorTagIff` | kafig-go/instance.go:555-589 | the tag is an error if and only if no handler was found or its run failed or panicked; a method without a handler is answered with its own error |
| `LinearMemory.Memory.RpcSyncNative` | kafig-runtime/src/init.rs:111-152 | unavailable exactly when memory is refused; else the guest returns the value, or null for none, with which the synchronous handler or the fallback returned, and throws the error, the panic or the missing method, byte for byte; the host's buffer is freed exactly once, unless the guest dies in between |
| `LinearMemory.DeliveredByHandler` | kafig-go/instance.go:555-589 | the same for each way the handler that is found can end |
| `LinearMemory.Memory.WithBuffer` | kafig-go/instance.go:190-205 | after success, trap or failed allocation the live buffers are those of before, bar one result buffer of a guest that died between reading and freeing it; every other buffer keeps its bytes; the guest sees the input; with no memory refused the result is determined by the guest alone |
| `LinearMemory.Memory.DispatchEvent` | kafig-go/instance.go:283-312 | the same with two buffers, including a failed second allocation |
| `LinearMemory.Memory.CompileBytecode` | kafig-go/runtime.go:198-241 | bytecode is returned if and only if the source and the bytecode are non-empty, nothing traps and no memory is refused, and it is the guest's byte for byte; both buffers are freed |
| `LinearMemory.Memory.Compile` | kafig-runtime/src/eval.rs:135-147 | 0 exactly when there is no bytecode or memory is refused, else a word that unpacks to a fresh block holding the bytecode |
| `JsonText.JsonEscapeString` | kafig-runtime/src/error.rs:64-82 | the printing loop computes the specification that the round trips are about |
| `JsonText.EscapeTable` | kafig-runtime/src/error.rs:68-78 | each character's printed form: the five short escapes, `\u00` and two small hexadecimal digits for other control characters, itself otherwise |
| `JsonText.DecodeEscaped` | kafig-runtime/src/error.rs:64-82 | a decoder for section 7 of RFC 8259 applied to the printed string with any text behind it returns the string and stops after its closing quote |
| `JsonText.DecodesEscapes` | kafig-go/errors.go:46 | the decoder reads each short escape of section 7 of RFC 8259 as its character and refuses any other letter |
| `JsonText.SurrogatePair` | kafig-go/errors.go:46 | every character beyond U+FFFF is read from its surrogate pair |
| `JsonText.LoneSurrogate` | kafig-go/errors.go:46 | a surrogate that is not half of a pair is read as U+FFFD |
| `JsonText.SpaceAround` | kafig-go/errors.go:46 | white space around a document makes no difference |
| `JsonText.BodyIsClean` | kafig-runtime/src/error.rs:66-79 | inside the quotes there is no control character and every quote is escaped |
| `JsonText.ParsePrinted` | kafig-runtime/src/error.rs:17-33 | printer and parser are inverse on objects of strings and nulls, for all keys and values |
| `ErrorWire.ExceptionArrivesAs` | kafig-runtime/src/error.rs:3-61 | by its message alone: "interrupted" arrives as cpu_limit_exceeded, one containing "out of memory" as memory_limit_exceeded, any other containing "stack" as stack_overflow, and all others as the JavaScript error itself |
| `ErrorWire.RejectionArrivesAs` | kafig-runtime/src/result.rs:127-136 | the same for a rejected result promise, whose empty stack arrives as none |
| `ErrorWire.UnclassifiedArrivesAs` | kafig-go/errors.go:71-74 | the same for a runtime error that was sent without a classification |
| `ErrorWire.ExceptionOnTheWire` | kafig-runtime/src/error.rs:17-61 | the members that the guest puts on the wire for an exception, in each of these cases |
| `ErrorWire.AnyTextIsRead` | kafig-go/errors.go:42-82 | any text is read as a JavaScript error, as a runtime error with its own code or that of its message, or is kept whole |
| `ErrorWire.LastMemberDecides` | kafig-go/errors.go:43-46 | of several members with a field's name the last decides, null leaves the field alone, another kind of value is an error |
| `ErrorWire.KeysFold` | kafig-go/errors.go:43-46 | a key names a field if and only if it differs in case only |
| `ErrorWire.JsErrorRoundTrip` | kafig-runtime/src/error.rs:17-33 | every js_error payload, in particular every one sent by the rejection tracker, decodes to exactly the name, message and stack that went in |
| `ErrorWire.RuntimeErrorRoundTrip` | kafig-go/errors.go:63-75 | every runtime error the guest sends arrives with its message and the code of that message, even when it was sent unclassified |
| `ErrorWire.ExceptionRoundTrip` | kafig-runtime/src/error.rs:54-61 | for all names, messages and stacks a thrown exception arrives as its classified runtime error or else as itself |
| `ErrorWire.RejectionRoundTrip` | kafig-runtime/src/result.rs:127-136 | the same for a rejected result promise, whose empty stack arrives as none |
| `ErrorWire.ExceptionsAreToldApart` | kafig-go/errors.go:42-82 | the payload determines the message, and name and stack where no code applies |
| `Interrupts.Tracking.SampleElapsedUs` | kafig-runtime/src/tracking.rs:23-34 | overwrites the sample while an export runs, else keeps it |
| `Interrupts.Tracking.InterruptHandler` | kafig-runtime/src/init.rs:30-41 | the closure computes the specified answer and counters |
| `Interrupts.Tracking.ResetExecutionStats` | kafig-runtime/src/tracking.rs:47-54 | counters, clock and next check as specified |
| `Interrupts.Tracking.DiscardStaleState` | kafig-runtime/src/tracking.rs:64-94 | saving, draining and restoring compute the specified counters for any drained events |
| `Interrupts.DiscardKeepsCounters` | kafig-runtime/src/tracking.rs:74-94 | the drain changes no counter; it leaves a forced interrupt if and only if a drained rejection asked for one, and the clean-up flag up if and only if a drained job reached the host |
| `Interrupts.NextCheckIsNear` | kafig-runtime/src/tracking.rs:20-21 | the next check is at most one interval ahead of the count in every run, resets and drains included |
| `Interrupts.RunIsSpaced` | kafig-runtime/src/init.rs:30-41 | in any run without resets the host is asked exactly at every ceil(k/10000)-th counted poll |
| `Interrupts.ConsultationsAreEvenlySpaced` | kafig-runtime/src/init.rs:34-38 | consecutive questions to the host are exactly 10000 * ceil(k/10000) counted opcodes apart, for every interval k |
| `Interrupts.EveryPollAsks` | kafig-runtime/src/tracking.rs:20-21 | with the interval the guest is built with, no counted poll skips the host |
| `Interrupts.OpcodeBudget` | kafig-cli/session.go:108-110 | in one execution with limit M, over all its segments, at most floor(M/10000) polls let the script go on, none past M; once past M every poll stops it; the first count past M is at most M + 10000 |
| `Interrupts.Tracking.Run` | kafig-runtime/src/init.rs:30-41 | any events leave the specified counters and give the script the specified answers |
| `Interrupts.Tracking.Execution` | kafig-cli/session.go:137-142 | for all limits, 0 included: a counted poll of the script stops it if and only if the flag is up, the opcode limit is on and passed, or the CPU limit is on and the running export has taken longer; with nobody asking for an interrupt and no CPU limit exactly the first M/10000 polls go on, all of them if M is 0; and the budget holds in any case |
| `Interrupts.PollsAreDecided` | kafig-go/instance.go:744-752 | the same decision for every run of events |
| `Interrupts.ExactBudget` | kafig-cli/session.go:108-110 | the same count for every calm run of events |
| `Interrupts.LastExportIsReported` | kafig-runtime/src/tracking.rs:23-34 | the CPU time left to be read is that of the last export alone, however often it was sampled |
| `Interrupts.QuietBeforeFirstUse` | kafig-runtime/src/init.rs:34-37 | before the first invocation polls count 10000 opcodes each and neither ask the host nor stop |
| `Forwarder.StepKeepsInv` | kafig-cli/rpc_forward.go:49-96 | every step of any Forward, the reader, the main loop or the client keeps the routing and courtesy invariant |
| `Forwarder.ForwardReturnsItsOwnAnswer` | kafig-cli/rpc_forward.go:49-86 | over every run a Forward only returns the response with its own id; ids are distinct; a key is in the map exactly while its Forward is live, and leads to its channel |
| `Forwarder.MapEmptyWhenAllReturned` | kafig-cli/rpc_forward.go:57-61 | the map is empty once all Forward calls returned |
| `Forwarder.AnswerIsKept` | kafig-cli/rpc_forward.go:53-96 | once an answer to a waiting request was sent, after any further run the request still waits with an answer in the input, with the reader or in its channel, or has left, and unless cancelled it left with an answer |
| `Forwarder.AnswerCanBeTaken` | kafig-cli/json.go:66-102 | with a client that holds back other input and answers no id twice, when reader and main loop can do no more, an answered request that still waits has its answer in its channel |
| `Forwarder.DeliverBlocksIffUnread` | kafig-cli/rpc_forward.go:89-96 | the send goes ahead if and only if no earlier answer for that call is unread |
| `Forwarder.DeliverNeverBlocks` | kafig-cli/rpc_forward.go:89-96 | if each id is answered at most once, Deliver never blocks |
| `Forwarder.ReaderIsNeverStuck` | kafig-cli/json.go:66-102 | with such a client that holds back other input until the result is printed, the reader or the main loop can always move |
| `Forwarder.InputIsConsumed` | kafig-cli/json.go:66-102 | once such a client pauses, reader and main loop take boundedly many steps under every interleaving, and when they can take no more, all input is consumed |
| `Forwarder.SecondAnswerCanWedgeTheReader` | kafig-cli/rpc_forward.go:93-95 | a run in which a second answer blocks the reader |
| `Forwarder.WedgedForEver` | kafig-cli/rpc_forward.go:93-95 | and no continuation unblocks it |
| `Forwarder.BlockedForEverIff` | kafig-cli/rpc_forward.go:93-95 | a blocked send can still go ahead if and only if that Forward has not passed its select |
| `Forwarder.AnswerArrivesIff` | kafig-cli/json.go:66-102 | while a command executes, an answer sent to a waiting request reaches its Forward by some continuation if and only if no other kind of line is ahead of it |
| `Forwarder.BehindForEver` | kafig-cli/json.go:66-102 | an answer that is behind another line never arrives while the execution lasts and the request is not cancelled, whatever anyone does |
| `Forwarder.EarlyLineBlocksTheAnswer` | kafig-cli/json.go:88-100 | any other line sent before the answer to a waiting request keeps all answers to it from arriving until then |
| `Forwarder.EarlyCommandCanDeadlock` | kafig-cli/json.go:88-100 | a run in which an early command leaves reader, main loop and Forward blocked with the answer available; `AnswerArrivesIff` has the condition |
| `ForwardCalls.RpcForwarder.Deliver` | kafig-cli/rpc_forward.go:89-96 | for an answer at the head of the input, lookup and send take the protocol's steps and change at most a channel, to this response |
| `ForwardCalls.RpcForwarder.Forward` | kafig-cli/rpc_forward.go:49-86 | each return happens under its condition, an answer is one of the input with the id just drawn, and the map is back to what it was |
| `DigitGroups.FormatNumber` | kafig-cli/interactive.go:301-314 | the loop computes the grouping that the lemmas are about |
| `DigitGroups.DigitsAreDecimal` | kafig-cli/interactive.go:302 | the digits are the decimal numeral: as many as the number needs, each the share of its power of ten, and no leading zero but for zero |
| `DigitGroups.FormatRoundTrip` | kafig-cli/interactive.go:301-314 | removing the commas and reading the digits gives the number back |
| `DigitGroups.CommasEveryThird` | kafig-cli/interactive.go:307-309 | every comma has a positive multiple of three digits behind it and a digit before it |
| `DigitGroups.FormattedLength` | kafig-cli/interactive.go:301-314 | d digits take d + (d-1)/3 characters |

## Left out

- QuickJS, rquickjs and wazero: evaluation, microtasks and reference counting are
  not modelled; an export is any finite trace of host calls and polls. A script
  that runs for ever is therefore not a segment.
- Instance.Instance.Invoke: modules closed by a done context are not modelled, and
  an instance that trapped is still allowed any behaviour afterwards.
- Whether stale microtasks run: the fast path does not drain jobs, and that rests
  on QuickJS. Isolation is stated for the RPC table; for reported results and errors
  `Reports.ReplyIsOwnIff` says when a drained job's report is taken for the new
  invocation's, and a job left over by the fast path counts as part of the body.
- Payloads: parameters, results and errors are opaque texts. `JSON.parse`,
  `JSON.stringify` and `encoding/json` on arbitrary values, the guest's fallback to
  `null` for an unparsable result, and the text of errors built with `%q` and `%v`
  are not modelled.
- Instance.Instance.HostRPC: the guest's pointers are taken to be valid, so the
  returns after an out-of-bounds read are not modelled.
- Instance.Instance.HostSetResult: the same holds of its failed read; the error is
  kept as its text and read by `ErrorWire.ParseErrorJson` when it is returned.
- LinearMemory.Memory.WriteSyncRPCResult: payloads of 4 GiB and more, which do not
  fit the guest, are excluded.
- LinearMemory.Memory.CompileBytecode: `traps` leaves the source buffer behind in
  the temporary instance, as in the code, which closes that instance.
- ErrorWire.RuntimeErrorRoundTrip: strings are sequences of Unicode scalar values;
  the UTF-8 layer and `encoding/json`'s limit of 10000 nested values are not
  modelled.
- Interrupts.OpcodeBudget: the counter's 64-bit wrap-around is not modelled; it
  takes 2^64 opcodes in one execution.
- Interrupts.Tracking.SampleElapsedUs: CPU time is overwritten per segment, as in
  the code, so no bound on the accumulated time of an execution is stated.
- Forwarder.ForwardReturnsItsOwnAnswer: the 64-bit wrap-around of the id counter is
  not modelled; the text and error of a response are one opaque body.
- ForwardCalls.RpcForwarder.Forward: other Forward calls do not run in the middle
  of it; their interleavings are the subject of `Forwarder`.
- Forwarder.ReaderIsNeverStuck: the end of input, which closes the command channel,
  is not modelled.
- The interactive forwarder, which reads one line per request, the REPL, flags,
  file cache, router builders and option setters: plumbing without hard properties.
- Changes to a router while an invocation runs: the code reads its maps from
  goroutines without a lock, and callers set them up beforehand.
