# Verification of the stage library's stateful cores

This Dafny project models the parts of the repository whose behaviour is hard to see from reading one
function, and proves what they keep over every run. Each component is described twice where the program
changes state: once as a class or method that updates fields the way the C++ code does, and once as a
function on values; the methods are proved to compute the function, and the theorems are about the function.

- **HTTP dispatcher.** `HttpChannel` is one direction of a connection: its queue, what is on the wire, and a
  log of what became of every accepted operation. `HttpConnection` is the nine-state connection as a
  transition system over calls and completions; `HttpConnectionStateMachine` is the machine with its state
  and queues updated in place. `HttpDispatcher` is the keyed pool with the closures of `on_message`;
  `HttpDispatcherStage` is the stage that drives the connection objects. `HttpDispatcherLedger`,
  `HttpDispatcherOutcomes`, `HttpDispatcherConnections` and `HttpPipelining` hold the theorems: where every
  request is, what is final, that connections are independent and send nothing twice, and which response
  goes to which request.
- **Throttling loop.** `SlidingLog` and `SlidingLogThrottler` (the lazily truncated log), `Throttling` and
  `ThrottlingStages` (builder and enforcer), `ThrottlingLoop` (both together, with flushes and configuration),
  `AdmissionBound` (how many messages a window can see, and recovery), `ThrottlerUpdates` (reconfiguration
  while the loop runs) and `ThrottlingLoopStages` (the loop built from the two stage classes).
- **Parsers and visitors.** `Text`, `HttpServerParsing`, `TokenExtractor`, `RequestValidation`,
  `FilterStage`, over `DynamicMessage` and `KeyValueStore`.
- **Arithmetic.** `RoundRobin` (an 8-bit index) and `TypeHash` (a 64-bit multiplicative hash).

Completions are nondeterministic events: any operation in flight may complete at any time, with success or
failure. Every step is atomic, because the program runs all of them on one event loop. A completion first
changes the state and then runs its callback, which calls the machine again; those calls are events too.

## Where the code does not do what one would expect

Each of these is proved, with an exact condition or a concrete input.

- **The queues are not FIFO.** An operation started directly is never queued, but its completion pops the
  queue anyway. So the operation that was queued first, while the channel was busy and the queue empty, is
  popped without ever being started, and neither of its callbacks runs. `HttpConnection.IdleFifo` gives the
  exact condition for an idle connection without failures, `HttpConnection.SecondOfThreeWritesIsLost` a run.
- **Requests are lost.** A request gets no output if its handler or its completed write is turned away, or if
  it waits, never started, at the head of a queue when an operation completes on that busy channel; after an
  error that can be one that was queued behind others (`HttpConnection.WriteBehindIsLostAfterReconnect`).
  `HttpDispatcherOutcomes.AbandonedExactlyWhen` proves, for all runs with any failures, that these are exactly
  the requests that end up abandoned; `HttpPipelining.SecondResponseGoesToThirdRequest` is a run of the
  dispatcher, without any failure, that loses one.
- **A lost read shifts responses.** On a pipelined connection the response to one request can be handed to a
  later one. `HttpPipelining.PairedExactlyWhen` gives the exact condition,
  `HttpPipelining.SecondResponseGoesToThirdRequest` a run.
- **A failed resolve or connect is for ever.** The machine stays in the pool in a state nothing leaves, and
  later requests for the key get no output (`HttpDispatcherOutcomes.DeadForever`); a connection is in such a
  state if and only if a resolve or connect for its key failed (`HttpDispatcherOutcomes.DeadExactlyWhen`).
- **Leftovers of an error mislead the state.** If a read left over from a failed write completes only after
  the reconnect, the machine is `connected` with a read on the wire (`HttpConnection.UndrainedRunMisleads`).
  The state names what is on the wire all along a run if and only if every connect that succeeds in it finds
  nothing in flight (`HttpConnection.ReflectsWireExactlyWhenDrained`, and
  `HttpDispatcherConnections.PoolReflectsWireExactlyWhenDrained` for all connections of the dispatcher).
- **The throttler's subtraction wraps.** While time stamps are smaller than the window, an admission erases the
  whole log, itself included, if and only if the log then holds at least the allowed number, and otherwise
  leaves it alone; the verdict is always to admit, which is wrong if and only if the window holds more than
  the allowed number (`SlidingLog.WrapErasesLog` for one admission in any state,
  `SlidingLog.NothingIsThrottledBelowWindow` for whole runs).
- **The token counter has eight bits.** A wanted number of 0 stops at the 256th token, one above 255 or
  below 0 never (`TokenExtractor.WhenItStops`); `TokenExtractor.RoundTrip` says what is extracted for each.
- **256 endpoints, not 255.** A comment says 255 endpoints are supported; the selection is fair if and only if
  there are at most 256 (`RoundRobin.Fair`), and endpoints beyond the 256th are never selected
  (`RoundRobin.NeverBeyond256`).
- **Query pieces without `=`** become a key whose value is the piece without its last character; they are
  exactly the pieces that their pair does not print back (`HttpServerParsing.PieceIsItsPair`).

## Model

| member | source | states |
|---|---|---|
| HttpChannel.AtMostOnce | src/stages/http_dispatcher_stage/details/http_connection_state_machine.h:225-263 | an operation accepted once is started at most once, gets at most one of its two callbacks, and none if it was skipped or still waits |
| HttpChannel.CompleteAccounts | src/stages/http_dispatcher_stage/details/http_connection_state_machine.h:232-263 | a completion, successful or not, conserves accepted = in flight + done + waiting + skipped, and adds at most one skip for each directly started operation |
| HttpChannel.SubmitAccounts | src/stages/http_dispatcher_stage/details/http_connection_state_machine.h:195-231 | a call adds exactly its own operation to what the channel owes |
| HttpChannel.CompletePops | src/stages/http_dispatcher_stage/details/http_connection_state_machine.h:232-263 | a completion takes one operation off the queue of a busy channel, whether it succeeded or failed and whichever operation it was; only after a success is the next one started |
| HttpChannel.CompleteOrderly | src/stages/http_dispatcher_stage/details/http_connection_state_machine.h:298-327 | while nothing fails, a completion keeps the exact order: started are the settled operations that did not arrive First, skipped those that did, in order of acceptance |
| HttpChannel.FifoIffNoneArrivedFirst | src/stages/http_dispatcher_stage/details/http_connection_state_machine.h:232-257 | a free, failure-free channel started exactly what it accepted, in order, if and only if nothing arrived at a busy channel with an empty queue |
| HttpConnection.EveryRunIsAccounted | src/stages/http_dispatcher_stage/details/http_connection_state_machine.h:101-439 | in every run, with any errors and reconnects, both channels are accounted for, and exactly one resolve (connect) is in flight in exactly the state waiting for it |
| HttpConnection.StartedAtMostOnce | src/stages/http_dispatcher_stage/details/http_connection_state_machine.h:225-263 | in every run each accepted read or write is started at most once and gets at most one callback, once |
| HttpConnection.StandsWhereLeft | src/stages/http_dispatcher_stage/details/http_connection_state_machine.h:101-439 | in every run the state is where the last resolve, connect or failure of a busy channel left the machine: a failed write or read leaves it resolved, a failed connect not connected, a failed resolve in error; before any of them it is not connected |
| HttpConnection.LiveExactlyWhen | src/stages/http_dispatcher_stage/details/http_connection_state_machine.h:258-263 | in every run the connection is usable if and only if some connect succeeded and no operation has failed on a busy channel since |
| HttpConnection.QueuesHoldLatest | src/stages/http_dispatcher_stage/details/http_connection_state_machine.h:225-263 | in every run, with any errors and reconnects, both queues hold the operations queued last, in order of acceptance |
| HttpConnection.ReflectsWireExactlyWhenDrained | src/stages/http_dispatcher_stage/details/http_connection_state_machine.h:486-533 | the state names exactly what is on the wire, at most one operation of each kind, all along a run if and only if every connect that succeeds in it finds nothing left in flight from before an error |
| HttpConnection.UndrainedRunMisleads | src/stages/http_dispatcher_stage/details/http_connection_state_machine.h:258-263 | without that assumption the machine can be `connected` with a read in flight |
| HttpConnection.ConnectedIsReachable | src/stages/http_dispatcher_stage/details/http_connection_state_machine.h:101-167 | the state that the concrete runs below start from is reached by resolve and connect |
| HttpConnection.CleanRunsAreInOrder | src/stages/http_dispatcher_stage/details/http_connection_state_machine.h:195-257 | in every run without a failed read or write, both channels start, skip and keep waiting exactly the operations their arrival says, in order of acceptance |
| HttpConnection.IdleFifo | src/stages/http_dispatcher_stage/details/http_connection_state_machine.h:360-433 | such a machine, once idle, has started every accepted write (read) in order if and only if none arrived First |
| HttpConnection.SecondOfThreeWritesIsLost | src/stages/http_dispatcher_stage/details/http_connection_state_machine.h:225-257 | of three writes requested back to back the second is never started |
| HttpConnection.WriteBehindIsLostAfterReconnect | src/stages/http_dispatcher_stage/details/http_connection_state_machine.h:232-263 | after a failed write and a reconnect, a write that was queued behind another is popped without having been started |
| HttpConnectionStateMachine.StateMachine.Resolve | src/stages/http_dispatcher_stage/details/http_connection_state_machine.h:101-118 | the handler table's resolve takes exactly the step of the transition system |
| HttpConnectionStateMachine.StateMachine.Connect | src/stages/http_dispatcher_stage/details/http_connection_state_machine.h:138-155 | the same for connect |
| HttpConnectionStateMachine.StateMachine.OnResolve | src/stages/http_dispatcher_stage/details/http_connection_state_machine.h:126-128 | the same for a successful resolve |
| HttpConnectionStateMachine.StateMachine.OnResolveFailed | src/stages/http_dispatcher_stage/details/http_connection_state_machine.h:129-131 | the same for a failed resolve |
| HttpConnectionStateMachine.StateMachine.OnConnect | src/stages/http_dispatcher_stage/details/http_connection_state_machine.h:165-167 | the same for a successful connect |
| HttpConnectionStateMachine.StateMachine.OnConnectFailed | src/stages/http_dispatcher_stage/details/http_connection_state_machine.h:162-164 | the same for a failed connect |
| HttpConnectionStateMachine.StateMachine.Write | src/stages/http_dispatcher_stage/details/http_connection_state_machine.h:195-231 | the same for a write: started at once in two states, queued in two, ignored in five |
| HttpConnectionStateMachine.StateMachine.OnWrite | src/stages/http_dispatcher_stage/details/http_connection_state_machine.h:232-257 | the same for a completed write: pop, start the new head, leave it queued |
| HttpConnectionStateMachine.StateMachine.OnWriteError | src/stages/http_dispatcher_stage/details/http_connection_state_machine.h:258-263 | the same for a failed write: pop, fall back to resolved, keep the rest of both queues |
| HttpConnectionStateMachine.StateMachine.Read | src/stages/http_dispatcher_stage/details/http_connection_state_machine.h:264-297 | the same for a read |
| HttpConnectionStateMachine.StateMachine.OnRead | src/stages/http_dispatcher_stage/details/http_connection_state_machine.h:298-327 | the same for a completed read |
| HttpConnectionStateMachine.StateMachine.OnReadError | src/stages/http_dispatcher_stage/details/http_connection_state_machine.h:328-333 | the same for a failed read: pop, fall back to resolved from reading and from writing and reading |
| HttpDispatcherStage.DispatcherStage.Handler | src/stages/http_dispatcher_stage/http_dispatcher_stage.h:170-226 | the handler posted for a request reads the endpoint as it runs and takes exactly the dispatcher's step over the pool of connection objects |
| HttpDispatcherStage.DispatcherStage.OnMessage | src/stages/http_dispatcher_stage/http_dispatcher_stage.h:228-229 | a message only posts its handler |
| HttpDispatcherStage.DispatcherStage.ResolveCompleted | src/stages/http_dispatcher_stage/http_dispatcher_stage.h:188-200 | a resolve completion takes the dispatcher's step: connect, or drop the request |
| HttpDispatcherStage.DispatcherStage.ConnectCompleted | src/stages/http_dispatcher_stage/http_dispatcher_stage.h:189-196 | a connect completion: perform the request, or drop it |
| HttpDispatcherStage.DispatcherStage.WriteCompleted | src/stages/http_dispatcher_stage/http_dispatcher_stage.h:146-167 | a write completion: read the response, or drop the request |
| HttpDispatcherStage.DispatcherStage.ReadCompleted | src/stages/http_dispatcher_stage/http_dispatcher_stage.h:147-161 | a read completion: answer the request with the body read and the code 200, or drop it |
| HttpDispatcherLedger.EveryDispatchBalances | src/stages/http_dispatcher_stage/http_dispatcher_stage.h:141-229 | in every run each request is outside the machines or with the machine of its own key, once, and no machine holds a request of another key |
| HttpDispatcherLedger.ExactlyOnePlace | src/stages/http_dispatcher_stage/http_dispatcher_stage.h:141-229 | in every run each request is in exactly one of ten places (posted, awaiting resolve or connect, write or read queued or in flight, answered, dropped, abandoned), and has at most one output |
| HttpDispatcherOutcomes.OutcomesAreFinal | src/stages/http_dispatcher_stage/http_dispatcher_stage.h:145-168 | answered, dropped and abandoned are final in every continuation of every run |
| HttpDispatcherOutcomes.RefusedExactlyWhen | src/stages/http_dispatcher_stage/http_dispatcher_stage.h:201-225 | a call for a request is ignored if and only if its handler finds the machine resolving, connecting, not connected or in error, or its write completes after the connection was lost |
| HttpDispatcherOutcomes.LostExactlyWhen | src/stages/http_dispatcher_stage/details/http_connection_state_machine.h:232-263 | in every run, a happening makes a request abandoned if and only if it turns the request away, or completes an operation on a busy channel at whose queue head the request waits, never started |
| HttpDispatcherOutcomes.AbandonedExactlyWhen | src/stages/http_dispatcher_stage/http_dispatcher_stage.h:170-226 | a request is abandoned after a run if and only if it was lost in one of these ways at some moment of it |
| HttpDispatcherOutcomes.DeadForever | src/stages/http_dispatcher_stage/http_dispatcher_stage.h:181-225 | a machine that failed to resolve or connect never leaves that state, and every later handler for its key is turned away |
| HttpDispatcherOutcomes.DeadExactlyWhen | src/stages/http_dispatcher_stage/http_dispatcher_stage.h:188-200 | a pooled machine is not connected or in error if and only if a resolve or a connect for its key failed in the run |
| HttpDispatcherOutcomes.BrokenIsReconnected | src/stages/http_dispatcher_stage/http_dispatcher_stage.h:213-223 | after a write or read failed on a busy connection, the next handler for its key connects for its request, and nothing is refused |
| HttpDispatcherOutcomes.PooledLiveExactlyWhen | src/stages/http_dispatcher_stage/http_dispatcher_stage.h:201-212 | in every run a pooled connection is usable if and only if, in what happened to it, some connect succeeded and no operation has failed on a busy channel since |
| HttpDispatcherConnections.EachConnectionIsARun | src/stages/http_dispatcher_stage/http_dispatcher_stage.h:170-226 | whatever happens to other keys, the machine under a key is a fresh connection after the calls and completions for that key, so every theorem about connections holds in the pool |
| HttpDispatcherConnections.PoolReflectsWireExactlyWhenDrained | src/stages/http_dispatcher_stage/http_dispatcher_stage.h:201-225 | the states of all pooled connections name exactly what is on the wire all along a run if and only if every connect that succeeds in it finds nothing left in flight |
| HttpDispatcherConnections.NothingIsSentTwice | src/stages/http_dispatcher_stage/http_dispatcher_stage.h:141-168 | in every run, with any errors and reconnects, a connection writes each request at most once and reads for it at most once, and only requests of its own key |
| HttpDispatcherConnections.NextSentOnce | src/stages/http_dispatcher_stage/http_dispatcher_stage.h:170-226 | every step of the dispatcher keeps the lists of requests to write and to read free of repetitions |
| HttpPipelining.CleanDispatchesArePipelined | src/stages/http_dispatcher_stage/http_dispatcher_stage.h:145-168 | while no write or read fails, every connection is asked for reads in the order in which its writes complete |
| HttpPipelining.PairedExactlyWhen | src/stages/http_dispatcher_stage/details/http_connection_state_machine.h:513-525 | the k-th response reaches the request of the k-th write, for every k so far, if and only if none of those reads was requested while another was in flight and the read queue empty |
| HttpPipelining.AnswersComeFromReads | src/stages/http_dispatcher_stage/http_dispatcher_stage.h:147-161 | in every run, with any failures, the answers that leave the dispatcher for a key are exactly what the completed reads of its connection brought, in the same order |
| HttpPipelining.ResponsesArePaired | src/stages/http_dispatcher_stage/http_dispatcher_stage.h:145-168 | in every failure-free run of the dispatcher, for every key: the k-th answer to leave the dispatcher for that key answers its k-th request written, as section 9.3.2 of RFC 9112 requires, for every k so far, if and only if none of those reads was requested while another was in flight and the read queue empty |
| HttpPipelining.QuietDispatchIsSettled | src/stages/http_dispatcher_stage/http_dispatcher_stage.h:141-229 | when nothing is posted or in flight, every request was answered, dropped or abandoned, or is left in the queue of a lost connection; not the last if no write or read failed |
| HttpPipelining.SecondResponseGoesToThirdRequest | src/stages/http_dispatcher_stage/details/http_connection_state_machine.h:298-327 | a run of the dispatcher with three requests for one endpoint after which the second response was handed to the third request and the second request is abandoned |
| SlidingLog.AtLeastTwice | src/stages/throttling_stages/sliding_log_throttler.h:74-79 | truncating twice is truncating once at the later threshold |
| SlidingLog.LogIsHistory | src/stages/throttling_stages/sliding_log_throttler.h:42-79 | for nondecreasing time stamps not below the window, under any reconfiguration, the lazily cut log is the full history, which is in order, from the largest threshold used so far |
| SlidingLog.VerdictIsWindowCount | src/stages/throttling_stages/sliding_log_throttler.h:42-59 | right after an evaluation at t the verdict is whether at most the allowed number of time stamps lie from t - window on, also when the log was not cut; only for a window that reaches back beyond an earlier cut (after it was widened) are the time stamps counted from that cut on |
| SlidingLog.FixedWindowVerdict | src/stages/throttling_stages/sliding_log_throttler.h:42-59 | with a fixed configuration that exception does not arise |
| SlidingLog.WrapErasesLog | src/stages/throttling_stages/sliding_log_throttler.h:74-79 | for a time stamp below the window, in any state: the entries in the window are kept if and only if the log stays shorter than the allowed count; the verdict is always to admit, and right if and only if the log did not exceed the allowed count |
| SlidingLog.NothingIsThrottledBelowWindow | src/stages/throttling_stages/sliding_log_throttler.h:42-59 | in every run below the window nothing is throttled although all admissions are in the window; the verdict is right if and only if at most the allowed number were admitted, the log intact if and only if fewer were, or none |
| SlidingLogThrottler.LowerBound | src/stages/throttling_stages/sliding_log_throttler.h:75-77 | binary search, for a log in which the entries below the value come first: everything before the result is below the value, everything from it on is not |
| SlidingLogThrottler.LogThrottler.AddTimestamp | src/stages/throttling_stages/sliding_log_throttler.h:42-51 | the in-place throttler takes the specified step |
| SlidingLogThrottler.LogThrottler.ReEvaluateAt | src/stages/throttling_stages/sliding_log_throttler.h:52-56 | the same for a re-evaluation |
| ThrottlingStages.InTimeCanBeEvaluated | src/stages/throttling_stages/sliding_log_throttler.h:42-56 | with time stamps in order every evaluation can search its log, and the logs stay in order |
| ThrottlingStages.FieldsNameThrottlers | src/stages/throttling_stages/throttle_state_builder_stage.cpp:67-75 | the throttlers a message names are the strings in its lookup fields of the group http_info; a field that is not there is missing |
| ThrottlingStages.StampReadsUnsigned | src/stages/throttling_stages/throttle_state_builder_stage.cpp:61-62 | the time stamp is the 64-bit unsigned reading of the signed field of the group info |
| ThrottlingStages.ThrottleStateBuilder.OnMessage | src/stages/throttling_stages/throttle_state_builder_stage.cpp:58-92 | all throttlers the message names are evaluated in order, their verdicts collected, and the message goes to error_out once for each field missing or unregistered |
| ThrottlingStages.ThrottleStateBuilder.FlushUpdates | src/stages/throttling_stages/throttle_state_builder_stage.cpp:94-101 | sends exactly the collected verdicts, in order, and clears them |
| ThrottlingStages.ThrottleStateBuilder.OnAddThrottler | src/stages/throttling_stages/throttle_state_builder_stage.cpp:131-146 | registers a new sliding log throttler, or reports the error and changes nothing |
| ThrottlingStages.ThrottleStateBuilder.OnUpdateThrottler | src/stages/throttling_stages/throttle_state_builder_stage.cpp:148-173 | takes the specified step: reconfigures one throttler and keeps its log, or reports the error and changes nothing |
| Throttling.AddingRegisters | src/stages/throttling_stages/throttle_state_builder_stage.cpp:131-146 | adding, for every kind and id: a new sliding log throttler gets the window w, the count n and an empty log, and nothing else changes; an id that exists and a fixed window are reported; other kinds are ignored |
| Throttling.UpdateSets | src/stages/throttling_stages/throttle_state_builder_stage.cpp:148-173 | updating, for every kind and id: a known throttler gets the window w and the count n and keeps its log, and nothing else changes; an unknown id and the window kinds are reported; other kinds are ignored |
| Throttling.UpdateIsObserved | src/stages/throttling_stages/throttle_state_builder_stage.cpp:161-162 | to the throttler an update is the setting of the window and then of the count |
| ThrottlerUpdates.UpdatesTakeEffect | src/stages/throttling_stages/throttle_state_builder_stage.cpp:67-92 | in every run of the loop with any updates, the verdict of the next evaluation at t is whether at most n admitted time stamps lie from t - window on, window and n being those set last, counting from the last cut on where the window reaches back beyond it |
| ThrottlingStages.ThrottlingEnforcer.OnMessage | src/stages/throttling_stages/throttling_enforcer_stage.cpp:38-67 | the loop with early exit admits a message if and only if no throttler it names is known to suppress, reads no field after the first that does, and marks and sends the message accordingly |
| ThrottlingStages.ThrottlingEnforcer.OnThrottleStateMessage | src/stages/throttling_stages/throttling_enforcer_stage.cpp:69-76 | a delivered list overwrites verdicts in order |
| Throttling.ApplyConcat | src/stages/throttling_stages/throttling_enforcer_stage.cpp:69-76 | delivering two lists one after the other is delivering their concatenation |
| Throttling.ApplyIsLastWins | src/stages/throttling_stages/throttling_enforcer_stage.cpp:69-76 | a table knows exactly the ids it knew and those delivered, with the last verdict delivered for each |
| ThrottlingLoop.VerdictsCohere | src/stages/throttling_stages/throttle_state_builder_stage.cpp:67-101 | in every run the enforcer's table with the pending list applied knows exactly the throttlers ever evaluated, with the last verdict collected for each, which is its present one unless it was reconfigured since |
| ThrottlingLoop.FlushDeliversLatest | src/stages/throttling_stages/throttle_state_builder_stage.cpp:94-101 | after a flush the enforcer's table is exactly that, also when an id repeats in the batch |
| ThrottlingLoopStages.ClosedLoop.OnMessage | src/stages/throttling_stages/throttling_enforcer_stage.cpp:38-67 | the enforcer and then the builder, run on one message, take exactly one turn of the loop; fields after the first that suppresses the message may be missing |
| ThrottlingLoopStages.ClosedLoop.OnFlush | src/stages/throttling_stages/throttle_state_builder_stage.cpp:94-101 | so do a flush of the builder and its delivery to the enforcer |
| AdmissionBound.AdmissionsAreBounded | src/stages/throttling_stages/throttling_enforcer_stage.cpp:38-76 | if at most d messages naming a throttler are admitted between consecutive flushes, every interval of one window holds at most allowed + d of them, in every run |
| AdmissionBound.VerdictIsExact | src/stages/throttling_stages/throttle_state_builder_stage.cpp:79-84 | in every such run the last verdict about a throttler is exactly whether its window holds at most the allowed number of admitted time stamps: it neither admits nor suppresses wrongly |
| AdmissionBound.RegistrationStartsWatch | src/stages/throttling_stages/throttle_state_builder_stage.cpp:131-146 | the bound applies from any registration of a new throttler at any point of any run |
| AdmissionBound.BoundIsTight | src/stages/throttling_stages/sliding_log_throttler.h:57-59 | for every allowed count and every d > 0 some run with at most d admissions between flushes admits allowed + d messages within one window |
| AdmissionBound.SuppressionEnds | src/stages/throttling_stages/throttle_state_builder_stage.cpp:79-84 | a message suppressed later than one window after the last admitted one empties the log of a throttler that did not allow, and the next flush unblocks the throttler |
| DynamicMessage.Set | src/event_processing/dynamic_message.h:105-109 | a field set is the value then read, and no other field changes |
| DynamicMessage.Get | src/event_processing/dynamic_message.h:111-125 | a field is found if its group and name are there, with its value, and otherwise the error says which of the two is missing |
| Text.SplitJoin | src/stages/http_server_stage/http_server_stage.h:81-85 | splitting undoes joining of pieces without the separator |
| Text.JoinSplit | src/stages/http_server_stage/http_server_stage.h:81-85 | joining undoes splitting, and no piece holds the separator |
| HttpServerParsing.ExtractQuery | src/stages/http_server_stage/http_server_stage.h:49-74 | the loop over the shrinking view terminates and folds the pieces between `&`, each split at its first `=`, one trailing empty piece ignored |
| HttpServerParsing.PieceIsItsPair | src/stages/http_server_stage/http_server_stage.h:68-71 | a piece is what its pair prints as if and only if it holds an `=` |
| HttpServerParsing.BarePiece | src/stages/http_server_stage/http_server_stage.h:68-70 | a piece without `=` is its own key, and its value is the piece without its last character |
| HttpServerParsing.ParsedPieces | src/stages/http_server_stage/http_server_stage.h:49-74 | for a query of `k=v` pieces and bare pieces in any order, with or without a final `&`: each piece contributes its pair, and the parsed map has exactly their keys, each with the value of its last pair |
| HttpServerParsing.FoldIsLastWins | src/stages/http_server_stage/http_server_stage.h:71 | a key is in the result if and only if it occurs, with the value of its last occurrence |
| HttpServerParsing.QueryRoundTrip | src/stages/http_server_stage/http_server_stage.h:49-74 | printing pairs and parsing them gives the pairs back, and so their last-wins map |
| HttpServerParsing.ExtractPathParameters | src/stages/http_server_stage/http_server_stage.h:76-94 | the erase loop terminates and computes the specification that PathRoundTrip is about |
| HttpServerParsing.PathRoundTrip | src/stages/http_server_stage/http_server_stage.h:76-94 | from any printed template of literal segments and `:`-prefixed parameters, extraction gives exactly the names of the parameters, in order and without their colons |
| TokenExtractor.Augment | src/stages/message_augmentor_stage/augmentor_definitions.h:79-113 | the character loop stores exactly the specified tokens in the first target fields, in order, and throws exactly on the specified values; tokens stored before that stay |
| TokenExtractor.StoreHoldsTokens | src/stages/message_augmentor_stage/augmentor_definitions.h:96-101 | the first target fields hold the tokens, in order, the last one where a field is listed twice, and no other field changes |
| TokenExtractor.RoundTrip | src/stages/message_augmentor_stage/augmentor_definitions.h:79-113 | from a printed value exactly the first min(m, n) tokens come back for 1 <= n <= 255, the first min(m, 256) for n = 0, and all for any other n; a token that is never closed is ignored |
| TokenExtractor.RoundTripFields | src/stages/message_augmentor_stage/augmentor_definitions.h:79-113 | so after extraction from a printed value the message holds exactly those tokens in its first target fields, and nothing else changes |
| TokenExtractor.FailsExactlyWhen | src/stages/message_augmentor_stage/augmentor_definitions.h:90-112 | extraction fails if and only if a start marker occurs inside a token or an end marker outside one before the token at which it would stop, and then after exactly the tokens before that marker |
| TokenExtractor.WhenItStops | src/stages/message_augmentor_stage/augmentor_definitions.h:88-100 | where the 8-bit counter meets the wanted number, for every wanted number |
| RequestValidation.DecimalIsOneDot | src/stages/http_validation_stages/request_validation.h:111-123 | counting points and looking around the first one is exactly digits, a point, digits |
| RequestValidation.DigitsAreTen | src/stages/http_validation_stages/request_validation.h:93-94 | the digits are the ten characters 0 to 9 |
| RequestValidation.NumeralsAreWellTyped | src/stages/http_validation_stages/request_validation.h:90-123 | every numeral is an integer value and no decimal one, two numerals around a point a decimal value and no integer one |
| RequestValidation.SectionValidator.Validate | src/stages/http_validation_stages/request_validation.h:180-214 | true if and only if every compulsory key occurs and the last value of every typed key is well typed, whatever the validators went through before |
| RequestValidation.SectionValidator.VisitAll | src/stages/http_validation_stages/request_validation.h:275-303 | one pair visits exactly the validators of its key and brings all of them up to date |
| RequestValidation.OrderDoesNotMatter | src/stages/http_validation_stages/request_validation.h:371-405 | with distinct keys the verdict does not depend on the order of the pairs |
| RequestValidation.LastValueDecides | src/stages/http_validation_stages/request_validation.h:371-405 | for a repeated typed key the last value alone decides, wherever the others stand |
| RequestValidation.RepeatedKeyOrderMatters | src/stages/http_validation_stages/request_validation.h:371-405 | exchanging two values of a key changes the verdict if and only if exactly one is well typed and the key does not occur after them |
| KeyValueStore.Store.AddToList | src/services/store_services/key_value_store.h:161-179 | appends to a list of the right type or a new one, else changes nothing; a stored list is never empty and has one type |
| KeyValueStore.Store.Get | src/services/store_services/key_value_store.h:146-159 | the value of an existing single key of the asked type, else the error for what is wrong |
| KeyValueStore.Store.GetListCount | src/services/store_services/key_value_store.h:211-218 | the length of an existing list, which is positive; an error for any other key |
| KeyValueStore.Store.GetAtList | src/services/store_services/key_value_store.h:201-209 | the element at a position inside an existing list of the asked type, else the error for what is wrong |
| KeyValueStore.Store.AddToSet | src/services/store_services/key_value_store.h:237-257 | adds a new value of the right type, else changes nothing and reports which of the two was wrong |
| KeyValueStore.Store.ContainsInSet | src/services/store_services/key_value_store.h:271-289 | on an existing set: true exactly for its elements, and an error exactly when it has no element of the asked type |
| FilterStage.Filter.Decide | src/stages/filter_stage/filter_present_absent_stage.h:63-105 | the loop's verdict is the quantified one: whitelist, in every existing set; blacklist, in none; exception, if any lookup raises |
| FilterStage.Filter.OnMessage | src/stages/filter_stage/filter_present_absent_stage.h:58-112 | every message leaves through exactly one of the three outputs |
| FilterStage.VerdictIsUnique | src/stages/filter_stage/filter_present_absent_stage.h:65-91 | the verdict is the same for every order of the field combinations |
| FilterStage.VerdictMeans | src/stages/filter_stage/filter_present_absent_stage.h:65-91 | on messages with all fields there: a whitelist lets pass if and only if every value is in its set, a blacklist if and only if no value is, sets that do not exist being ignored |
| FilterStage.ExceptionMeans | src/stages/filter_stage/filter_present_absent_stage.h:69-81 | the verdict is an exception if and only if some combination has a field that is not there or not a string, or names a set of another type |
| RoundRobin.KthSelection | src/stages/load_balancer_stages/round_robin_load_balancer_stage.h:52-55 | however other pools interleave, the k-th selection from a pool of n endpoints is k mod min(n, 256) |
| RoundRobin.IndicesInCycle | src/stages/load_balancer_stages/round_robin_load_balancer_stage.h:52-56 | the sequence of all indices selected from a pool along a run, in closed form |
| RoundRobin.AdvanceInCycle | src/stages/load_balancer_stages/round_robin_load_balancer_stage.h:53-55 | one 8-bit increment and modulus is one step around the cycle, also where the eight bits wrap |
| RoundRobin.Fair | src/stages/load_balancer_stages/round_robin_load_balancer_stage.h:52-56 | in every run, however other pools interleave, n consecutive selections from a pool of n endpoints hit every endpoint, and none twice, if and only if n is at most 256 |
| RoundRobin.NeverBeyond256 | src/stages/load_balancer_stages/round_robin_load_balancer_stage.h:74 | the index stays below 256, so later endpoints are never chosen |
| RoundRobin.Balancer.OnMessage | src/stages/load_balancer_stages/round_robin_load_balancer_stage.h:46-67 | the modulus is never zero, the index is in range, and what each swallowed exception leaves behind; the message goes out if and only if the selected element is a name e with strings stored under e + "/host" and e + "/port", and then carries exactly these as host and port |
| RoundRobin.Balancer.EndpointAt | src/stages/load_balancer_stages/round_robin_load_balancer_stage.h:56-58 | the endpoint at an index is found if and only if that is so, with the host under e + "/host" and the port under e + "/port" |
| TypeHash.MixInjective | src/foundation/extensions.h:45-47 | one step of the hash is injective in the hash and in the character, modulo 2^64 |
| TypeHash.NamesWithCommonPrefix | src/foundation/extensions.h:43-72 | two names with a common prefix collide if and only if the rests do |
| TypeHash.OneCharacterSeparates | src/foundation/extensions.h:43-72 | names of equal length that differ in exactly one character never collide |
| TypeHash.EmptyName | src/foundation/extensions.h:55-60 | the value of the hash of the empty name, which fixes the starting constant and that the terminating NUL is hashed |
| TypeHash.WideKeepsBits | src/foundation/extensions.h:45-47 | a character is widened to 64 bits with its sign |

## Left out

- HttpDispatcherStage.DispatcherStage.ReadCompleted: in the outputs a request is represented by its number, the place of its message among those received.
- HttpDispatcherStage.DispatcherStage.Handler: the two load-balancing fields are required to be there when the handler runs; a missing one would escape it as an exception.
- A claim that no request is lost: it is false, and the exact condition is proved instead (`HttpDispatcherOutcomes.AbandonedExactlyWhen`).
- Sockets, name resolution, 30-second timeouts and buffers: replaced by completions that may succeed or fail at any time. Object pools and the lifetime of requests and responses are not modelled.
- AdmissionBound.AdmissionsAreBounded: needs messages naming the throttler to come in nondecreasing time, not below the window, and the throttler not to be reconfigured (`ThrottlerUpdates.UpdatesTakeEffect` says what its verdicts mean then); `SlidingLog.NothingIsThrottledBelowWindow` proves that below the window there is no bound.
- SlidingLogThrottler.LogThrottler.AddTimestamp: where the log is truncated it requires what `lower_bound` requires, that the entries below the threshold come first; the search itself is written out over a sequence instead of a list.
- ThrottlingStages.ThrottleStateBuilder.OnMessage: the time stamp, the verdict and, if there are lookup fields, their group must be there and of the right types, as otherwise an exception escapes a `noexcept` function; and the logs must be searchable as above. The flush threshold is never used by the program.
- ThrottlingStages.ThrottlingEnforcer.OnMessage: the fields it looks at, up to the first that suppresses the message, must be strings that are there, for the same reason.
- ThrottlingStages.ThrottleStateBuilder.OnUpdateThrottler: the dynamic cast always succeeds, since only sliding log throttlers are ever registered. Choosing between add and update by message type, and the promises of configuration messages, are not modelled.
- HttpServerParsing.ExtractPathParameters: `word[0]` of an empty segment is its terminating NUL, here the test for an empty segment.
- TokenExtractor.Augment: requires at least as many target fields as tokens extracted, since the program walks its list of targets without a check.
- RequestValidation.SectionValidator.Validate: headers, query and path parameters run the same loop over classes with the same members, so it is modelled once. The order within the hash multimap is that of registration here; validators of one key do not affect each other. Values are ASCII, so a digit is `0` to `9`.
- FilterStage.Filter.OnMessage: the text of the recorded exception is left open.
- RoundRobin.Balancer.OnMessage: lists are shorter than 2^32, where the count would be cut to 32 bits.
- TypeHash.Hash: characters are eight signed bits, as on the usual targets. That the concrete message type names do not collide is not stated.
- Front, back, iterators and the remaining lookups of the store, typed groups of messages, and `std::hash`.
- The HTTP server and its routes, the TCP and UDP servers, the routers, the broadcasting, delay and printing stages, the concatenating augmentor, the request validation stage around the validators, task execution, logging and metrics: plumbing without a deep property.
- The JSON web token decoder and validator and the multi-producer queue: thin wrappers over libraries.
- The in-process load balancer: its load, increment and store only mean something for sequential calls, where it is an easy case of the round robin.
