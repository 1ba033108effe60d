# cxxmcp in Dafny

A model of the parts of cxxmcp, a C++17 SDK for the Model Context Protocol, whose
correctness is a matter of whole runs: the server's task store, cancellation
tokens, request handles, the server's receive loop, the correlation of responses
with requests, the JSON-RPC codec, and the client transports with their worker
accounting, retry loops, event-stream parser and Windows command lines.

Code that runs under a lock is modelled twice. A class keeps the fields of the
source and edits them in place; each of its methods is one hold of the lock and is
proved equal to a function on values. A state machine then interleaves those
functions with every step that happens outside the lock, and the theorems range
over every legal sequence of events, so over every interleaving of any number of
threads. What the environment decides (replies of a server, how a send ends, which
thread runs next, what the clock says) is a parameter or an event.

| file | component |
|---|---|
| `TaskStore`, `TaskSteps`, `TaskRuns`, `TaskHistory`, `TaskPaging`, `TaskProcessor`, `Decimal` | the task store: trimming, its lock holds, its runs and what they leave in it, paging, the class, cursors |
| `Cancellation`, `CancellationOrder`, `RequestHandle` | cancellation sources and tokens; the handle of a request in flight |
| `ServeTransport`, `ServeDispatch`, `Correlation`, `RequestKey` | the server's receive loop and which messages it runs; the client's wait for a response, and its key |
| `Json`, `JsonLimits`, `JsonRpc`, `JsonRpcMembers`, `JsonRpcText` | document limits; messages and documents; what documents say; the serializers and the parser |
| `RequestWorkers`, `ServerRequests`, `HttpRetry`, `HttpReplies`, `HttpRecovery`, `CommandLine` | the client transports |
| `Sse`, `SseFields`, `SseStream` | the event-stream parser, what every line of a stream does, and the streams the server writes |

Where the code does not do what one might expect, the model follows the code and a
lemma gives the exact condition, with an input that fails beside it:

- `cancel_task` copies the task out of its record after trimming may have erased
  the record. `CancelReadsLiveRecordIff` says exactly when the record is still there.
- `list_tasks` adds the page size to the start in `size_t`. `PageIsSliceUnlessSumWraps`
  shows that a page is served exactly when the sum does not wrap; a client that only
  follows the cursors it is given never gets there (`FollowedPage`).
- A task index that has wrapped round `uint64_t` may meet a task that is still
  retained. `TidyOverRunsIff` shows, over runs of any length, that this and nothing
  else lets the map and the vector disagree; `IdsAreFresh` that it takes more than
  2^64 submissions.
- The program name is quoted like an argument but read by another rule.
  `ProgramNameSurvivesIff` says which names survive.
- A request is posted at most six times, but an initialize request up to eight
  times, because the client resends it as it stands. `RetriesBounded` gives both
  bounds and `BoundsAreReached` servers that reach them.
- A list of event-stream payloads comes back unchanged exactly when none is empty,
  starts with a line feed, or, with line feeds for line ends, has a carriage return
  at the end of a line (`StreamRoundTripsIff`). The server writes a payload as one data
  line, unescaped: it arrives exactly when it has no line feed and does not end in a
  carriage return (`PayloadArrivesIff`). The end of a stream reads as a blank line, so a
  whole stream gives one empty event more than was written (`ServerStreamIsRead`).

## Model

| member | source | states |
|---|---|---|
| `TaskStore.NamesAreKeys` | sdk/server/src/task_manager.cpp:76-78 | task names and task indices correspond one to one, so a lookup by name is a lookup by index; the name of an index is `task-` and the number |
| `TaskStore.TrimKeepsExactlyTheSurvivors` | sdk/server/src/task_manager.cpp:169-208 | trimming keeps a record, untouched, iff it is unexpired and Working, or unexpired with fewer than `max_completed_tasks` unexpired terminal tasks submitted after it; the map and the vector stay in step and in order |
| `TaskStore.TrimBoundsTerminalTasks` | sdk/server/src/task_manager.cpp:188-207 | the terminal tasks left after a trim number exactly the unexpired ones or `max_completed_tasks`, whichever is less |
| `TaskStore.TrimKeepsTidy` | sdk/server/src/task_manager.cpp:169-208 | whatever the order of the indices, a trim keeps map and vector in agreement, leaves the records it keeps untouched and keeps every task that is not terminal |
| `TaskSteps.SubmitKeepsInv` | sdk/server/src/task_manager.cpp:268-281 | every index up to 2^64 - 1 is new when it is handed out, and keeps the vector in increasing order |
| `TaskSteps.WithdrawKeepsInv` | sdk/server/src/task_manager.cpp:306-312 | undoing a refused enqueue keeps the store invariant for every id |
| `TaskSteps.SubmitKeepsTidyIffIdIsFree` | sdk/server/src/task_manager.cpp:76-78 | with a wrapping index, submit keeps the map and the vector in agreement iff the next id is not retained |
| `TaskSteps.WrappedIndexCollides` | sdk/server/src/task_manager.cpp:268-281 | a store whose counter has come round to its one task lists it twice after a submit |
| `TaskSteps.CancelReadsLiveRecordIff` | sdk/server/src/task_manager.cpp:407-433 | for a Working task that is not due, the record that `cancel_task` reads after trimming exists iff the task does not expire at once and fewer than `max_completed_tasks` terminal tasks that its refresh retains are newer |
| `TaskSteps.CancelledRecordIsLost` | sdk/server/src/task_manager.cpp:407-433 | with `max_completed_tasks` 0 the first task submitted is gone before it is read |
| `TaskSteps.RefreshKeepsWorking` | sdk/server/src/task_manager.cpp:144-167 | a refresh leaves a task Working, and then untouched, iff it was Working and is not due |
| `TaskRuns.ApplyKeepsWorldInv` | sdk/server/src/task_manager.cpp:144-312 | every lock hold that hands out no id a second time keeps the store tidy and the account of ids, updates and aborts |
| `TaskRuns.IdsAreFresh` | sdk/server/src/task_manager.cpp:76-78 | in a run of at most 2^64 submissions no id is handed out twice |
| `TaskRuns.StoreInvariantOverRuns` | sdk/server/src/task_manager.cpp:144-239 | in every state reached with fewer than 2^64 submissions `order_` lists the keys of `tasks_` once each by increasing index, and result, failure and `terminal_at` fit the status |
| `TaskRuns.TidyOverRunsIff` | sdk/server/src/task_manager.cpp:144-312 | over a run with any number of submissions the map and the vector agree in all states iff no submission meets a retained task under its id |
| `TaskRuns.OneTerminalUpdatePerTask` | sdk/server/src/task_manager.cpp:104-113 | while no id is handed out twice, every id handed out is Working, or settled by exactly one terminal update, or withdrawn |
| `TaskRuns.SourceCancelledIffAborted` | sdk/server/src/task_manager.cpp:144-167 | a record's cancellation source is cancelled iff the task was cancelled or timed out |
| `TaskRuns.TerminalIsAbsorbing` | sdk/server/src/task_manager.cpp:210-239 | a task that is over is never changed or brought back until its id is handed out again, and a late finish changes nothing |
| `TaskHistory.RetainedTaskHoldsItsOutcome` | sdk/server/src/task_manager.cpp:144-239 | a retained terminal record was made by one event of the run: a finish, whose very result or error it holds, or a timeout or cancel, whose status, message, error and time it holds; id, start and timeout are those of the task it ended |
| `TaskHistory.UnabortedTaskHoldsItsResult` | sdk/server/src/task_manager.cpp:210-239 | a retained task that was not aborted holds exactly the result or the error of the one finish of it |
| `TaskHistory.RetainedTaskWasSubmitted` | sdk/server/src/task_manager.cpp:256-281 | every retained task was submitted by one event, started then, and has the ttl it was given, or else the default timeout, in seconds |
| `TaskHistory.StaysWorkingIff` | sdk/server/src/task_manager.cpp:144-239 | an event leaves a Working task Working iff it does not finish or cancel it, does not find it overdue by its timeout in nanoseconds, and does not withdraw it |
| `TaskHistory.EndedOnce` | sdk/server/src/task_manager.cpp:210-239 | after an event that ends a task, it is never Working again |
| `TaskHistory.UpdatesTellWhatEnded` | sdk/server/src/task_manager.cpp:104-113 | every update ever reported has the status and message of what ended its task, and comes from the event that did |
| `TaskPaging.PageIsSliceUnlessSumWraps` | sdk/server/src/task_manager.cpp:360-383 | the page is the slice from the start of one page size, or `reserve` throws, the latter iff start plus page size reaches 2^64 |
| `TaskPaging.LargestPageSizeThrows` | sdk/server/src/task_manager.cpp:360-383 | one task, the largest page size and a cursor at the end of the list make `reserve` throw |
| `TaskPaging.FollowedPage` | sdk/server/src/task_manager.cpp:360-383 | at every offset reached by following cursors the page is full or last, and its cursor is its end |
| `Decimal.ParseTaskListCursor` | sdk/server/src/task_manager.cpp:24-45 | the scanning loop computes the meaning of a cursor: no cursor, a number, not decimal, or too large |
| `Decimal.DigitStringsRejectedIffTooLarge` | sdk/server/src/task_manager.cpp:28-43 | a digit string is refused iff its value exceeds the `size_t` maximum |
| `Decimal.CursorInvertsPrinting` | sdk/server/src/task_manager.cpp:24-45 | the cursor parser gives back every printed number that fits and refuses every other |
| `Decimal.ToStringInjective` | sdk/server/src/task_manager.cpp:76-78 | different indices print differently |
| `TaskProcessor.TaskOperationProcessor.TrimCompletedLocked` | sdk/server/src/task_manager.cpp:169-208 | the two erasing passes and the counting pass compute the trim, on the map and the vector alike |
| `TaskProcessor.TaskOperationProcessor.EraseExpired` | sdk/server/src/task_manager.cpp:169-187 | the first pass leaves exactly the unexpired ids, in order |
| `TaskProcessor.TaskOperationProcessor.EraseOldestTerminal` | sdk/server/src/task_manager.cpp:196-207 | the last pass drops the oldest terminal ids, as many as are over the limit |
| `TaskProcessor.TaskOperationProcessor.RefreshLocked` | sdk/server/src/task_manager.cpp:144-167 | due tasks fail, each with one update, and the store is trimmed |
| `TaskProcessor.TaskOperationProcessor.RegisterTask` | sdk/server/src/task_manager.cpp:268-281 | a new Working task under the next index, wrapped or not; the store stays tidy iff the id was free |
| `TaskProcessor.TaskOperationProcessor.WithdrawTask` | sdk/server/src/task_manager.cpp:306-312 | the record and every occurrence of the id are gone, and nothing else |
| `TaskProcessor.TaskOperationProcessor.SubmitOperation` | sdk/server/src/task_manager.cpp:241-322 | it succeeds iff there is a handler, the ttl is not negative and the executor takes the work; each refusal has its error, and leaves tasks and order as they were unless the wrapped id met a retained task |
| `TaskProcessor.TaskOperationProcessor.FinishTask` | sdk/server/src/task_manager.cpp:210-239 | a Working task is settled and reported once; any other id changes nothing |
| `TaskProcessor.TaskOperationProcessor.CancelTask` | sdk/server/src/task_manager.cpp:407-433 | after a refresh an unknown task is refused, a terminal one is returned as it is, a Working one is cancelled; the updates are those of the refresh and the one of the cancel |
| `TaskProcessor.TaskOperationProcessor.TaskResult` | sdk/server/src/task_manager.cpp:441-471 | the stored result or failure by status, an error for an unknown or unfinished task, and the updates of the refresh |
| `TaskProcessor.TaskOperationProcessor.ListTasks` | sdk/server/src/task_manager.cpp:349-383 | the page of the refreshed store at the cursor and the updates of the refresh; a bad cursor is refused before anything changes |
| `TaskProcessor.RefusedSubmitUndoesIff` | sdk/server/src/task_manager.cpp:268-312 | submitting and then withdrawing restores everything but the index iff the id was not retained |
| `TaskProcessor.FetchPage` | sdk/client/src/client.cpp:1193-1215 | one round trip on a store that stays quiet: the slice at the offset, and a cursor that means its end |
| `TaskProcessor.ListAllTasks` | sdk/client/src/client.cpp:1193-1215 | the client's loop ends, and unless a request fails it returns every task exactly once in order for every page size, zero included, with just the requests that takes |
| `Cancellation.NoCallbackRunsTwice` | sdk/include/cxxmcp/cancellation.hpp:180-242 | over every interleaving no callback runs twice |
| `Cancellation.UnregisterDrops` | sdk/include/cxxmcp/cancellation.hpp:81-95 | unregistering a callback that is still listed takes out that one and no other |
| `Cancellation.UnregisteredNeverRuns` | sdk/include/cxxmcp/cancellation.hpp:81-95 | a callback unregistered before it was drained never runs, whatever follows |
| `Cancellation.FirstCancelSettlesAll` | sdk/include/cxxmcp/cancellation.hpp:180-242 | once the first `cancel()` has returned the list is empty and every callback has run once, was unregistered in time, or is in the hands of its registrar |
| `Cancellation.NoLostWakeup` | sdk/include/cxxmcp/cancellation.hpp:127-136 | once the first `cancel()` has notified, no waiter sleeps or is about to sleep |
| `Cancellation.WaitersAreToldTheTruth` | sdk/include/cxxmcp/cancellation.hpp:127-163 | a wait returns true only once the source has been cancelled, and false only if it has a timeout or deadline |
| `Cancellation.NoWaitGivesUpAfterNotify` | sdk/include/cxxmcp/cancellation.hpp:127-163 | once the first `cancel()` has notified, no wait comes back with false, timed or not |
| `Cancellation.InvKept` | sdk/include/cxxmcp/cancellation.hpp:81-242 | each step of registrars, waiters and cancellers keeps the mutex, list, id and phase invariants |
| `Cancellation.CancellationState.Append` | sdk/include/cxxmcp/cancellation.hpp:193-194 | the callback goes to the end of the list under the next id |
| `Cancellation.CancellationState.Unregister` | sdk/include/cxxmcp/cancellation.hpp:81-95 | the loop erases the first entry with the id, if there is one |
| `Cancellation.CancellationState.Drain` | sdk/include/cxxmcp/cancellation.hpp:226-233 | all callbacks are moved out in order and the list is left empty |
| `CancellationOrder.ListedRunInOrder` | sdk/include/cxxmcp/cancellation.hpp:222-242 | callbacks that were in the list run in the order in which they were registered, whatever registrars run of their own in between |
| `CancellationOrder.LateWaitsComeBackAtOnce` | sdk/include/cxxmcp/cancellation.hpp:127-136 | a wait that begins once the flag is up never takes the mutex or sleeps, and returns true |
| `RequestHandle.OneAutomaticCancel` | sdk/include/cxxmcp/request.hpp:275-369 | over any interleaving of token firings and timed-out awaits a terminal error stands iff `cancel_sent`, and at most one cancel is sent |
| `RequestHandle.ClaimedCancelIsSent` | sdk/include/cxxmcp/request.hpp:275-369 | when all calls are through, exactly one cancel was sent if there is a terminal error, and none otherwise |
| `RequestHandle.TerminalIsFinal` | sdk/include/cxxmcp/request.hpp:346-369 | a terminal error is never replaced |
| `RequestHandle.LaterAwaitsAgree` | sdk/include/cxxmcp/request.hpp:200-251 | an await started after a terminal error returns that error |
| `RequestHandle.FailuresAgree` | sdk/include/cxxmcp/request.hpp:200-251 | every await that fails returns the stored error |
| `RequestHandle.OutcomesAgree` | sdk/include/cxxmcp/request.hpp:210-251 | every await that does not fail returns the one outcome of the result cell |
| `RequestHandle.NoAwaitReturnsTheMark` | sdk/include/cxxmcp/request.hpp:200-331 | however token and awaits race, an await returns what the task returned or the terminal error, never the cancellation mark of the cell |
| `RequestHandle.TerminalErrorIsTheCause` | sdk/include/cxxmcp/request.hpp:210-251 | over every run a stored cancellation error means the handle has a token and it was raised, a stored timeout that the handle has a timeout |
| `RequestHandle.WithoutTheTokenFailuresAreTimeouts` | sdk/include/cxxmcp/request.hpp:210-243 | in a run in which the token is never raised every await that fails returns the timeout |
| `RequestHandle.RaisedTokenWins` | sdk/include/cxxmcp/request.hpp:228-243 | once the token is raised and no await has decided on a timeout, no timeout is ever stored: an await that times out stores the cancellation |
| `RequestHandle.TerminalErrorReachesEveryAwait` | sdk/include/cxxmcp/request.hpp:200-251 | from the step that stores an error on, every await still to return returns that error, even with an outcome in hand |
| `RequestHandle.UndisturbedAwaitsSucceed` | sdk/include/cxxmcp/request.hpp:200-251 | if the token is not raised and no wait times out, every await that returns has what the task returned, and no cancel is sent |
| `RequestHandle.RequestHandleControl.FailTerminal` | sdk/include/cxxmcp/request.hpp:346-360 | the first error stays and is returned; only the first caller is told to send |
| `RequestHandle.RequestHandleControl.TokenFired` | sdk/include/cxxmcp/request.hpp:285-300 | as for a timeout, with the cancellation error |
| `ServeTransport.NeverReturnsOverAWorker` | sdk/include/cxxmcp/peer.hpp:3949-4177 | the loop has not returned while a request worker is active |
| `ServeTransport.SuccessMeansOneReplyEach` | sdk/include/cxxmcp/peer.hpp:3949-4177 | if it returns success, the requests received are exactly the requests replied to, each once |
| `ServeTransport.NoRequestRepliedTwice` | sdk/include/cxxmcp/peer.hpp:4008-4024 | however it ends, no request has two replies |
| `ServeTransport.GateHolds` | sdk/include/cxxmcp/peer.hpp:4090-4165 | a request handler runs before the first successful initialized notification only for initialize, ping and stateless requests |
| `ServeTransport.HandshakeRunsInline` | sdk/include/cxxmcp/peer.hpp:4116-4135 | no worker ever has an initialize request, nor, before the session is initialized, any but stateless requests; what else may be run is run by a worker |
| `ServeDispatch.RefusedIffTooEarly` | sdk/include/cxxmcp/peer.hpp:4090-4138 | if the loop returns success, every request has one reply, and its handler ran exactly once, unless the request came before the session was initialized and is not initialize, ping or stateless, when it is refused and never run |
| `ServeDispatch.TooEarlyIsNeverRun` | sdk/include/cxxmcp/peer.hpp:4090-4110 | however the run goes on, such a request is never run, and no handler runs twice |
| `ServeDispatch.NotificationsAreRunIff` | sdk/include/cxxmcp/peer.hpp:4140-4164 | a notification is run exactly once if the session is initialized, it is stateless or it is the initialized notification; any other ends the loop with the not-initialized error |
| `ServeDispatch.StrayResponseEndsTheLoop` | sdk/include/cxxmcp/peer.hpp:4166-4170 | a response ends the loop with the uncorrelated-response error |
| `ServeDispatch.SucceedsIffNothingFailed` | sdk/include/cxxmcp/peer.hpp:3949-4177 | the loop returns success iff no event of the run brought an error, and otherwise an error that one of them brought |
| `ServeTransport.InvKept` | sdk/include/cxxmcp/peer.hpp:3949-4177 | each step of the loop and of the workers keeps the count, the account of replies and the gate |
| `ServeTransport.WorkerState.RecordWorkerError` | sdk/include/cxxmcp/peer.hpp:3964-3974 | the first error recorded stays |
| `ServeTransport.WorkerState.FinishWorker` | sdk/include/cxxmcp/peer.hpp:3976-3984 | the count goes down by one and not below zero |
| `RequestKey.KeyInjective` | sdk/include/cxxmcp/peer.hpp:105-108 | different request ids have different keys, numbers and strings included |
| `Correlation.NativePeer.Take` | sdk/include/cxxmcp/peer.hpp:2008-2019 | takes out the buffered response with this very id, and leaves all others |
| `Correlation.NativePeer.Store` | sdk/include/cxxmcp/peer.hpp:1970-1982 | buffers a response under the key of its id, and refuses one without an id |
| `Correlation.NativePeer.HandleOne` | sdk/include/cxxmcp/peer.hpp:1858-1895 | the one reply a server request gets, what is buffered, and whether the loop goes on or stops with a result; `FirstAnswerDecides` says which, message by message |
| `Correlation.NativePeer.ReadUntilAnswered` | sdk/include/cxxmcp/peer.hpp:2427-2459 | over any inbound sequence: how many messages are gone by, the replies sent and responses buffered for exactly those, and the result of the message it stops at |
| `Correlation.NativePeer.SendNativeRequest` | sdk/include/cxxmcp/peer.hpp:2410-2460 | returns only a response with its own id, the buffered one if there is one, else as the reading loop stops; the other responses are buffered and the server's requests answered |
| `Correlation.FirstAnswerDecides` | sdk/include/cxxmcp/peer.hpp:2427-2459 | the call ends at the first message that is not another's response, a notification handled or a server request answered; its own response is returned, and a closed or broken transport, a failed notification, an unsent reply or a response without id each give their own error |
| `Correlation.OwnResponseIsReturned` | sdk/include/cxxmcp/peer.hpp:2427-2459 | the first response with the call's id, after messages that fail nothing, is the result |
| `Correlation.LastResponseIsStored` | sdk/include/cxxmcp/peer.hpp:1970-1982 | for each id the buffer holds the last response that bore it, or what it held before |
| `Correlation.OneReplyPerRequest` | sdk/include/cxxmcp/peer.hpp:2445-2458 | each server request gone by is replied to exactly as often as it came |
| `Correlation.NumberAndTextApart` | sdk/include/cxxmcp/peer.hpp:105-108 | a numeric id and a string id never share a key |
| `JsonLimits.ValidateLimits` | sdk/protocol/src/serialization.cpp:26-96 | the stack loop accepts a document iff its depth, bytes, entries and nodes are within the limits; a refusal names an exceeded limit, and never the node limit |
| `JsonLimits.NodesAreEntriesPlusOne` | sdk/protocol/src/serialization.cpp:16-19 | a document has one node more than it has collection entries, so the node limit is implied |
| `JsonLimits.LimitsInNumbers` | sdk/protocol/src/serialization.cpp:16-19 | the limits are a depth of 128, 16 MiB of text, 100,000 entries and 200,000 nodes |
| `JsonLimits.PushMembers` | sdk/protocol/src/serialization.cpp:70-90 | the members of an object are pushed and their key bytes counted in any order, stopping once over the limit |
| `JsonRpc.PassCanonicalises` | sdk/protocol/src/serialization.cpp:157-272 | one serialize-then-parse pass succeeds for exactly the messages that travel, gives their canonical form, and a second pass writes the same document |
| `JsonRpc.RoundTripIffCanonical` | sdk/protocol/src/serialization.cpp:288-356 | a message comes back unchanged, kind included, iff it is canonical |
| `JsonRpc.CanonicalMeansFixed` | sdk/protocol/src/serialization.cpp:157-203 | canonical messages are exactly the fixed points of a pass |
| `JsonRpc.ParsedIsCanonical` | sdk/protocol/src/serialization.cpp:420-503 | whatever the parser accepts is canonical |
| `JsonRpc.ErrorRoundTrip` | sdk/protocol/src/serialization.cpp:392-418 | an error object is read back as it was written |
| `JsonRpcMembers.AcceptsIff` | sdk/protocol/src/serialization.cpp:125-505 | a document is accepted iff, by its members, it is a message: version 2.0, not both a result and an error, and a method with fitting id, params and metadata, or a fitting response |
| `JsonRpcMembers.MeansWhatItSays` | sdk/protocol/src/serialization.cpp:358-505 | every field of what the parser returns is what the members say: null and absent params are the empty object, an unsigned id is taken modulo 2^64, metadata comes from the params |
| `JsonRpcMembers.RefusedForItsFirstFault` | sdk/protocol/src/serialization.cpp:125-505 | a refusal names a fault the document has, and the first of its faults in the order of checking |
| `JsonRpcMembers.WrittenAsItsMembers` | sdk/protocol/src/serialization.cpp:252-356 | the serializer writes exactly the members of the message, and refuses exactly metadata on params that are no object and a response with neither result nor error |
| `JsonRpcText.ObjectWriter.AppendParams` | sdk/protocol/src/serialization.cpp:252-272 | writes the params member with the metadata merged in, or none, or fails, as the document demands |
| `JsonRpcText.SerializeErrorObject` | sdk/protocol/src/serialization.cpp:274-286 | the text reads back as the error object |
| `JsonRpcText.SerializeRequest` | sdk/protocol/src/serialization.cpp:288-304 | the text reads back as exactly the message's document, whatever follows it |
| `JsonRpcText.SerializeResponse` | sdk/protocol/src/serialization.cpp:306-339 | the same for responses, an error winning over a result |
| `JsonRpcText.SerializeNotification` | sdk/protocol/src/serialization.cpp:341-356 | the same for notifications |
| `JsonRpcText.SerializeMessage` | sdk/protocol/src/serialization.cpp:611-624 | the same for any message |
| `JsonRpcText.ParseMessage` | sdk/protocol/src/serialization.cpp:560-609 | a parse error iff the text is not one value; an array, another non-object and an exceeded limit each have their error; otherwise the message of the document, by `AcceptsIff` and `MeansWhatItSays` |
| `JsonRpcText.RoundTrip` | sdk/protocol/src/serialization.cpp:560-624 | through the text and back a canonical message within the limits is itself, and any other that gets through is canonical |
| `RequestWorkers.WorkersAreConserved` | sdk/client/src/http_transport.cpp:1381-1438 | in every reachable state active is the number of ids in flight, accepted is active plus completed plus forgotten, and timed out, failed, completed are in that order |
| `RequestWorkers.OneMessagePerWorker` | sdk/client/src/http_transport.cpp:1483-1520 | a worker that is through has enqueued exactly one message unless the transport was closed |
| `RequestWorkers.StartAcceptedIff` | sdk/client/src/http_transport.cpp:1381-1438 | in every reachable state a request is refused iff the transport was closed or a worker in flight has its id, with the error for each, and otherwise gets a worker |
| `RequestWorkers.CountersCountTheEvents` | sdk/client/src/http_transport.cpp:1498-1520 | the counters are the numbers of workers done, failed, timed out and forgotten in the run |
| `RequestWorkers.NativeTransport.StartRequest` | sdk/client/src/process_stdio_transport.cpp:1136-1155 | refused if closed or a duplicate id, else counted and in flight |
| `RequestWorkers.NativeTransport.FinishRequestWorker` | sdk/client/src/process_stdio_transport.cpp:1244-1258 | the id leaves and the counters move as the outcome says |
| `RequestWorkers.NativeTransport.ForgetRequestWorker` | sdk/client/src/process_stdio_transport.cpp:1260-1266 | the id leaves and only the active count moves |
| `RequestWorkers.ReapCompletedRequestWorkers` | sdk/client/src/http_transport.cpp:1336-1353 | the in-place compaction keeps exactly the unfinished workers in order and hands out the finished threads in order |
| `RequestWorkers.ReapKeepsTheUnfinished` | sdk/client/src/http_transport.cpp:1336-1353 | every unfinished worker is kept as often as it was there, and no finished one |
| `RequestWorkers.ReapPartitions` | sdk/client/src/http_transport.cpp:1336-1353 | every thread is kept or handed out, and in all as often as it was there |
| `RequestWorkers.ReapIsStable` | sdk/client/src/http_transport.cpp:1336-1353 | reaping again right away changes nothing |
| `ServerRequests.SlotWrittenAtMostOnce` | sdk/client/src/http_transport.cpp:1522-1545 | a response slot is written at most once, by the reply with the request's id or by the close, never by both |
| `ServerRequests.CloseSettlesAll` | sdk/client/src/http_transport.cpp:1281-1315 | once close has returned nothing is pending, and a request without an answer is in the hands of a replier |
| `ServerRequests.NothingAdmittedAfterClose` | sdk/client/src/http_transport.cpp:1440-1468 | no request is admitted after the close |
| `ServerRequests.AdmittedIff` | sdk/client/src/http_transport.cpp:1440-1468 | in every reachable state a request is admitted iff the transport was not closed and no waiting request has its id |
| `ServerRequests.FirstToComeDecides` | sdk/client/src/http_transport.cpp:1522-1545 | a reply that finds a request waiting is what its slot gets, and a close that finds it waiting gives it the closing error, whatever follows |
| `ServerRequests.PendingTable.Admit` | sdk/client/src/process_stdio_transport.cpp:1186-1214 | admitted iff open and the id is not pending |
| `ServerRequests.PendingTable.Complete` | sdk/client/src/process_stdio_transport.cpp:1268-1291 | takes the request out and writes its slot, and no other slot |
| `ServerRequests.PendingTable.Close` | sdk/client/src/process_stdio_transport.cpp:1064-1097 | the table is emptied and every slot in it gets the closing error |
| `HttpRetry.HttpTransport.RememberSession` | sdk/client/src/http_transport.cpp:795-813 | an empty session header is refused, a missing one changes nothing, and a stateless transport ignores it |
| `HttpRetry.HttpTransport.Pass` | sdk/client/src/http_transport.cpp:429-526 | one pass: the flag it uses up to go round again, or the result, and the session it leaves |
| `HttpRetry.HttpTransport.Send` | sdk/client/src/http_transport.cpp:402-528 | the loop ends for every server with the result, session and number of POSTs of the specification |
| `HttpRetry.SendBounded` | sdk/client/src/http_transport.cpp:425-528 | one send makes at most three POSTs, or four to initialize, whatever the server does |
| `HttpRetry.LastReplyDecides` | sdk/client/src/http_transport.cpp:429-526 | the result is the verdict on the last reply, every signed attempt is one POST, and a final 404 leaves no session |
| `HttpRetry.ThreePosts` | sdk/client/src/http_transport.cpp:425-528 | the bound of three is reached |
| `HttpRetry.FourPosts` | sdk/client/src/http_transport.cpp:425-528 | the bound of four is reached |
| `HttpReplies.SendExplained` | sdk/client/src/http_transport.cpp:425-528 | every send is explained by its replies: each further attempt by a reason its reply asks for (401 with nonce headers, 404 to initialize, 401 or 403 with renewed authorization) not used before, the end by the lack of one, the result by the status and headers of the last reply, the session by the headers on the way |
| `HttpReplies.RefusalIsFinal` | sdk/client/src/http_transport.cpp:486-498 | a 403, or a 401 without nonce headers, that brings no renewed authorization ends the send after one POST with the authorization error |
| `HttpReplies.FailuresInNumbers` | sdk/client/src/http_transport.cpp:447-528 | the error code and message of each way a send fails |
| `HttpRecovery.Client.SendRpcRequest` | sdk/client/src/client.cpp:451-534 | the call initializes by itself, sends, recovers and resends as the specification says |
| `HttpRecovery.Client.SendAndRecover` | sdk/client/src/client.cpp:490-533 | the loop sends at most twice, with the recovery in between |
| `HttpRecovery.Client.Initialize` | sdk/client/src/client.cpp:507-525 | initialize succeeds iff it is answered, its payload is accepted and it is recorded |
| `HttpRecovery.RetriesBounded` | sdk/client/src/client.cpp:451-534 | a call makes at most fourteen POSTs, six of the request itself, or eight for an initialize |
| `HttpRecovery.BoundsAreReached` | sdk/client/src/client.cpp:451-534 | there are servers for which both bounds are reached |
| `HttpRecovery.ResentOnlyAfterRecovery` | sdk/client/src/client.cpp:162-165 | after a terminated session a request is posted again only once an initialize payload has been accepted and then recorded |
| `HttpRecovery.SuccessIsTheRequestsOwn` | sdk/client/src/client.cpp:490-533 | a good result is the answer to the last send of the request itself, made where the call, its automatic initialize or its recovery left off |
| `HttpRecovery.HowACallEnds` | sdk/client/src/client.cpp:451-534 | the result of every call: that of its first send, of the resend, or the error of the initialize in between, each from the state the one before left |
| `HttpRecovery.TerminatedByItsText` | sdk/client/src/client.cpp:162-165 | of all failures of a send exactly a terminated session has the code and message the client looks for |
| `Sse.ParseSseEvents` | sdk/client/src/http_transport.cpp:285-348 | the index-driven loop computes the events of the lines |
| `Sse.ReadLine` | sdk/client/src/http_transport.cpp:296-340 | what one line says, by field, including comments, unknown fields and unreadable retries |
| `Sse.StreamRecovers` | sdk/client/src/http_transport.cpp:906-921 | printing any payloads, parsing and dropping empty data gives what each comes back as |
| `Sse.StreamRoundTripsIff` | sdk/client/src/http_transport.cpp:285-348 | printing payloads, parsing and dropping empty data gives the payloads back in order iff none is empty, starts with a line feed or, with LF line ends, has a carriage return at the end of a line |
| `Sse.RecoveredUnchangedIff` | sdk/client/src/http_transport.cpp:301-320 | the data of a payload's event is the payload iff it is empty, or starts with no line feed and loses no carriage return |
| `Sse.EmptyPayloadIsSkipped` | sdk/client/src/http_transport.cpp:906-921 | an empty payload never comes back |
| `Sse.LeadingLfIsLost` | sdk/client/src/http_transport.cpp:301-320 | a line feed in front of any line is lost |
| `Sse.ClosingCrIsLost` | sdk/client/src/http_transport.cpp:296-300 | with LF line ends a carriage return behind any line is lost |
| `Sse.PayloadsRoundTrip` | sdk/client/src/http_transport.cpp:285-348 | in particular payloads that are not empty, start with no line feed and hold no carriage return are all recovered in order, for LF and CRLF |
| `SseFields.BlocksAreRead` | sdk/client/src/http_transport.cpp:285-348 | a stream of blocks of any lines gives, in order, the event of each block: the last event, id and readable retry line, the data lines joined without leading empty ones, and nothing from comments and unknown names; then one empty event |
| `SseFields.BrokenOffBlockIsKeptIff` | sdk/client/src/http_transport.cpp:342-345 | an unfinished last block is an event iff it has data, an id or a retry that is not negative |
| `SseFields.EveryLineIsWritable` | sdk/client/src/http_transport.cpp:303-316 | every line that is not blank and does not end in a carriage return is a field, a bare name or a comment, so the two statements above cover every stream of such lines |
| `SseFields.NumberIsRead` | sdk/client/src/http_transport.cpp:325-333 | a retry is read as white space, a sign and digits, ignoring what follows, and only within 32 bits |
| `SseFields.EveryTextIsRead` | sdk/client/src/http_transport.cpp:325-333 | every text is of that form, so that says how any retry is read |
| `SseStream.MessageToSseEvent` | sdk/server/src/http_transport.cpp:204-216 | what the server writes for a message: an id line if there is an id, one data line, a blank line |
| `SseStream.SsePrimingEvent` | sdk/server/src/http_transport.cpp:218-226 | what it writes to prime a stream |
| `SseStream.ServerStreamIsRead` | sdk/server/src/http_transport.cpp:204-226 | whatever messages, priming events and retry hints the server writes, the client's parser gives the event of each in order, with payload, id and retry, and one empty event |
| `SseStream.PayloadArrivesIff` | sdk/server/src/http_transport.cpp:204-216 | a payload arrives whole iff it has no line feed and does not end in a carriage return |
| `CommandLine.QuoteArg` | sdk/client/src/process_stdio_transport.cpp:110-140 | the loop with its backslash counter computes the quoted form |
| `CommandLine.CommandLineFromOptions` | sdk/client/src/process_stdio_transport.cpp:142-150 | the quoted command, then each quoted argument behind a space |
| `CommandLine.SplitInvertsQuoting` | sdk/client/src/process_stdio_transport.cpp:110-150 | splitting by Microsoft's C runtime rules gives every list of arguments back, before and after 2008 |
| `CommandLine.UnquotedIff` | sdk/client/src/process_stdio_transport.cpp:110-117 | an argument is left as it is iff it is not empty and holds no space, tab, line feed, vertical tab or quote |
| `CommandLine.ProgramNameSurvivesIff` | sdk/client/src/process_stdio_transport.cpp:142-144 | the program name is read back iff it holds no quote and is not both quoted and ended by a backslash |
| `CommandLine.ProgramNamesThatAreLost` | sdk/client/src/process_stdio_transport.cpp:142-144 | a name with a quote, and one with a space that ends in a backslash, are not read back |

## Left out

- Clocks: times are numbers that do not decrease. Timestamp strings, poll intervals and overflow of `std::chrono` arithmetic are not modelled.
- Task status hooks: an update is an element of a sequence or multiset. The Working update that `submit_operation` emits, progress tokens and the order in which hooks run are not modelled.
- `get_task` and `submit_tool_call`: they read or wrap what is modelled and would only add easy members.
- TaskProcessor.TaskOperationProcessor.CancelTask: the task it returns is the record as it stood before the second trim, because the source's read of an erased record has no defined value; `CancelReadsLiveRecordIff` says when that read is of a live record.
- TaskRuns.OneTerminalUpdatePerTask: speaks of runs in which no id is handed out twice, which takes more than 2^64 submissions; once an id is handed out again its second task may get an update of its own.
- TaskRuns.SourceCancelledIffAborted: speaks of the same runs, because the abort of an earlier task under a reused id says nothing about the later one.
- TaskRuns.TerminalIsAbsorbing: ends when the id is handed out again, because a later task may then be retained under it.
- TaskProcessor.ListAllTasks: speaks of a store in which nothing falls due or expires while it is listed; a store that changes between pages may be listed with gaps.
- Weak memory: the atomic flag of a cancellation state is read and written in one order that all threads see.
- Callback ids: `next_callback_id` is not taken modulo 2^64. A registration with no callback or a detached token does nothing and is not an event.
- Exceptions: a callback, handler or hook that throws is modelled only where the source turns the exception into a value. Transports, whose calls return their errors as values, do not throw.
- ServeTransport.WorkerState.RecordWorkerError: does not model the close of the transport that follows, because what a closed transport does to later calls is up to the transport.
- RequestHandle: the registration that the control keeps is not modelled; the token may fire any number of times, which allows more runs than the source does. A handle without state, whose await fails at once, and `AsyncResult` beyond a cell that is set once are left out.
- ServeTransport: the stateless mark of a message is a field, not read from `_meta`. The transport, the handlers and the thread library answer as they please, so no statement is made about what a reply says.
- Correlation: what arrives is a finite sequence followed by a close; waiting while a receive loop runs is left out. Invalid UTF-8 in a request id, for which printing throws, is left out.
- JSON text: a text is a sequence of punctuation and printed values; the printer and the parser of a single value are taken to be inverse, and floating-point values that do not survive printing are not modelled.
- RequestWorkers: the counters do not wrap. The done flag of a thread is the value the reap loaded. `in_flight_requests_` of the client, which is not conserved when the executor refuses, is not modelled.
- Process transport: that a late response after a timeout fails the other pending requests is not modelled.
- HttpRetry: the detail text of an unanswered request is left out; replies that the client posts to the server's own requests and the GET of a reconnecting event stream are not counted as POSTs; headers and signing beyond success or failure are left out.
- HttpRecovery: the contents of the recorded capabilities are left out; the trace marks that they were recorded.
- CommandLine: conversion to wide characters and embedded NUL are left out; strings are sequences of characters.
- SseStream: which chunks the server writes, and when, is not modelled; retry hints are written without an id.
- WebSocket transport, stdio server transport, registries, authorization, DPoP, builders, packaging and scripts are not modelled: they repeat a pattern modelled here or are settled by reading one branch.
