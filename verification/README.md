# Verification of sgrpc: task queue, execution context, RPC signals, server handlers, run loop

sgrpc is a C++ library that runs gRPC calls as senders and receivers. This project models the parts of it
whose correctness depends on how steps of many threads interleave, or on pointers that outlive what they
were meant for, and proves what holds of them over every run. Where the code does not do what its own
documentation says, the model follows the code, a concrete run shows the difference, and the exact
condition under which the documented behaviour does hold is proved.

## What is modelled

- **The scan of the task queue** (`Scan.dfy`). `(offset + i) % n_queues_` over 32-bit unsigned integers.
- **The task queue under interference** (`Bags.dfy`, `QueueProtocol.dfy`, `QueueTheorems.dfy`,
  `QueueScans.dfy`). Any number
  of `push`, `try_pop` and `stop_and_eject` calls interleave, one access to shared memory a step; every
  `try_to_lock` may fail. A run is any sequence of steps.
- **The task queue as objects** (`TaskQueue.dfy`), with the source's loops; the outcomes of its lock
  attempts are arguments. `TaskQueueSteps.dfy` connects the two: an uninterrupted call is a run of the
  protocol and ends where the method's contract says.
- **gRPC's completion queue** (`CompletionQueue.dfy`), by contract only.
- **Server handlers** (`ServerHandlers.dfy`): the objects that spawn and delete each other on one server
  queue, as a population and as a class.
- **What a receiver is told about an RPC** (`RpcSignals.dfy`): `RpcSenderOpState`, the completion that
  `CallData` wraps around it and `InflightRpc`, for receivers and conversions that may throw.
- **The `CallData` shared by copies of one sender** (`SharedCall.dfy`, `SharedSignals.dfy`): which start a
  call answers to, and how often each start's receiver is told something.
- **The execution context** (`ContextProtocol.dfy`, `ContextInvariant.dfy`, `ContextTheorems.dfy`,
  `ContextHistories.dfy`, `ContextSignals.dfy`, `ContextPasses.dfy`, `ContextProgress.dfy`,
  `ContextStranding.dfy`, `ContextShutdown.dfy`, `ContextRuns.dfy`): posters and the `CallData` objects their starts share, client
  queues, servers, the task queue, workers, concurrent calls of `stop`, notifications, from Ready to Stopped.
  `ExecutionContext.dfy` has the object with its methods, as one call runs them while no other interferes;
  each is proved to be a run of the protocol.
- **The from-scratch example** (`Senders.dfy`, `RunLoop.dfy`): senders, `connect`, and the intrusive run
  loop on heap nodes.

## Findings

- `stop_and_eject` is documented to drain the queues. It sweeps first and tests `in_push_` afterwards, so a
  push that stores behind the sweep and leaves before the test strands its thunk
  (`QueueTheorems.StrandingRun`). The drain is certain if and only if no push stands between its check of
  `is_done_` and its store when the sweep starts (`QueueTheorems.StopAndEjectDrainsIff`). Waiting for
  `in_push_ == 0` before a last sweep would be enough (`QueueTheorems.SweepFromZeroDrainsForGood`).
- For the whole context: a `post` of a thunk may answer true and the thunk never run
  (`ContextRuns.ThunkLeftBehind`). That no thunk is left behind is certain if and only if no push stands
  between its check and its store when the last worker leaves its main loop
  (`ContextStranding.ThunksAllRunIff`). Calls through completion queues have no such gap
  (`ContextTheorems.StoppedCompletesEverything`), because `stop` waits for zero before it shuts them down.
- The scan misses a queue when its offset is near 2^32 and the number of queues does not divide 2^32
  (`Scan.CoverageIff`, `Scan.ThreeQueuesCanMiss`); the number of queues is the number of threads plus one.
- `CallData` converts the response before anything looks at the status, so a conversion that throws hides
  the status sent by the peer (`RpcSignals.CalmSignal`). A receiver whose first call throws is told again by
  the same delivery: a second time by a catch clause, and a third time if the error that follows a thrown
  `set_value` throws as well (`RpcSignals.ToldCount`, `RpcSignals.OneTwoThreeSignals`).
- Overlapping starts of copies of one type-erased sender can answer to each other's receivers
  (`SharedCall.CallIsOwnIff`, `SharedCall.OverlapMisroutes`). So a started RPC need not tell its receiver
  exactly one thing: one accepted RPC may never tell its receiver anything, and a refused one may tell its
  receiver twice (`ContextRuns.ToldTwice`). Each receiver is told exactly one thing if and only if no start
  binds or creates its call between the bind and the call of another start of the same sender, and at most
  one if and only if no call takes a refused start's completion (`ContextSignals.EachRpcSignalsOnce`).
- `run_loop::pop_front` never resets `tail`: nodes pushed after the list was first emptied are never popped
  (`RunLoop.DrainedForGood`, `RunLoop.LoopIsQueueIff`).
- A wired handler line loses its listener at the first not-ok delivery to its *listening* handler; a not-ok
  delivery to a replying one does not close the line (`ServerHandlers.PopulationIsExact`).

## Assumptions

- Accesses to shared memory are sequentially consistent. The source uses acquire/release operations with
  signal fences around store-then-load patterns, which C++ does not order that strongly.
- `in_push_` and `within_cq_post_` do not overflow: they count calls in progress.
- The number of threads plus the queues of any one group is at most 2^32 (`Sensible`, `DoAttach`).
- A completion queue answers SHUTDOWN if and only if it was shut down and owes no tag, and delivers each tag
  once. Taking an event off the queue and running its `complete` is one step.
- The model also lets an object register on a server queue that is shut down; this happens when an ok
  request is delivered after the shutdown. Only the progress results assume that gRPC hands over no
  new request after the shutdown (`Graceful`).
- `run_while` starts its threads in one step; no worker calls `stop`, since it would join itself.
- In the context protocol receivers do not throw; those that do are in `RpcSignals`.
- A moved-from `std::function` is empty. Assigning the completion of a shared `CallData` and moving it out
  are one step each; the source does both without a lock, so overlapping starts are also a data race.
- The factory given to `post` neither throws nor returns null. The source does not guard against either: a
  factory that throws leaves `within_cq_post_` raised, so that `stop` waits for ever, and one that returns
  null creates no event although `post` answers true. `ContextShutdown.CanAlwaysStop` and
  `ContextTheorems.StoppedCompletesEverything` presume neither happens.
- `just_sender` calls its field `value_` and reads `self.value`; the evident intent is modelled.

## Model

| member | source | states |
|---|---|---|
| Scan.CoverageIff | src/sgrpc/detail/atomic_task_stealing_queue.hpp:177-180 | The n probes of a scan visit every queue, if and only if none is visited twice, if and only if the 32-bit sum does not wrap within the scan or n divides 2^32 |
| Scan.HarmfulWrapMisses | src/sgrpc/detail/atomic_task_stealing_queue.hpp:195-201 | Otherwise some queue is never probed |
| Scan.HarmfulWrapRepeats | src/sgrpc/detail/atomic_task_stealing_queue.hpp:195-201 | Otherwise some queue is probed twice |
| Scan.ThreeQueuesCanMiss | src/sgrpc/execution_context.cpp:25 | With two threads, hence three queues, a scan near 2^32 misses a queue |
| QueueProtocol.StepKeepsInv | src/sgrpc/detail/atomic_task_stealing_queue.hpp:135-203 | Every atomic step of every call keeps order per queue, conservation of thunks, the count of the push bracket and the loop bounds |
| QueueProtocol.ExecKeepsInv | src/sgrpc/detail/atomic_task_stealing_queue.hpp:135-203 | So does every run |
| QueueProtocol.PushProbeKeepsInv | src/sgrpc/detail/atomic_task_stealing_queue.hpp:69-75 | No attempt of a push, contended or not, loses or duplicates a thunk or disturbs the order of a queue |
| QueueProtocol.PopProbeKeepsInv | src/sgrpc/detail/atomic_task_stealing_queue.hpp:39-52 | No attempt of a pop, contended, on an empty queue or successful, loses or duplicates a thunk or disturbs the order of a queue |
| QueueProtocol.EjectOneKeepsInv | src/sgrpc/detail/atomic_task_stealing_queue.hpp:77-82 | Neither does an eject, which empties a queue in one step while pushes and pops go on |
| QueueTheorems.EachThunkInOnePlace | src/sgrpc/detail/atomic_task_stealing_queue.hpp:135-203 | In every run an accepted thunk is in exactly one place (queued, popped or ejected), a refused one nowhere, and none is executed more than once |
| QueueTheorems.EachQueueIsFifo | src/sgrpc/detail/atomic_task_stealing_queue.hpp:39-82 | In every run, per queue, everything removed followed by the contents is everything inserted, in order |
| QueueTheorems.FirstStoredFirstTaken | src/sgrpc/detail/atomic_task_stealing_queue.hpp:39-82 | In every run, per queue, read off the steps alone: what pushes stored there, in order, is what pops and ejects were handed, in order, followed by the contents |
| QueueTheorems.BracketIsCounted | src/sgrpc/detail/atomic_task_stealing_queue.hpp:168-187 | `in_push_` is the number of pushes inside the bracket |
| QueueTheorems.ZeroMeansNoSeeker | src/sgrpc/detail/atomic_task_stealing_queue.hpp:145 | A zero `in_push_` rules out a push that still has to store |
| QueueTheorems.DrainIff | src/sgrpc/detail/atomic_task_stealing_queue.hpp:139-146 | A sweep is certain to leave all queues empty when the call returns if and only if no push is between check and store when it starts |
| QueueTheorems.StopAndEjectDrainsIff | src/sgrpc/detail/atomic_task_stealing_queue.hpp:128-147 | The same for a whole call of `stop_and_eject` made in any reachable state |
| QueueTheorems.SweepFromZeroDrainsForGood | src/sgrpc/detail/atomic_task_stealing_queue.hpp:135-147 | A sweep that starts with done set and `in_push_` zero leaves all queues empty, then and in every later state |
| QueueTheorems.StrandedOrigin | src/sgrpc/detail/atomic_task_stealing_queue.hpp:135-187 | A thunk that is still queued came from a push that read `is_done_` before done was signalled and stored it after the last eject of its queue |
| QueueTheorems.QueuedStoredAfterLastEject | src/sgrpc/detail/atomic_task_stealing_queue.hpp:77-82 | The run contains the step that stored a queued thunk, and no later step ejects that queue |
| QueueTheorems.StrandingRun | src/sgrpc/detail/atomic_task_stealing_queue.hpp:139-145 | A concrete run after which the call has returned and an accepted thunk is still queued |
| TaskQueue.OptimisticLockingQueue.TryPop | src/sgrpc/detail/atomic_task_stealing_queue.hpp:39-52 | Takes the front exactly if the lock was got and the queue is not empty |
| TaskQueue.OptimisticLockingQueue.TryPush | src/sgrpc/detail/atomic_task_stealing_queue.hpp:69-75 | Appends exactly if the lock was got |
| TaskQueue.OptimisticLockingQueue.Eject | src/sgrpc/detail/atomic_task_stealing_queue.hpp:77-82 | Returns the contents in order and leaves the queue empty |
| TaskQueue.LastScanIs | src/sgrpc/detail/atomic_task_stealing_queue.hpp:176-183 | After r full rounds of failed attempts and i more, a push stores at probe i of the scan that starts r offsets further on |
| TaskQueue.AtomicTaskStealingQueue.constructor | src/sgrpc/detail/atomic_task_stealing_queue.hpp:118-119 | New empty queues, no push under way, done not signalled |
| TaskQueue.AtomicTaskStealingQueue.PushRounds | src/sgrpc/detail/atomic_task_stealing_queue.hpp:176-183 | Terminates after any finite number of failed attempts and stores the thunk once, on the queue of the first successful one |
| TaskQueue.AtomicTaskStealingQueue.Push | src/sgrpc/detail/atomic_task_stealing_queue.hpp:168-187 | Stores the thunk exactly once if done is not signalled and otherwise not at all; `in_push_` is restored |
| TaskQueue.AtomicTaskStealingQueue.TryPop | src/sgrpc/detail/atomic_task_stealing_queue.hpp:195-203 | Pops the front of the first probed queue that is neither contended nor empty, or nothing |
| TaskQueue.FirstHitIs | src/sgrpc/detail/atomic_task_stealing_queue.hpp:197-202 | What "first probed queue" means: it is a hit and no earlier probe is; without one there is no hit |
| TaskQueue.FalsePopSawEverything | src/sgrpc/detail/atomic_task_stealing_queue.hpp:189-203 | For a call that nothing interrupts: when the wrap is harmless a false `try_pop` met every non-empty queue contended; when it is not, some queue was never looked at |
| QueueScans.FalsePopSawEverything | src/sgrpc/detail/atomic_task_stealing_queue.hpp:189-203 | Over every run, with any calls interleaved: a `try_pop` that returned false looked at every queue at some moment and found it contended or empty at that moment, when the wrap is harmless for its offset; when it is not, it never looked at some queue |
| QueueScans.PopHistory | src/sgrpc/detail/atomic_task_stealing_queue.hpp:195-203 | Over every run, what each call of `try_pop` has missed so far, and that it looks only along the scan that starts at the offset it took |
| TaskQueue.AtomicTaskStealingQueue.Sweep | src/sgrpc/detail/atomic_task_stealing_queue.hpp:140-144 | One sweep returns all contents, queue by queue and in order, and leaves all empty |
| TaskQueue.AtomicTaskStealingQueue.StopAndEject | src/sgrpc/detail/atomic_task_stealing_queue.hpp:135-147 | With no push under way, so does the whole call, and done is signalled |
| TaskQueueSteps.PushAlone | src/sgrpc/detail/atomic_task_stealing_queue.hpp:168-187 | An uninterrupted push is a run of the protocol that ends in the state that the contract of `Push` gives |
| TaskQueueSteps.PopAlone | src/sgrpc/detail/atomic_task_stealing_queue.hpp:197-202 | The loop of `try_pop`, from any of its probes on, is a run of the protocol to the first hit or to the end |
| TaskQueueSteps.TryPopAlone | src/sgrpc/detail/atomic_task_stealing_queue.hpp:195-203 | So is the whole uninterrupted call, taking its offset included, and it ends where the contract of `TryPop` says |
| TaskQueueSteps.EjectAlone | src/sgrpc/detail/atomic_task_stealing_queue.hpp:135-147 | The same for `stop_and_eject` with no push under way |
| TaskQueueSteps.EjectSpins | src/sgrpc/detail/atomic_task_stealing_queue.hpp:139-145 | With a push under way, `stop_and_eject` does not return however often it sweeps, until some other call takes a step |
| ServerHandlers.StepKeepsInv | src/sgrpc/server_rpc_handler.hpp:99-137 | Every wiring, arrival, delivery and shutdown keeps the population exact |
| ServerHandlers.PopulationIsExact | src/sgrpc/server_rpc_handler.hpp:99-137 | In every run live handlers and outstanding tags are in bijection, each ok request is finished once, and each line has one listener until its listener is told not-ok and none afterwards |
| ServerHandlers.RepliesFollowTheLogic | src/sgrpc/server_rpc_handler.hpp:130-137 | In every run a request is finished with the logic's result exactly if the step that handed it over had the logic return, and with INTERNAL exactly if that step had it throw |
| ServerHandlers.ServerRpcHandler.CompleteOne | src/sgrpc/server_rpc_handler.hpp:116-137 | `complete` on the object is the population's step: deletes itself, or spawns a listener and replies; it replies exactly if it was listening and the tag was ok, and with INTERNAL exactly if the logic threw |
| ServerHandlers.HandlerQueue.WireHandler | src/sgrpc/server_rpc_handler.hpp:99-112 | Making a handler is the population's step, on the live objects |
| ServerHandlers.HandlerQueue.DeliverEvent | src/sgrpc/server_rpc_handler.hpp:116-137 | Completing the handler of a delivered tag is the population's step: after it the live objects are again exactly the population's handlers, each in its state |
| ServerHandlers.DeliveryChangesCount | src/sgrpc/server_rpc_handler.hpp:116-126 | An accepted request adds one live handler, every other delivery removes one |
| ServerHandlers.DrainProgress | src/sgrpc/server_rpc_handler.hpp:116-137 | After the shutdown no step raises the number of deliveries still to come and every delivery lowers it |
| ServerHandlers.DrainedIsFinal | src/sgrpc/server_rpc_handler.hpp:118-119 | A drained queue has no handler left and stays as it is |
| RpcSignals.RpcSenderOpState.Invoke | src/sgrpc/detail/rpc_sender_operation_states.hpp:171-205 | A refused post tells the receiver one error, which `RefusalIsUnavailable` gives, an accepted one nothing yet |
| RpcSignals.RpcSenderOpState.Complete | src/sgrpc/detail/rpc_sender_operation_states.hpp:174-203 | The completion tells the receiver what `OpTells` says, branch by branch, and ends as its last call does |
| RpcSignals.InflightRpc.CurriedCompletion | src/sgrpc/detail/rpc_sender_operation_states.hpp:125-141 | Conversion first; if it or the first attempt throws, a second attempt with an internal error; an empty completion throws and tells nobody |
| RpcSignals.InflightRpc.Complete | src/sgrpc/detail/inflight_rpc.hpp:44-53 | Runs the completion once, swallows what it throws, and deletes the object |
| RpcSignals.ToldAgainOnlyAfterThrow | src/sgrpc/detail/rpc_sender_operation_states.hpp:125-203 | One delivery tells the receiver one to three things, each further one only because the call before threw |
| RpcSignals.ToldOnceIff | src/sgrpc/detail/rpc_sender_operation_states.hpp:125-203 | Exactly one thing if and only if the conversion throws or the first call does not |
| RpcSignals.ToldCount | src/sgrpc/detail/rpc_sender_operation_states.hpp:125-203 | Exactly when one delivery tells one, two or three things: three if and only if tag, status and conversion are good and the receiver throws on the value and again on the error |
| RpcSignals.OneTwoThreeSignals | src/sgrpc/detail/rpc_sender_operation_states.hpp:125-203 | A delivery of each kind |
| RpcSignals.CalmSignal | src/sgrpc/detail/rpc_sender_operation_states.hpp:125-203 | A receiver that does not throw gets one signal: the value exactly if tag, status and conversion are all good, and the peer's error exactly if the conversion did not throw (or threw the same text) |
| RpcSignals.CalmSignalIsRight | src/sgrpc/detail/rpc_sender_operation_states.hpp:125-203 | In every case, with literal status codes: UNAVAILABLE (14) if the tag was not ok, INTERNAL (13) with its text if the conversion threw, the value if the status was OK, and otherwise the peer's code and message |
| RpcSignals.OpSignalIsRight | src/sgrpc/detail/rpc_sender_operation_states.hpp:174-203 | The same for the operation state's own completion, an absent result included; only a value on which the receiver throws is followed by an INTERNAL |
| RpcSignals.ThrowingSignals | src/sgrpc/detail/rpc_sender_operation_states.hpp:125-203 | What is told, in which order and with which codes and texts, when the receiver throws on its first call |
| RpcSignals.RefusalIsUnavailable | src/sgrpc/detail/rpc_sender_operation_states.hpp:204 | A refused start tells its receiver UNAVAILABLE (14) |
| SharedCall.CallData.Assign | src/sgrpc/client_rpc_stub.hpp:57 | Puts the start's completion into the shared object: the model's `Bind` |
| SharedCall.CallData.Call | src/sgrpc/detail/rpc_sender_operation_states.hpp:119-145 | Is the model's `Create` on the object's history: the call gets the completion and the request that the history says |
| SharedCall.RunStarts | src/sgrpc/client_rpc_stub.hpp:54-61 | Starts made one after the other on the one object make exactly the calls meant: each accepted one with its own receiver and the original request, in order |
| SharedCall.SequentialStartsAreRight | src/sgrpc/client_rpc_stub.hpp:54-61 | For any sequence of starts that do not overlap, refused ones included, each accepted start sends the original request and its response reaches its own receiver |
| SharedCall.SlotIsLastBind | src/sgrpc/client_rpc_stub.hpp:54-61 | The shared completion belongs to a start exactly if its bind is the last step that touched it |
| SharedCall.CallIsOwnIff | src/sgrpc/client_rpc_stub.hpp:54-61 | Under any interleaving a call answers to its own start if and only if no other start bound or created since that start's bind |
| SharedCall.OverlapMisroutes | src/sgrpc/client_rpc_stub.hpp:57-58 | Two overlapping starts of which one call answers to the other start and the other to nobody |
| SharedSignals.LedgerHolds | src/sgrpc/client_rpc_stub.hpp:54-61 | Over every lawful history a completion is in one place at most, and once some call is not its own, the completion of some created start is in none |
| SharedSignals.HoldsLastBind | src/sgrpc/client_rpc_stub.hpp:54-61 | A call holds the completion of that start whose bind was the last step to touch the shared object before the call was created |
| SharedSignals.TimesToldIs | src/sgrpc/detail/rpc_sender_operation_states.hpp:171-205 | A start's receiver is told once if some call took its completion, and once more if the start was refused |
| SharedSignals.ToldAtMostOnceIff | src/sgrpc/detail/rpc_sender_operation_states.hpp:171-205 | No receiver is told twice if and only if no call took the completion of a refused start |
| SharedSignals.ToldExactlyOnceIff | src/sgrpc/detail/rpc_sender_operation_states.hpp:171-205 | When every start has been created or refused, each receiver is told exactly once if and only if every call holds its own start's completion, that is, no start came between another's bind and call |
| SharedSignals.OverlapTellsOneNothing | src/sgrpc/client_rpc_stub.hpp:57-58 | Two overlapping accepted starts: the first receiver is told nothing and the second once |
| SharedSignals.OverlapTellsOneTwice | src/sgrpc/client_rpc_stub.hpp:57-58 | Two overlapping starts, the second refused: its receiver is told twice and the first nothing |
| ContextInvariant.StepKeepsInv | src/sgrpc/execution_context.cpp:38-249 | Every step of every thread keeps the invariant of the context |
| ContextInvariant.ExecKeepsInv | src/sgrpc/execution_context.cpp:38-249 | So does every run |
| ContextInvariant.ZeroMeansNoneAllowed | src/sgrpc/execution_context.cpp:127 | Once the stopper has read zero, no post holds a positive check |
| ContextInvariant.GroupDrained | src/sgrpc/execution_context.cpp:209-216 | A group all of whose polls were answered SHUTDOWN is drained, queue by queue: its probes cover it |
| ContextInvariant.PassEnd | src/sgrpc/execution_context.cpp:219-224 | When the counters agree at the end of a pass, every queue is drained and no event was executed |
| ContextTheorems.NoEventAfterShutdown | src/sgrpc/execution_context.cpp:62-90 | `within_cq_post_` counts the posts in the bracket, and while one of them holds a positive check no queue is shut down |
| ContextTheorems.StoppedCompletesEverything | src/sgrpc/execution_context.cpp:119-146 | In every Stopped state each event created by a post was completed exactly once, no queue owes a tag and no server handler is left |
| ContextSignals.HistoryMatches | src/sgrpc/client_rpc_stub.hpp:54-61 | In every run of a context, what its posts do to one shared `CallData` is a lawful history of the model of that object, and each event holds the completion that the history gives it |
| ContextSignals.EachRpcSignalsOnce | src/sgrpc/detail/rpc_sender_operation_states.hpp:171-205 | For the starts of copies of one sender, in every run: no receiver is told twice as long as no call took the completion of a refused start. Once the context is Stopped and the starts have returned: none is told twice if and only if that is so, and each is told exactly one thing if and only if no start bound or created its call between another's bind and call |
| ContextSignals.OwnCallSignalsOnce | src/sgrpc/detail/rpc_sender_operation_states.hpp:171-205 | Whatever other starts do, an accepted RPC between whose bind and call no other start of its sender came has by Stopped told its receiver exactly one thing, by its own event |
| ContextSignals.SignalsAreRight | src/sgrpc/detail/inflight_rpc.hpp:44-53 | In every run and for every post, whatever other starts do: its receiver was told one thing at each step that told its refusal or delivered the event that took its completion, in the order of those steps, and each time what the ok flag, status and conversion of that very step make right |
| ContextSignals.OwnCallSignalIsRight | src/sgrpc/detail/inflight_rpc.hpp:44-53 | So an RPC whose event took its own completion has by Stopped told its receiver the value exactly if the step that delivered its tag had an ok tag, an OK status and a conversion that succeeded, and otherwise the peer's status, an internal error or UNAVAILABLE; and gRPC had ended the operation with that flag |
| ContextRuns.ToldTwice | src/sgrpc/client_rpc_stub.hpp:57-58 | A run in which two starts of one sender overlap while the context stops: the accepted RPC's receiver is never told anything, and the refused one's is told its refusal and then the other's response |
| ContextTheorems.LifeStep | src/sgrpc/execution_context.cpp:156-175 | No step changes the state of the context other than by one of its three moves |
| ContextTheorems.LifeMovesForward | src/sgrpc/execution_context.cpp:156-175 | Over any run the state only moves forward |
| ContextTheorems.NotificationsInOrder | src/sgrpc/execution_context.cpp:119-154 | At most one `stop` wins; notifications run only after all workers are joined; those run are a prefix of those accepted, and all of them once the winner has returned (`NotificationsFollowRegistration` says which those are) |
| ContextHistories.NotificationsFollowRegistration | src/sgrpc/execution_context.cpp:138-154 | In every run the notifications run are a prefix of those that the run's calls of `add_notify_at_stopped` before Stopped registered, in the order of those calls, and all of them once the winning `stop` has returned |
| ContextHistories.InitIs | src/sgrpc/execution_context.cpp:24-32 | A new context has as many client queues as asked for, all new, and one more task queue than threads, all empty |
| ContextHistories.AttachAddsServer | src/sgrpc/execution_context.cpp:38-46 | In Ready, attaching a server adds one group behind the others, with a queue for each of its work queues, on which exactly the wired handlers listen, each owed one tag; otherwise nothing changes |
| ContextHistories.GroupsAreAttached | src/sgrpc/execution_context.cpp:38-46 | In every run the groups that workers poll and `stop` shuts down are the client queues and then those of the servers attached while Ready, in the order of the calls |
| ContextHistories.TasksAreARun | src/sgrpc/execution_context.cpp:219-248 | In every run of the context the task queue has made a run of its own protocol, the one that the context's pushes and its workers' calls say, so that every result about such runs holds of it |
| ContextHistories.ReadyWasEnded | src/sgrpc/execution_context.cpp:251-268 | In every run a tag waits to be delivered with a flag only if its operation ended with that flag |
| ContextPasses.EachPassTriesTheTaskQueue | src/sgrpc/execution_context.cpp:219-231 | In every run each worker has called `try_pop` exactly once for each time it came back to the top of its loop, plus the call it is in; earlier calls are over; and it has called `stop_and_eject` exactly once if it has left the loop, and otherwise not |
| ContextPasses.PassAlone | src/sgrpc/execution_context.cpp:200-226 | A pass that nothing interrupts, whatever its queues answer, is a run of the protocol that polls and counts as `ExecutionContext.RunGroup` says, group by group; then the worker leaves its loop if and only if every poll was answered SHUTDOWN, and otherwise calls `try_pop` |
| ContextPasses.IdleWorkerRunsThunk | src/sgrpc/execution_context.cpp:195-240 | From every reachable Running state with a thunk queued, the steps of any one worker at the top of its loop, alone, with nothing to deliver and every lock got, run a thunk that had not run, within one pass and one scan, if the wrap is harmless for the scan's offset |
| ContextTheorems.WorkerLeavesOnlyWhenDrained | src/sgrpc/execution_context.cpp:200-224 | A worker leaves its loop only after a pass in which it executed no event and every client and server queue is shut down and drained |
| ContextTheorems.GroupsFrozen | src/sgrpc/execution_context.cpp:38-46 | Once the state has left Ready the set of queues is fixed, so workers poll what `stop` shuts down |
| ContextTheorems.NothingAfterStop | src/sgrpc/execution_context.cpp:50-90 | After Stopped, whatever happens, every later post of any kind can only be refused, no thunk starts running and no notification is accepted |
| ContextTheorems.EachThunkRunsOnceOrStrands | src/sgrpc/execution_context.cpp:226-246 | A thunk runs at most once and only if accepted; in a Stopped state an accepted one has run or is still queued |
| ContextTheorems.QuietLeaverRunsAll | src/sgrpc/execution_context.cpp:222-246 | If any worker leaves its loop while no push is between check and store, every accepted thunk has run exactly once by Stopped |
| ContextStranding.ThunksAllRunIff | src/sgrpc/execution_context.cpp:222-246 | When the last worker leaves its loop (the others still sweeping, running what they ejected, or gone), the task queue is certain to be empty whenever the context comes to Stopped, if and only if no push is then between check and store |
| ContextStranding.StrandInContext | src/sgrpc/execution_context.cpp:119-146 | Otherwise there is a run to Stopped that leaves the thunk of such a push in the task queue |
| ContextStranding.FinishFromLeft | src/sgrpc/execution_context.cpp:222-246 | Once all workers have left their loops, some run reaches Stopped and leaves the thunks of all pushes between check and store in the task queue |
| ContextTheorems.PostAlone | src/sgrpc/execution_context.cpp:62-90 | An uninterrupted post is a run of the protocol that ends in the state that the contract of `Post` gives |
| ContextProgress.DeliveriesRunOut | src/sgrpc/execution_context.cpp:129-135 | After the shutdown no step raises the number of deliveries still to come and every delivery lowers it |
| ContextProgress.DeliveriesBounded | src/sgrpc/execution_context.cpp:195-240 | So any run after the shutdown delivers no more events than that |
| ContextProgress.NothingLeftIffDrained | src/sgrpc/execution_context.cpp:251-268 | The number is zero if and only if every queue is drained |
| ContextProgress.WorkersLeave | src/sgrpc/execution_context.cpp:195-240 | With every queue drained, in every run and for every worker wherever it stands: it takes no more steps in its main loop than its cost, which is zero exactly when it has left; from a clean pass it never goes back to the task queue |
| ContextProgress.WorkersLeaveWithinOnePass | src/sgrpc/execution_context.cpp:195-240 | From the top of its loop it leaves with exactly the last of the steps of one pass |
| ContextProgress.LoopStepPays | src/sgrpc/execution_context.cpp:195-240 | Each loop step of any worker (poll answered SHUTDOWN, next group, end of pass, `try_pop`, running a thunk) strictly lowers its cost |
| ContextProgress.WorkerCanGoOn | src/sgrpc/execution_context.cpp:195-240 | A worker that has not left its loop can take its next step, and that step lowers its cost, unless it is about to poll a queue that is not drained |
| ContextProgress.DrainedWorkerCanGoOn | src/sgrpc/execution_context.cpp:195-240 | And no worker is ever stuck in its main loop: until it has left, a step of its own takes it on |
| ContextShutdown.FinishShutdown | src/sgrpc/execution_context.cpp:119-146 | From every state that is shutting down, whatever posts, pushes, polls and sweeps are under way, some continuation reaches Stopped |
| ContextShutdown.CanAlwaysStop | src/sgrpc/execution_context.cpp:97-146 | So from every reachable state the context can be stopped and can come to Stopped: no state is a dead end |
| ContextRuns.ThunkLeftBehind | src/sgrpc/execution_context.cpp:119-248 | A complete run with one worker that ends with `stop` returned, its RPC answered once, and an accepted thunk still queued |
| ExecutionContext.RunGroup | src/sgrpc/execution_context.cpp:205-217 | Executes one event if some poll of this worker's scan has one and else none; counts exactly the SHUTDOWN answers up to the first event |
| ExecutionContext.RunPass | src/sgrpc/execution_context.cpp:200-224 | The pass ends the loop if and only if every poll of every group is answered SHUTDOWN, and then no event was executed |
| ExecutionContext.PassSeesAll | src/sgrpc/execution_context.cpp:209-210 | When no sum of the worker's number and a queue's number wraps, that means every queue of every group |
| ExecutionContext.ExecutionContext.constructor | src/sgrpc/execution_context.cpp:24-32 | Ready, with the number of client queues asked for, all new, and no servers or notifications |
| ExecutionContext.ExecutionContext.SetState | src/sgrpc/execution_context.cpp:156-175 | Succeeds for exactly the three moves and otherwise changes nothing |
| ExecutionContext.ExecutionContext.AttachServer | src/sgrpc/execution_context.cpp:38-46 | Fails exactly if not Ready, and then changes nothing; otherwise keeps the groups and adds one, with the server's queues and their listening handlers; is the protocol's step and keeps its invariant |
| ExecutionContext.ExecutionContext.AddNotifyAtStopped | src/sgrpc/execution_context.cpp:150-154 | Appends the notification unless the context is Stopped; is the protocol's step and keeps its invariant |
| ExecutionContext.ExecutionContext.Post | src/sgrpc/execution_context.cpp:62-90 | Is four steps of the protocol in a row; creates the event on the next client queue exactly if Ready or Running; the bracket is closed again |
| ExecutionContext.ExecutionContext.RunWhile | src/sgrpc/execution_context.cpp:105-114 | Exactly if Ready, becomes Running with as many threads as asked for, numbered in order; otherwise changes nothing; is the protocol's step |
| ExecutionContext.ExecutionContext.BeginStop | src/sgrpc/execution_context.cpp:119-132 | `stop` up to the first join is a run of the protocol; exactly if it wins, every queue is shut down, nothing else about them changes, and the stop stands before its first join |
| ExecutionContext.ExecutionContext.HaltQueues | src/sgrpc/execution_context.cpp:129-132 | Its loops are the stop's steps of the protocol, one for each queue and group |
| ExecutionContext.ExecutionContext.EndStop | src/sgrpc/execution_context.cpp:134-145 | `stop` from the first join on, once all threads have ended, is a run of the protocol to the winner's return: Stopped, no threads, all notifications run in order |
| Senders.ConnectPreservesMeaning | examples/from-scratch.cpp:43-103 | For every sender and receiver the connected operation tells the receiver one value, that of direct evaluation |
| Senders.ThenFuses | examples/from-scratch.cpp:81-103 | `then(then(s, f), g)` equals `then(s, g o f)` for every receiver |
| Senders.ThenForwards | examples/from-scratch.cpp:74-78 | Errors and stops go through any nest of `then` receivers unchanged |
| RunLoop.Loop.PushBack | examples/from-scratch.cpp:197-203 | Refines the model on the heap: appends a fresh node and keeps the list well formed, drained or not |
| RunLoop.Loop.PopFront | examples/from-scratch.cpp:205-211 | Refines the model: takes the next node until one pop empties the list, and nothing from then on |
| RunLoop.Loop.Run | examples/from-scratch.cpp:232-235 | Terminates on a finishing loop having executed every reachable task once, in order |
| RunLoop.DrainedForGood | examples/from-scratch.cpp:205-211 | After the first pop that empties the list nothing is popped any more, whatever is pushed |
| RunLoop.LoopIsQueueIff | examples/from-scratch.cpp:191-211 | The loop hands out what a FIFO queue would if and only if nothing is popped from a list that was emptied and pushed onto again |
| RunLoop.RunCalls | examples/from-scratch.cpp:197-211 | Any sequence of pushes of new nodes and of pops, on the heap: the nodes popped are the first of those pushed, in order and each once, as many as the model says |
| RunLoop.StartChain | examples/from-scratch.cpp:185-188 | Starting a scheduled chain pushes one new node whose receiver is the chain turned inside out |
| RunLoop.RunChains | examples/from-scratch.cpp:285-300 | For any list of scheduled chains started on a new loop, then finish, then run: each receiver is told one value, its chain's, in start order |

## Left out

- TaskQueue.AtomicTaskStealingQueue.StopAndEject: the method is for `inPush == 0`; with a push under way the loop waits for another thread (`TaskQueueSteps.EjectSpins`), and that is modelled in `QueueProtocol`, not in the class.
- TaskQueueSteps.EjectAlone: likewise for `inPush == 0`, since otherwise an uninterrupted call does not return.
- TaskQueue.FalsePopSawEverything: the contents are those of an uninterrupted call; `QueueScans.FalsePopSawEverything` has the general case.
- ExecutionContext.ExecutionContext.BeginStop: the method is for `within == 0`, which the source waits for; `stop` is split at its first join, where it waits for the workers, and both waits are modelled in `ContextProtocol`.
- RunLoop.Loop.PopFront: the wait on the condition variable is its precondition.
- RunLoop.Loop.Run: the method is for a loop that is finishing; before that an uninterrupted `run` would wait for ever once the list is empty. Pops between the pushes of other threads are in `RunLoop.LoopIsQueueIff`.
- The classes of `TaskQueue` and `ExecutionContext` run one call at a time; interference is in the two protocols.
- Weak memory: the protocols interleave sequentially consistent steps.
- gRPC's transport, protobuf, ports, server containers, the greeting programs: only the completion queue's contract is used.
- `Scheduler::Op_`: it ignores the result of `post`, so a refused operation never completes.
- `post` with a time point, the timing of alarms, and the deletion of `Alarm` objects; an alarm is an event that completes once.
- `PureRpcSenderOpState` and `scratch_sender.hpp`: the first does not match its caller, the second is unfinished.
- The asynchronous branch of `ServerRpcHandler::complete`.
- The `void` result type of `RpcSenderOpState`: `std::optional<void>` cannot be formed.
- The mapping of status codes and the texts of other messages: the code goes through unchanged.
- `sync_wait`, `thread_context` and the printing receiver.
- Exceptions out of thunks, which end the program, and exceptions while a thunk is moved.
- The lifetime of operations after they were popped from the run loop, and of operation states: a completion
  that another start's call took tells its receiver even when its own start was refused long before.
