# Verification of the RPC, scheduling and delivery core of ebroschin-sdk

This project models, in Dafny, the parts of the SDK whose guarantees hold only over all interleavings, and proves
those guarantees:

- **The RPC call lifecycle over the scheduler** (`RpcTables.dfy`, `RpcProtocol.dfy`, `RpcRouting.dfy`,
  `RpcClaims.dfy`, `OtherRequests.dfy`, `Witnesses.dfy`, `RpcTimeoutHandler.dfy`, `RpcSystem.dfy`, `Scheduling.dfy`,
  `SchedulerRuns.dfy`). Calls, timeouts and the scheduler thread form one transition system, `RpcProtocol`. Every
  region under a mutex is one step; `HandleCallback` is split into claim, cancel and invoke, `ScheduleTimeout` into
  drawing the task id, storing the task and recording it, and the scheduler thread has explicit phases (scan, run one
  item of the batch, erase, wait). `RpcRouting` adds the emissions of messages, one step per slot, interleaved with
  all of that; `RpcClaims` proves what they answer and claim, and when they can, `OtherRequests` what it leaves alone,
  and `Witnesses` has runs of what the code does not promise. The same code is also given as classes: each method of
  `RpcSystem.RpcSystem` takes the steps of `RpcTables` one by one, so the invariants of the tables hold for the
  objects. What involves the scheduler thread (coverage and expiry of timeouts) is proved of the runs of
  `RpcProtocol`.
- **Signals** (`Signals.dfy`): emission over a snapshot of the slot ids while slots subscribe and unsubscribe, and the
  handles that own the slots.
- **Framed delivery** (`Framing.dfy`, `SendQueue.dfy`, `Executor.dfy`, `Delivery.dfy`, `EndToEnd.dfy`): length-prefixed
  frames, the outgoing queue with its chains of writes, the queued executor, the path from the bytes of every connection
  to the message handler, and all of it together, from `SendBytes` at the peer.

`Wrappers.dfy` holds the `Option` type, `Scripts.dfy` what the bodies of callbacks do in the class models.

## How to read it

A transition system is a state, an `Enabled` predicate and an `Apply` function (or a relation `Next`), and runs (`IsRun`):
sequences of states that start at the initial one and follow steps. Theorems are about every run. Some fields of the
states are history (what has been accepted, completed, scheduled so far). Guards mention history in three places: a call
and a task id are new when they are drawn (`RpcProtocol.ScheduleNeverBlocks` proves that this keeps no call from
scheduling its timeout), the steps of a call read its arguments in `specs`, and the other users of the scheduler are
told apart from the RPC system by the callbacks in `born`.

`RpcTables.CalledOnce` says that `Call()` was invoked once per prepared request. The builder does not enforce it, so theorems
that need it say so; the others hold without it.

## Assumptions

- Ids and counters are unbounded integers; durations and time points are integers in nanoseconds.
- The clock never goes backwards.
- Steps are sequentially consistent, and operations on a signal are serialised (`signal.hpp` has no lock).
- There is one scheduler thread, and one consumer of the executor.
- Message types are natural numbers; distinct types have distinct type ids.
- User callbacks are recorded as completions in a trace. In the transition system anything may happen between two
  steps, so whatever a callback does through the public interface is an interleaving that is covered.

## Claims the code does not keep, and when it does

- **The timeout table lists exactly the pending requests with a timeout.** Not in every run: when a call is completed
  after its entry was made and before its timeout was recorded, `CancelTimeout` finds nothing, and the entry recorded
  afterwards is never removed (`RpcProtocol.StaleEntryStays`). There are two ways to get there, and a run for each: a
  response that is handled that early (`Witnesses.StaleEntry`), and, with a peer that behaves, a scan that collects the
  task and runs its closure after the task was stored (`Witnesses.StaleEntryWithoutMessages`).
  `RpcProtocol.TimeoutTableExactly` says that, when all is quiet, the table agrees if and only if no step of the run was
  a `CancelTimeout` that looked in vain for the timeout of such a call. `RpcProtocol.TimeoutTableAgreement` gives a
  discipline under which none is: responses are handled after their call has recorded its timeout, and no scan falls
  between storing a task and recording it.
- **At most one write is in flight.** A frame leaves the queue before its write has finished, so two chains of writes can
  come to be (`SendQueue.WritesCanOvertake`). `SendQueue.OneWriteExactly`: there is at most one write in flight in
  exactly the runs in which no `SendNext` takes a frame while the write of another has not come back. A frame that was
  taken counts as in flight from then on, also before its `async_write` has started.
  For the caller, which is what decides it: a `SendBytes` overlaps when it finds the queue empty although a chain exists. As long as none has,
  there is one write at most and no way to a second; and a `SendBytes` opens such a way if and only if it overlaps
  (`SendQueue.OverlapIsTheCause`). From any state, two writes can come about without a further overlap if and only if
  there are two chains and either a frame in the queue or two writes already (`SendQueue.CanDoubleExactly`); two chains
  alone are not enough (`SendQueue.OverlapCanBeHarmless`).
- **What the peer's frames deliver is a prefix of what was sent.** The length is cast to 32 bits without a check, so a
  payload of 4 GiB and more can be taken for a shorter one (`Framing.LongPayloadIsMistaken`).
  `Framing.DeliversPrefixExactly` says exactly when not.
- **A message for a request that is not pending claims nothing.** Not if its call has subscribed and makes its entry
  before the emission reaches its slot: `Witnesses.ClaimsUnpendingRequest` is such a run, with one call. A call listens
  when it is pending and awaits the message, or has subscribed for it and not made its entry.
  `RpcClaims.CanClaimExactly`: the emission can go on to claim an entry, with no further call, if and only if some call
  listens when it starts; so it claims nothing in any continuation exactly if none does.
- **Cancelling undoes scheduling.** Not when the request had a timeout already
  (`RpcTimeoutHandler.CancelUndoesSchedule`).

## Model

| member | source | states |
|---|---|---|
| RpcProtocol.AtMostOneCallback | network/include/ebroschin/network/rpc/rpc_system.hpp:54-101 | Over every interleaving of calls, messages, scheduler phases and cancellations, no two completions belong to the same call, nor, with one call per request, to the same request; this includes a timeout closure that was in the batch before `CancelTimeout` removed its task |
| RpcProtocol.OwnCallbackRuns | network/include/ebroschin/network/rpc/rpc_system.hpp:54-80 | With one call per request: a completion as success runs the call's success callback exactly if one was given, one as error its error callback, one as timeout its timeout callback |
| RpcProtocol.NoCallIsLost | network/include/ebroschin/network/rpc/rpc_system.hpp:70-101 | With one call per request: a call that has made its entry is pending, held by a handler past its claim, or has completed |
| RpcProtocol.PendingTimeoutIsCovered | network/include/ebroschin/network/rpc/rpc_system.hpp:70-98 | With one call per request: once `ScheduleTimeout` has returned, a call that is still pending has its one-shot in `tasks_`, or still to run in the current batch, or running, and the task is the call's own |
| RpcProtocol.DeadlineExactly | network/include/ebroschin/network/rpc/rpc_system.hpp:75-77 | In every run the task of a call is due when the duration it was given is over, or 15 ms if it is less, counted from the step in which it asked for it |
| RpcProtocol.ExpiredCallCompletes | network/include/ebroschin/network/rpc/rpc_system.hpp:75-98 | With one call per request: when a call has recorded its timeout, and then the batch of a scan at or past that deadline has been run and erased, the request is not pending, then or ever after, and the call has completed unless a handler is at it |
| RpcProtocol.NoLeakedSlots | network/include/ebroschin/network/rpc/rpc_system.hpp:54-73 | In every run, whenever no call is between its subscriptions and its entry, the RPC-owned slots of all signals are exactly two distinct ones per pending request, also when `try_emplace` finds the id pending |
| RpcProtocol.TimeoutTableExactly | network-modules/src/rpc_timeout_handler/scheduler_rpc_timeout_handler.cpp:9-34 | With one call per request: when all is quiet, the keys of `timeouts_` are the pending requests that set a timeout if and only if no step of the run was a `CancelTimeout` that found nothing for a call between its entry and the recording of its timeout |
| RpcProtocol.TimeoutTableAgreement | network-modules/src/rpc_timeout_handler/scheduler_rpc_timeout_handler.cpp:9-34 | With one call per request: if no response is handled before its call has recorded its timeout, and no scan comes between storing a task and recording it, the keys are exactly the pending requests that set a timeout, mapped injectively to task ids |
| RpcProtocol.StaleEntryStays | network-modules/src/rpc_timeout_handler/scheduler_rpc_timeout_handler.cpp:16-31 | With one call per request: an overtaken call that has recorded its timeout has an entry in `timeouts_`, though its request is not pending, at every later point of every run |
| RpcProtocol.ScheduleNeverBlocks | network-modules/src/rpc_timeout_handler/scheduler_rpc_timeout_handler.cpp:12-19 | In every reachable state a call that is to schedule its timeout can: the scheduler's next id is new to the RPC tables, and the task to store is being added |
| RpcProtocol.UnschedulesOwnTask | network-modules/src/rpc_timeout_handler/scheduler_rpc_timeout_handler.cpp:22-34 | With one call per request `CancelTimeout` never removes the task of a request that is pending |
| RpcProtocol.CancelledTaskIsGone | network-modules/src/rpc_timeout_handler/scheduler_rpc_timeout_handler.cpp:22-34 | When `CancelTimeout` has removed a task the scheduler never has it again; with one call per request it is the task of the handler's own call |
| RpcProtocol.PreparedIdsDiffer | network/include/ebroschin/network/rpc/rpc_system.hpp:29-31 | No two prepared requests have the same id |
| Witnesses.StaleEntry | network/include/ebroschin/network/rpc/rpc_system.hpp:70-83 | A concrete run, with one call per request, that ends with everything quiet and a stale entry, because a response came before the call had armed its timeout |
| Witnesses.StaleEntryWithoutMessages | network-modules/src/rpc_timeout_handler/scheduler_rpc_timeout_handler.cpp:12-19 | Another one, without any message: a scan collects the task and runs its closure before the handler has recorded it |
| Witnesses.ClaimsUnpendingRequest | network/include/ebroschin/network/rpc/rpc_system.hpp:62-73 | A run of one call: when the emission starts the call has subscribed and its request is not pending, and later the emission claims it |
| RpcRouting.ProjectedRun | network-modules/include/ebroschin/network-modules/message_handler/observable_message_handler.hpp:34-40 | A run with emissions is a run of the protocol when the emissions are forgotten, so all that holds of the latter holds here |
| RpcRouting.EmissionsKept | utility/include/ebroschin/utility/signal.hpp:35-49 | Every step, of an emission or of anything else, keeps what is known of the emissions under way |
| RpcClaims.HandlersAnswer | network/include/ebroschin/network/rpc/rpc_system.hpp:54-68 | In every run, each handler an emission starts is for the message's request, through a slot in the signal of its type, and runs the success or error closure of a call on its connection that has this type as its response or error type |
| RpcClaims.AwaitedIsSettled | network/include/ebroschin/network/rpc/rpc_system.hpp:54-68 | An entry that awaited the message when the emission started is not pending when it has ended, whatever calls, timeouts, callbacks and other emissions came in between; with one call per request, nor is the request |
| RpcClaims.ClaimsAwaited | network/include/ebroschin/network/rpc/rpc_system.hpp:54-68 | An emission's handler claims an entry of the message's request; with one call per request, one that is pending on its connection and awaits it at that moment |
| RpcClaims.ClaimsAtMostOne | network/include/ebroschin/network/rpc/rpc_system.hpp:86-94 | An emission claims no entry of another request, none twice, and with one call per request at most one |
| RpcClaims.MatchingExactly | network/include/ebroschin/network/rpc/rpc_system.hpp:54-68 | The snapshot has a slot for the message if and only if a call listens: a pending one that awaits it, or one that has subscribed and not made its entry |
| RpcClaims.ClaimsNothing | network/include/ebroschin/network/rpc/rpc_system.hpp:54-68 | If no call listens when the emission starts, it starts no handler and claims nothing, even if calls subscribe while it runs; `RpcClaims.CanClaimExactly` gives the other direction |
| RpcClaims.CanClaimExactly | network/include/ebroschin/network/rpc/rpc_system.hpp:54-73 | In every run: an emission that has started can claim an entry, in some continuation without any further call, if and only if some call listened when it started |
| OtherRequests.EmissionSparesOthers | utility/include/ebroschin/utility/signal.hpp:43-48 | In every run, each step of an emission and of the handler it waits for leaves every other pending request its entry, both slots, its timeout and its task, although slots are erased while the emission runs |
| RpcClaims.RoutedExactly | network/include/ebroschin/network/rpc/rpc_system.hpp:54-68 | With one call per request, over every interleaving: a message of type T for request r on connection c leaves r not pending if r was pending on c and awaited T; it can claim an entry if and only if a call listened at the start, and, with no call subscribing then, if and only if r was pending on c and awaited T; it claims one at most |
| RpcTables.PlaceInvKept | network/include/ebroschin/network/rpc/rpc_system.hpp:70-101 | Every step keeps: a call's entry is not made yet, pending, rejected, held by exactly one handler, or completed exactly once |
| RpcTables.SlotInvKept | network/include/ebroschin/network/rpc/rpc_system.hpp:54-73 | Every step keeps: each slot is held through exactly one handle, of a call that is subscribing or of a pending entry, and each such handle still has its slot |
| RpcTables.TimeoutInvKept | network-modules/src/rpc_timeout_handler/scheduler_rpc_timeout_handler.cpp:9-34 | Every step keeps: what is scheduled, stored and recorded belongs to one call, and a handler unschedules a task of its own request only |
| RpcTables.AgreeInvKept | network-modules/src/rpc_timeout_handler/scheduler_rpc_timeout_handler.cpp:16-31 | Every step keeps: a recorded timeout is in the table until it is cancelled, or for ever if its cancellation came first |
| RpcTables.PendingIsNotCompleted | network/include/ebroschin/network/rpc/rpc_system.hpp:88-94 | With one call per request, a pending request has run no callback, and no handler is past the claim for it |
| RpcTables.SubscriptionConservation | network/include/ebroschin/network/rpc/rpc_system.hpp:36-39 | The slots are the two handles of each entry, all distinct, twice as many as there are entries |
| RpcTables.NeverRejected | network/include/ebroschin/network/rpc/rpc_system.hpp:70-73 | With one call per request `try_emplace` never finds the id pending |
| RpcTables.TimeoutTableExactly | network-modules/src/rpc_timeout_handler/scheduler_rpc_timeout_handler.cpp:16-31 | With one call per request: when all is quiet, a request is in `timeouts_` if and only if it is pending with a timeout or was overtaken, and never both |
| RpcTables.TimeoutTableIsInjective | network-modules/src/rpc_timeout_handler/scheduler_rpc_timeout_handler.cpp:16-19 | No two requests share a task |
| RpcSystem.RpcSystem.constructor | network/include/ebroschin/network/rpc/rpc_system.hpp:19-25 | Ids start at 1 and nothing is pending |
| RpcSystem.RpcSystem.Prepare | network/include/ebroschin/network/rpc/rpc_system.hpp:27-33 | Whatever is under way, the request gets the next id and nothing else changes |
| RpcSystem.RpcSystem.Call | network/include/ebroschin/network/rpc/rpc_system.hpp:43-84 | Wherever other threads are: the request gets an entry with two new slots, the one on the response type with the success callback and the one on the error type with the error callback, or keeps the entry it has and the slots are as before; in either case a one-shot with its own timeout closure is scheduled for the given duration and the message is sent |
| RpcSystem.RpcSystem.HandleCallback | network/include/ebroschin/network/rpc/rpc_system.hpp:86-101 | A pending request loses its entry, both slots and its timeout, and its callback runs; otherwise nothing changes |
| RpcSystem.CompletedExactly | network/include/ebroschin/network/rpc/rpc_system.hpp:88-100 | What a completion changes: the entry, exactly its two slots, its timeout with its task, and one callback run |
| RpcSystem.RpcSystem.HandleMessage | network-modules/include/ebroschin/network-modules/message_handler/observable_message_handler.hpp:34-40 | For every iteration order, and wherever other threads are in a call or a handler: the emission completes its request, once, if that is pending and a slot matches, and changes nothing otherwise; with one call per request every pending call is completed exactly if it awaits the message, and otherwise left alone |
| RpcSystem.RpcSystem.RunSlot | network/include/ebroschin/network/rpc/rpc_system.hpp:54-68 | A slot ignores messages of other connections and for other requests |
| RpcSystem.RpcSystem.RunTimeout | network/include/ebroschin/network/rpc/rpc_system.hpp:75-81 | A timeout completes its request if that is still pending, and does nothing otherwise |
| RpcSystem.RoutedExactly | network/include/ebroschin/network/rpc/rpc_system.hpp:54-68 | Whatever signals the calls share: a message of type T with request id r on connection c completes call r exactly when r is pending on c and T is its response or error type; every other pending call keeps its entry, slots, timeout and task |
| RpcSystem.MatchesExactly | network/include/ebroschin/network/rpc/rpc_system.hpp:54-68 | A pending request awaits the message exactly if a slot matches, and the slot's callback is of the kind it awaits |
| RpcSystem.RpcSystem.ViewIsLinked | network/include/ebroschin/network/rpc/rpc_system.hpp:54-73 | In every state with one call per request, whatever is under way, each pending request has its two slots and no others, and tasks are not shared |
| RpcSystem.EmitOne | utility/include/ebroschin/utility/signal.hpp:43-48 | One round of the emission: before the completion the slots passed over do not match, after it the request is not pending and no slot does anything |
| RpcSystem.RpcSystem.KeepsItsPromises | network/include/ebroschin/network/rpc/rpc_system.hpp:103-109 | After any sequence of method calls: each call has completed at most once, there are two slots per pending request, and with one call per request the timeout table is exact |
| RpcSystem.ReachedInvariants | network/include/ebroschin/network/rpc/rpc_system.hpp:43-101 | The state a sequence of steps leads to satisfies all invariants of the transition system |
| RpcSystem.ObservableMessageHandler.Subscribe | network-modules/include/ebroschin/network-modules/message_handler/observable_message_handler.hpp:26-32 | The slot goes into the signal of its message type under the next id of that type |
| RpcTimeoutHandler.SchedulerRpcTimeoutHandler.ScheduleTimeout | network-modules/src/rpc_timeout_handler/scheduler_rpc_timeout_handler.cpp:9-20 | An empty callback schedules nothing; otherwise the request is mapped to a new one-shot with that callback, due when the duration, or 15 ms if it is less, is over, and every other task and entry stays |
| RpcTimeoutHandler.SchedulerRpcTimeoutHandler.CancelTimeout | network-modules/src/rpc_timeout_handler/scheduler_rpc_timeout_handler.cpp:22-34 | The request's entry and the task it led to go, and no other task or entry does |
| RpcTimeoutHandler.CancelUndoesSchedule | network-modules/src/rpc_timeout_handler/scheduler_rpc_timeout_handler.cpp:9-34 | Cancelling restores the tasks, and restores the table if and only if the request had no timeout before |
| Scheduling.SchedulingSystem.AddTask | scheduling/src/scheduling_system.cpp:41-58 | The task is stored under a new id, its interval at least 15 ms, due one interval from now |
| Scheduling.SchedulingSystem.RemoveTask | scheduling/src/scheduling_system.cpp:24-31 | Exactly that task goes |
| Scheduling.SchedulingSystem.Scan | scheduling/src/scheduling_system.cpp:67-85 | For every iteration order: the batch is exactly the due tasks, once each with their callbacks, the delete list exactly the due one-shots, undue tasks are untouched, and the wake time is the least due time of the tasks that stay |
| Scheduling.ScanExactly | scheduling/src/scheduling_system.cpp:73-85 | For each task: whether it is fired, with which callback, whether it is to be deleted, and when it is due next; the wake time is the least of the retained due times, 0x7FFF_FFFF_FFFF_FFFF at most |
| Scheduling.SchedulingSystem.EraseFinished | scheduling/src/scheduling_system.cpp:93-95 | The tasks of the delete list go, and no others |
| Scheduling.SchedulingSystem.ProcessBatch | scheduling/src/scheduling_system.cpp:67-95 | One turn of the loop, with callbacks that add and remove tasks: scan, run every copied callback once, erase the finished one-shots |
| Scheduling.TurnOutcome | scheduling/src/scheduling_system.cpp:73-95 | After a turn an old task is there exactly if it was no due one-shot and no callback removed it, due one interval after the scan if it was due; a new one exactly if a callback added it as it is and none removed it afterwards |
| Scheduling.VisitOne | scheduling/src/scheduling_system.cpp:73-85 | One turn of the scan's loop keeps the relation between table, batch, delete list and wake time |
| Scheduling.ScanLeavesNothingDue | scheduling/src/scheduling_system.cpp:71-85 | After a scan nothing stored is due, and the wake time is strictly later than the scan |
| Scheduling.ScanIsOrderIndependent | scheduling/src/scheduling_system.cpp:73-85 | Two iteration orders give the same wake time and the same tasks, as multisets |
| SchedulerRuns.InvKept | scheduling/src/scheduling_system.cpp:41-104 | Every step keeps the invariants that relate tables, batch, wake time and history |
| SchedulerRuns.AddedTask | scheduling/src/scheduling_system.cpp:41-58 | In every run a task is the one that was asked for, with an interval of at least 15 ms and first due one interval after it was asked for |
| SchedulerRuns.CollectsExactly | scheduling/src/scheduling_system.cpp:73-75 | A scan collects a task if and only if it is stored and due |
| SchedulerRuns.RearmedExactly | scheduling/src/scheduling_system.cpp:74-76 | A collected task is due one interval after the scan, any other is as it was |
| SchedulerRuns.PeriodicTaskStays | scheduling/src/scheduling_system.cpp:78-95 | A periodic task that is not removed stays, whatever batches it is in |
| SchedulerRuns.FiringRate | scheduling/src/scheduling_system.cpp:45-49 | In every run k collections of a task take at least k times its interval from the time it was added, and a stored task is not due before one more |
| SchedulerRuns.NthFiringTime | scheduling/src/scheduling_system.cpp:71-76 | The n-th collection happens at a scan time of at least the add time plus n intervals |
| SchedulerRuns.OneShotFiresAtMostOnce | scheduling/src/scheduling_system.cpp:78-95 | Over a whole run a one-shot enters at most one batch |
| SchedulerRuns.OneShotExactness | scheduling/src/scheduling_system.cpp:73-95 | If it is not removed first, it enters exactly the batch of the first scan at or after its due time, and is gone before the next scan |
| SchedulerRuns.RemovalIsFinal | scheduling/src/scheduling_system.cpp:24-31 | Once `RemoveTask` has run for a stored task no later scan collects it, and it can run only from a batch collected earlier |
| SchedulerRuns.RunsOnceAfterRemoval | scheduling/src/scheduling_system.cpp:87-90 | ... and from there at most once |
| SchedulerRuns.EraseSparesNewTasks | scheduling/src/scheduling_system.cpp:87-95 | The deferred erasure never deletes a task added while the batch was running |
| SchedulerRuns.WakeTimeIsSafe | scheduling/src/scheduling_system.cpp:71-97 | When the thread waits, every stored task due before the wake time was added after the last scan |
| SchedulerRuns.QuietWaitMissesNothing | scheduling/src/scheduling_system.cpp:71-97 | With no task added between scan and wait no deadline is earlier than the wake time, whatever was removed |
| Signals.SignalState.Subscribe | utility/include/ebroschin/utility/signal.hpp:24-29 | The slot is stored under the next id of the shared counter |
| Signals.SignalState.Emit | utility/include/ebroschin/utility/signal.hpp:35-49 | The snapshot is the ids at the start in some order, and the emission goes through it as `Reached` says, whatever the slots do |
| Signals.EmissionExactness | utility/include/ebroschin/utility/signal.hpp:43-48 | A snapshot slot is invoked if and only if it is still subscribed when reached, that is, if no slot invoked earlier has unsubscribed it |
| Signals.SlotsAfterEmission | utility/include/ebroschin/utility/signal.hpp:24-49 | After an emission an old slot is subscribed exactly if none invoked unsubscribed it, a new one exactly if one invoked subscribed it and none unsubscribed it later |
| Signals.InvokedFromSnapshot | utility/include/ebroschin/utility/signal.hpp:35-49 | The slots invoked are snapshot slots in snapshot order, each once, so none subscribed during the emission, and no more than the snapshot has |
| Signals.PerformedId | utility/include/ebroschin/utility/signal.hpp:24-33 | An old slot survives a slot's operations if and only if they do not unsubscribe it |
| Signals.SignalSubscription.MoveFrom | utility/src/signal_subscription.cpp:12-15 | The new handle has the slot, the old one is empty |
| Signals.SignalSubscription.MoveAssign | utility/src/signal_subscription.cpp:17-24 | The slot of the left handle goes, that of the right one moves; self-assignment changes nothing |
| Signals.SignalSubscription.Unsubscribe | utility/src/signal_subscription.cpp:30-36 | The handle is empty and its slot gone, if the signal is alive |
| Signals.HandleScope.SlotsAreOwned | utility/src/signal_subscription.cpp:7-36 | A live signal's slot ids are exactly the ids of the handles that point to it, each held once |
| Signals.HandleScope.Subscribe | utility/include/ebroschin/utility/signal.hpp:62-65 | Subscribing keeps the ownership invariant |
| Signals.HandleScope.MoveConstruct | utility/src/signal_subscription.cpp:12-15 | Move construction keeps the ownership invariant and changes no slot |
| Signals.HandleScope.MoveAssign | utility/src/signal_subscription.cpp:17-24 | Move assignment, to itself included, keeps it; the only slot that goes is the one the left handle owned |
| Signals.HandleScope.Unsubscribe | utility/src/signal_subscription.cpp:30-36 | A handle that is empty or moved from removes nothing |
| Signals.HandleScope.Destroy | utility/src/signal_subscription.cpp:26-28 | Destroying a handle keeps the invariant and removes its own slot only |
| Framing.RoundTripExactly | network-modules/src/connectors/boost_async/boost_tcp_connection.cpp:20-28 | Reading the frames of a list of payloads delivers exactly that list if and only if no payload is above 1048576 bytes |
| Framing.RoundTrip | network-modules/src/connectors/boost_async/boost_tcp_connection.cpp:57-78 | ... with nothing left over and without hanging up, empty payloads included |
| Framing.OversizeHangsUp | network-modules/src/connectors/boost_async/boost_tcp_connection.cpp:62-66 | On an oversize length exactly the earlier frames are delivered, whatever follows |
| Framing.PrefixDeliversPrefix | network-modules/src/connectors/boost_async/boost_tcp_connection.cpp:57-78 | Any prefix of a stream delivers a prefix of what the stream delivers |
| Framing.DeliversPrefixExactly | network-modules/src/connectors/boost_async/boost_tcp_connection.cpp:24-28 | What is delivered is a prefix of what was sent if and only if the first oversize payload, if any, has a length whose low 32 bits are above the bound too |
| Framing.LongPayloadIsMistaken | network-modules/src/connectors/boost_async/boost_tcp_connection.cpp:24 | A payload of 0x1_0000_0000 bytes is taken for an empty one |
| Framing.ReadResumes | network-modules/src/connectors/boost_async/boost_tcp_connection.cpp:57-78 | What is delivered depends on the stream, not on how it is cut into chunks |
| Framing.BigEndianRoundTrip | network-modules/src/connectors/boost_async/boost_tcp_connection.cpp:24-25 | The four bytes of a length decode to it |
| Framing.HostToNetworkExactly | network-modules/src/connectors/boost_async/boost_tcp_connection.cpp:24-25 | The four bytes of a length, the most significant first |
| Framing.NetworkToHostExactly | network-modules/src/connectors/boost_async/boost_tcp_connection.cpp:62 | The value of four bytes, the first one weighing 0x100_0000 |
| Framing.FrameReader.Receive | network-modules/src/connectors/boost_async/boost_tcp_connection.cpp:57-78 | The read chain hands on exactly what the stream so far contains, and stops exactly on an oversize length |
| Framing.FrameReader.OnHeader | network-modules/src/connectors/boost_async/boost_tcp_connection.cpp:59-68 | A completed length read stops the chain if the length, most significant byte first, is above 1048576, and fixes the payload's length otherwise |
| Framing.FrameReader.OnBody | network-modules/src/connectors/boost_async/boost_tcp_connection.cpp:70-76 | A completed payload read hands the payload on |
| SendQueue.FrameSender.SendBytes | network-modules/src/connectors/boost_async/boost_tcp_connection.cpp:20-37 | The frame is queued, the low 32 bits of the length first, most significant byte first, and then the payload; a chain is started exactly when the queue was empty |
| SendQueue.FrameSender.SendNext | network-modules/src/connectors/boost_async/boost_tcp_connection.cpp:39-47 | The first frame is taken, if there is one |
| SendQueue.NoStrandedFrames | network-modules/src/connectors/boost_async/boost_tcp_connection.cpp:30-55 | In every run the frames queued are those taken followed by those in the queue; without a write error a queue that is not empty has a step due or a write in flight |
| SendQueue.QuietMeansWritten | network-modules/src/connectors/boost_async/boost_tcp_connection.cpp:49-54 | When no write is in flight and no step is due, everything queued has been written |
| SendQueue.FailedWriteStrands | network-modules/src/connectors/boost_async/boost_tcp_connection.cpp:49-53 | After a failed write on the only chain nothing more is written if frames were waiting, whatever is sent afterwards |
| SendQueue.OneWriteExactly | network-modules/src/connectors/boost_async/boost_tcp_connection.cpp:39-55 | There is never more than one write in flight in exactly the runs in which no `SendNext` takes a frame while the write of another has not come back |
| SendQueue.OverlapIsTheCause | network-modules/src/connectors/boost_async/boost_tcp_connection.cpp:30-36 | As long as no `SendBytes` has found the queue empty while a chain exists, there is one write at most and no way to a second; a `SendBytes` opens such a way if and only if it finds that |
| SendQueue.CanDoubleExactly | network-modules/src/connectors/boost_async/boost_tcp_connection.cpp:30-55 | From any state, two writes can be in flight after steps without such a `SendBytes` if and only if there are two chains and a frame in the queue, or two writes already |
| SendQueue.OverlapCanBeHarmless | network-modules/src/connectors/boost_async/boost_tcp_connection.cpp:30-46 | A run with such a `SendBytes` and two chains that never had two writes in flight and has no way to it |
| SendQueue.SingleChainExactly | network-modules/src/connectors/boost_async/boost_tcp_connection.cpp:30-36 | There is never more than one chain (a `SendNext` due, a frame taken, or a write in flight) in exactly the runs without such a `SendBytes` |
| SendQueue.WrittenInOrder | network-modules/src/connectors/boost_async/boost_tcp_connection.cpp:39-55 | As long as no `SendNext` takes a second frame the writes start in the order in which the frames were queued |
| SendQueue.PeerReadsInOrder | network-modules/src/connectors/boost_async/boost_tcp_connection.cpp:20-78 | Under the same condition the peer's reader delivers a prefix of what was sent, in order |
| SendQueue.WritesCanOvertake | network-modules/src/connectors/boost_async/boost_tcp_connection.cpp:30-46 | A run in which two writes are in flight and start in the wrong order |
| Executor.QueuedExecutor.Post | core/src/synchronization/queued_executor.cpp:5-14 | The task is queued unless the executor was stopped |
| Executor.QueuedExecutor.RunBody | core/src/synchronization/queued_executor.cpp:5-11 | What a running task posts before it stops the executor is accepted and queued, in order, and nothing after |
| Executor.QueuedExecutor.ProcessBlocking | core/src/synchronization/queued_executor.cpp:16-35 | A batch is consumed in order, whole or up to and including the first task whose body stops the executor; afterwards the queue is exactly what the bodies run have posted, in order |
| Executor.QueuedExecutor.Stop | core/src/synchronization/queued_executor.cpp:37-44 | The executor is stopped |
| Executor.ExecutorHistory | core/src/synchronization/queued_executor.cpp:5-35 | In every run, until `Stop`, consumed tasks, rest of the batch and queue are the accepted tasks in post order; what ran is always a prefix |
| Executor.NothingAfterStop | core/src/synchronization/queued_executor.cpp:16-44 | After `Stop` nothing is accepted, and at most the task whose running check had passed still runs |
| Executor.DrainedMeansConsumed | core/src/synchronization/queued_executor.cpp:16-35 | A running executor with nothing left has run everything it accepted |
| Delivery.TcpMessageProcessor.Process | network/include/ebroschin/network/tcp/tcp_message_processor.hpp:25-40 | A frame whose envelope decodes and whose type is registered is posted as one task with its connection id; any other is dropped |
| Delivery.MessageExactly | network/include/ebroschin/network/tcp/tcp_message_processor.hpp:25-55 | A frame carries a message exactly if its envelope decodes to a registered type and its payload to that message |
| Delivery.MessagesExactly | network/include/ebroschin/network/tcp/tcp_message_processor.hpp:25-55 | The messages of a list of frames are those its frames carry, one for each that carries one, in order |
| Delivery.OnExactly | network/include/ebroschin/network/tcp/tcp_message_processor.hpp:37-39 | What is handled for a connection is all that is handled under its id, in order |
| Delivery.TcpMessageProcessor.HandleMessage | network/include/ebroschin/network/tcp/tcp_message_processor.hpp:47-55 | The message is handed on if its payload decodes |
| Delivery.TcpSystem.CreateConnection | network/include/ebroschin/network/tcp/tcp_system.hpp:130-142 | The connection is stored under an id that no connection has had |
| Delivery.TcpSystem.RemoveConnection | network/include/ebroschin/network/tcp/tcp_system.hpp:144-147 | That connection goes, and no other |
| Delivery.TcpSystem.ReceiveMessage | network/include/ebroschin/network/tcp/tcp_system.hpp:149-151 | The frame is processed under the id of its connection |
| Delivery.HandledInSendOrder | network/include/ebroschin/network/tcp/tcp_message_processor.hpp:25-55 | In every run the messages handled for a connection are a prefix, in send order, of those its peer sent that decode and are registered, whatever the other connections, stops and other tasks do |
| Delivery.ShortPayloadsInSendOrder | network/include/ebroschin/network/tcp/tcp_message_processor.hpp:25-55 | ... in particular when all lengths fit the 32-bit header |
| EndToEnd.HandledInOrderOfSendBytes | network/include/ebroschin/network/tcp/tcp_message_processor.hpp:25-55 | From end to end, in every run of peers, bytes, executor and handler: as long as no `SendNext` of the peer took a second frame, the messages handled for a connection are a prefix of those in the payloads passed to the peer's `SendBytes`, in that order |
| Delivery.NothingFromNowhere | network/include/ebroschin/network/tcp/tcp_system.hpp:130-151 | Nothing is ever handled under an id that no connection has |
| Delivery.NothingLost | network/include/ebroschin/network/tcp/tcp_message_processor.hpp:25-55 | With the executor running and nothing under way, every message sent within the bound has been handled |

## Left out

- Boost.Asio sockets, resolver, acceptor and io threads: a connection is a stream of bytes and events that complete writes.
- The JSON codec and `nlohmann::json`: the codec is an arbitrary pair of decode functions.
- Concepts, templates and type-level indexing: message types are numbers, callbacks are values.
- `SchedulingSystem::Initialize` and `Deinitialize`, the stop token and the condition variable: waking up is a scan at any time, so wake-ups that are lost, late or spurious are all covered; that a stop is prompt is not claimed, as the flag is set without the lock.
- Liveness under a real scheduler of threads, hardware memory ordering, data races on `running_` and in signals.
- Exceptions thrown by callbacks, wrap-around of ids and of the clock.
- `TcpSystem::Send`, `Disconnect`, `Broadcast` and `GetConnections`: a lookup in the connection table, then `SendBytes` or `Disconnect`.
- `OnDisconnected` and `OnConnected` events: every failing read or write reports a disconnection, so the former may come more than once.
- The read loop's i/o errors: a stream that ends early, which is a prefix.
- `RpcCallBuilder`: setters; the flags of `RpcTables.Spec` say which callbacks were set.
- Logging, stack traces, persistence, commands, chat API, `SystemContext` and `Application`: no protocol of their own.
- RpcSystem.RpcSystem.HandleMessage: other threads are where they are and do not move during the emission, and the bodies of user callbacks are entries of the trace; emissions interleaved with calls, timeouts and callbacks that call again are in `RpcRouting`.
- RpcProtocol.NoLeakedSlots: the slots of other subscribers of the message handler are not in the tables; they never touch the RPC system's.
- RpcClaims.AwaitedIsSettled: says that the entry was claimed, by a handler of this emission or by another; that the claim's callback has returned is true of this emission's own handlers only.
- SendQueue.WritesCanOvertake: a write puts its frame on the wire whole; two overlapping writes may also interleave their bytes, which is one more reason for the condition of `SendQueue.OneWriteExactly`.
- EndToEnd.HandledInOrderOfSendBytes: has the restriction of `Delivery.HandledInSendOrder` on lengths; the peer's SendQueue writes whole frames.
- Delivery.TcpSystem.CreateConnection: the facade's initialisation of the connection and the `OnConnected` event.
- RpcSystem.RpcSystem.Call: the handles of an entry are slot ids, and destroying them is an explicit release; that handles own their slots uniquely is proved in `Signals.HandleScope`.
- Signals.SignalState.Emit: the slots' operations are subscriptions and unsubscriptions on the emitting signal; a slot that emits the signal again is not modelled.
- Scheduling.SchedulingSystem.ProcessBatch: the wait at the end of the turn is in the transition system only, and so are other threads.
- Executor.QueuedExecutor.ProcessBlocking: blocking until there is work is a precondition; other producers are in the transition system only.
- Delivery.HandledInSendOrder: for lists of payloads for which `Framing.DeliversPrefixExactly` says that frames are not mistaken; any list whose lengths fit the 32-bit header is one (`Delivery.ShortPayloadsInSendOrder`).
