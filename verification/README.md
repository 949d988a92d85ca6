# A Dafny model of smocket's protocols

smocket is an in-memory Socket.IO. This project models the protocols it is made of and proves
what they promise over every run. `dafny verify dfyconfig.toml` checks all of it.

| component | modules |
|---|---|
| SharedWorker bridge: page, worker, the two channels between them | `BridgeMessages`, `BridgePage`, `BridgeHost`, `BridgeSystem` (the model); `BridgeFacade`, `BridgeWorker` (the objects); `BridgeInvariant`, `BridgeHostSteps`, `BridgePageSteps`, `BridgeSafety`, `BridgeBuffer`, `BridgeClientAcks`, `BridgeHostAcks`, `BridgePageAcks`, `BridgeAcks` (the proofs) |
| Connection attempts, server sockets, Managers, the microtask queue | `Lifecycle` (the model), `LifecycleRuntime` (the object); `LifecycleStanding`, `-Outcomes`, `-Teardown`, `-Membership`, `-Runs`, `-Rejections`, `-Group`, `-Disconnecting`, `-Theorems` (attempts, teardown, rooms); `LifecycleHandover`, `-HandoverSteps`, `-HandoverTeardown`, `-HandoverFrames`, `-HandoverTasks`, `-HandoverRuns`, `-Delivery`, `-DeliverySteps`, `-Roster`, `-Held`, `-Succession`, `-Overlap`, `-Safety`, `-Witness` (successive sockets of one client) |
| Room indexes and routing | `Rooms`, `RoomIndex`, `Broadcast` |
| Send buffer, timed callbacks, broadcast acknowledgements | `ClientOutbox`, `ClientOutboxObject`, `ClientOutboxRuns`, `BroadcastAck` |
| Delaying adapter | `DelayingAdapter`, `DelayingAdapterObject`, `DelayingStreams` |
| Binary detection, connection queues, the drawing game | `BinaryDetection`; `ConnectionQueue`, `ConnectionNamespace`; `DrawingGame`, `DrawingGameObject`, `DrawingGameRuns` |

## How the model is built

- Each component has its operations as functions on a value that holds the source's fields. Where the
  source changes an object in place there is also a class with those fields, whose methods assign them
  in the source's order and whose loops are the source's loops; every method is proved to take the
  object exactly to the function's value. The theorems are about runs of these functions.
- A run is a list of events in any order: calls by application code, received messages, timers,
  microtasks. A theorem about `Run`, `Reached` or `Play` is about every such list.
- Application code runs synchronously inside the source's functions and may call back into them. What
  the source still has to do when that code returns is a frame on a stack, innermost first. Calls may
  happen while frames are there; messages, timers and microtasks come only when none is left.
  Microtasks are taken in FIFO order. Some results hold only because of that order.
- A channel is the list of everything posted with the number of messages already received.
- History (what was sent, dropped, lost, reported, dispatched) is kept beside the fields and never read by
  the operations.
- Objects are rows of tables named by numbers: server sockets, attempts, session records, references.
- Names, arguments and payloads are opaque. Whether they validate, clone or encode is a flag of the
  call, of the middleware's answer, or of the return of the observers after which the source encodes:
  free in every run.

Assumptions: ports are reliable and ordered (channel messaging in the HTML Standard); a cleared timer
never fires, no timer fires earlier than it was set for, and the clock does not run backwards; an injected
delivery timer has `cancel`; application listeners do not throw; a middleware chain completes once (the
bridge results do not use this); one page socket for each port.

## The objects

Every method below is proved to take its object exactly to the value of the function that models the
given lines. The methods with loops of their own are rows of the model table.

| object | source | methods |
|---|---|---|
| `BridgeFacade.SharedWorkerSocket` | src/shared-worker-client.ts | `constructor` 168-180, `ReleaseAcknowledgements` 517-521, `ReleaseGeneration` 523-529, `Post` 499-515, `BeginRequest` 283-289, `Connect` 280-303, `Disconnect` 309-333, `PostDisconnect` 323-330, `Emit` 339-350, `PostEmission` 352-374, `FlushOutgoing` 376-387, `InterruptFlush` 367-386, `Resume` 297-301, `Receive` 389-441, `ReceiveConnectError` 409-418, `ReceiveAcknowledgement` 428-433, `ReceiveDisconnected` 434-440, `ReceiveConnected` 443-459, `ReceiveServerEvent` 461-479, `Acknowledge` 470-497 |
| `BridgeWorker.SharedWorkerHost` | src/shared-worker-host.ts | `constructor` 69-71, `Post` 73-94, `PostFailure` 77-93, `Finish` 105-134, `ReceiveConnect` 182-215, `Open` 185-215, `SocketConnect` 218-231, `SocketConnectError` 232-244, `SocketDisconnect` 245-247, `ForwardServerEvent` 154-180, `HandleClientEvent` 250-283, `AnswerClientEvent` 136-152, `HandleServerAck` 320-324, `ReportError` 96-103, `HandleMessage` 285-328, `Close` 345-351 |
| `LifecycleRuntime.Runtime` | src/runtime/sockets.ts | `constructor` 585-599, `Connect` 713-719, `CleanupConnectionAttempt` 295-300, `Abandon` 741-748, `Cancel` 741-748, `Reject` 699-707, `MarkDisconnected` 900-914, `Disconnect` 880-889, `Teardown` 272-292, `DisconnectServer` 362-381, `DisconnectGroup` 353-360, `CompleteConnectionAttempt` 610-640, `BeginTeardown` 280-284, `DisconnectPeer` 365-367, `Send` 414-435, `ContinueBroadcast` 457-476, `BeginCleanup` 322-331, `EndCleanup` 332-338, `FinishDisconnect` 886-888, `FinishFlush` 621-639, `EndTeardown` 346-367, `Return` 886-888 |
| `LifecycleRuntime.Runtime` | src/runtime/manager.ts | `ContinueGroup` 50-57 |
| `LifecycleRuntime.Runtime` | src/runtime/namespaces.ts | `Authenticate` 92-101, `Complete` 105-108, `Admit` 139-146, `ContinuePair` 89-92, `FinishMiddleware` 109-148, `Microtask` 83-151 |
| `RoomIndex.Namespace` | src/runtime/adapters.ts | `constructor` 8-12, `Add` 14-22, `Del` 25-32 |
| `RoomIndex.Namespace` | src/runtime/sockets.ts | `Leave` 512-515, `EndCleanup` 332-338 |
| `RoomIndex.Namespace` | src/runtime/namespaces.ts | `Register` 139-143 |
| `ClientOutboxObject.ClientSocket` | src/runtime/sockets.ts | `constructor` 585-599, `TrackTimedCallback` 800-802, `Emit` 762-798, `SendDirect` 795-795, `CompleteConnection` 610-640, `ContinueFlush` 628-637, `RejectNext` 910-912, `MarkDisconnected` 900-914, `Return` 794-797 |
| `ClientOutboxObject.ClientSocket` | src/runtime/delivery.ts | `Settle` 156-166, `Send` 187-197, `Answer` 170-176, `Expire` 162-166 |
| `BroadcastAck.Collector` | src/runtime/broadcast.ts | `constructor` 242-249, `Microtask` 255-264, `Timer` 249-253 |
| `BroadcastAck.Collector` | src/runtime/delivery.ts | `Acknowledge` 216-226 |
| `DelayingAdapterObject.DelayingAdapter` | src/runtime/adapters.ts | `constructor` 71-78, `SetDelay` 81-85, `ScheduleDelivery` 87-96, `Pump` 99-121, `Deliver` 107-114, `DrainNext` 131-135, `RemoveSocket` 124-136, `Return` 111-113, `Fire` 107-121, `Microtask` 116-117 |
| `ConnectionNamespace.Namespace` | src/runtime/namespaces.ts | `constructor` 39-51, `NextConnection` 198-202, `Offer` 204-211, `DiscardReady` 213-216 |
| `DrawingGameObject.Game` | examples/drawing-game/src/game/application.ts | `constructor` 31-31, `StartRound` 37-46, `StartCountdown` 56-63, `Vacated` 94-102, `Joined` 70-79 |
| `DrawingGameObject.Game` | examples/drawing-game/src/game/game-state.ts | `GetSession` 65-71, `Join` 95-147, `Guess` 176-190, `Leave` 192-205 |

## What does not hold as one might expect

- *No half-open sessions* holds as long as sockets report `connect` once and `connect_error` before it
  (`BridgeSafety.OrderlySocketsLeaveNoneHalfOpen`). A middleware chain that completes twice
  (src/runtime/namespaces.ts:112-131) is the one source of such late reports. The bridge results do not
  assume that it completes once: `BridgeSafety.HalfOpenExactly` says, for sockets that report anything
  at any time, exactly when a page is left half-open. `LateConnectErrorLeavesHalfOpen` and
  `RepeatedConnectLeavesHalfOpen` are runs; the second needs a CONNECTED that cannot be posted, which
  with its numbers and strings no structured clone refuses.
- *The three views of room membership always agree* is false inside an adapter's `removeSocket` hook,
  where the indexes have forgotten a socket that still lists its rooms (`Rooms.AgreeExactly`,
  `Rooms.DrainingDisagrees`); routing and scan differ in just that state
  (`Broadcast.RoutingAgreesWithScan`, `Broadcast.DrainingIsRoutedDifferently`).
- *Nothing torn stays in the roster* is false when an application disconnects a socket that middleware
  still holds: the attempt is admitted all the same, and registration does not ask whether the socket
  has been cleaned. `LifecycleSafety.RosterIsExact` has the exact condition,
  `LifecycleSafety.OnlyMeddlingSpoilsTheRoster` one that can be told before the call, and
  `LifecycleWitness.HeldSocketStaysOnTheRoster` a run.
- *A rejected attempt is told to its client* is false when the data of the middleware's error cannot be
  encoded: `snapshotMiddlewareError` throws when the attempt is already over.
  `LifecycleTheorems.OneOutcome` has the exact condition,
  `LifecycleWitness.UnencodableErrorIsNotReported` a run.
- *A buffered emission is sent or stays buffered* is false of a flush one of whose packets cannot be
  encoded: the buffer has been emptied, `send` throws, and what the flush still held is gone.
  `ClientOutboxRuns.NothingElseIsLost` says that nothing else is ever lost,
  `ClientOutboxRuns.FailedEncodingLosesTheRest` is a run.
- *No packet of an earlier server socket is dispatched once a later one is attached* is false.
  `LifecycleSafety.StaleExactly` and `LifecycleSafety.DrainedStaleExactly` say for every run which packets
  are stale; the first condition can be told when the packet is sent. Two conditions on the application
  exclude them all. A client must not call `connect()` from inside its own `disconnect()` (the run is
  *patient*): the pairing microtask would then be queued ahead of the teardown. A server socket must be
  disconnected by hand only while it is in the roster or already torn (the run is *mannerly*):
  `disconnectNamespaceFromServer` defers a `markDisconnected` that does not ask which socket the client is
  connected through. Neither alone is enough: `LifecycleWitness.NestedConnectDeliversStale` and
  `LifecycleWitness.DrainDeliversStale` dispatch stale packets in runs that are not patient,
  `LifecycleWitness.StaleHandleDeliversStale` in a patient one.
- A packet whose own outgoing observer ends the connection is still sent, under a weaker guard
  (src/runtime/sockets.ts:422-432). It may be dispatched after a later socket was attached, but only if
  the attempt that socket belonged to is over by then (`LifecycleSafety.StaleExactly`).

## Model

| member | source | states |
|---|---|---|
| `BridgeSafety.NoProtocolError` | src/shared-worker-host.ts:299-316 | in every interleaving of page calls, host-side socket events and receipts, none of the three protocol errors (no active connection, unknown generation, disconnect by a non-owner) is ever reported |
| `BridgeSafety.GenerationIsLatestRequest` | src/shared-worker-host.ts:182-215 | whatever generation the page is at was issued by the host for the latest CONNECT the page sent; a CONNECTED for an older one is never adopted |
| `BridgeSafety.NothingFollowsTheEnd` | src/shared-worker-host.ts:105-134 | on the channel to the page nothing tagged with a generation follows its DISCONNECTED or CONNECT_ERROR, so there is at most one of them |
| `BridgeSafety.SilencedExactly` | src/shared-worker-host.ts:230-244 | a step ends an announced connection without a DISCONNECTED if and only if it is a `connect_error` of the live connection after its `connect`, or a repeated CONNECTED that cannot be cloned |
| `BridgeSafety.SilencedInRun` | src/shared-worker-host.ts:230-244 | over a whole run a generation was ended silently if and only if one of its steps was such a step |
| `BridgeSafety.HalfOpenExactly` | src/shared-worker-client.ts:434-459 | a page connected at g faces a live connection g, or a DISCONNECTED for g is under way, if and only if no step of the run ended g silently: the exact condition for the absence of half-open sessions |
| `BridgeSafety.LateConnectErrorLeavesHalfOpen` | src/shared-worker-host.ts:232-244 | the five-step run in which a `connect_error` after `connect` leaves the page connected to nothing, with no DISCONNECTED under way |
| `BridgeSafety.RepeatedConnectLeavesHalfOpen` | src/shared-worker-host.ts:218-231 | the run in which a second `connect` whose CONNECTED cannot be posted does the same |
| `BridgeSafety.OrderlySocketsLeaveNoneHalfOpen` | src/shared-worker-host.ts:218-247 | if the socket of g reports `connect` at most once, and `connect_error` only before it, a page connected at g always faces a live connection g or has its DISCONNECTED on the way |
| `BridgeAcks.ClientAckOnceAndRight` | src/shared-worker-client.ts:352-374 | no acknowledgement callback of the page runs twice in a run, and each runs with a payload given to the acknowledgement of its own emission, across any number of reconnects |
| `BridgeAcks.ServerAckOnceAndRight` | src/shared-worker-host.ts:154-180 | the same for the acknowledgement callbacks of server events: at most once, and with a payload given on the page for that very event |
| `BridgeAcks.ListenersSeeTheCurrentConnection` | src/shared-worker-client.ts:420-427 | listeners see server events in the order they were forwarded, none twice, and each was posted by the connection made for the CONNECT that was the latest when it was shown |
| `BridgeAcks.EmissionsArriveOnce` | src/shared-worker-host.ts:250-283 | the server is given every emission at most once, and only emissions the page posted and the host has read |
| `BridgeAcks.EmissionsAreConserved` | src/shared-worker-client.ts:339-387 | every emission made so far is exactly one of waiting, sent and dropped with a `bridge_error`; what waits, in the buffer or in an interrupted flush, keeps the order of emission |
| `BridgeAcks.RightCallback` | src/shared-worker-client.ts:428-433 | an ACK that finds a pending entry on the page finds the callback of the emission it answers, although the page counter restarts at every CONNECTED |
| `BridgeAcks.RightServerCallback` | src/shared-worker-host.ts:320-324 | an ACK that finds a pending entry on the host finds the callback of the server event it answers |
| `BridgeBuffer.FlushSplits` | src/shared-worker-client.ts:376-387 | one stretch of the flush sends a prefix of the buffer, drops at most the next emission, and keeps the rest in front of whatever is buffered meanwhile, in order |
| `BridgeBuffer.FlushConserves` | src/shared-worker-client.ts:376-387 | the flush loses and doubles nothing, whether it ends, is stopped by a disconnect, or is interrupted by the listeners of a failed post |
| `BridgeHostAcks.ForwardKeepsTokens` | src/shared-worker-host.ts:165-170 | an acknowledgement id made for a server event was never issued before, and ids and events stay one to one |
| `BridgePageSteps.ReceiveKeepsSide` | src/shared-worker-client.ts:389-459 | every message received by the page keeps what is known of the messages it has posted and of its generation |
| `BridgePageAcks.ReceiveIsSilent` | src/shared-worker-client.ts:389-459 | receiving anything but a server event or an acknowledgement shows nothing, answers nothing and runs no callback, and can only drop what was pending |
| `BridgeFacade.SharedWorkerSocket.FlushRest` | src/shared-worker-client.ts:380-386 | the loop itself, from any point of the buffer |
| `LifecycleTheorems.ClientAttemptAndManagerAgree` | src/runtime/sockets.ts:610-620 | in every reachable state a client is `connected` iff its current attempt is established iff it is in `connectedClients`, pending iff in `pendingClients`, and its `id` is that of the paired server socket iff it is connected |
| `LifecycleTheorems.ReportedOnce` | src/runtime/namespaces.ts:83-157 | at most one `connection`, `connect`, `connect_error`, `disconnecting` and `disconnect` is ever reported about an attempt or a server socket |
| `LifecycleTheorems.OneOutcome` | src/runtime/sockets.ts:699-748 | `connect` follows the server's `connection`; a `connect_error` is reported or queued, once and never both, exactly for the rejected attempts whose error can be encoded, and only a middleware answer of the run that cannot be encoded makes an exception; one cancelled before it connected is reported to nobody; no attempt has both outcomes |
| `LifecycleWitness.UnencodableErrorIsNotReported` | src/runtime/sockets.ts:699-707 | the run in which middleware answers with data that cannot be encoded: the attempt is rejected, and its client is told nothing |
| `LifecycleTheorems.OutcomesAreFinal` | src/runtime/namespaces.ts:89-151 | however late its auth or middleware callbacks run, a dropped attempt never connects, and a second auth callback never attaches another server socket |
| `LifecycleTheorems.TeardownIsOrderly` | src/runtime/sockets.ts:272-292 | every `disconnect` follows the `disconnecting` of the same socket and finds it in no room; when nothing is queued or running, a socket was torn iff both were reported |
| `LifecycleTheorems.RoomsStayCoherent` | src/runtime/sockets.ts:322-338 | the three views of room membership stay coherent in every run, agree when nothing is running, and a socket that was torn, rejected or cancelled is in no room and no index |
| `LifecycleTheorems.DisconnectingSeesItsRooms` | src/runtime/sockets.ts:272-292 | whatever step of whatever run reports `disconnecting`, a call, the microtask of a deferred teardown or `Manager.disconnect`, names exactly the rooms whose members include the socket, and they do so before the step and after it |
| `LifecycleTheorems.DisconnectServerReports` | src/runtime/sockets.ts:362-381 | a synchronous disconnect of an untorn socket reports `disconnecting` at once, with its rooms, and leaves them as they are |
| `LifecycleTheorems.OwnerIsUnique` | src/runtime/sockets.ts:731-738 | at most one server socket owns a client, and it is a socket of that client, so `Manager.disconnect` has one initiator to spare |
| `LifecycleTheorems.GroupReachesEveryMember` | src/runtime/manager.ts:50-58 | when `Manager.disconnect` ends, whatever listeners did meanwhile, every connected member has a torn server socket and only the initiator's client may still be pending |
| `LifecycleGroup.GroupFinishes` | src/runtime/manager.ts:50-58 | the same from any state in which the group operation is at its last member |
| `LifecycleSafety.StaleExactly` | src/runtime/sockets.ts:664-683 | in every run, outside a drain: a packet is dispatched after a later server socket was attached if and only if it was sent through another socket than its client's current one; one whose own outgoing observer ended the connection is never behind a socket of an attempt that is still alive |
| `LifecycleSafety.DrainedStaleExactly` | src/runtime/sockets.ts:322-333 | in every run: what the adapter drains for a socket is stale if and only if it was sent through an earlier socket, or some step of the run attached a socket later than its own while the drained one was still around |
| `LifecycleSafety.NoStaleDispatch` | src/runtime/sockets.ts:664-683 | so nothing stale is dispatched in patient and mannerly runs |
| `LifecycleSafety.RosterIsExact` | src/runtime/namespaces.ts:138-147 | in every run the roster holds exactly the announced sockets whose cleanup is not over if and only if no step registered a socket that had been cleaned before |
| `LifecycleSafety.NothingStaysOnTheRoster` | src/runtime/sockets.ts:322-338 | as long as that is so, nothing torn, rejected or cancelled stays in the roster |
| `LifecycleSafety.OnlyMeddlingSpoilsTheRoster` | src/runtime/namespaces.ts:103-147 | and it is so in every run in which no application disconnects a socket by hand that middleware still holds |
| `LifecycleSafety.LingersExactly` | src/runtime/namespaces.ts:89-101 | in every run: when an attempt may be given its server socket, another socket of the client is still around if and only if it was connected and its `disconnect` is not out |
| `LifecycleSafety.AttachedAlone` | src/runtime/namespaces.ts:89-101 | in mannerly runs none is, for an attempt not begun inside the client's own disconnect: every earlier socket is out of the indexes and the roster |
| `LifecycleSuccession.ArrivalExact` | src/runtime/sockets.ts:670-678 | a guard that holds outside a drain holds through the current attempt, whose socket is the latest of the client |
| `LifecycleOverlap.StepParts` | src/runtime/sockets.ts:322-338 | a socket stops being around in two ways only: its attempt is dropped before it connects, or its `disconnect` is reported |
| `LifecycleHandoverTasks.NoOtherAtPairing` | src/runtime/namespaces.ts:83-97 | at the pairing microtask of an attempt no other socket of the client is around, by the FIFO order of microtasks; only an attempt begun inside the client's own disconnect can find one |
| `LifecycleHandoverRuns.AloneAtAdmission` | src/runtime/namespaces.ts:105-148 | at admission the attempt's own socket is the only one of its client |
| `LifecycleHandoverRuns.MarkHitsItsOwn` | src/runtime/sockets.ts:362-368 | a deferred `markDisconnected` ends the connection through the socket that queued it, never a later one |
| `LifecycleDeliverySteps.ActiveIsCurrent` | src/runtime/sockets.ts:670-683 | an active server socket is the one its client would be delivered to |
| `LifecycleDeliverySteps.RecipientIsCurrent` | src/runtime/sockets.ts:457-476 | when a broadcast reaches a recipient, that socket is its client's current one, or the current one can never connect or drain again |
| `LifecycleDeliverySteps.GuardMeans` | src/runtime/sockets.ts:670-678 | in such runs a delivery guard that still holds means that no later socket was attached, or none of a live attempt for a packet with its own guard |
| `LifecycleWitness.NestedConnectDeliversStale` | src/runtime/sockets.ts:880-889 | a mannerly run that is not patient: `connect()` inside the client's own disconnect, and a packet of the first socket is dispatched while the client is connected through the second |
| `LifecycleWitness.StaleHandleEndsLaterConnection` | src/runtime/sockets.ts:362-368 | disconnecting a socket that is not in the roster ends the client's later connection and leaves its server socket active |
| `LifecycleWitness.StaleHandleDeliversStale` | src/runtime/sockets.ts:362-368 | a patient run that is not mannerly: that server socket goes on sending, and its packet is dispatched while the client is connected through a third |
| `LifecycleWitness.StaleHandleLeavesTwoAttached` | src/runtime/namespaces.ts:89-101 | in the same run an ordinary attempt has its server socket while an earlier one of its client is in the indexes and the roster |
| `LifecycleWitness.DrainDeliversStale` | src/runtime/sockets.ts:322-333 | a packet sent through the client's current socket is dispatched by the drain of that socket's teardown, after the second socket was attached |
| `LifecycleWitness.HeldSocketStaysOnTheRoster` | src/runtime/namespaces.ts:138-147 | a socket disconnected by hand while middleware holds it is admitted all the same and stays in the roster after its `disconnect` |
| `LifecycleRuntime.Runtime.CancelOthers` | src/runtime/manager.ts:52-55 | every other pending member is cancelled, proved with a loop invariant over the clients |
| `LifecycleRuntime.Runtime.Close` | src/runtime/namespaces.ts:218-223 | the namespace rejects from now on and every roster socket is torn |
| `Rooms.AlwaysCoherent` | src/runtime/adapters.ts:14-32 | whatever joins, leaves, admissions and cleanups happen in whatever order, both indexes mirror each other, no room key is empty, and a socket's own view equals the index unless its adapter is draining it |
| `Rooms.CleanupRemoves` | src/runtime/sockets.ts:322-338 | after the cleanup a socket is in no index, no view and not in the roster |
| `Rooms.CleanedStaysOut` | src/runtime/sockets.ts:504-511 | a cleaned socket is never given a room again |
| `Rooms.AgreeExactly` | src/runtime/sockets.ts:322-338 | the three views agree if and only if every socket being drained has an empty view |
| `Rooms.DrainingDisagrees` | src/runtime/sockets.ts:326-336 | a socket being drained still lists a room the adapter has forgotten |
| `RoomIndex.JoinAllJoins` | src/runtime/sockets.ts:504-511 | joining several rooms adds exactly those to the socket's rooms and to nobody else's |
| `RoomIndex.Namespace.Join` | src/runtime/sockets.ts:504-511 | a cleaned socket joins nothing; any other joins all the names, by a loop over them |
| `RoomIndex.Namespace.BeginCleanup` | src/runtime/sockets.ts:322-331 | both indexes lose the socket, by a loop over its rooms in any order; the own view stays |
| `ClientOutboxRuns.NeverTwice` | src/runtime/delivery.ts:142-181 | a callback passed to `timeout(ms).emit` never runs twice, whatever order answer, timer, disconnect and flush come in |
| `ClientOutboxRuns.RunsByExpiry` | src/runtime/delivery.ts:156-166 | it has run exactly if its timer is no longer armed, and until then the timer can still fire and runs it |
| `ClientOutboxRuns.HandlesAreUnsettled` | src/runtime/sockets.ts:771-793 | every cancel handle kept in `pendingAcks` is unsettled, which is why `cancel` need not check |
| `ClientOutboxRuns.SentAtMostOnce` | src/runtime/sockets.ts:621-637 | no packet is sent twice, and none from the buffer after its callback settled |
| `ClientOutboxRuns.NothingElseIsLost` | src/runtime/sockets.ts:621-637 | an unsettled emission that was not dropped as volatile has been sent, is being sent, is held by the flush, or is buffered, if and only if its own payload encoded and it never stood in the hand of a flush one of whose observed packets could not be encoded; what waits is in order of emission |
| `ClientOutboxRuns.FailedFlushLosesItsHand` | src/runtime/sockets.ts:621-637 | when an observed packet of a flush cannot be encoded, everything the flush holds is neither sent nor put back |
| `ClientOutboxRuns.FailedEncodingLosesTheRest` | src/runtime/sockets.ts:621-637 | the run of three buffered emissions, the second of which cannot be encoded: the first is sent, the other two are gone |
| `ClientOutboxRuns.InterruptedFlushPutsBack` | src/runtime/sockets.ts:629-635 | a flush interrupted by a disconnect: exactly its unsettled packets wait again, with what was buffered meanwhile, in order of emission, and nothing is sent or lost |
| `ClientOutboxRuns.SentInOrder` | src/runtime/sockets.ts:621-637 | packets are sent in the order of emission, across any reconnects, as long as no direct emission is made while the observers of another packet run |
| `ClientOutboxRuns.NestedEmissionOvertakes` | src/runtime/sockets.ts:794-795 | an emission made by the observers of another overtakes it |
| `ClientOutboxObject.ClientSocket.Remove` | src/runtime/sockets.ts:773-775 | the first occurrence is gone and the rest keeps its order |
| `ClientOutboxObject.ClientSocket.Flush` | src/runtime/sockets.ts:621-637 | settled packets are skipped, by a loop up to the next packet to observe |
| `ClientOutboxObject.ClientSocket.Unflushed` | src/runtime/sockets.ts:630-633 | exactly the unsettled packets, in order |
| `BroadcastAck.CollectorIsExact` | src/runtime/broadcast.ts:234-267 | the callback is called at most once; with success iff every recipient contributed exactly one response, otherwise with a strict subset; both times in arrival order |
| `BroadcastAck.CollectorAnswersInTime` | src/runtime/broadcast.ts:242-253 | until it has been called, its timer or, with no recipients, its microtask will call it |
| `BroadcastAck.ShownArrayIsFrozen` | src/runtime/broadcast.ts:255-264 | the array shown to the callback never changes afterwards, however many answers come late |
| `BroadcastAck.CountingNeedsOneShot` | src/runtime/delivery.ts:207-228 | if one recipient could answer twice, the count alone would report success without the other: one-shot answers are needed |
| `DelayingStreams.StreamsAreConserved` | src/runtime/adapters.ts:87-136 | per sid: delivered, then what a drain still has to deliver, then what is queued, are together the scheduled deliveries in the order scheduled, whatever delays, timers and re-entrant calls do |
| `DelayingStreams.NeverEarly` | src/runtime/adapters.ts:87-121 | a delivery that no drain forced happens no earlier than the latest due time among itself and its predecessors |
| `DelayingStreams.DetachedNeverDelivers` | src/runtime/adapters.ts:107-114 | the closure of a removed or replaced queue delivers nothing |
| `DelayingStreams.OnlyHeadsAreScheduled` | src/runtime/adapters.ts:99-121 | between callbacks every queue is non-empty and waits for exactly its head, in a timer or in a microtask |
| `DelayingStreams.RemovalLeavesNoTimer` | src/runtime/adapters.ts:124-136 | between callbacks every armed timer belongs to a live queue |
| `Broadcast.NarrowAllCollects` | src/runtime/broadcast.ts:64-109 | a chain of narrowing calls has exactly the rooms its `to`, `in` and `except` calls named, and is volatile iff it ever was made so |
| `Broadcast.NarrowingOrderIsIrrelevant` | src/runtime/broadcast.ts:64-109 | the same calls in any order, and repeated, give the same targets, exclusions and flag |
| `Broadcast.RoutingAgreesWithScan` | src/runtime/broadcast.ts:111-152 | every operator routes to a socket iff the scan of the roster finds it, if and only if the socket is not on the roster with rooms while its adapter drains it |
| `Broadcast.DrainingIsRoutedDifferently` | src/runtime/sockets.ts:326-337 | in that state the scan finds a socket that routing does not |
| `Broadcast.SocketsIn` | src/runtime/adapters.ts:35-43 | exactly the members of the named rooms, by nested loops |
| `Broadcast.Recipients` | src/runtime/broadcast.ts:111-129 | no duplicates; exactly the routed sockets, without the unready ones for a volatile operator; a filter hook keeps a subsequence |
| `Broadcast.Filter` | src/runtime/broadcast.ts:125-128 | the selected sockets the hook retained, in their order |
| `Broadcast.RetainIsSubsequence` | src/runtime/broadcast.ts:125-128 | whatever the hook answers, the result is a subsequence holding exactly the selected and retained sockets |
| `Broadcast.ManagementSockets` | src/runtime/broadcast.ts:132-152 | no duplicates; exactly the roster sockets whose own rooms meet the targets and miss the exclusions |
| `Broadcast.ScanRooms` | src/runtime/broadcast.ts:137-145 | every socket once, although the roster is scanned once for every target room |
| `BinaryDetection.Detect` | src/runtime/delivery.ts:103-106 | the search ends on every finite, possibly cyclic graph and answers true iff a binary node can be reached under the one-hop `toJSON` rule |
| `BinaryDetection.ContainsBinary` | src/runtime/delivery.ts:87-101 | each call either reaches a binary node, or leaves every explored node covered: the closed-set invariant on `seen` |
| `BinaryDetection.CoveredReachesNothing` | src/runtime/delivery.ts:95-100 | an exhausted search is complete: no path of any length leads from it to a binary node |
| `BinaryDetection.OneHopOnly` | src/runtime/delivery.ts:91-98 | in every graph an object with a `toJSON` is worth exactly what its `toJSON` value is, whatever its own properties hold; and that value is worth what its own properties are, whatever `toJSON` it has itself |
| `ConnectionQueue.PairingIsLinear` | src/runtime/namespaces.ts:198-223 | in every run and for every namespace: sockets and observers are matched first to first, never wait on both sides, and closing rejects exactly the observers still waiting |
| `ConnectionQueue.EveryCallHasAPlace` | src/runtime/server.ts:375-397 | every `nextConnection` call is served, waiting, rejected, kept for a dynamic name, given up with it, or refused |
| `ConnectionQueue.EveryCallHasOnePlace` | src/runtime/server.ts:375-397 | and in only one of these places, so it is settled at most once |
| `ConnectionQueue.CreateHandsOver` | src/runtime/server.ts:166-173 | a namespace created for a dynamic name starts with the observers that waited for it, in their order |
| `ConnectionQueue.FirstToFirst` | src/runtime/namespaces.ts:198-211 | the i-th socket that stayed goes to the i-th call |
| `ConnectionQueue.NextMatched` | src/runtime/namespaces.ts:198-202 | `nextConnection` keeps the matching |
| `ConnectionQueue.OfferMatched` | src/runtime/namespaces.ts:204-211 | `offer` keeps the matching |
| `ConnectionQueue.DiscardMatched` | src/runtime/namespaces.ts:213-216 | withdrawing a ready socket keeps the matching of all others |
| `ConnectionQueue.CloseMatched` | src/runtime/namespaces.ts:218-223 | closing keeps the matching and empties both queues |
| `ConnectionNamespace.Namespace.Close` | src/runtime/namespaces.ts:218-223 | every waiting observer is rejected once, by a loop |
| `DrawingGameRuns.SeatsAndMembershipsAreInverse` | examples/drawing-game/src/game/game-state.ts:113-147 | in every run a socket is a member of a seat exactly if it sits there, whatever joins, same-presence replacements and departures there were; every stored session has a player |
| `DrawingGameRuns.PhasesFit` | examples/drawing-game/src/game/application.ts:37-63 | a countdown runs iff its timer is set, and then with all three seats taken and that timer armed; the winner is known iff the round has ended, and is never the drawer |
| `DrawingGameRuns.WinnerIsSetOnce` | examples/drawing-game/src/game/game-state.ts:176-190 | once a round has a winner, the record keeps that winner for the rest of the run |
| `DrawingGameRuns.JoinSound` | examples/drawing-game/src/game/game-state.ts:95-147 | joining keeps seats, memberships, sessions, phases and timers in order, accepted or not |
| `DrawingGameRuns.LeaveSound` | examples/drawing-game/src/game/game-state.ts:192-205 | leaving does, also when it empties a session or stops a countdown |
| `DrawingGameRuns.GuessSound` | examples/drawing-game/src/game/game-state.ts:176-190 | guessing does |
| `DrawingGameRuns.CountdownSound` | examples/drawing-game/src/game/application.ts:56-63 | starting a countdown does, also with no time to count |

## Left out

- LifecycleSafety.NoStaleDispatch: sufficient conditions only; the exact ones are those of `LifecycleSafety.StaleExactly` and `LifecycleSafety.DrainedStaleExactly`.
- LifecycleSafety.AttachedAlone: sufficient conditions only; the exact one is that of `LifecycleSafety.LingersExactly`.
- LifecycleSafety.OnlyMeddlingSpoilsTheRoster: sufficient only, since a socket disconnected while middleware holds it may be rejected afterwards; the exact condition is that of `LifecycleSafety.RosterIsExact`.
- DelayingStreams.RemovalLeavesNoTimer: every injected timer is taken to have `cancel`; src/runtime/adapters.ts:134 calls it only if it is there, and a timer without it stays armed, although its closure then delivers nothing.
- ClientOutboxRuns.SentInOrder: a sufficient condition; an emission made by the observers of another need not overtake it, as that other may never be sent.
- DelayingStreams.StreamsAreConserved: `removeSocket` is not called again from inside the drain of the same sid; the runtime calls it once for each socket.
- BridgeFacade.SharedWorkerSocket.Disconnect: the page's `id`, the listener registry and the `disconnect` event are not modelled; `pagehide` is a disconnect at any moment.
- BridgeFacade.SharedWorkerSocket.Post: a message without application values always validates and clones.
- BridgeWorker.SharedWorkerHost.HandleClientEvent: the reference's owner and its `answered` flag are one thing, membership in the pending set.
- BridgeBuffer.FlushSplits: the reserved-name error of `emit` is not modelled.
- LifecycleRuntime.Runtime.Authenticate: when the auth callback and each middleware answer is free, so dynamic matching of parent namespaces is covered only as a delay.
- LifecycleRuntime.Runtime.Teardown: the depth count that lets already dispatched inbound packets drain is not modelled, nor is middleware of inbound packets.
- LifecycleRuntime.Runtime.CleanupConnectionAttempt: one step, since a socket that was never paired has no queued delivery to drain.
- LifecycleRuntime.Runtime.Send: volatile emits that return before anything is sent are left out, and an adapter may deliver a queued packet at any moment, in any order.
- ClientOutboxObject.ClientSocket.Emit: the promise form `emitWithAck` is left out, so `pendingAcks` holds only the handles of timed callbacks.
- Broadcast.Recipients: sets have no order, so the order of the selected sockets is arbitrary.
- Broadcast.ManagementSockets: the order of the target rooms is arbitrary, and with it that of the sockets found.
- BinaryDetection.Detect: buffers, views and blobs are one kind of node, and `toJSON` is a fixed map into the graph.
- ConnectionQueue.CreateHandsOver: the promise hop of an observer that is handed over is merged with its registration.
- DrawingGameRuns.PhasesFit: publishing calls no application code, strokes and chat are left out, whether a guess is the word is a flag, and the steps that follow awaited work come in any order.
- Classes: each is one table or one object; aliasing between several live objects of the source is not captured.
- Middleware that calls `next()` again after admission (src/runtime/namespaces.ts:112-131).
- FIFO across a reconnect when a `connection` handler emits under a delaying adapter (src/runtime/sockets.ts:664-668); order is stated for each sid inside the adapter.
- Lost messages (`messageerror`), two page sockets on one port, and overflow of generations.
- `ParentBroadcastOperator`, which repeats an operation for each child namespace.
- JSON, structured clone, URL parsing, ids, base64, real timers and ports.
- Listener introspection, warnings and ordering of event names in `src/runtime/emitters.ts`; type-level contracts; the user interface, build configuration and release scripts.
