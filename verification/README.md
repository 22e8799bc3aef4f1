# Verified models of the media signaling platform

The platform lets people meet in rooms. A signaling server keeps one record per WebSocket client and one per room,
copies rooms to Redis, and asks SFU nodes to run a media router per room. An SFU node places routers on worker
processes. A Rust server offers the same rooms behind a lock. A browser client reconnects by itself, and an API keeps
the tables of rooms, sessions and participants, signs upload URLs and checks payment webhooks. This project models that
behaviour in Dafny and proves what it keeps over every run.

How the files are arranged:

* **Signaling.** `RoomTypes`, `Rooms` and `Signaling` state what each operation and handler does to the tables.
  `Services` and `SignalingService` are the same code as objects that update their fields in place; every method is
  proved equal to its function. `Agreement`, `Membership`, `Tables`, `SeatTables` and `SignalingRuns` prove the
  whole-run results; `Cleanup` shows that the clean-up loops come to one step; `LostReplies`, `Snapshots` and
  `Placement` treat lost SFU replies, restarts and the choice of a node; `TransportRuns` follows transports over runs.
  `JoinOutcome`, `Ledgers` and `Departures` say who gets in, what a participant's record consists of and what is left
  when someone goes; `Health` follows the health check to the choice of a node. `JointRuns` runs signaling together with
  the nodes' router code and proves what signaling takes for granted about their replies. `Ownership` cuts the handlers
  at every await.
* **SFU node.** `WorkerPool`, `SfuRouters`, `LoadBalance`, `RouterService` (routers and workers, cut at every await),
  `MediaGraph`, `GraphEffects`, `RoomRouters` (transports, producers, consumers).
* **Rust rooms.** `RustRooms`, `RustLedgers`, `RustService`: one step per lock section.
* **Browser client.** `Reconnect` (sockets and timers), `BackOff` (how often and how long it retries), `Heartbeat`,
  `OnceListeners`, `BrowserClient`.
* **Texts.** `Text`, `Decimal`, `Hex`, `Stripe`, `UriEncode`, `Sdp`.
* **Presence.** `Presence`, `PresenceHistory` (what the rows say about the calls), `PresenceService`.
* `Options`, `JsMaps` (a map that remembers insertion order) and `Sorting` (a stable sort) are shared.

Runs are sequences of steps; `Possible` says what the environment may do (fresh ids from the SFU, connected clients) and
`Disciplined` what the results about the client tables additionally need: new participant and producer ids, no
control-plane close of a resident room, and no successful join by a client that would leave a seat or media behind. No
weaker condition would do (`SignalingRuns.StepExactly`). Every SFU call may fail at every step. In each module with
objects, one driver method (`SignalingService.HandleMessage`, `RouterService.RunStretch`, `RoomRouters.HandleStep`,
`RustService.RunSection`, `BrowserClient.HandleEvent`, `PresenceService.HandleRequest`) runs any step on the objects and
carries the invariants over.

Where the code does not do what one might expect, the exact condition is proved:

* A client that joins while in a room leaves its old participant there, and a control-plane close does not tell the
  clients. A step with new ids keeps everything in step exactly if it does neither; joining one's own seat again does no
  harm as long as the client owns no producers or consumers (`SignalingRuns.StepExactly`).
* If a node creates a router but its reply is lost, Redis keeps a record without an origin and nobody can enter that
  room. A room is in that state after a run exactly if such a reply came and no control-plane close of the room after it
  (`LostReplies.BlockedExactly`).
* Closing a router again while its worker's count is positive makes the count too low, and nothing else does
  (`SfuRouters.ExactUnlessAgain`); such a run exists from the start (`SfuRouters.CountTooLow`).
* After a calm run `connect()` leaves one socket or timer live exactly if the client is not waiting to retry, that is,
  unless its public field `isReconnecting` is true while its private socket is not in use. A caller who sees
  `isReconnecting` false can therefore connect safely; when it is true the client either waits or is in the middle of an
  attempt (`Reconnect.ConnectKeepsOne`).
* Over all runs, `disconnect()` misses a reconnect timer exactly if a further timer was set while that one ran and it
  has not fired since (`Reconnect.MissedTimers`). After a `connect()` that overtakes a waiting timer this comes about
  exactly if the new socket could not be made or has closed again (`Reconnect.UncalmConnect`).
* `connect()` does not reset the count of attempts; only an opened connection and `disconnect()` do. A failing
  `connect()` is retried ten times less one for each timer that fired since the last of these, so all ten retries are
  made exactly if none did (`BackOff.RetriesAfterConnect`), and after the client has given up there is no retry at all
  (`BackOff.NoRetryLeft`). A connection that came up and broke always gets all ten (`BackOff.TenRetriesAfterDrop`).
* `connect()` does not touch `isConnected` or the heartbeat either. The field is true exactly if the client has heard a
  socket open and of no end since (`Heartbeat.ConnectedExactly`); it is true without an opened current socket exactly if
  the client connected anew while it was true and has had no news since (`Heartbeat.StaleExactly`).
* A socket stays open behind the client's back exactly if `disconnect()` met it while it was still connecting
  (`Reconnect.AbandonedSockets`).
* The 64-bit subtraction in the webhook's tolerance test wraps in release builds, so timestamps exactly 2^63 seconds
  away, or at least 2^64 - 300, also pass (`Stripe.FreshIs`). A debug build panics on them instead.
* A Rust join that found its room missing replaces the room when its allocation finishes. Everybody keeps their place
  exactly if the room is still missing or holds nobody else (`RustRooms.AllocationKeepsEveryone`); over whole runs the
  participants of a room are exactly those seated and not displaced since (`RustRooms.PresentExactly`).

The handlers treat the room id `""` like "no room". No node has a route for it, so no run places a client there
(`SignalingRuns.GuardsMeanMembership`).

A comment at `sfu/src/workers/WorkerManager.ts:76` says that a listener cleans up the routers of a dead worker, but no
code sets `onWorkerDeath`; the model follows the code, so a dead worker's routers stay in the table.

## Model

| member | source | states |
|---|---|---|
| SignalingRuns.AgreementFromStart | signaling/src/services/RoomManager.ts:198-293 | over every run of handlers, control-plane calls, TTL expiry and SFU failures: a resident room's `room:routers` record names its origin, router and capabilities, that node runs that router for that room, no two rooms share one, and `room:state` holds exact copies of resident rooms only |
| SignalingRuns.AgreementOverRuns | signaling/src/services/SFUManager.ts:75-145 | the agreement of rooms, both Redis tables and live routers is kept from any agreeing state over any run |
| SignalingRuns.StepAgrees | signaling/src/services/SignalingServer.ts:204-282 | each single handler or control-plane call keeps that agreement, whether or not it succeeds |
| SignalingRuns.TablesInStepOverRuns | signaling/src/services/SignalingServer.ts:327-472 | over every disciplined run: participants and in-room clients match one to one, each client owns exactly the producers and consumers its participant lists and both its transports, clients in no room own nothing, no resident room is empty |
| SignalingRuns.MembershipOverRuns | signaling/src/services/SignalingServer.ts:337-413 | over every disciplined run, reconnects included, folding the messages a client received gives exactly the server's table of its room: user, participant id, name, role, producer ids and kinds, without the client's own row |
| SignalingRuns.InvOverRuns | signaling/src/services/SignalingServer.ts:986-1036 | agreement, tables in step and informed clients are kept together over any disciplined run |
| SignalingRuns.StepExactly | signaling/src/services/SignalingServer.ts:204-282 | among the steps with new ids, exactly two kinds do not keep all of it: dropping a resident room, and a successful join by a client in a room, unless it takes its own seat again and owns no media |
| SignalingRuns.StepKeeps | signaling/src/services/SignalingServer.ts:204-282 | each disciplined step keeps them |
| SignalingRuns.JoinBreaks | signaling/src/services/SignalingServer.ts:327-413 | a successful join by a client that is not free to join leaves a participant that no client plays, or a client that owns what its participant does not list |
| SignalingRuns.PlayedOnce | signaling/src/services/SignalingServer.ts:376-377 | a participant of a resident room is played by exactly one connected client |
| SignalingRuns.OwnsListed | signaling/src/services/SignalingServer.ts:450-596 | a client's id sets are the keys of its participant's maps and include the participant's transports |
| SignalingRuns.GuardsMeanMembership | signaling/src/services/SignalingServer.ts:425-434 | over every run from the start, a client passes the handlers' test of its room id exactly if it has a room, and no table has a room under the empty id |
| SignalingRuns.EmptyIdJoinsNothing | sfu/src/api/router.ts:43-47 | a join under the empty id changes nothing, because no node takes the request |
| SignalingRuns.JoinKeeps | signaling/src/services/SignalingServer.ts:327-423 | a join that fails, or comes from a client in no room or in its own seat without media, keeps everything in step, new or reconnecting |
| JoinOutcome.JoinsExactly | signaling/src/services/RoomManager.ts:237-263 | from any agreeing state, an authenticated client gets into a room exactly if it is resident, or Redis has its complete router record, or Redis has none, some node is healthy and it answers with a router |
| JoinOutcome.JoinSeats | signaling/src/services/SignalingServer.ts:337-413 | after a successful join: the client is in the room as user and time, with the role, name and capabilities it sent and nothing else; of the participants only the user's earlier one is gone; the room is the resident one, or the one Redis records, or a new one with the answered router on the first healthy node of least load; its copy is in Redis; newcomer and others are told whether the user was there before |
| JoinOutcome.JoinFails | signaling/src/services/RoomManager.ts:237-250 | a join that fails changes no client, no room and no copy |
| JoinOutcome.AllocationFollows | signaling/src/services/SFUManager.ts:93-125 | without a record the first healthy node of least load is asked, and its routers and the record follow the answer: none, lost or delivered |
| JoinOutcome.RecordReused | signaling/src/services/SFUManager.ts:82-91 | with a complete record the allocation is what the record says, and nothing changes |
| SignalingRuns.LeaveKeeps | signaling/src/services/SignalingServer.ts:976-1036 | leaving keeps everything in step whichever producers the SFU refuses to close, and takes the client out of its room |
| Departures.LeaveLeaves | signaling/src/services/SignalingServer.ts:986-1036 | whoever leaves is in no room and owns nothing; only its participant goes, the others are told, and the room's copy is in Redis; the last one takes the room, its copy and its record away even if the node cannot be reached |
| Departures.DisconnectLeaves | signaling/src/services/SignalingServer.ts:183-187 | a disconnection is that, and takes the client out of the table |
| Departures.DestroyGone | signaling/src/services/RoomManager.ts:657-662 | the control plane's close takes the room, its copy and its record away, and its router exactly if the node could be reached |
| Departures.CopiesInRedis | signaling/src/services/RoomManager.ts:113-143 | over every run from the start: Redis has the exact copy of a resident room, unless the copy expired and no step changed the room since |
| Departures.StepCopies | signaling/src/services/RoomManager.ts:113-143 | every step leaves a copy in Redis for each room it changes, and takes none away from a resident room |
| Departures.ClientsFollow | signaling/src/services/SignalingServer.ts:115-187 | a client is in the table from its connection to its disconnection, as the user it authenticated as last |
| Departures.ExpiryForgets | signaling/src/services/RoomManager.ts:113-143 | an expiring copy goes from Redis, and nothing else changes |
| Departures.FailedCloseKeeps | signaling/src/services/RoomManager.ts:570-583 | a producer that the SFU does not close stays in every table |
| SignalingRuns.CloseProducerKeeps | signaling/src/services/SignalingServer.ts:689-713 | closing a producer keeps everything in step |
| SignalingRuns.ProduceKeeps | signaling/src/services/SignalingServer.ts:510-566 | producing under a fresh id keeps everything in step |
| SignalingRuns.ConsumeKeeps | signaling/src/services/SignalingServer.ts:568-617 | consuming keeps everything in step |
| SignalingRuns.CreateTransportKeeps | signaling/src/services/SignalingServer.ts:433-472 | creating a transport keeps everything in step |
| Ledgers.LedgerFromStart | signaling/src/services/RoomManager.ts:252-583 | over every disciplined run from the start: name, role, capabilities, transports, producers and consumers of a participant are exactly what its own client's requests add up to since it joined, each with the kind, source and producer it was asked for |
| Ledgers.RecordIsLedger | signaling/src/services/RoomManager.ts:252-583 | the same from any state that satisfies the invariant |
| SeatTables.JoinIsEnter | signaling/src/services/SignalingServer.ts:337-413 | a join with its reconnect branch gives each user one seat: the user's earlier seat is gone, its old client evicted, everyone else untouched |
| Tables.EnterKeeps | signaling/src/services/SignalingServer.ts:350-413 | entering keeps the bijection and the others' views although the evicted participant is never announced as left |
| Tables.ExitKeeps | signaling/src/services/SignalingServer.ts:994-1033 | leaving keeps the bijection and the others' views although producers that could not be closed are not announced |
| Membership.SnapshotMatches | signaling/src/services/RoomManager.ts:307-322 | the `room-joined` snapshot alone already gives the right view of the room |
| Membership.OthersDescribed | signaling/src/services/RoomManager.ts:307-322 | it describes everyone but the newcomer, in the room's order, each with name, role and all producers by id, kind and source |
| Agreement.JoinAgrees | signaling/src/services/RoomManager.ts:221-277 | joinRoom ends with Redis exact for the room even if it lagged before, by restore, by allocation or in memory |
| Agreement.LeaveAgrees | signaling/src/services/RoomManager.ts:279-293 | leaveRoom either rewrites the room's copy or removes the room from every table |
| Agreement.DestroyAgrees | signaling/src/services/RoomManager.ts:657-662 | the control plane's close keeps the agreement whether or not the node closes the router |
| Agreement.AllocateAgrees | signaling/src/services/SFUManager.ts:75-125 | allocation keeps the agreement for every kind of SFU reply |
| Agreement.RoutersDistinct | signaling/src/services/SFUManager.ts:100-111 | two resident rooms with the same origin and router are the same room |
| TransportRuns.TransportsAsRequested | signaling/src/services/RoomManager.ts:332-473 | over every run: a participant's sending transport came from a request for a sending one, its receiving transport from one for a receiving one, and whoever consumes has asked for a receiving one |
| JointRuns.JointOverRuns | sfu/src/routers/RouterManager.ts:74-144 | over every run of signaling together with one router manager per node: the routers signaling sees are those in the nodes' tables, router ids are unique across nodes, no node has two routers of one room, and agreement is kept |
| JointRuns.EffectivePossible | sfu/src/routers/RouterManager.ts:74-94 | what a node really replies to a create call, delivered or lost, is a reply of the kind the signaling results assume |
| JointRuns.ServerRunPossible | signaling/src/services/SFUManager.ts:75-145 | signaling's part of a joint run is one of the runs the signaling results speak of, and ends in the same server state |
| JointRuns.ResidentRoomsServed | sfu/src/routers/RouterManager.ts:74-144 | from fresh nodes: a resident room's router is in the table of the node at the room's origin, it is the only one there that serves the room, and no other node has a router of that id |
| JointRuns.StepRouters | signaling/src/services/SFUManager.ts:75-145 | a signaling step changes the routers it sees exactly by its create call or its close call |
| JointRuns.CreateRuns | sfu/src/routers/RouterManager.ts:74-144 | a create call, run on the node from its first stretch to its last, adds exactly the new router or none |
| JointRuns.CloseRuns | sfu/src/routers/RouterManager.ts:454-486 | a close call that gets through takes exactly its router out of the table |
| LostReplies.BlockingStep | sfu/src/routers/RouterManager.ts:129-136 | a room becomes blocked by a step exactly if the step asks a node for the room's router and the reply with a new router is lost |
| LostReplies.BlockedStep | signaling/src/services/SFUManager.ts:82-91 | such a room stays blocked after a step exactly unless the step is its control-plane close |
| LostReplies.BlockedOverRuns | signaling/src/services/SFUManager.ts:82-91 | without such a close the room is never resident again |
| LostReplies.BlockedExactly | signaling/src/services/SFUManager.ts:82-91 | after any run a room is blocked exactly if a reply was lost, or it was blocked at first, and no control-plane close of it came after |
| Cleanup.CloseOne | signaling/src/services/SignalingServer.ts:994-1001 | closing producers one at a time, with failures, adds up to stripping the successful ones from the room at once |
| Cleanup.LeavesAlike | signaling/src/services/SignalingServer.ts:1003-1017 | dropping consumers first makes no difference to what leaving does |
| SignalingService.HandleMessage | signaling/src/services/SignalingServer.ts:204-282 | dispatching a message to the handlers is a step of the state machine, and keeps its invariant when disciplined |
| SignalingService.SignalingServer.HandleJoinRoom | signaling/src/services/SignalingServer.ts:327-423 | the handler's code is the join of the state machine |
| SignalingService.SignalingServer.EvictOldClients | signaling/src/services/SignalingServer.ts:350-362 | the loop clears every other client that plays the old participant, and nobody else |
| SignalingService.SignalingServer.DropOldParticipant | signaling/src/services/SignalingServer.ts:344-366 | the reconnect branch evicts the old client and removes the stale participant |
| SignalingService.SignalingServer.AdmitClient | signaling/src/services/SignalingServer.ts:368-413 | joining, capabilities, snapshot and announcement, or nothing but the cluster's change on failure |
| SignalingService.SignalingServer.BroadcastToRoom | signaling/src/services/SignalingServer.ts:964-974 | everyone in the room but the sender gets the message |
| SignalingService.SignalingServer.CleanupClientRoom | signaling/src/services/SignalingServer.ts:986-1036 | the loops over producers and consumers, leaving, announcing and clearing are the one leave step |
| SignalingService.SignalingServer.CloseProducers | signaling/src/services/SignalingServer.ts:994-1001 | the producer loop strips from the room exactly the producers whose close did not fail |
| SignalingService.SignalingServer.RemoveConsumers | signaling/src/services/SignalingServer.ts:1003-1010 | the consumer loop touches nothing that outlives the participant |
| SignalingService.SignalingServer.HandleClose | signaling/src/services/SignalingServer.ts:183-187 | a closed socket cleans up and leaves the client table |
| SignalingService.SignalingServer.HandleConnection | signaling/src/services/SignalingServer.ts:115-150 | a new client owns nothing and is in no room |
| SignalingService.SignalingServer.HandleCreateTransport | signaling/src/services/SignalingServer.ts:433-472 | the id goes to the participant and the client together, or to neither |
| SignalingService.SignalingServer.HandleProduce | signaling/src/services/SignalingServer.ts:510-566 | participant, client and announcement change together, or nothing does |
| SignalingService.SignalingServer.HandleConsume | signaling/src/services/SignalingServer.ts:568-617 | only producers of the room are consumed; participant and client change together |
| SignalingService.SignalingServer.HandleCloseProducer | signaling/src/services/SignalingServer.ts:689-713 | only owned producers are closed; nothing changes if the SFU fails |
| SignalingService.CapabilitiesAfterJoin | signaling/src/services/RoomManager.ts:295-305 | capabilities set after the room was persisted leave Redis exact |
| Services.RoomManager.JoinRoom | signaling/src/services/RoomManager.ts:221-277 | resident, restored or allocated, then the participant added and persisted |
| Services.RoomManager.LeaveRoom | signaling/src/services/RoomManager.ts:279-293 | last one out releases the router and deletes the room and its copy |
| Services.RoomManager.LoadRoomState | signaling/src/services/RoomManager.ts:146-191 | the nested loops rebuild the room that the snapshot describes; without a router id nothing is loaded |
| Services.RoomManager.RestoreRoomFromCluster | signaling/src/services/RoomManager.ts:198-219 | full record first, else a complete router record, else nothing |
| Services.RoomManager.PersistRoomState | signaling/src/services/RoomManager.ts:113-143 | Redis gets the snapshot of a resident room |
| Services.RoomManager.CloseProducer | signaling/src/services/RoomManager.ts:570-583 | the loop deletes the producer from every participant, then persists; nothing happens if the SFU fails |
| Services.RoomManager.CreateTransport | signaling/src/services/RoomManager.ts:332-356 | the transport is recorded for its direction and persisted |
| Services.RoomManager.Produce | signaling/src/services/RoomManager.ts:374-415 | the producer is recorded and persisted |
| Services.RoomManager.Consume | signaling/src/services/RoomManager.ts:435-484 | needs a receive transport; the paused consumer is recorded and persisted |
| Services.RoomManager.RemoveConsumer | signaling/src/services/RoomManager.ts:417-423 | removes the consumer in memory only |
| Services.RoomManager.FindProducerKind | signaling/src/services/RoomManager.ts:425-433 | finds a kind exactly if someone in the room has the producer: the kind with which the first participant, in map order, has it |
| Services.RoomManager.FindParticipantByUserId | signaling/src/services/RoomManager.ts:640-648 | the first participant, in map order, of that user |
| Services.RoomManager.RemoveParticipantEntry | signaling/src/services/RoomManager.ts:650-655 | removes the entry in memory only |
| Services.RoomManager.DestroyRoom | signaling/src/services/RoomManager.ts:657-662 | drops the room, its copy and its router record |
| Services.RoomManager.SetParticipantRtpCapabilities | signaling/src/services/RoomManager.ts:295-305 | sets the capabilities of a present participant in memory only |
| Services.SFUManager.AllocateRoom | signaling/src/services/SFUManager.ts:75-125 | reuses a complete record, fails on an incomplete one, else asks the best node and overwrites the record the node wrote |
| Services.SFUManager.ReleaseRoom | signaling/src/services/SFUManager.ts:130-145 | the record goes even if closing the router fails |
| Services.SFUManager.GetBestNode | signaling/src/services/SFUManager.ts:60-70 | computes the choice that Placement characterises |
| Services.SFUManager.CheckHealth | signaling/src/services/SFUManager.ts:147-170 | each node's health follows its heartbeat age, its load the reported routers, and a failed read makes it unhealthy |
| Placement.BestNodeIsBest | signaling/src/services/SFUManager.ts:60-70 | the first healthy node of least load; none exactly if no node is healthy |
| Health.ChosenIsAlive | signaling/src/services/SFUManager.ts:60-70 | after a health check a new room goes to the first node with the fewest reported routers among those whose report was readable and whose heartbeat is younger than 60000 ms, or absent while the node was healthy; to none exactly if there is no such node |
| Health.HostOfNode | signaling/src/services/SFUManager.ts:82-91 | the host read off a node's origin is the node's address |
| Snapshots.LoadAfterPersist | signaling/src/services/RoomManager.ts:113-191 | for a well-keyed room of any size, loading what was persisted gives the same ordered maps and router fields, without capabilities and with a new creation time, exactly when the router id is not empty |
| Snapshots.PersistAfterLoad | signaling/src/services/RoomManager.ts:113-191 | persisting a loaded room writes the same record again |
| Decimal.ParticipantTextInjective | signaling/src/services/RoomManager.ts:253 | the participant id text determines user and time |
| Ownership.OwnershipOverRuns | signaling/src/services/SignalingServer.ts:474-713 | under every interleaving at awaits: distinct clients own disjoint ids, and every connect, pause, resume or close call names an id issued earlier to the same client and to nobody else |
| Ownership.HeldExactly | signaling/src/services/SignalingServer.ts:474-713 | after any interleaving a client owns exactly the items that its own answered requests gave it and that no close, clean-up or eviction took since |
| Ownership.CalledExactly | signaling/src/services/SignalingServer.ts:474-713 | a call goes to the SFU exactly if the client it is made for owns the id it names |
| Ownership.StepTasks | signaling/src/services/SignalingServer.ts:474-713 | a handler goes on to its next await exactly if the client is in a room and, to close, owns the producer, and ends with its answer |
| Ownership.StepIsIn | signaling/src/services/SignalingServer.ts:986-1036 | a client is in a room from entering it until it is evicted or its clean-up ends |
| Ownership.StepKeeps | signaling/src/services/SignalingServer.ts:986-1033 | each stretch between awaits keeps that, also for clients evicted or closed while a call is under way |
| SfuRouters.OneRouterPerRoom | sfu/src/routers/RouterManager.ts:74-144 | however creations and closes interleave or fail, the router table never holds two routers of one room |
| SfuRouters.CountsOverRuns | sfu/src/routers/RouterManager.ts:454-486 | a worker's count never exceeds its routers whose close has not begun, also across worker deaths and replacements, and equals it on every run that starts each close at most once |
| SfuRouters.ExactUnlessAgain | sfu/src/workers/WorkerManager.ts:155-170 | a step breaks exact counts exactly if it closes a router again whose worker still has a positive count |
| SfuRouters.CountTooLow | sfu/src/routers/RouterManager.ts:454-480 | a run from a fresh node that ends with a count too low: two routers on one worker, one of them closed twice |
| SfuRouters.StepCounts | sfu/src/workers/WorkerManager.ts:73-170 | what each step does to a worker's count and to its open routers |
| SfuRouters.StepTable | sfu/src/routers/RouterManager.ts:114-136 | the router table gains a router exactly when a worker answers with one, under the call's room and worker, and loses one exactly when a close ends with Redis written |
| SfuRouters.CreationStarts | sfu/src/routers/RouterManager.ts:78-114 | a creation starts exactly if the room has no router and none is under way, on the least loaded live worker |
| SfuRouters.StepCreating | sfu/src/routers/RouterManager.ts:114-136 | a creation under way waits for the worker, then for Redis, then for its end, and ends only with its call |
| SfuRouters.CreationEnds | sfu/src/routers/RouterManager.ts:99-103 | a room is free for another creation exactly when the call that runs it ends |
| SfuRouters.StepClosing | sfu/src/routers/RouterManager.ts:454-486 | a close is under way exactly from its beginning, if it finds the router, to its end |
| SfuRouters.StepPool | sfu/src/workers/WorkerManager.ts:73-103 | a dead worker stays closed, a restart replaces exactly that worker and a usage report changes exactly its figure |
| SfuRouters.StartIsGood | sfu/src/workers/WorkerManager.ts:29-46 | a fresh node satisfies all of it |
| LoadBalance.CountsDifferByAtMost | sfu/src/workers/WorkerManager.ts:105-135 | in creation-only runs with live, equally busy workers and at most k creations in flight, two counts differ by at most k |
| LoadBalance.BalanceOverRuns | sfu/src/routers/RouterManager.ts:110-130 | a worker's count plus what is in flight for it exceeds no other's count by more than k |
| WorkerPool.LeastLoaded | sfu/src/workers/WorkerManager.ts:105-135 | the first live worker of least score; none exactly if all are dead |
| WorkerPool.WorkerManager.GetLeastLoadedWorker | sfu/src/workers/WorkerManager.ts:105-135 | the loop computes it |
| WorkerPool.WorkerManager.GetNextWorker | sfu/src/workers/WorkerManager.ts:140-150 | the first live worker around the ring from the cursor, which moves right behind it; none exactly if all are dead |
| WorkerPool.WorkerManager.IncrementRouterCount | sfu/src/workers/WorkerManager.ts:155-160 | adds one to that worker's entry only |
| WorkerPool.WorkerManager.DecrementRouterCount | sfu/src/workers/WorkerManager.ts:165-170 | takes one from that worker's entry only, never below zero |
| RouterService.RouterManager.CreateRouter | sfu/src/routers/RouterManager.ts:74-114 | the stretch up to the first await: existing router, creation under way, or a new one on the least loaded worker |
| RouterService.RouterManager.WorkerAnswered | sfu/src/routers/RouterManager.ts:114-136 | the router enters the table and is counted, or the creation is over |
| RouterService.RouterManager.FinishCreate | sfu/src/routers/RouterManager.ts:99-103 | `finally` makes the room free for another creation |
| RouterService.RouterManager.CloseRouter | sfu/src/routers/RouterManager.ts:454-480 | the count drops before the await |
| RouterService.RouterManager.FinishClose | sfu/src/routers/RouterManager.ts:479-483 | the router leaves the table unless Redis failed |
| RouterService.RunStretch | sfu/src/routers/RouterManager.ts:74-486 | whichever stretch runs next on the objects, one router per room and counts not too high are kept, and exact counts unless a close starts again |
| MediaGraph.ResourcesOverRuns | sfu/src/routers/RouterManager.ts:180-370 | before closeRouter the maps list exactly what is open, everything hangs on a transport in the map, and a consumer has its producer or a producerclose coming; after it nothing is open |
| MediaGraph.GraphOverRuns | sfu/src/routers/RouterManager.ts:417-486 | that is kept from any such state over any run |
| MediaGraph.StepKeeps | sfu/src/routers/RouterManager.ts:267-356 | and by each step: creations that answer late, transport failures, session deletion, queued close events |
| GraphEffects.WhipTakes | sfu/src/routers/RouterManager.ts:583-609 | deleting a WHIP session takes exactly its transport, the producers that name it as their session and all that is on the transport, from the maps and from mediasoup; consumers that lose their producer are told; an unknown session changes nothing |
| GraphEffects.WhipGone | sfu/src/routers/RouterManager.ts:583-609 | nothing of the session is left, and deleting it again changes nothing |
| GraphEffects.CloseTakes | sfu/src/routers/RouterManager.ts:417-427 | closing a producer takes exactly that producer and tells its consumers |
| GraphEffects.FailureTakes | sfu/src/routers/RouterManager.ts:163-225 | a failed transport goes with exactly what is on it |
| GraphEffects.DeliveryTakes | sfu/src/routers/RouterManager.ts:325-356 | a delivered producerclose takes exactly its consumer |
| GraphEffects.ConsumedAdds | sfu/src/routers/RouterManager.ts:325-356 | a consumer that is made enters both maps, and has a producerclose coming exactly if its producer closed in the meantime |
| GraphEffects.ProducedAdds | sfu/src/routers/RouterManager.ts:250-298 | a producer that is made enters both maps and ends its call; a failed call adds nothing |
| GraphEffects.TransportAdds | sfu/src/routers/RouterManager.ts:163-225 | a created transport enters both sets and changes nothing else |
| GraphEffects.ProduceWaits | sfu/src/routers/RouterManager.ts:250-272 | a produce call goes on to mediasoup exactly if its transport is in the map |
| GraphEffects.ConsumeWaits | sfu/src/routers/RouterManager.ts:300-330 | a consume call goes on exactly if its transport and its producer are |
| GraphEffects.CloseRouterShuts | sfu/src/routers/RouterManager.ts:454-474 | after closeRouter nothing of the router is open |
| RoomRouters.RoomRouter.CloseRouter | sfu/src/routers/RouterManager.ts:454-474 | the three loops leave nothing of the router open |
| RoomRouters.RoomRouter.DeleteWhipSession | sfu/src/routers/RouterManager.ts:583-609 | closes the session's producers and its transport; fails exactly if the transport is unknown |
| RoomRouters.RoomRouter.DropSession | sfu/src/routers/RouterManager.ts:597-603 | the loop takes out exactly the producers whose appData names the session |
| RoomRouters.RoomRouter.CloseProducer | sfu/src/routers/RouterManager.ts:417-427 | the producer is closed and leaves the map, its consumers are told |
| RoomRouters.HandleStep | sfu/src/routers/RouterManager.ts:180-474 | any call or event on the object keeps the maps in step with what is open |
| RustRooms.OrderlyFromStart | signaling-rs/src/services/room_manager.rs:126-258 | under every interleaving of lock sections: one participant per user and room, keys equal ids, and no empty room unless remove_participant_entry is used |
| RustRooms.RoomsOverRuns | signaling-rs/src/services/room_manager.rs:410-555 | that is kept from any such state, through late SFU answers to produce, consume, create_transport and close_producer |
| RustRooms.StepNoneEmpty | signaling-rs/src/services/room_manager.rs:235-319 | a step empties a room exactly if it is remove_participant_entry on the last participant |
| RustRooms.AllocationKeepsEveryone | signaling-rs/src/services/room_manager.rs:186-223 | an allocation that finishes keeps everyone in the room exactly if the room is still missing or holds nobody but the newcomer |
| RustRooms.DisplacedExactly | signaling-rs/src/services/room_manager.rs:126-319 | a participant loses its place exactly in its leave or removal, its room's close, its user's next join, or an allocation that finishes on the room |
| RustRooms.PresentExactly | signaling-rs/src/services/room_manager.rs:126-319 | after any run a participant is in a room exactly if it was there or was seated there, and was not displaced since |
| RustLedgers.MemberIsLedger | signaling-rs/src/services/room_manager.rs:321-557 | over every interleaving of lock sections a participant's record is exactly what the SFU's answers to its own calls add up to since it was seated |
| RustLedgers.CallsWait | signaling-rs/src/services/room_manager.rs:321-557 | a call goes on to the SFU exactly if its room is there and, to consume, its participant has a receiving transport |
| RustLedgers.TasksFollow | signaling-rs/src/services/room_manager.rs:133-184 | a join that finds no room waits for an allocation with what it was asked for, and an answer ends its call |
| RustLedgers.RoomsFollow | signaling-rs/src/services/room_manager.rs:186-223 | a room has the node, origin, router and capabilities of the last allocation made for it |
| RustLedgers.ClosedRoomsReleased | signaling-rs/src/services/room_manager.rs:235-258 | a room goes exactly when its last participant leaves or it is destroyed, and exactly then its router is released |
| RustRooms.LastAllocationWins | signaling-rs/src/services/room_manager.rs:186-223 | from any state without the room: of any two joins that find it missing, only the one whose allocation finishes last remains, and such runs exist |
| RustService.RoomManager.JoinRoom | signaling-rs/src/services/room_manager.rs:133-184 | the section under the lock replaces the user's old entry, or leaves the room to be allocated |
| RustService.RoomManager.FinishAllocation | signaling-rs/src/services/room_manager.rs:186-232 | an allocated room starts with the joining participant only |
| RustService.RoomManager.LeaveRoom | signaling-rs/src/services/room_manager.rs:235-258 | last one out removes the room and asks the node to release it |
| RustService.RoomManager.ProducerClosed | signaling-rs/src/services/room_manager.rs:549-557 | the second section of close_producer |
| RustService.RemoveProducer | signaling-rs/src/services/room_manager.rs:549-555 | the loop takes the producer from every participant |
| RustService.RunSection | signaling-rs/src/services/room_manager.rs:126-557 | any lock section on the object keeps one participant per user under its own id, and no room empty unless it is remove_participant_entry |
| Reconnect.OneThingAtATime | frontend-svelte/src/lib/signaling.ts:56-161 | whenever connect() is only called while no reconnect timer runs: at most one socket or timer is live, and there are at most ten attempts |
| Reconnect.SilentAfterDisconnect | frontend-svelte/src/lib/signaling.ts:134-161 | over such runs nothing happens after disconnect() until the next call |
| Reconnect.ConnectKeepsOne | frontend-svelte/src/lib/signaling.ts:56-132 | after any calm run, a further connect() leaves at most one live socket or timer exactly if the client is not waiting to retry, and whenever `isReconnecting` is false |
| Reconnect.MissedTimers | frontend-svelte/src/lib/signaling.ts:134-161 | over all runs: a timer survives disconnect() exactly if a further one was set while it ran and it has not fired since |
| Reconnect.SilencedExactly | frontend-svelte/src/lib/signaling.ts:134-161 | over all runs: disconnect() ends all activity exactly if no timer of the run was overtaken |
| Reconnect.UncalmConnect | frontend-svelte/src/lib/signaling.ts:56-71 | after a connect() while a timer waits, and until that timer fires or the application calls again, disconnect() would miss the timer exactly if the new socket could not be made or has closed |
| Reconnect.AbandonedSockets | frontend-svelte/src/lib/signaling.ts:144-154 | over all runs: a socket stays usable although the client let go of it exactly if disconnect() met it connecting and it has not closed since |
| BackOff.RetriesLeft | frontend-svelte/src/lib/signaling.ts:221-248 | from any state in which something can still happen, a run in which no connection is made uses the delays that remain of the table, in order, and all of them if it goes on until nothing can happen |
| BackOff.RetriesAfterConnect | frontend-svelte/src/lib/signaling.ts:56-132 | a connect() after any calm run, with no timer waiting, that never succeeds is followed by exactly ten retries less one for each timer fired since the last connection or disconnect(); all ten, in 95500 ms, exactly if there was none |
| BackOff.TenRetriesAfterDrop | frontend-svelte/src/lib/signaling.ts:86-95 | whenever a calm run has brought up a connection that then breaks, and no attempt succeeds: exactly ten retries with delays 500, 1000, 2000, 4000, 8000 and five times 16000 ms |
| BackOff.TenRetries | frontend-svelte/src/lib/signaling.ts:221-248 | the same ten retries after a first connect() that never succeeds |
| BackOff.NoRetryLeft | frontend-svelte/src/lib/signaling.ts:56-95 | a calm run in which, after ten retries in vain, a further connect() whose socket closes is not retried |
| BackOff.AttemptsFired | frontend-svelte/src/lib/signaling.ts:77-81 | over all runs the attempts counted are the timers fired since the last connection or disconnect() |
| BackOff.FailingRunEnds | frontend-svelte/src/lib/signaling.ts:221-248 | from any state in which something can still happen, a run in which no connection is made is finite by a measure, and can go on until nothing can happen |
| Heartbeat.OneHeartbeat | frontend-svelte/src/lib/signaling.ts:204-219 | over all runs: one interval runs while `isConnected` is true and none otherwise, it is true while the current socket has opened and not closed, and disconnect() leaves no interval |
| Heartbeat.ConnectedExactly | frontend-svelte/src/lib/signaling.ts:77-90 | over all runs: `isConnected` is true exactly if the client heard a socket open and of no end since, connect() being no end |
| Heartbeat.StaleExactly | frontend-svelte/src/lib/signaling.ts:56-81 | over all runs: `isConnected` is true without an opened current socket exactly if the client connected anew while it was true and heard of no opening and no end since |
| Heartbeat.ReconnectingExactly | frontend-svelte/src/lib/signaling.ts:221-248 | over all runs: `isReconnecting` is true exactly since a retry was scheduled, until the client opens, gives up or disconnects |
| Reconnect.StepKeeps | frontend-svelte/src/lib/signaling.ts:56-132 | every event keeps the invariant behind these |
| OnceListeners.FirstInFirstOut | frontend-svelte/src/lib/signaling.ts:102-117 | for every event, listeners called so far followed by those waiting are those registered, in order |
| OnceListeners.NextInLine | frontend-svelte/src/lib/signaling.ts:102-117 | the next message of an event calls the listener that registered first and was not called yet; pong calls none |
| BrowserClient.SignalingClient.Connect | frontend-svelte/src/lib/signaling.ts:56-132 | lets go of the old socket, then opens one or schedules a retry |
| BrowserClient.SignalingClient.Disconnect | frontend-svelte/src/lib/signaling.ts:134-161 | the state after disconnect(), one-time listeners cleared |
| BrowserClient.SignalingClient.ScheduleReconnect | frontend-svelte/src/lib/signaling.ts:221-248 | gives up or sets one timer with the capped exponential delay |
| BrowserClient.SignalingClient.OnClose | frontend-svelte/src/lib/signaling.ts:86-95 | schedules a retry unless the close was intended |
| BrowserClient.SignalingClient.OnMessage | frontend-svelte/src/lib/signaling.ts:102-117 | takes the listener that waits longest for the event, none for pong |
| BrowserClient.SignalingClient.Once | frontend-svelte/src/lib/signaling.ts:190-194 | the listener goes to the end of its event's queue |
| BrowserClient.HandleEvent | frontend-svelte/src/lib/signaling.ts:56-161 | any calm call or event on the object keeps one live socket or timer at most |
| Stripe.VerifyWebhook | backend-rs/crates/api/src/stripe.rs:105-133 | the loop over the header's parts accepts exactly by its last timestamp and any matching signature |
| Stripe.AcceptsParts | backend-rs/crates/api/src/stripe.rs:105-133 | a header of any parts is accepted exactly if its last `t` is a number that passes the tolerance test and one of its `v1`s is the MAC of that number, a full stop and the payload in lower-case hexadecimal; other parts do not matter |
| Stripe.AcceptsPrinted | backend-rs/crates/api/src/stripe.rs:105-133 | a printed header is accepted exactly if its time fits 64 bits and passes the tolerance test and one signature reads as the MAC of time, full stop and payload, in lower case |
| Stripe.SignedAccepted | backend-rs/crates/api/src/stripe.rs:117-132 | a header signed for one payload is accepted for another exactly if it is at most 300 seconds off and the MACs of the two messages are the same, for all times less than 2^63 seconds apart |
| Stripe.NoForgery | backend-rs/crates/api/src/stripe.rs:125-132 | under a MAC that tells any two messages apart, a fresh header is accepted for the payload it was signed for and no other |
| Stripe.SignedIs | backend-rs/crates/api/src/stripe.rs:125-127 | the signed message determines the time and the payload |
| Stripe.HeaderRoundTrip | backend-rs/crates/api/src/stripe.rs:109-115 | reading a printed header gives back its timestamp and its signatures in order |
| Stripe.FreshIs | backend-rs/crates/api/src/stripe.rs:117-120 | for which pairs of times the wrapping tolerance test passes |
| Stripe.ConstantTimeEqIsEquality | backend-rs/crates/api/src/stripe.rs:143-151 | the xor/or fold is equality |
| Decimal.ParsePrint | backend-rs/crates/api/src/stripe.rs:111 | parsing what was printed gives the number back, exactly for those that fit 64 bits |
| Decimal.ParseSigned | backend-rs/crates/api/src/stripe.rs:111 | an optional sign, any number of zeros and a numeral are read as the number, if it fits 64 bits |
| Decimal.ParsesOnlyThat | backend-rs/crates/api/src/stripe.rs:111 | and nothing else is read |
| Hex.HexLower | backend-rs/crates/api/src/stripe.rs:135-141 | the loop appends two lower-case digits per byte |
| Hex.UnhexLower | backend-rs/crates/api/src/s3.rs:88-94 | reading the digits back gives the bytes |
| Hex.LowerIs | backend-rs/crates/api/src/stripe.rs:135-141 | the print of the bytes is the one text in lower-case digits that reads as them |
| UriEncode.UriEncode | backend-rs/crates/api/src/s3.rs:98-110 | the loop computes the percent-encoding |
| UriEncode.DecodeEncode | backend-rs/crates/api/src/s3.rs:98-110 | percent-decoding undoes it for all byte strings and both treatments of slashes |
| UriEncode.EncodeIs | backend-rs/crates/api/src/s3.rs:98-110 | of all texts that decode to the bytes it is the one in which exactly letters, digits, `-_.~` and kept slashes stand for themselves and escapes are in upper case |
| UriEncode.EncodeSplit | backend-rs/crates/api/src/s3.rs:30 | with slashes kept, the segments of an encoded path are the encoded segments |
| UriEncode.QueryRoundTrip | backend-rs/crates/api/src/s3.rs:45-50 | splitting the canonical query and decoding gives the parameters, sorted by key |
| UriEncode.QueryIs | backend-rs/crates/api/src/s3.rs:46-50 | the query is the encoded parameters, key, equals sign, value, joined by ampersands |
| UriEncode.SameKeyOrder | backend-rs/crates/api/src/s3.rs:45 | parameters with equal keys keep their order |
| Sdp.ParseMediaSections | sfu/src/routers/RouterManager.ts:615-635 | the loop computes what the line-by-line reading gives |
| Sdp.ParsePrinted | sfu/src/routers/RouterManager.ts:615-635 | any printed list of audio and video sections with other lines around them is read back in order, with the mids trimmed |
| Sdp.ParseAnswer | sfu/src/api/router.ts:387-428 | the WHIP answer is read as exactly one video section with mid 0 if no field contains a line feed |
| Sdp.AnswerSays | sfu/src/api/router.ts:387-428 | taken apart again the answer states the session's user fragment, password and last fingerprint once each, the DTLS role opposite to its own, and its candidates in order |
| Sdp.AnswerMedia | sfu/src/api/router.ts:408-426 | it has one media line, video in payload type 96, which is mapped to VP8, and is receive-only |
| Sdp.AnswerIsPrinted | sfu/src/api/router.ts:393-428 | the answer, whose candidate lines are joined beforehand, is such a printed list |
| Sdp.SplitJoinLines | sfu/src/routers/RouterManager.ts:618 | lines without a line feed, joined by CR LF, are split where they were joined |
| Sdp.SpaceIs | sfu/src/routers/RouterManager.ts:628 | which characters count as white space |
| Sdp.TrimIs | sfu/src/routers/RouterManager.ts:628 | a mid is trimmed of all white space at its ends and of nothing else |
| Presence.LifecycleFromStart | backend-rs/crates/api/src/http/rooms_live.rs:34-145 | over every sequence of handlers: one active row per room and user, a live room has a start time and an open session, an ended one an end time and none |
| PresenceHistory.RowHistory | backend-rs/crates/api/src/http/rooms_live.rs:76-145 | over every run, for every participant row: the join that inserted it, by a member or to a public room, with its user, name, time and the session then open, as host exactly for the creator; and the first leave, removal or further join after it, which alone ended it |
| PresenceHistory.JoinInserts | backend-rs/crates/api/src/http/rooms_live.rs:86-115 | a join inserts a row exactly if the room exists and the user is a member or the room is public; otherwise it changes nothing |
| PresenceHistory.PrivateRoomsClosed | backend-rs/crates/api/src/http/rooms_live.rs:86-100 | over every run, whoever has a row in a room that is not public joined as a member, and is host exactly as its creator |
| PresenceHistory.SessionHistory | backend-rs/crates/api/src/db/sessions.rs:8-42 | over every run, for every session: the start that opened it, with its host and time, and the first end of its room after that, which alone closed it |
| PresenceHistory.RoomHistory | backend-rs/crates/api/src/db/rooms.rs:131-165 | over every run, for every room: its creator and visibility as created, and the last step its status comes from |
| Presence.StartTimeIsFirst | backend-rs/crates/api/src/db/rooms.rs:131-140 | over every run: a room's start time is that of its first start, however often it was started, ended or cancelled since; none exactly if it never started |
| Presence.EndTimeIsLast | backend-rs/crates/api/src/db/rooms.rs:143-152 | over every run: a room's end time is that of its last end; none exactly if it never ended |
| Presence.PresenceOverRuns | backend-rs/crates/api/src/db/rooms.rs:131-165 | that is kept from any such tables; no row is ever removed or loses its identity, rows once left or ended never change, a start time once set stays |
| Presence.ListActiveIs | backend-rs/crates/api/src/db/participants.rs:62-70 | the list is exactly the room's active rows, each user once, in order of joining |
| Presence.Active | backend-rs/crates/api/src/db/sessions.rs:21-31 | the open session of the room that started last; none exactly if none is open |
| PresenceService.Database.HandleStart | backend-rs/crates/api/src/http/rooms_live.rs:34-56 | opens a session, then marks the room live |
| PresenceService.Database.HandleEnd | backend-rs/crates/api/src/http/rooms_live.rs:58-68 | closes every open session, then marks the room ended |
| PresenceService.Database.HandleJoin | backend-rs/crates/api/src/http/rooms_live.rs:76-135 | not found, forbidden, or one fresh active row with the room's open session |
| PresenceService.Database.HandleLeave | backend-rs/crates/api/src/http/rooms_live.rs:137-191 | leaving and being kicked close the user's active rows |
| PresenceService.Database.JoinParticipant | backend-rs/crates/api/src/db/participants.rs:19-47 | earlier active rows are marked left, then one row is appended |
| PresenceService.Database.MarkParticipantLeft | backend-rs/crates/api/src/db/participants.rs:50-60 | the update touches exactly the active rows of that room and user |
| PresenceService.Database.CloseActiveSessions | backend-rs/crates/api/src/db/sessions.rs:34-42 | the update ends exactly the open sessions of the room |
| PresenceService.Database.ActiveSession | backend-rs/crates/api/src/db/sessions.rs:21-31 | the search computes the open session that started last |
| PresenceService.Database.CancelRoom | backend-rs/crates/api/src/db/rooms.rs:157-165 | only the status changes |
| PresenceService.HandleRequest | backend-rs/crates/api/src/http/rooms_live.rs:34-191 | any request on the object keeps the tables consistent |

## Left out

- HTTP, WebSocket and Axum plumbing, authentication tokens, password hashing, rate limiting, tracing, configuration:
  they carry requests and decide nothing about the tables.
- HMAC and SHA-256: the MAC is a function parameter.
- Authorization checks of the API (`guard::room_authorized`): handlers are modelled for callers that passed them;
  organization membership is a parameter of join.
- Await-level interleaving of signaling joins and leaves, and the moment between the SFU's own `room:routers` write and
  the signaling server's: handlers are atomic for the results across tables, and in `JointRuns` so are the nodes' calls;
  `Ownership` interleaves handlers at every await, `SfuRouters` the calls on a node.
- Redis failures, several signaling instances, and SFU nodes that lose routers by themselves.
- Rooms, participants, producers and consumers are values inside the `rooms` field; the objects' aliasing (a participant
  held across an await) is not modelled. Connected clients are objects.
- Acknowledgements and error messages to the sender, and pause, resume, layer, bit-rate, ICE-restart and data-channel
  messages; `paused` flags are therefore never claimed to follow the SFU. `resume-consumer` checks no ownership in the
  code and is not among the calls of `Ownership`.
- The order in which the server visits its client map: loops over clients and over a client's id sets take any order,
  and the results hold for all of them.
- Shutdown of either server, health routes, the server's ping timer and heartbeat, and the pings of the browser client's
  interval.
- The SFU's Redis writes are modelled inside allocation (the record without origin); a node's delete of `room:routers`
  on closing coincides with the one releaseRoom makes.
- mediasoup is a contract: transport close closes what is on it at once, producer close queues one producerclose per
  consumer, calls on closed objects are refused.
- CPU usage is a non-negative figure given from outside; floating-point rounding of the load score is not modelled.
- Router ids, socket ids and row ids are assumed fresh when handed out.
- Room ids in client messages that are not strings: the server does not validate the parsed JSON; the model's ids are
  strings.
- Presence.Active: among sessions with the same start time the row inserted last is taken, where the query leaves the
  choice open.
- Cancelled rooms keep whatever session is open; nothing is claimed about them.
- `presign` beyond its path and query (dates, scope, signing key) and the rest of `createWhipSession`.
- `on`/`off` listeners of the browser client, which are plain sets.
- The recorder, admin, analytics, chat and alert endpoints, and the Svelte pages: they would only add easy members.
