# Scene server and gateway: a verified model

The game backend under `Zone/` is built from a handful of hand-made protocols that keep redundant state in step: replicas of
moving entities, database requests that must be carried out once, player saves that must not be lost, timers, connection
registries, bounded queues and wire formats. This project models them in Dafny and proves what they promise over every input
and every run. `dafny verify dfyconfig.toml` checks all of it.

What the source changes in place is a class here (`Replica`, `Service`, `PendingDbTasks`, `DbResultLedger`, `Backend`,
`RetryQueue`, `Bag`, `Player`, `PlayerPersistence`, `TimerThread`, `ServiceRegistry`, `ClientSessionTable`,
`ReturnRouteTable`, `WorkerPendingTasks`, `Buffer`, `ServiceLink`). Each method is tied to a function on values, and the
theorems about runs are about those functions.

| part | files | main results |
|---|---|---|
| AOI replication | `Aoi*.dfy` | with all workers running, every replica is always exact at a number that never goes back, and current once the owner's stream or a snapshot arrives; exactly which events and snapshots are taken; no observer's view changes unnoticed; the grid is brute force |
| database requests | `Task{Delivery,Progress}`, `PendingTasks`, `ResultLedger*`, `LedgerProgress`, `Delivery*` | at most once, from the exact request; no request is ever stuck; what is offered and sent follows from what happened before; the active index behaves like the full scan |
| player saving | `Database`, `Transaction*`, `PlayerSnapshot`, `SnapshotOutcomes`, `SaveTheorems`, `Bags`, `Players`, `PlayerPersistence`, `Save*` | confirmed means durable; clean means saved; logout survives to the next login; save then load is the identity; at most one commit per save; every save and logout can finish; a transaction commits exactly when it should; all of it over the delivery protocol |
| timer wheel | `TimerWheel`, `TimerRuns`, `TimerRepeats`, `TimerThread` | a timer sends its message once, exactly at its due wheel tick, or was cancelled and never does; a repeating one exactly once a period |
| gateway | `Registry*`, `ServiceRegistry`, `Session*`, `Gateway*` | five tables that always agree, and who serves after each handshake and close; one reply per request, exactly when its session is still there, and exactly when to the right player |
| worker queues | `PendingSpec`, `WorkerPending`, `Pending{Runs,Outcomes,Conservation}`, `PumpProgress` | order, limits, no lifecycle message ever lost; every message sent, waiting or answered; boundedly many pumps send everything |
| wire formats | `Endian`, `ByteBuffer`, `Frame*`, `Utf8`, `ValueCodec`, `TaskCodec`, `TaskWire`, `ResultCodec` | chunking never matters, even with garbage in the stream; round trips with their exact conditions; the text scanner is the RFC 3629 grammar |

Where the code differs from its own documentation, the code is followed:

- The comments on the timer loop say that ticks skipped in one round are made up later. They are not: `skipped_ticks_` is
  only ever subtracted. `TimerWheel.SkippedTicksAreLost` shows it, `LevelIff` says exactly when the wheel is level with the
  clock after any number of rounds (`CaughtUpIff` for one), and `WheelTrailsClock` what always holds.
- `ClientSessionTable::Bind` does not look at the player a session already has. A session that authenticates a second time
  as someone else leaves the first player's index entry behind (`ReauthenticationLeavesStaleIndex`), and a reply to the first
  player can reach the second (`ReplyCanCrossPlayers`), because epochs are counted per player and can coincide. A later change
  of service can do the same although the login was harmless (`RedirectCanCrossPlayers`). For the index the exact condition is
  that no login takes a session over (`BindKeepsInverseIff`, over runs `IndexStaysInverseIff`). For replies it is weaker: no
  login or change of service may start the very epoch in which a request of another player waits on that session
  (`LoginIsSafeIff`, `RedirectIsSafeIff`, over runs `RepliesReachTheirPlayerIff`).
- The frame decoder is documented to consume nothing when it asks for more, apart from a stream without magic. It also drops
  rejected candidates and whatever stood before the first magic (`NeedMoreCanConsume`); `NeedMoreUnchangedIff` is exact.
- Encoding a value nested deeper than 64 does not fail; it writes bytes that the decoder refuses (`SixtyFiveLevelsAreLost`); `ValueSurvivesIff` is exact.

How the model reads the source:

- An entity id is the pair of worker number and counter that the 64-bit id packs. A map is a rectangle cut into cells, with
  the headroom for 32-bit window arithmetic that the grid needs (`GridMap.Ok`).
- The database is three tables. Each fixed SQL string has its meaning as one constructor of `Stmt`; a backend may fail at any
  call, may lose the answer to a commit, and is honest in the sense of `Transactions.Honest`: a failed commit is never
  reported retryable (`Zone/sceneServer/src-cpp/db/mysqlConnection.cc`, lines 164 to 187).
- Queues between threads hold messages from which any may be taken next, so every first-in-first-out schedule is among the
  runs. Senders and clocks are parameters; a sender answers as a function of the message within one call. Tables that the
  source walks in hash order are walked in an arbitrary order.
- Task ids, sequence numbers of forwarded requests and session ids are never reused.
- Counters of 32 or 64 bits refuse to pass their maximum where the source checks, and are unbounded where it does not.
- Branches that no consistent state reaches are modelled all the same: a name both waiting and bound in
  `ServiceRegistry::Bind` (`RegistryTheorems.BindTakes` shows that it never happens).

## Model

| member | source | states |
|---|---|---|
| `AoiRuns.ReplicaIsExact` | Zone/sceneServer/src-cpp/service/aoi/aoiReplica.cc:38-285 | after any run of publications, late, repeated, reordered or lost deliveries, ticks and snapshots, the replica's status of every remote entity (exact record or absent) is the owner's own status at sequence number s(id) = max(watermark, record, tombstone) |
| `AoiCluster.EveryReplicaIsExact` | Zone/sceneServer/src-cpp/service/aoi/aoiService.cc:67-445 | all workers together, with streams produced by their own entries, moves and departures and any deliveries: every worker's record of another's entity is what that worker recorded after some number of its own events, and of its own entity what it recorded after all of them |
| `AoiCluster.SnapshotMakesReplicaCurrent` | Zone/sceneServer/src-cpp/service/aoi/aoiService.cc:181-207 | when a snapshot the owner takes now arrives, the replica's records of the owner's entities are the owner's own |
| `AoiProgress.InOrderIsCurrent` | Zone/sceneServer/src-cpp/service/aoi/aoiService.cc:129-200 | from any reachable state: delivering the rest of an owner's stream in order, then a tick, makes the replica's status of every entity of that owner (exact record or absent) the owner's own current one |
| `AoiProgress.EventIsTakenIff` | Zone/sceneServer/src-cpp/service/aoi/aoiReplica.cc:54-107 | a published event is taken exactly when it is above everything known of its entity and, if a move, continues the lifetime the replica holds; the entity's status is then the owner's right after that event, and no other published event changes anything |
| `AoiProgress.DueIsApplied` | Zone/sceneServer/src-cpp/service/aoi/aoiReplica.cc:54-107 | the verdict on any published event: ignored when known, otherwise applied, or for a move of an unknown lifetime a snapshot is needed |
| `AoiProgress.SnapshotCatchesUp` | Zone/sceneServer/src-cpp/service/aoi/aoiReplica.cc:177-285 | a snapshot the owner takes now leaves the replica with nothing of that owner's to catch up with |
| `AoiProgress.SilenceIsCaughtUp` | Zone/sceneServer/src-cpp/service/aoi/aoiService.cc:129-200 | a replica that has heard nothing of an owner who has published nothing is caught up, so in-order delivery from the start makes it current |
| `AoiOutcomes.EventAppliedIff` | Zone/sceneServer/src-cpp/service/aoi/aoiReplica.cc:38-107 | any event whatever is applied exactly when it comes from the right side, is proper, not told before by a snapshot, not about another worker's entity, is news, fits the lifetime it continues, has a place, and a move continues a lifetime |
| `AoiOutcomes.EventRefusedIff` | Zone/sceneServer/src-cpp/service/aoi/aoiReplica.cc:38-101 | exactly when an event is refused as coming from the wrong side, as invalid, or as old |
| `AoiOutcomes.EventOutcome` | Zone/sceneServer/src-cpp/service/aoi/aoiReplica.cc:330-575 | the records after an event: exactly its entity's record and tombstone change, to what the event says, and only when it is applied |
| `AoiOutcomes.SnapshotAppliedIff` | Zone/sceneServer/src-cpp/service/aoi/aoiReplica.cc:177-231 | any snapshot whatever is applied exactly when it is another worker's, newer than the last one, lists no entity twice and every record in it is sound, nobody else's and takes nothing back; otherwise nothing changes |
| `AoiOutcomes.SnapshotOutcome` | Zone/sceneServer/src-cpp/service/aoi/aoiReplica.cc:233-285 | each entity after a snapshot: what was heard later stays, a listed one is as listed, an unlisted one of that owner is gone, everything else stays |
| `AoiOutcomes.MoveOutcome` | Zone/sceneServer/src-cpp/service/aoi/aoiService.cc:129-161 | any move: it waits in place of an earlier one, is ignored exactly when a later one waits, and is rejected when it may not wait |
| `AoiOutcomes.EntryOutcome` | Zone/sceneServer/src-cpp/service/aoi/aoiService.cc:163-180 | any entry or leave is offered to the replica at once, and takes with it exactly the waiting move it overtakes |
| `AoiOutcomes.InboxSnapshotOutcome` | Zone/sceneServer/src-cpp/service/aoi/aoiService.cc:183-203 | a trusted snapshot takes with it exactly the waiting moves of its owner that it covers |
| `AoiOwnOutcomes.EnterOutcome` | Zone/sceneServer/src-cpp/service/aoi/aoiService.cc:334-376 | a player enters exactly when it has an id, a place on the map, is not there already unless it re-enters, and no number is used up; what is then published and recorded, field by field |
| `AoiOwnOutcomes.MoveOutcome` | Zone/sceneServer/src-cpp/service/aoi/aoiService.cc:94-127 | a move takes effect exactly when the player is there, the new place is on the map and differs, and no number is used up; what is then published and recorded |
| `AoiOwnOutcomes.DepartOutcome` | Zone/sceneServer/src-cpp/service/aoi/aoiService.cc:64-92 | an entity departs exactly when it is there as the worker's own and no number is used up; what is then published, and the tombstone |
| `AoiCluster.StepKeepsGood` | Zone/sceneServer/src-cpp/service/aoi/aoiService.cc:67-445 | each step of any worker keeps every worker's own part and every replica right |
| `AoiRuns.RunKeepsGood` | Zone/sceneServer/src-cpp/service/aoi/aoiReplica.cc:38-285 | every legal run keeps every remote entity exact, and s(id) never decreases |
| `AoiRuns.StepKeepsGood` | Zone/sceneServer/src-cpp/service/aoi/aoiService.cc:129-200 | each single step (publish, local event, delivered event, tick, delivered snapshot) keeps the replica exact and forgets nothing |
| `AoiRuns.DepartedStaysDeparted` | Zone/sceneServer/src-cpp/service/aoi/aoiReplica.cc:53-107 | once a departure is known, only a strictly later generation of that entity is ever recorded again, on every continuation of the run |
| `AoiReplication.EventKeepsTracking` | Zone/sceneServer/src-cpp/service/aoi/aoiReplica.cc:38-108 | delivering any published event, at any time and any number of times, keeps all remote entities exact and s(id) monotone |
| `AoiReplication.AcceptedEventIsNewer` | Zone/sceneServer/src-cpp/service/aoi/aoiReplica.cc:72-91 | a published event is accepted only if its number is above everything known of the entity, although generations and versions are compared, not numbers |
| `AoiReplication.PublishedEventVerdict` | Zone/sceneServer/src-cpp/service/aoi/aoiReplica.cc:43-106 | a published event is never refused as invalid, out of bounds or from a bad source |
| `AoiReplication.OwnerSnapshotAccepted` | Zone/sceneServer/src-cpp/service/aoi/aoiReplica.cc:177-233 | a snapshot built by the owner is applied, or ignored because the watermark covers it; it is never refused as invalid or bad source |
| `AoiReplication.SnapshotKeepsTracking` | Zone/sceneServer/src-cpp/service/aoi/aoiReplica.cc:177-285 | installing an owner's snapshot of any number keeps all remote entities exact and s(id) monotone |
| `AoiReplication.CurrentSnapshotRepairs` | Zone/sceneServer/src-cpp/service/aoi/aoiReplica.cc:177-285 | applying a snapshot taken at the owner's current number makes the replica's part for that owner equal the owner's entities |
| `AoiHistory.EventOrder` | Zone/sceneServer/src-cpp/service/aoi/aoiService.cc:330-401 | along one owner's stream, sequence order and (generation, version) order agree, and a left generation has no later event |
| `AoiReplica.MarkedIsComplete` | Zone/sceneServer/src-cpp/service/aoi/aoiReplica.cc:123-153 | if everyone who could notice each change is dirty, every clean local observer keeps its record and sees exactly the same set of records |
| `AoiReplica.Replica.Apply` | Zone/sceneServer/src-cpp/service/aoi/aoiReplica.cc:38-108 | the verdict (exactly that of `EventAppliedIff` and `EventRefusedIff`) and the new tables are those of the specification, the grid stays an exact index, and every local observer outside the dirty set sees exactly what it saw before |
| `AoiReplica.Replica.ApplyOwnerSnapshot` | Zone/sceneServer/src-cpp/service/aoi/aoiReplica.cc:177-285 | likewise for a whole-owner snapshot; one that is not applied changes nothing at all |
| `AoiReplica.Replica.OnLocalEntry` | Zone/sceneServer/src-cpp/service/aoi/aoiReplica.cc:330-370 | records and grid after a local entry, and who is marked: the entity and every observer of its old or new cell |
| `AoiReplica.Replica.OnLocalMove` | Zone/sceneServer/src-cpp/service/aoi/aoiReplica.cc:372-428 | the same for a local move, within a cell or across cells |
| `AoiReplica.Replica.OnLocalLeave` | Zone/sceneServer/src-cpp/service/aoi/aoiReplica.cc:430-466 | the same for a local leave, with the tombstone left behind |
| `AoiReplica.Replica.OnRemoteEntry` | Zone/sceneServer/src-cpp/service/aoi/aoiReplica.cc:468-499 | the same for a remote entry, which never registers a watcher |
| `AoiReplica.Replica.OnRemoteMove` | Zone/sceneServer/src-cpp/service/aoi/aoiReplica.cc:501-545 | the same for a remote move |
| `AoiReplica.Replica.OnRemoteLeave` | Zone/sceneServer/src-cpp/service/aoi/aoiReplica.cc:547-575 | the same for a remote leave |
| `AoiReplica.Replica.VisibleEntities` | Zone/sceneServer/src-cpp/service/aoi/aoiReplica.cc:123-153 | the grid's answer is the brute-force view: the other entities whose cell lies within the view radius, each once |
| `AoiReplica.Replica.CheckIncoming` | Zone/sceneServer/src-cpp/service/aoi/aoiReplica.cc:187-231 | the first refused entity of a snapshot decides the verdict; otherwise the table of incoming records is built |
| `AoiReplica.Staging.Put` | Zone/sceneServer/src-cpp/service/aoi/aoiReplica.cc:257-277 | installing a record in the staged copy keeps the grid an exact index and marks the watchers of its old and new cell |
| `AoiReplica.Staging.Remove` | Zone/sceneServer/src-cpp/service/aoi/aoiReplica.cc:243-255 | dropping a record does the same for its cell |
| `AoiGrid.Grid.AddEntity` | Zone/sceneServer/src-cpp/service/aoi/aoiGrid.cc:120-125 | exactly the named cell gains exactly the named entity |
| `AoiGrid.Grid.RemoveEntity` | Zone/sceneServer/src-cpp/service/aoi/aoiGrid.cc:127-136 | exactly the named cell loses every occurrence of the entity |
| `AoiGrid.Grid.AddWatcher` | Zone/sceneServer/src-cpp/service/aoi/aoiGrid.cc:138-143 | the same for watcher lists |
| `AoiGrid.Grid.RemoveWatcher` | Zone/sceneServer/src-cpp/service/aoi/aoiGrid.cc:145-152 | the same for watcher lists |
| `AoiGrid.Grid.WatchCells` | Zone/sceneServer/src-cpp/service/aoi/aoiGrid.cc:58-98 | the watch cells of a position are exactly the cells visible from its cell, none for a position outside the grid |
| `AoiGrid.WindowAround` | Zone/sceneServer/src-cpp/service/aoi/aoiGrid.cc:58-98 | the clamped window of rows and columns around a cell lists exactly the cells for which visibility holds |
| `AoiGrid.WindowIsVisible` | Zone/sceneServer/src-cpp/service/aoi/aoiGrid.cc:101-117 | membership in the clamped window is the Chebyshev test |
| `AoiGrid.CellOfPosition` | Zone/sceneServer/src-cpp/service/aoi/aoiGrid.cc:25-48 | row and column recovered from a cell index are the position's own, despite 32-bit truncation of the index |
| `AoiGrid.NobodyInRangeIsMissed` | Zone/sceneServer/src-cpp/config/aoiConfig.h:20-23 | with the radius rounded up from the view range, two positions within the range on both axes always see each other's cell |
| `AoiGrid.RadiusIsLeast` | Zone/sceneServer/src-cpp/config/aoiConfig.h:20-23 | no smaller radius reaches as far |
| `AoiService.Service.Enter` | Zone/sceneServer/src-cpp/service/aoi/aoiService.cc:330-377 | an entry is applied exactly when the player may enter (id, position, not present unless re-entering, no exhausted counter); it then publishes the entry one generation above the entity's last, and nothing otherwise; the stream stays legal and in step with the records |
| `AoiService.Service.OnLocalEntityMoved` | Zone/sceneServer/src-cpp/service/aoi/aoiService.cc:100-127 | a move is published exactly when position or direction changed inside the map, as the next version of the current record |
| `AoiService.Service.OnEntityLeave` | Zone/sceneServer/src-cpp/service/aoi/aoiService.cc:67-97 | a leave is published exactly for a present entity of this worker, and takes it out of the dirty set |
| `AoiService.Service.ApplyLocal` | Zone/sceneServer/src-cpp/service/aoi/aoiService.cc:379-401 | numbering, queueing for publication and applying happen together or not at all, with the verdict stated exactly |
| `AoiService.Service.OnRemoteEntityEvent` | Zone/sceneServer/src-cpp/service/aoi/aoiService.cc:129-178 | a trusted sender's event: newest waiting move per entity, entries and leaves at once, waiting moves they overtake dropped; the worker's own part stays in step |
| `AoiService.Service.FlushRemoteMoves` | Zone/sceneServer/src-cpp/service/aoi/aoiService.cc:403-413 | the tick applies exactly the waiting moves and empties the table |
| `AoiService.Service.ApplyOwnerSnapshot` | Zone/sceneServer/src-cpp/service/aoi/aoiService.cc:181-200 | sender check, verdict, records, waiting moves dropped up to the snapshot's number, and the repair flag cleared only when applied |
| `AoiService.Service.BuildOwnerSnapshot` | Zone/sceneServer/src-cpp/service/aoi/aoiService.cc:202-207 | the list is exactly the worker's own status at its current number, so the snapshot theorems apply to it |
| `AoiService.Service.RetryPublishes` | Zone/sceneServer/src-cpp/service/aoi/aoiService.cc:415-445 | every waiting target either takes the event now or keeps waiting; nothing else is sent; an event that cannot be encoded is one no target takes |
| `AoiService.EntryOutcome` | Zone/sceneServer/src-cpp/service/aoi/aoiService.cc:330-377 | an entry made from the registered identities is refused only outside the map, and keeps stream, records, tombstones and identities consistent |
| `AoiService.ChangeOutcome` | Zone/sceneServer/src-cpp/service/aoi/aoiService.cc:67-127 | a move or leave made from the worker's own record is refused only when it would leave the map |
| `AoiService.SnapshotKeepsOwnPart` | Zone/sceneServer/src-cpp/service/aoi/aoiService.cc:181-200 | no other owner's snapshot touches the worker's own stream, records or identities |
| `DeliverySafety.AtMostOnceFromTheExactRequest` | Zone/sceneServer/src-cpp/db/dbThread.cc:190-283 | over every interleaving of workers, queues and database channels: each request enters the database queue at most once, its result is acted upon at most once, and that result was produced for that exact request |
| `DeliverySafety.FinishIsFirst` | Zone/sceneServer/src-cpp/db/dbThread.cc:158-283 | a task about to finish has its ledger entry and has not produced a result before |
| `DeliverySafety.ForgottenOnlyWhenApplied` | Zone/sceneServer/src-cpp/db/taskDelivery.cc:234-247 | an entry evicted to make room belongs to a result the worker has already acted upon |
| `DeliveryProgress.EveryRequestCanComplete` | Zone/sceneServer/src-cpp/db/taskDelivery.cc:45-343 | from every reachable state a request that awaits its result is never stuck: some legal continuation delivers the reply to its worker |
| `DeliveryProgress.EveryResultCanSettle` | Zone/sceneServer/src-cpp/db/taskDelivery.cc:45-343 | from every reachable state a result that was applied can be acknowledged and then forgotten on both sides |
| `DeliveryProgress.UnsettledResultIsOwed` | Zone/sceneServer/src-cpp/db/taskDelivery.cc:248-343 | on every run a result nobody has acted upon yet is still owed by its ledger: finished, unacknowledged, the very result that was executed |
| `DeliveryProgress.OwedResultIsSent` | Zone/sceneServer/src-cpp/db/taskDelivery.cc:325-343 | a flush at or after its time, with a queue that takes it, puts an owed result among the replies |
| `DeliveryProgress.FlushHandsOut` | Zone/sceneServer/src-cpp/db/taskDelivery.cc:325-343 | a flush hands out exactly the finished, unacknowledged results whose time has come and that the queue takes |
| `DeliveryProgress.FlushedIsDueAgain` | Zone/sceneServer/src-cpp/db/taskDelivery.cc:325-343 | after a flush such a result is due again a second later if it was taken, a tenth of one if not, until it is acknowledged |
| `DeliveryProgress.NoticesHandedOut` | Zone/sceneServer/src-cpp/db/taskDelivery.cc:336-342 | queued notices go exactly when taken and stay, in number, when not |
| `DeliveryProgress.CompletesIff` | Zone/sceneServer/src-cpp/db/taskDelivery.cc:193-211 | a worker accepts exactly the reply to a request whose result it awaits, up to the fields the source does not compare, and keeps it |
| `DeliveryOutcomes.AdmitOutcome` | Zone/sceneServer/src-cpp/db/dbThread.cc:216-242 | a request taken from its queue runs exactly when its id is new or it has none; a clash of ids is answered with a notice if there is room |
| `DeliveryOutcomes.ControlOutcome` | Zone/sceneServer/src-cpp/db/dbThread.cc:354-368 | a status query is answered, if there is room, with one notice: 0 unknown, 1 not finished, 2 finished; an acknowledgement with none |
| `DeliveryOutcomes.FinishOutcome` | Zone/sceneServer/src-cpp/db/dbThread.cc:159-186 | an execution that ends leaves the reply to its request with the ledger, under its id or among the notices |
| `DeliveryOutcomes.AwaitedOutcome` | Zone/sceneServer/src-cpp/logic/logicThread.cc:869-892 | a result the worker awaits is acted upon once and completes its task |
| `DeliveryOutcomes.UnawaitedOutcome` | Zone/sceneServer/src-cpp/logic/logicThread.cc:878-885 | one it does not await is not acted upon: it is looked up as a repeated one, and acknowledgements go out again |
| `DeliveryOutcomes.OtherResultOutcome` | Zone/sceneServer/src-cpp/logic/logicThread.cc:869-885 | a result that cannot be read is only used up, one without an id is acted upon |
| `TaskProgress.OffersFollowHistory` | Zone/sceneServer/src-cpp/db/taskDelivery.cc:45-192 | after any calls, what the next scan offers for a task is bound by its last event alone: the request every 100 ms until taken or found invalid, then its status every 5 s, after the result the acknowledgement every 100 ms until taken, and again when the result comes again |
| `TaskProgress.ScheduledIff` | Zone/sceneServer/src-cpp/db/taskDelivery.cc:101-192 | a task is on the scheduling list exactly while some later scan would offer something for it |
| `TaskProgress.SubmitOutcome` | Zone/sceneServer/src-cpp/db/taskDelivery.cc:45-84 | a new request with room, if need be that of one task done, acknowledged and a minute old, is offered once and registered unless the queue rejects it |
| `TaskProgress.SubmitOffersNothing` | Zone/sceneServer/src-cpp/db/taskDelivery.cc:45-84 | a known id, no task at all, or no room: nothing is offered or changed, and the answer is yes exactly for the request the id belongs to |
| `TaskProgress.AcknowledgesIff` | Zone/sceneServer/src-cpp/db/taskDelivery.cc:144-154 | a repeated result is recognised exactly when it is that result again, and only then acknowledged anew |
| `TaskProgress.ObservesIff` | Zone/sceneServer/src-cpp/db/taskDelivery.cc:85-99 | a status notice is believed exactly when it is a known status of an awaited task from the worker and shard that have it, under the same player and context |
| `LedgerProgress.FlushesFollowHistory` | Zone/sceneServer/src-cpp/db/taskDelivery.cc:234-343 | after any calls, what a flush sends about a request is bound by its past: its result once finished, at once and again every second (100 ms while not taken) until acknowledged, and again when asked for again |
| `LedgerProgress.RoomOutcome` | Zone/sceneServer/src-cpp/db/taskDelivery.cc:234-247 | a request is forgotten only when the ledger is full and it is acknowledged, one at a time; there is room exactly when it is not full or one is acknowledged |
| `LedgerProgress.AdmissionIs` | Zone/sceneServer/src-cpp/db/taskDelivery.cc:248-268 | an id is new exactly when unknown, a duplicate of the request it belongs to, a conflict with any other |
| `LedgerProgress.ControlIs` | Zone/sceneServer/src-cpp/db/taskDelivery.cc:291-318 | a control message is heeded exactly when it repeats a known request, to acknowledge its finished result or to ask for it again |
| `LedgerProgress.NoticeIs` | Zone/sceneServer/src-cpp/db/taskDelivery.cc:269-275 | a notice is queued exactly when there is room |
| `LedgerProgress.NoticesAreConserved` | Zone/sceneServer/src-cpp/db/taskDelivery.cc:269-343 | over any calls, a notice or a result without an id is handed out as often as it was queued, less those still waiting |
| `DeliverySafety.RunKeepsGood` | Zone/sceneServer/src-cpp/db/taskDelivery.cc:45-343 | the agreement of tables, ledgers, queues and histories holds after every run |
| `DeliverySafety.StepKeepsGood` | Zone/sceneServer/src-cpp/db/taskDelivery.cc:45-343 | each of the ten steps keeps it |
| `DeliverySafety.FreshIsGood` | Zone/sceneServer/src-cpp/db/taskDelivery.cc:230-233 | an idle system satisfies it |
| `DeliverySafety.AdmissionIsNew` | Zone/sceneServer/src-cpp/db/dbThread.cc:216-242 | a request taken from the queue is never a duplicate for its ledger |
| `PendingTasks.Lockstep` | Zone/sceneServer/src-cpp/db/taskDelivery.cc:45-211 | on every sequence of calls the active-index table and the full-scan table offer the same messages, give the same answers and reach the same tasks, and the active set is exactly the tasks needing scheduling |
| `TaskDelivery.ScanIsComplete` | Zone/sceneServer/src-cpp/db/taskDelivery.cc:101-192 | visiting any set between the tasks needing scheduling and all tasks offers the same messages and makes the same changes |
| `PendingTasks.PendingDbTasks.EnableActiveIndex` | Zone/sceneServer/src-cpp/db/taskDelivery.h:40-45 | the index can be switched on only on an empty table |
| `PendingTasks.PendingDbTasks.MakeRoom` | Zone/sceneServer/src-cpp/db/taskDelivery.cc:52-64 | the first settled, long-expired task makes room; without one nothing is evicted |
| `PendingTasks.PendingDbTasks.Submit` | Zone/sceneServer/src-cpp/db/taskDelivery.cc:45-84 | new, repeated and conflicting submissions, eviction and first dispatch, as a function of the table |
| `PendingTasks.PendingDbTasks.Maintain` | Zone/sceneServer/src-cpp/db/taskDelivery.cc:101-192 | one maintenance scan over whichever set the mode keeps has the effect of a scan over all tasks |
| `PendingTasks.PendingDbTasks.Complete` | Zone/sceneServer/src-cpp/db/taskDelivery.cc:193-211 | exactly the answer to a dispatched task is accepted, once |
| `PendingTasks.PendingDbTasks.AcknowledgeDuplicate` | Zone/sceneServer/src-cpp/db/taskDelivery.cc:144-154 | a repeated result of a completed task asks for a new acknowledgement and nothing else |
| `PendingTasks.PendingDbTasks.ObserveStatus` | Zone/sceneServer/src-cpp/db/taskDelivery.cc:85-99 | what a status notice changes |
| `PendingTasks.PendingDbTasks.Unsettled` | Zone/sceneServer/src-cpp/db/taskDelivery.cc:218-227 | true exactly while a task is open or its acknowledgement is still owed |
| `TaskDelivery.FirstEvictableIsEvictable` | Zone/sceneServer/src-cpp/db/taskDelivery.cc:54-61 | the victim is evictable, and none is found only if no task is |
| `ResultLedger.DbResultLedger.HasCapacity` | Zone/sceneServer/src-cpp/db/taskDelivery.cc:234-247 | room is free, or the first acknowledged entry is evicted to make some |
| `ResultLedger.DbResultLedger.Accept` | Zone/sceneServer/src-cpp/db/taskDelivery.cc:248-268 | new, duplicate and conflicting requests; a duplicate of a finished one is offered again |
| `ResultLedger.DbResultLedger.QueueNotice` | Zone/sceneServer/src-cpp/db/taskDelivery.cc:269-275 | bounded queue of notices without an entry |
| `ResultLedger.DbResultLedger.Finish` | Zone/sceneServer/src-cpp/db/taskDelivery.cc:276-290 | the result is stored with its entry, or queued when the request had no id |
| `ResultLedger.DbResultLedger.HandleControl` | Zone/sceneServer/src-cpp/db/taskDelivery.cc:291-318 | acknowledgements settle exactly the finished entry of the same request; queries reopen a result |
| `ResultLedger.DbResultLedger.Flush` | Zone/sceneServer/src-cpp/db/taskDelivery.cc:325-343 | exactly the owed results (`FlushHandsOut`, `FlushesFollowHistory`) and queued notices are offered; what is taken waits for its acknowledgement |
| `SaveRuns.ConfirmedMeansDurable` | Zone/sceneServer/src-cpp/player/playerPersistence.cc:86-131 | on every run, when complete accepts a success the tables hold exactly the frozen snapshot it confirms, at its save version; record and player move to that version and revision, and an offline record with nothing else to save goes |
| `SaveRuns.OnlyAcceptedSuccessConfirms` | Zone/sceneServer/src-cpp/player/playerPersistence.cc:86-131 | on every run, confirmed versions and revisions move and offline records disappear only where complete accepts a success for that player |
| `SaveRuns.CleanMeansSaved` | Zone/sceneServer/src-cpp/player/player.h:93-98 | in every run a live player without unsaved changes has its current revision confirmed and its current state in the tables |
| `SaveRuns.LogoutIsDurable` | Zone/sceneServer/src-cpp/player/playerPersistence.cc:86-131 | in every run a player who left and has no record any more is stored in exactly the state it left in |
| `SaveRuns.LoginResumesLogout` | Zone/sceneServer/src-cpp/player/playerPersistence.cc:133-137 | in every run a login lets the player in with exactly the state it last left with |
| `SaveProgress.EverySaveCanFinish` | Zone/sceneServer/src-cpp/player/playerPersistence.cc:3-154 | from every reachable state, a save whose record is not blocked and not already answered with a failure can finish: some legal continuation stores the newest snapshot the record holds and settles it |
| `SaveProgress.EveryLogoutCanFinish` | Zone/sceneServer/src-cpp/player/playerPersistence.cc:3-154 | hence a player who left can always come back: some legal continuation ends the record with the tables holding the state the player left in |
| `SaveProgress.DirtySaveIsHandedOver` | Zone/sceneServer/src-cpp/player/playerPersistence.cc:3-60 | a save of a changed player with nothing under way, live or leaving, hands the current state to the database at the next version; refused by the layer below, it stays queued |
| `SaveProgress.RetryHandsOver` | Zone/sceneServer/src-cpp/player/playerPersistence.cc:62-69 | a retry hands over exactly what an idle record has queued, under the record's task id; otherwise nothing changes |
| `SaveProgress.MutateOutcome` | Zone/sceneServer/src-cpp/player/player.cc:14-108 | a change gives the player that state and, if it is another, counts as one unsaved revision |
| `SaveProgress.LoginOutcome` | Zone/sceneServer/src-cpp/player/player.cc:154-180 | a player comes in with the state and version the tables hold, and nothing unsaved |
| `SaveProgress.RunOutcome` | Zone/sceneServer/src-cpp/db/transactionRetries.h:17-50 | a run of a save leaves the tables as its execution does, and is answered, or stays pending for another run |
| `SaveProgress.EveryRunIsTimely` | Zone/sceneServer/src-cpp/player/playerPersistence.cc:3-154 | on every run, what is under way for a player is above the version stored, or already stored |
| `SaveDelivery.SavesOverDelivery` | Zone/sceneServer/src-cpp/player/playerPersistence.h:42-65 | saves over the delivery protocol, which may queue, delay, retry, repeat and drop messages: every run of the two layers together is, for the save layer, a legal run in which each task is carried out and answered at most once, so that every theorem about save runs holds of it |
| `SaveDelivery.LogoutSurvivesDelivery` | Zone/sceneServer/src-cpp/player/playerPersistence.cc:86-131 | on every such run a player who left and has no record any more is stored in exactly the state it left in |
| `SaveDelivery.StepRefines` | Zone/sceneServer/src-cpp/player/playerPersistence.cc:3-131 | each step of the two layers is one step that the save layer allows, or none, and keeps their books tied |
| `SaveDelivery.RunningIsPending` | Zone/sceneServer/src-cpp/db/dbThread.cc:190-283 | what the database carries out for a save id is the snapshot of the one pending save under that id |
| `SaveDelivery.ResultIsAnswer` | Zone/sceneServer/src-cpp/player/playerPersistence.cc:86-131 | the result that completes a save task is the answer to exactly that snapshot and reaches its player |
| `SaveDelivery.SubmitRegisters` | Zone/sceneServer/src-cpp/db/taskDelivery.cc:45-83 | a new request is registered exactly when the submission succeeds, and a refused one leaves its id free for another try |
| `SaveRuns.RunKeepsGood` | Zone/sceneServer/src-cpp/player/playerPersistence.cc:3-153 | the per-player agreement of live state, record, task under way and tables holds after every run |
| `SaveRuns.StepKeepsGood` | Zone/sceneServer/src-cpp/player/playerPersistence.cc:3-153 | each step (change, save, retry, database run, delivery, rebind, login) keeps it |
| `SaveOutcomes.RequestOutcome` | Zone/sceneServer/src-cpp/player/playerPersistence.cc:18-60 | any save request: refused for an earlier login, held when the current state is already held, done when there is nothing to save, and otherwise the current state is taken at the next version exactly when there is one and it can be stored |
| `SaveOutcomes.FirstRequest` | Zone/sceneServer/src-cpp/player/playerPersistence.cc:3-17 | a record is opened exactly for a player with an id while there is room, under the next token |
| `SaveOutcomes.PutOutcome` | Zone/sceneServer/src-cpp/player/playerPersistence.cc:3-60 | only the player's own record changes, and the answer is no exactly when the request was refused |
| `SaveOutcomes.RetryOutcome` | Zone/sceneServer/src-cpp/player/playerPersistence.h:42-65 | any retry: what waits goes out under the record's own task id when nothing is under way, blocks the record if it cannot be stored, and is kept if the layer below refuses |
| `SaveOutcomes.ResultOutcome` | Zone/sceneServer/src-cpp/player/playerPersistence.cc:92-133 | any result: a success that names the snapshot under way frees the record and tells the player exactly if he is still on; anything else blocks it with all it holds |
| `SaveOutcomes.CompleteOutcome` | Zone/sceneServer/src-cpp/player/playerPersistence.cc:83-133 | a result reaches the one record whose task it answers, and no other changes |
| `SaveTheorems.AllOrNothing` | Zone/sceneServer/src-cpp/db/transactionExecutor.h:68-224 | for an honest backend: nothing is committed or all steps are; a failure not classed unknown leaves the tables unchanged; a retryable result implies nothing was committed |
| `SaveTheorems.SaveOutcome` | Zone/sceneServer/src-cpp/db/transactionExecutor.h:134-219 | a committed save was strictly newer than the stored version and stores exactly the snapshot; success means the snapshot is stored, also on the replay path, where an equal version with other contents is never overwritten |
| `SaveTheorems.SaveSucceeds` | Zone/sceneServer/src-cpp/db/playerSnapshotDao.h:113-203 | without faults, saving a newer snapshot of an existing player succeeds and stores it |
| `SaveTheorems.ReplaySucceeds` | Zone/sceneServer/src-cpp/db/transactionExecutor.h:161-181 | replaying a stored snapshot succeeds and changes nothing |
| `SaveTheorems.SaveStepsRun` | Zone/sceneServer/src-cpp/db/playerSnapshotDao.h:138-174 | the save statements succeed together exactly when the stored version is older, and leave exactly the saved rows |
| `SaveTheorems.ChecksMeanStored` | Zone/sceneServer/src-cpp/db/playerSnapshotDao.h:175-203 | the verification queries match exactly when the three tables hold the snapshot |
| `SaveTheorems.SavedIsStored` | Zone/sceneServer/src-cpp/db/playerSnapshotDao.h:138-203 | what the statements leave is what the verification queries expect |
| `SaveTheorems.SaveIsWellFormed` | Zone/sceneServer/src-cpp/db/transactionExecutor.h:44-107 | every task built for saving passes the executor's validation |
| `SaveTheorems.SaveTouchesOnlyOwner` | Zone/sceneServer/src-cpp/db/playerSnapshotDao.h:138-174 | no save changes another player's rows |
| `SaveTheorems.LoadRuns` | Zone/sceneServer/src-cpp/db/playerSnapshotDao.h:12-31 | without faults the load task reads the three tables and changes nothing |
| `SaveTheorems.SaveThenLoad` | Zone/sceneServer/src-cpp/db/playerSnapshotDao.h:12-203 | loading a stored snapshot returns its fields, with items ordered by slot |
| `SaveTheorems.LoadedIsConsistent` | Zone/sceneServer/src-cpp/db/playerSnapshotDao.h:33-111 | whatever a load accepts has distinct ids and slots, positive quantities and fits its bag |
| `PlayerSnapshot.BuildSave` | Zone/sceneServer/src-cpp/db/playerSnapshotDao.h:113-203 | a task is built exactly for storable snapshots |
| `PlayerSnapshot.ParseLoad` | Zone/sceneServer/src-cpp/db/playerSnapshotDao.h:33-111 | a load result is accepted exactly when every row is well formed, and read field by field |
| `SnapshotOutcomes.StorableIff` | Zone/sceneServer/src-cpp/db/playerSnapshotDao.h:113-140 | a snapshot can be stored exactly when it is a player's, at a version, in a scene, with a sound bag |
| `SnapshotOutcomes.LoadedAreRows` | Zone/sceneServer/src-cpp/db/playerSnapshotDao.h:33-111 | what a load accepts are, field by field, the rows of a sound role, without a bag's row only if it was never saved |
| `SnapshotOutcomes.RowsAreLoaded` | Zone/sceneServer/src-cpp/db/playerSnapshotDao.h:33-111 | and the rows of every such role are accepted and read as that role |
| `PlayerSnapshot.AllDistinct` | Zone/sceneServer/src-cpp/db/playerSnapshotDao.h:125-134 | the loop over id and slot sets decides distinctness of both |
| `DbValue.EqualValueIsEquality` | Zone/sceneServer/src-cpp/db/transactionExecutor.h:22-42 | the deep comparison accepts exactly identical trees |
| `Transactions.Backend.Run` | Zone/sceneServer/src-cpp/db/transactionExecutor.h:68-224 | driving the backend through begin, steps, verification, commit and rollback gives the specified result and tables, with no transaction left open |
| `Transactions.Backend.Verify` | Zone/sceneServer/src-cpp/db/transactionExecutor.h:161-181 | the verification loop stops at the first mismatch or fault |
| `Transactions.Backend.WriteAll` | Zone/sceneServer/src-cpp/db/transactionExecutor.h:184-219 | the write loop stops at the first fault or unmet expectation and rolls back, or commits |
| `TransactionOutcomes.CommitsExactlyWhen` | Zone/sceneServer/src-cpp/db/transactionExecutor.h:68-224 | a transaction takes effect exactly when it is acceptable, for a save the stored version is lower, every call succeeds, every report is as expected and the commit lands; its effect and its data are those of all its steps in order |
| `TransactionOutcomes.AcceptableIff` | Zone/sceneServer/src-cpp/db/transactionExecutor.h:44-108 | the tasks let through: one to 65540 reads and writes, no argument list, and for a save its player, version and three verifying queries |
| `TransactionOutcomes.NotBegun` | Zone/sceneServer/src-cpp/db/transactionExecutor.h:82-132 | an unacceptable task is refused and a failed begin is passed on, before anything is touched |
| `TransactionOutcomes.SaveRefused` | Zone/sceneServer/src-cpp/db/transactionExecutor.h:134-182 | a save that may not write says why: no sane row, a newer version, or its own version, which succeeds exactly when all three queries still match; unclear exactly when the rollback is |
| `TransactionOutcomes.WriteRefused` | Zone/sceneServer/src-cpp/db/transactionExecutor.h:184-217 | a write stops at the first call that failed or report that was not as expected, and says which |
| `TransactionProgress.RetriesAreSerial` | Zone/sceneServer/src-cpp/db/transactionRetries.h:17-50 | in every run the tables are what the executions left one after the other, each request was answered with the result of its last execution, and what waits was retryable |
| `TransactionProgress.TickRunsExactly` | Zone/sceneServer/src-cpp/db/transactionRetries.h:27-50 | a tick runs each due request among the first sixteen once, which then waits 200 ms for its third attempt or is answered; every other request it leaves alone |
| `TransactionProgress.EveryRequestIsAnswered` | Zone/sceneServer/src-cpp/db/transactionRetries.h:17-50 | after any schedule, as many ticks 200 ms apart as attempts are left answer every request that was started, exactly once |
| `TransactionProgress.RunOutcome` | Zone/sceneServer/src-cpp/db/transactionRetries.h:17-50 | one run: its effect on the tables, and whether it waits (100 or 200 ms) or is answered |
| `Database.SortBySlotIsStable` | Zone/sceneServer/src-cpp/db/playerSnapshotDao.h:20-22 | a query ordered by slot keeps rows of equal slots in the order they were stored |
| `TransactionRetries.RetriesAreBounded` | Zone/sceneServer/src-cpp/db/transactionRetries.h:17-50 | in every run of the retry queue from its empty state each task runs at most three times, commits at most once and completes at most once, and is never both waiting and finished |
| `TransactionRetries.TickKeeps` | Zone/sceneServer/src-cpp/db/transactionRetries.h:27-50 | one tick, whatever its budget, keeps these bounds |
| `TransactionRetries.RetryQueue.Tick` | Zone/sceneServer/src-cpp/db/transactionRetries.h:27-50 | the loop over the changing queue is the specified pass and ends |
| `TransactionRetries.RetryQueue.Schedule` | Zone/sceneServer/src-cpp/db/transactionRetries.h:17-26 | a task waits exactly when the result is retryable, attempts are left and there is room |
| `Bags.Bag.AddItem` | Zone/sceneServer/src-cpp/player/bag.cc:32-60 | stack or new slot, with capacity, slot and quantity limits; the bag stays sound |
| `Bags.Bag.ReduceItem` | Zone/sceneServer/src-cpp/player/bag.cc:62-75 | the stack shrinks or goes; refusals change nothing |
| `Bags.Bag.View` | Zone/sceneServer/src-cpp/player/bag.cc:19-30 | the view lists every stack once, ordered by slot |
| `Bags.Bag.Restore` | Zone/sceneServer/src-cpp/player/bag.cc:89-104 | a list is accepted exactly when consistent, and a refused one changes nothing |
| `Bags.Bag.Clear` | Zone/sceneServer/src-cpp/player/bag.cc:83-87 | the emptied bag |
| `Bags.AddOutcome` | Zone/sceneServer/src-cpp/player/bag.cc:32-60 | items are added, all or none, exactly when the stack stays within 65535 or a new stack finds room and a slot never used; every other stack and every slot stays |
| `Bags.ReduceOutcome` | Zone/sceneServer/src-cpp/player/bag.cc:62-75 | items are taken exactly when there are that many; an emptied stack goes and its slot is not used again |
| `Bags.AddThenReduce` | Zone/sceneServer/src-cpp/player/bag.cc:32-75 | reducing what was added restores every count |
| `Bags.ViewIsUnique` | Zone/sceneServer/src-cpp/player/bag.cc:19-30 | a bag has only one view |
| `Bags.ViewIsStorable` | Zone/sceneServer/src-cpp/player/bag.cc:19-60 | the view of every sound bag can be stored |
| `Bags.RestoreOfView` | Zone/sceneServer/src-cpp/player/bag.cc:19-104 | restoring a bag's view gives back the bag |
| `Bags.LoadGivesBagBack` | Zone/sceneServer/src-cpp/db/playerSnapshotDao.h:12-203 | saving a player's bag, loading and restoring it gives back the same bag |
| `Players.Player.SetHp` | Zone/sceneServer/src-cpp/player/player.cc:73-80 | a real change counts one revision and marks the player; no change counts nothing |
| `Players.Player.ModifyHp` | Zone/sceneServer/src-cpp/player/player.cc:14-22 | saturating change, counted likewise |
| `Players.ClampIsNearest` | Zone/sceneServer/src-cpp/player/player.cc:14-47 | saturation gives the value of the range that is nearest |
| `Players.Player.AddGold` | Zone/sceneServer/src-cpp/player/player.cc:34-47 | saturating change, refused during a reservation |
| `Players.Player.SetPos` | Zone/sceneServer/src-cpp/player/player.cc:49-58 | counted change of position and direction |
| `Players.Player.SetScene` | Zone/sceneServer/src-cpp/player/player.cc:90-99 | counted change of scene; scene 0 is refused |
| `Players.Player.ChangeItems` | Zone/sceneServer/src-cpp/player/player.cc:101-121 | counted change of the bag, refused during a reservation |
| `Players.Player.ConfirmSave` | Zone/sceneServer/src-cpp/player/player.h:93-98 | a confirmation moves version and revision forward and clears the mark only for the current revision |
| `Players.Player.FreezeSaveSnapshot` | Zone/sceneServer/src-cpp/player/player.cc:134-152 | an exact copy of the state, storable for every valid id and version |
| `Players.Player.RestoreSaveSnapshot` | Zone/sceneServer/src-cpp/player/player.cc:154-179 | installs a consistent snapshot as clean state, or changes nothing |
| `Players.Player.ReserveEconomy` | Zone/sceneServer/src-cpp/player/player.cc:181-202 | a reservation is made exactly for a complete, affordable purchase that fits the bag; repeating it is accepted, another one refused |
| `Players.Player.CommitEconomy` | Zone/sceneServer/src-cpp/player/player.cc:204-215 | a commit takes exactly the price and adds exactly the items of the reservation, as one revision |
| `Players.Player.CancelEconomy` | Zone/sceneServer/src-cpp/player/player.cc:217-223 | a matching cancel drops the reservation only |
| `PlayerPersistence.PlayerPersistence.Request` | Zone/sceneServer/src-cpp/player/playerPersistence.cc:3-60 | freezing, queueing and dispatching a save, live or offline; `DirtySaveIsHandedOver` says what that means for the database |
| `PlayerPersistence.PlayerPersistence.Tick` | Zone/sceneServer/src-cpp/player/playerPersistence.cc:62-69 | every record with something queued and nothing under way is dispatched; `RetryHandsOver` says what that means for the database |
| `PlayerPersistence.PlayerPersistence.Complete` | Zone/sceneServer/src-cpp/player/playerPersistence.cc:86-131 | a result is taken only for the task, version, revision and token of the active snapshot; success confirms and settles, failure keeps the snapshot |
| `PlayerPersistence.PlayerPersistence.BlocksLogin` | Zone/sceneServer/src-cpp/player/playerPersistence.cc:133-137 | a login waits exactly while an offline record exists |
| `TimerWheel.FiresExactlyWhenDue` | Zone/sceneServer/src-cpp/timer/TimerThread.cc:305-364 | in every sound state an uncancelled timer has fired, at its due tick, exactly if the wheel has got there |
| `TimerRuns.AddedTimerFiresOnceWhenDue` | Zone/sceneServer/src-cpp/timer/TimerThread.cc:252-364 | on every run from the empty wheel, a timer added at any moment and not cancelled afterwards sends its message exactly once, at exactly its due wheel tick: T = ceil(delay / tick) ticks after the addition, one revolution later when T is a multiple of the slot count |
| `TimerRuns.CancelledNeverFires` | Zone/sceneServer/src-cpp/timer/TimerThread.cc:286-303 | on every run, a timer that is live when its user cancels sends no message on any continuation |
| `TimerRepeats.CancelledUserIsSilent` | Zone/sceneServer/src-cpp/timer/TimerThread.cc:286-303 | on every run, once a user cancels no message of that user is sent until it adds a timer again, repeating timers that had started over included |
| `TimerRepeats.RepeatingTimerFiresEveryPeriod` | Zone/sceneServer/src-cpp/timer/TimerThread.cc:366-412 | on every run, a repeating timer added at any moment and not cancelled sends its message one period later and each period after that, under whatever ids it starts over; a period is the delay in ticks, one revolution longer when that is a multiple of the slot count |
| `TimerRepeats.LoneTimerSendsOncePerPeriod` | Zone/sceneServer/src-cpp/timer/TimerThread.cc:366-412 | on every run, a message that only this repeating timer sends goes out exactly at those ticks, once each and in order, and at no other |
| `TimerRepeats.BeatsAre` | Zone/sceneServer/src-cpp/timer/TimerThread.cc:366-412 | those ticks are the first one plus every whole number of periods, up to the last |
| `TimerRuns.RunKeepsGood` | Zone/sceneServer/src-cpp/timer/TimerThread.cc:252-412 | every run of additions, cancellations and ticks keeps every live id in its slot and under its user, and the messages sent are exactly the firings due |
| `TimerRuns.RunCountsTicks` | Zone/sceneServer/src-cpp/timer/TimerThread.cc:190-204 | the wheel's time is the number of its ticks |
| `TimerWheel.TickKeeps` | Zone/sceneServer/src-cpp/timer/TimerThread.cc:332-412 | one wheel tick fires exactly the due timers and keeps every live id in exactly one slot and under its user |
| `TimerWheel.LaunchKeeps` | Zone/sceneServer/src-cpp/timer/TimerThread.cc:252-330 | adding a timer keeps that too |
| `TimerWheel.CancelKeeps` | Zone/sceneServer/src-cpp/timer/TimerThread.cc:286-303 | cancelling removes exactly the user's live timers and keeps that too |
| `TimerWheel.CancelledIsForgotten` | Zone/sceneServer/src-cpp/timer/TimerThread.cc:286-303 | a cancelled user has no list, and exactly the timers on it are gone |
| `TimerWheel.FiredIsForgotten` | Zone/sceneServer/src-cpp/timer/TimerThread.cc:366-412 | a timer that does not repeat is taken off its user's list when it fires, and an empty list goes |
| `TimerWheel.DueNowIsDueSet` | Zone/sceneServer/src-cpp/timer/TimerThread.cc:332-364 | the visited slot yields exactly the timers due at this tick |
| `TimerWheel.InsertArithmetic` | Zone/sceneServer/src-cpp/timer/TimerThread.cc:305-330 | slot and remaining rounds computed at insertion are those of the due tick |
| `TimerWheel.TickArithmetic` | Zone/sceneServer/src-cpp/timer/TimerThread.cc:332-364 | when the hand reaches a slot, a timer there has no rounds left exactly when it is due |
| `TimerWheel.WheelTrailsClock` | Zone/sceneServer/src-cpp/timer/TimerThread.cc:175-204 | wheel ticks plus given-up ticks equal the elapsed ticks after every round, so the wheel never runs ahead of the clock |
| `TimerWheel.CaughtUpIff` | Zone/sceneServer/src-cpp/timer/TimerThread.cc:175-204 | a round ends level with the clock exactly when nothing was given up before and at most five ticks were outstanding |
| `TimerWheel.LevelIff` | Zone/sceneServer/src-cpp/timer/TimerThread.cc:175-204 | over any sequence of rounds from the start, the wheel ends level with the clock exactly when no round found more than five ticks outstanding |
| `TimerWheel.SkippedTicksAreLost` | Zone/sceneServer/src-cpp/timer/TimerThread.cc:175-204 | counterexample: ticks given up in one round are not made up in later ones |
| `TimerThread.TimerThread.Launch` | Zone/sceneServer/src-cpp/timer/TimerThread.cc:305-330 | a new timer in its slot, its user's list and the live table |
| `TimerThread.TimerThread.DoAdd` | Zone/sceneServer/src-cpp/timer/TimerThread.cc:252-284 | an addition is a step of the runs above; other timers are untouched |
| `TimerThread.TimerThread.DoCancel` | Zone/sceneServer/src-cpp/timer/TimerThread.cc:286-303 | a cancellation is a step of the runs above; exactly the user's live timers are lost |
| `TimerThread.TimerThread.CollectSlot` | Zone/sceneServer/src-cpp/timer/TimerThread.cc:332-364 | the pass over a slot keeps, counts down, drops cancelled ids and collects due ones |
| `TimerThread.TimerThread.FireEach` | Zone/sceneServer/src-cpp/timer/TimerThread.cc:366-412 | one message per fired timer, in order; repeating timers start again |
| `TimerThread.TimerThread.AdvanceOne` | Zone/sceneServer/src-cpp/timer/TimerThread.cc:193-204 | one wheel tick, a step of the runs above, with the messages it sends |
| `TimerThread.TimerThread.Round` | Zone/sceneServer/src-cpp/timer/TimerThread.cc:175-204 | the catch-up of one round, bounded by five ticks |
| `RegistryTheorems.RegistryStaysConsistent` | Zone/gatewayServer/serviceRegistry.cc:10-358 | over any run of connects, valid handshakes and closes from the empty registry: pending and bound names are disjoint, serving endpoints and Ready slots correspond one to one, a pool's Ready slots share its incarnation, and the two indexes point at live endpoints exactly when there is one |
| `RegistryTheorems.RunKeepsGood` | Zone/gatewayServer/serviceRegistry.cc:10-358 | every such run from a consistent registry keeps the agreement of the five tables |
| `RegistryTheorems.IndexIff` | Zone/gatewayServer/serviceRegistry.cc:38-358 | each index names a live endpoint exactly when there is one |
| `RegistryTheorems.BindKeeps` | Zone/gatewayServer/serviceRegistry.cc:38-175 | binding succeeds exactly for a pending name and a channel in range, keeps the tables consistent, and changes nothing when it fails |
| `RegistryTheorems.BindTakes` | Zone/gatewayServer/serviceRegistry.cc:38-175 | in a consistent registry the branches that give up half way are never reached |
| `RegistryTheorems.RemoveKeeps` | Zone/gatewayServer/serviceRegistry.cc:298-358 | removing keeps the tables consistent and moves the indexes on |
| `RegistryTheorems.AddPendingKeeps` | Zone/gatewayServer/serviceRegistry.cc:10-23 | a new connection keeps the tables consistent |
| `RegistryTheorems.SlotsAndEndpointsCorrespond` | Zone/gatewayServer/serviceRegistry.cc:38-175 | serving endpoints and Ready slots correspond one to one, and agree with the pool on the incarnation |
| `RegistryTheorems.ReadyAreServing` | Zone/gatewayServer/serviceRegistry.cc:202-244 | selection offers exactly the endpoints serving the instance |
| `RegistryProgress.BindOutcome` | Zone/gatewayServer/serviceRegistry.cc:38-175 | after a handshake the connection is bound under the socket it waited with; exactly the channel's holder and the channels of another incarnation stop serving, under their own sockets; both indexes name the newcomer and nothing else moves |
| `RegistryProgress.BindSlots` | Zone/gatewayServer/serviceRegistry.cc:59-167 | what each slot of the pool holds, with its socket and incarnation, and how often it changed hands |
| `RegistryProgress.ReplacedLoses` | Zone/gatewayServer/serviceRegistry.cc:60-173 | the connection reported as replaced is one that lost its slot, the lowest of them, and none exactly when nobody did |
| `RegistryProgress.ConnectOutcome` | Zone/gatewayServer/serviceRegistry.cc:10-23 | a connection is taken in exactly when it has a name that no other has, waiting or bound |
| `RegistryProgress.ConnectThenServe` | Zone/gatewayServer/serviceRegistry.cc:10-175 | from any consistent registry, a connection with a free name serves after connecting and shaking hands: endpoint, slot and both indexes agree and lead to its own socket |
| `RegistryProgress.CloseOutcome` | Zone/gatewayServer/serviceRegistry.cc:298-358 | a serving connection that closes is forgotten and nobody else is; only the indexes that named it move |
| `RegistryProgress.ClosedSlots` | Zone/gatewayServer/serviceRegistry.cc:318-337 | its slot is free and one generation on, and the pool forgets its incarnation exactly with its last server |
| `RegistryProgress.QuietClose` | Zone/gatewayServer/serviceRegistry.cc:298-317 | closing one that serves nothing leaves no trace, and closing an unknown one changes nothing |
| `ServiceRegistry.ServiceRegistry.AddPending` | Zone/gatewayServer/serviceRegistry.cc:10-23 | the pending table gains the name unless it is empty or known |
| `ServiceRegistry.ServiceRegistry.Bind` | Zone/gatewayServer/serviceRegistry.cc:38-175 | the new five tables, whether it succeeded and which connection it replaced |
| `ServiceRegistry.ServiceRegistry.RemoveByName` | Zone/gatewayServer/serviceRegistry.cc:298-358 | the new five tables after a close |
| `ServiceRegistry.ServiceRegistry.RetireChannels` | Zone/gatewayServer/serviceRegistry.cc:62-94 | the loop demotes and empties exactly the slots of the older incarnation |
| `ServiceRegistry.ServiceRegistry.FindServing` | Zone/gatewayServer/serviceRegistry.cc:339-356 | the first live endpoint of the instance or service in the given order |
| `ServiceRegistry.ServiceRegistry.SelectByScene` | Zone/gatewayServer/serviceRegistry.cc:221-244 | round robin over the Ready slots; the cursor moves only when there is one |
| `Gateway.OneReplyToTheRightSession` | Zone/gatewayServer/gatewayDispatcher.cc:802-854 | over every run each forwarded request gets at most one reply, delivered to the session that sent it, in the same epoch and under its original request id (`GatewayProgress` says when it gets one) |
| `GatewayProgress.RequestIsAnswered` | Zone/gatewayServer/gatewayDispatcher.cc:616-854 | over runs: a request that goes out and that nothing ends is replied to by the frame that answers it, under the client's own number, exactly when its session is present and still in the scene |
| `GatewayProgress.StepOutcome` | Zone/gatewayServer/gatewayDispatcher.cc:98-230 | a waiting request ends exactly by its answer, its refusal, its timeout or the end of its session; it is replied to, once, exactly when it ends answered with its session present and still in the scene |
| `GatewayProgress.FrameOutcome` | Zone/gatewayServer/gatewayDispatcher.cc:802-854 | a frame ends exactly the waiting request it answers, from the very back end it went to, and is delivered exactly when the session is present, authenticated, in the same epoch, and still in the scene |
| `GatewayProgress.ForwardOutcome` | Zone/gatewayServer/gatewayDispatcher.cc:616-668 | a request goes out under the next number exactly when the session is authenticated and there is room, and waits with the context it was given |
| `GatewayProgress.WaitingIsAnswered` | Zone/gatewayServer/gatewayDispatcher.cc:802-854 | a waiting request that nothing ends is replied to by its answer exactly under that condition |
| `GatewayProgress.LoginOutcome` | Zone/gatewayServer/gatewayDispatcher.cc:443-490 | a login throws the player's other session out, together with what waits for it, and nothing else |
| `Gateway.RunKeepsGood` | Zone/gatewayServer/gatewayDispatcher.cc:142-230 | routes, forwarded requests and deliveries agree after every run |
| `Gateway.StepKeepsGood` | Zone/gatewayServer/gatewayDispatcher.cc:142-230 | each step (open, authenticate, redirect, bind, forward, refuse, respond, sweep, close) keeps that |
| `GatewayPlayers.RepliesReachTheirPlayerIff` | Zone/gatewayServer/gatewayDispatcher.cc:443-515 | from the start: at every moment of a run all replies have gone to the player who asked, and would whatever timed out next, exactly when every accepted login and change of service of the run meets no waiting request of another player on that session in the epoch it starts |
| `GatewayPlayers.RepliesReachTheirPlayer` | Zone/gatewayServer/gatewayDispatcher.cc:802-854 | hence every reply of such a run reaches the player who asked |
| `GatewayPlayers.LoginIsSafeIff` | Zone/gatewayServer/clientSession.cc:48-95 | the exact condition for one login |
| `GatewayPlayers.RedirectIsSafeIff` | Zone/gatewayServer/clientSession.cc:97-119 | the exact condition for one change of service |
| `GatewayPlayers.StepIsSafeIff` | Zone/gatewayServer/gatewayDispatcher.cc:142-230 | no other step can turn a safe state into an unsafe one |
| `GatewayPlayers.SafeMeansHome` | Zone/gatewayServer/gatewayDispatcher.cc:213-230 | a state is safe exactly when all replies so far went home and every possible timeout sweep would send its answers home |
| `GatewayPlayers.IndexStaysInverseIff` | Zone/gatewayServer/clientSession.cc:48-119 | player index and authenticated sessions are mutually inverse at every moment of a run exactly when no accepted login takes a session over from another player; such runs also meet the condition for replies |
| `GatewayPlayers.LaterEpochIsLarger` | Zone/gatewayServer/clientSession.cc:48-119 | of two accepted logins or service changes of a player, anywhere in a run, the later one gets the strictly larger epoch |
| `GatewayPlayers.EpochsNeverFall` | Zone/gatewayServer/clientSession.cc:48-119 | no player's epoch ever decreases |
| `GatewayPlayers.ReplyCanCrossPlayers` | Zone/gatewayServer/gatewayDispatcher.cc:443-490 | counterexample at a login: the second player of a session receives the answer to the first player's request |
| `GatewayPlayers.RedirectCanCrossPlayers` | Zone/gatewayServer/gatewayDispatcher.cc:493-515 | counterexample at a change of service: the login before it is still harmless |
| `SessionSpec.BindKeepsInverseIff` | Zone/gatewayServer/clientSession.cc:48-95 | authenticating keeps the index and the sessions mutually inverse exactly when the session had no other player, and raises exactly that player's epoch by one |
| `SessionSpec.ReauthenticationLeavesStaleIndex` | Zone/gatewayServer/clientSession.cc:48-95 | counterexample: the index still leads from the first player to the second player's session |
| `SessionSpec.CreateKeeps` | Zone/gatewayServer/clientSession.cc:6-19 | a new session keeps them inverse |
| `SessionSpec.EraseKeeps` | Zone/gatewayServer/clientSession.cc:161-177 | erasing a session keeps them inverse |
| `SessionSpec.SetServiceKeeps` | Zone/gatewayServer/clientSession.cc:97-119 | choosing a service keeps them inverse |
| `SessionSpec.SetBindingKeeps` | Zone/gatewayServer/clientSession.cc:121-140 | choosing a scene keeps them inverse |
| `SessionOutcomes.LoginOutcome` | Zone/gatewayServer/clientSession.cc:48-95 | after a login the player is on that session alone, one epoch on; the session he was on is logged out, every other session and player is left alone, and the scene binding survives exactly if the service stays |
| `SessionOutcomes.FoundIff` | Zone/gatewayServer/clientSession.cc:32-46 | a player is found exactly on the session he is logged in on |
| `SessionOutcomes.FoundIsOpen` | Zone/gatewayServer/clientSession.cc:32-46 | whatever the index says, a player is only found on an open session |
| `SessionOutcomes.RedirectOutcome` | Zone/gatewayServer/clientSession.cc:97-119 | a redirect to another service takes effect unless the session is gone or its player's epochs are used up; it loses the scene and starts the player's next epoch |
| `SessionOutcomes.BindingOutcome` | Zone/gatewayServer/clientSession.cc:121-140 | a session is bound to a scene once, exactly when a player is on it and its traffic goes to the scene service; asked again the table agrees only to the same scene |
| `SessionOutcomes.EraseOutcome` | Zone/gatewayServer/clientSession.cc:161-177 | a closed session is gone; players found on it are found nowhere, every other where he was, whatever the index says |
| `SessionOutcomes.CreateOutcome` | Zone/gatewayServer/clientSession.cc:6-19 | a new session is nobody's, under an id never used |
| `SessionOutcomes.SubmitsIff` | Zone/gatewayServer/clientSession.cc:142-159 | prepared scene traffic goes through exactly while player, epoch, service and scene are those it was prepared for |
| `GatewayTables.ClientSessionTable.Create` | Zone/gatewayServer/clientSession.cc:6-19 | a fresh session under the next id |
| `GatewayTables.ClientSessionTable.Bind` | Zone/gatewayServer/clientSession.cc:48-95 | the new tables and the session to throw out, or no change |
| `GatewayTables.ClientSessionTable.SetDstService` | Zone/gatewayServer/clientSession.cc:97-119 | a new epoch exactly when the service changes for an authenticated session |
| `GatewayTables.ClientSessionTable.SetSceneBinding` | Zone/gatewayServer/clientSession.cc:121-140 | the binding is set on a session of the scene service |
| `GatewayTables.ClientSessionTable.SubmitScene` | Zone/gatewayServer/clientSession.cc:142-159 | a submission happens exactly under an unchanged binding, and is remembered only when accepted |
| `GatewayTables.ClientSessionTable.Erase` | Zone/gatewayServer/clientSession.cc:161-177 | the session goes, and the index entry only if it is its own |
| `GatewayTables.ReturnRouteTable.Add` | Zone/gatewayServer/returnRoute.cc:3-13 | bounded table, number 0 refused |
| `GatewayTables.ReturnRouteTable.Take` | Zone/gatewayServer/returnRoute.cc:15-24 | a route is handed out once |
| `GatewayTables.ReturnRouteTable.EraseBySession` | Zone/gatewayServer/returnRoute.cc:36-53 | exactly the session's routes go, and are counted |
| `GatewayTables.ReturnRouteTable.SweepExpired` | Zone/gatewayServer/returnRoute.cc:74-89 | exactly the expired routes are taken out and returned |
| `PendingSpec.NoNoticeIsLost` | Zone/sceneServer/src-cpp/net/workerPendingTasks.h:51-152 | what a correctly kept queue says about the messages that passed through it |
| `PendingRuns.NoNoticeIsEverLost` | Zone/sceneServer/src-cpp/net/workerPendingTasks.h:51-152 | after any sequence of submissions, pumps and cancellations, for every worker: lifecycle messages sent, followed by those waiting, are exactly those submitted, in order; sends are a subsequence of submissions; counters are a recount and business is within its limits |
| `PendingConservation.EveryMessageIsAccountedFor` | Zone/sceneServer/src-cpp/net/workerPendingTasks.h:51-152 | after any calls, counted with repetitions, the messages submitted are those sent, those waiting and those turned away: answered busy or with an error, reported rejected, or cancelled with their session |
| `PumpProgress.EverythingIsSent` | Zone/sceneServer/src-cpp/net/workerPendingTasks.h:103-141 | from any state, as many pumps with accepting queues as there are waiting tasks leave nothing waiting for any worker |
| `PumpProgress.PumpOutcome` | Zone/sceneServer/src-cpp/net/workerPendingTasks.h:117-139 | a pump gives every worker its turn in order from the cursor, unless its attempts run out; a turn ends with the queue empty, its whole share moved on, or its head blocked; the cursor has moved by the turns taken |
| `PumpProgress.DrainOutcome` | Zone/sceneServer/src-cpp/net/workerPendingTasks.h:123-138 | one turn goes past each head until the queue is empty, the attempts are used up or the head is blocked |
| `PumpProgress.AcceptedAreSent` | Zone/sceneServer/src-cpp/net/workerPendingTasks.h:123-138 | with every attempt accepted a turn sends exactly the first tasks, in order, as many as it may |
| `PendingOutcomes.SubmitOutcome` | Zone/sceneServer/src-cpp/net/workerPendingTasks.h:51-102 | after any calls: sent at once exactly when nothing waits and the worker takes it; otherwise a notice is queued, and business exactly behind others with room by a recount; and what is counted |
| `PendingOutcomes.SweepOutcome` | Zone/sceneServer/src-cpp/net/workerPendingTasks.h:106-116 | the expiry pass leaves exactly the notices and the unexpired valid business, in order, and reports and counts the rest by cause |
| `PendingOutcomes.CancelOutcome` | Zone/sceneServer/src-cpp/net/workerPendingTasks.h:142-152 | cancelling a session leaves every worker exactly its notices and the tasks of other sessions, in order |
| `PendingOutcomes.DrainCounts` | Zone/sceneServer/src-cpp/net/workerPendingTasks.h:123-138 | what a turn counts: everything sent as accepted, every attempt that failed for another reason than a full queue as an error |
| `PendingOutcomes.PassedAreAnswered` | Zone/sceneServer/src-cpp/net/workerPendingTasks.h:123-138 | each head a turn gets past was taken and is sent, or was business the worker would not have and is answered so |
| `PendingSpec.SubmitKeeps` | Zone/sceneServer/src-cpp/net/workerPendingTasks.h:51-102 | a submission keeps order, counters and limits, and never refuses a lifecycle message |
| `PendingSpec.PurgeKeeps` | Zone/sceneServer/src-cpp/net/workerPendingTasks.h:142-152 | dropping business messages keeps order, counters and limits |
| `PendingSpec.DrainKeeps` | Zone/sceneServer/src-cpp/net/workerPendingTasks.h:117-139 | sending from the head keeps order, counters and limits |
| `PendingSpec.DrainIsBounded` | Zone/sceneServer/src-cpp/net/workerPendingTasks.h:117-139 | a worker's turn sends no more than its attempts |
| `WorkerPending.PumpKeeps` | Zone/sceneServer/src-cpp/net/workerPendingTasks.h:103-141 | one pump keeps all queues accounted for, stays within the attempt limit and sends no expired or invalid business message |
| `WorkerPending.CancelKeeps` | Zone/sceneServer/src-cpp/net/workerPendingTasks.h:142-152 | cancelling a session keeps all queues accounted for |
| `WorkerPending.WorkerPendingTasks.SubmitTask` | Zone/sceneServer/src-cpp/net/workerPendingTasks.h:51-102 | admission, queue and counters of the worker; a worker out of range changes nothing |
| `WorkerPending.WorkerPendingTasks.PumpAll` | Zone/sceneServer/src-cpp/net/workerPendingTasks.h:103-141 | sweeping and the round-robin turns over all workers, from the cursor on (`PumpOutcome` and `EverythingIsSent` say what they achieve) |
| `WorkerPending.WorkerPendingTasks.CancelSession` | Zone/sceneServer/src-cpp/net/workerPendingTasks.h:142-152 | exactly the session's business messages go |
| `FrameTheorems.ChunkingIsIrrelevant` | Zone/sceneServer/src-cpp/net/net_server.cc:423-449 | for any bytes in any chunks, garbage included, an open connection has delivered exactly the frames of the whole stream, and a closed one the first of them |
| `FrameTheorems.FramesArriveAsSent` | Zone/zone_common/base/proto.cc:175-281 | well-formed frames sent back to back and split anywhere arrive exactly as sent, with no error reported and nothing left over |
| `FrameTheorems.DecodeKeepsFrames` | Zone/zone_common/base/proto.cc:175-281 | whatever follows, the frames of a stream are the one a decoder call yields and those of what it leaves, resynchronisation and budget notwithstanding |
| `FrameOutcomes.SearchDecides` | Zone/zone_common/base/proto.cc:175-281 | the decoder gives up exactly when it has to start afresh more than 16 times or meets a complete frame with a malformed name; otherwise it yields the frame a search without limits finds, or waits |
| `FrameOutcomes.ClosedExactlyWhen` | Zone/sceneServer/src-cpp/net/net_server.cc:423-449 | a connection is closed exactly when the decoder has given up on its stream as often as is allowed |
| `FrameTheorems.NeedMoreMeansNone` | Zone/zone_common/base/proto.cc:175-256 | when the decoder asks for more, nothing it kept is a frame yet |
| `FrameTheorems.NeedMoreUnchangedIff` | Zone/zone_common/base/proto.h:190-194 | asking for more leaves the buffer untouched exactly when it is shorter than a header or starts with an incomplete acceptable frame |
| `FrameHeaders.NeedMoreCanConsume` | Zone/zone_common/base/proto.h:190-194 | counterexample: one stray byte before an incomplete frame is consumed |
| `FrameTheorems.JunkIsDropped` | Zone/zone_common/base/proto.cc:202-213 | so is any byte before any incomplete frame |
| `FrameTheorems.PrefixWaits` | Zone/zone_common/base/proto.cc:254-256 | a proper prefix of a frame is left alone |
| `FrameTheorems.WholeIsTaken` | Zone/zone_common/base/proto.cc:258-279 | a frame in front is taken whole and what follows is left |
| `FrameHeaders.GateMessagesArrive` | Zone/zone_common/base/proto.cc:137-281 | messages addressed to a service, encoded back to back and split anywhere, are read as sent, in order, without error |
| `FrameHeaders.GateAcceptedIff` | Zone/zone_common/base/proto.cc:137-256 | an encoded message is accepted exactly when it is at most 10 MiB and addressed to the reader |
| `FrameHeaders.GateReadsBack` | Zone/zone_common/base/proto.cc:137-279 | reading an encoded header gives back every field, with the length filled in |
| `FrameHeaders.GateFramesAreEncodings` | Zone/zone_common/base/proto.cc:137-281 | every accepted frame is the encoding of what is read from it |
| `FrameHeaders.ClientMessagesArrive` | Zone/zone_common/base/clientProto.cc:67-188 | the same on the client link, role names included |
| `FrameHeaders.ClientAcceptedIff` | Zone/zone_common/base/clientProto.cc:67-167 | an encoded client frame is accepted exactly when it is at most 64 KiB |
| `FrameHeaders.ClientReadsBack` | Zone/zone_common/base/clientProto.cc:67-188 | reading gives back every field and the name without its padding |
| `FrameHeaders.ClientFramesAreEncodings` | Zone/zone_common/base/clientProto.cc:94-188 | every accepted client frame carries an acceptable name and is the encoding of what is read from it |
| `FrameHeaders.PaddingIsUndone` | Zone/zone_common/base/clientProto.cc:156-163 | zero padding is undone because no acceptable name contains a zero |
| `FrameCodec.EncodeFrame` | Zone/zone_common/base/proto.cc:137-173 | the frame is appended behind whatever the buffer holds |
| `FrameCodec.EncodeClientFrame` | Zone/zone_common/base/clientProto.cc:67-92 | the same; an unacceptable name is refused and nothing is written |
| `FrameCodec.FindMagic` | Zone/zone_common/base/proto.cc:23-44 | the first position of the two magic bytes, or none |
| `FrameCodec.Locate` | Zone/zone_common/base/proto.cc:182-213 | what is dropped before a candidate, and when the call ends there |
| `FrameCodec.DecodeFrame` | Zone/zone_common/base/proto.cc:175-281 | the loop over candidates answers and consumes as specified, and ends |
| `FrameCodec.DecodeClientFrame` | Zone/zone_common/base/clientProto.cc:94-188 | the same for client frames |
| `FrameCodec.ReadName` | Zone/zone_common/base/clientProto.cc:156-163 | the scan for the padding accepts exactly well-padded acceptable names |
| `FrameCodec.ServiceLink.OnReadable` | Zone/sceneServer/src-cpp/net/net_server.cc:423-449 | the read loop on a real buffer is the specified connection, so the stream theorems hold of it |
| `ByteBuffer.Buffer.Append` | Zone/zone_common/base/buffer.cc:110-115 | the readable bytes grow at the end, whether room is found, made or allocated |
| `ByteBuffer.Buffer.Prepend` | Zone/zone_common/base/buffer.cc:118-124 | the readable bytes grow in front |
| `ByteBuffer.Buffer.Retrieve` | Zone/zone_common/base/buffer.cc:89-96 | the readable bytes lose a prefix |
| `ByteBuffer.Buffer.ReadAsString` | Zone/zone_common/base/buffer.cc:27-34 | takes at most the readable bytes, in order |
| `ByteBuffer.Buffer.ReadUint` | Zone/zone_common/base/buffer.cc:36-81 | takes an integer in network order |
| `ByteBuffer.Buffer.EnsureWriteable` | Zone/zone_common/base/buffer.cc:186-204 | room behind the data, contents unchanged; compaction only moves data down |
| `ByteBuffer.Buffer.MoveDown` | Zone/zone_common/base/buffer.cc:197-200 | the overlapping forward copy is right because the target is lower |
| `ByteBuffer.Buffer.EnsurePrepend` | Zone/zone_common/base/buffer.cc:126-141 | room in front of the data, contents unchanged |
| `ByteBuffer.Buffer.ReadFd` | Zone/zone_common/base/buffer.cc:144-168 | a scattered read appends all that arrived |
| `Utf8.Scan` | Zone/zone_common/base/clientProto.cc:43-64 | the scanner accepts exactly the strings of the grammar of section 4 of RFC 3629 without bytes below 0x20 or equal to 0x7F |
| `Utf8.ValidRoleName` | Zone/zone_common/base/clientProto.cc:40-65 | the same within twelve bytes |
| `Utf8.ValidChatText` | Zone/zone_common/base/serviceApp.cc:77-102 | the same from one to 1024 bytes |
| `Utf8.OctetsAreText` | Zone/zone_common/base/clientProto.cc:43-64 | every string of the grammar is the shortest encoding of the Unicode scalar values read from it |
| `Utf8.TextIsOctets` | Zone/zone_common/base/clientProto.cc:43-64 | the encoding of any scalar values is in the grammar and reads back as those values |
| `ValueCodec.ValueSurvivesIff` | Zone/sceneServer/src-cpp/db/dbValue.cc:25-91 | decoding a value's encoding followed by any suffix gives the value and the suffix exactly when it is nested at most 64 deep and every part fits its length field and cap |
| `ValueCodec.SixtyFiveLevelsAreLost` | Zone/sceneServer/src-cpp/db/dbValue.cc:25-91 | counterexample: nil inside 65 arrays encodes to bytes the decoder refuses; inside 64 it survives |
| `ValueCodec.DeepNestingIsRefused` | Zone/sceneServer/src-cpp/db/dbValue.cc:25-53 | the same for any nesting past the limit and any suffix |
| `ValueCodec.ValueRoundTrip` | Zone/sceneServer/src-cpp/db/dbValue.cc:25-91 | the round trip at any depth and before any suffix |
| `ValueCodec.DecodedIsCanonical` | Zone/sceneServer/src-cpp/db/dbValue.cc:49-87 | every decoded value fits the limits and is encoded by exactly the bytes consumed |
| `ValueCodec.EncodingsDoNotOverlap` | Zone/sceneServer/src-cpp/db/dbValue.cc:25-47 | no encoding is a proper beginning of another |
| `ValueCodec.WriteVal` | Zone/sceneServer/src-cpp/db/dbValue.cc:25-45 | the recursive encoder appends the encoding |
| `ValueCodec.ReadVal` | Zone/sceneServer/src-cpp/db/dbValue.cc:49-87 | the recursive decoder over a position reads what the specification reads |
| `TaskCodec.TransactionSurvivesIff` | Zone/sceneServer/src-cpp/db/dbValue.cc:93-173 | a transaction that can be encoded is decoded as sent exactly when it carries no argument list, its statements are queries or commands, expect at least -1 rows and carry values the wire can hold |
| `TaskCodec.TransactionIsCanonical` | Zone/sceneServer/src-cpp/db/dbValue.cc:131-173 | every decoded transaction is well formed and re-encodes to the same bytes |
| `TaskCodec.CommandSurvivesIff` | Zone/sceneServer/src-cpp/db/dbValue.cc:119-190 | the older layout carries exactly kind and arguments |
| `TaskCodec.StepRoundTrip` | Zone/sceneServer/src-cpp/db/dbValue.cc:103-113 | one statement before any suffix |
| `TaskCodec.StepIsCanonical` | Zone/sceneServer/src-cpp/db/dbValue.cc:151-168 | a decoded statement is well formed and encoded by exactly the bytes consumed |
| `TaskWire.WriteList` | Zone/sceneServer/src-cpp/db/dbValue.cc:101-114 | the loop appends a statement list, or throws at the first bad argument list |
| `TaskWire.ReadList` | Zone/sceneServer/src-cpp/db/dbValue.cc:147-170 | the loop over a position reads what the specification reads |
| `ResultCodec.ResultSurvivesIff` | Zone/sceneServer/src-cpp/db/dbValue.cc:193-240 | a result is decoded as recorded (success with an error code becomes failure) exactly when its message is at most 64 KiB and its data fit the wire |

## Left out

- AOI client views: `aoiViewSet`, pushes to clients, the wire form of events (`aoiWire.h`), and the public watcher calls of the replica; tombstones carry no wall-clock time.
- AOI repair requests: which worker asks for a snapshot, and when; the flag `ownersNeedingSnapshot_` is kept but nothing is claimed about it, because an older snapshot can clear it.
- Message bodies of conflict notices, error texts, and the counters behind metrics and diagnostics.
- SQL texts and the decimal form of their parameters; column widths are those of the fields.
- TaskCodec.TransactionSurvivesIff: speaks of arbitrary byte strings as arguments; that the built save fits the 32 MiB limit is not claimed.
- `Player::set_mp`, `modifyMp` and `clearBag`, which repeat what is proved of their siblings; the player's bag is held as the value that the class `Bag` implements.
- The save runs over the delivery protocol take encodings that read back what they wrote; that the wire formats do so is proved of the formats themselves (`TransactionSurvivesIff`, `ResultSurvivesIff`).
- One worker's coordinator is composed with the delivery protocol; the database rows that other workers' saves write belong to other players and are not in its tables.
- Loading a player and letting it in are one step of the save runs; a failed load leaves the player out.
- Redis execution, connection maintenance and reconnect back-off of the database thread.
- Timer messages refused by a full bus, and the bound on the per-user id lists, which keep ids of repeating timers.
- Gateway.RunKeepsGood: as for each step, pushes, zone shouts and scene selection are outside the runs.
- Gateway.StepKeepsGood: the dispatcher is modelled as steps on the tables; scene selection, ticket checks, rate limits, pushes without a request and zone shouts are outside.
- Payloads of the handshake, authentication and service-binding messages.
- FrameCodec.ServiceLink.OnReadable: closing by the peer and the frame-rate limit of the read loop are not modelled; the client link has the same stream theorems but no connection class of its own.
- Moved-from buffers, `findCRLF` and sockets.
- Lua, Redis and MySQL clients, configuration, logging, threads and event loops.
