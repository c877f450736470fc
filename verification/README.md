# A model of the Dendri signaling server

Dendri brokers WebRTC peers: clients connect over WebSocket, SSE or polling, join rooms,
relay data, and drop in and out of the network. What is hard about it is the state kept in
memory and in Redis by handlers that live in different files. This project models those
state machines in Dafny and proves what every step of them keeps, over whole runs.

| file | what it models |
|---|---|
| `Identifiers.dfy` | identifier validation, tenant namespacing of room names |
| `RoomModel.dfy` | rooms, reverse index, pending removals, presence, tenants, tokens and frames as one state machine |
| `RoomEffects.dfy` | what each step does to the three indexes, member by member |
| `RoomIndexes.dfy` | index consistency and caps over runs |
| `GhostPeers.dfy` | what clients last heard about a room against who is in it |
| `Isolation.dfy` | every membership against the admission and tenant it goes back to |
| `Alignment.dfy`, `Crossing.dfy` | rooms against the tenants clients are connected under now; a run in which DATA crosses |
| `Transparency.dfy` | the grace period hides a blip |
| `Sessions.dfy` | when the grace period keeps its promises, and the runs in which it does not |
| `RoomLaws.dfy` | who is admitted, who hears what, what a connect changes and how long a session is kept, apart from the handlers' own vocabulary |
| `RoomServer.dfy` | the same handlers in place, with their loops |
| `ReplayBuffer.dfy`, `ReplayGap.dfy`, `ReplayRaces.dfy` | the replay buffer against a plain log; sequence numbers and gap detection; numbering and storing as separate steps |
| `ReplayKeys.dfy` | rooms and clients in one key space of the replay buffer |
| `Slots.dfy` | the connection counter, one atomic operation at a time |
| `OfflineQueue.dfy` | queued messages as a state machine, one Redis round trip a step |
| `QueueLedger.dfy`, `QueueFates.dfy` | what was queued against what left the queue and what became of it, in every run |
| `QueueDelivery.dfy` | conservation and order when one peer's tasks do not overlap |
| `QueueOnce.dfy` | at-most-once delivery under every interleaving |
| `QueueRaces.dfy` | runs in which a message comes at the wrong moment |
| `QueueRealm.dfy` | the queue operations and both drains in place, with their loops |
| `TenantStore.dfy`, `TenantRaces.dfy`, `TenantCache.dfy` | the tenant indexes in Redis; the same operations read first and write later; the cache in front |
| `Calendar.dfy`, `Timestamp.dfy` | days to civil dates, printed timestamps |
| `Canonical.dfy` | percent-encoding and the string-to-sign |

## How the source is read

- A room handler is one step. The handlers have no await inside, but several map operations on a
  multi-threaded runtime are not truly atomic; interleavings inside a handler are not modelled. A
  reconnect is finer: token check and restore, registration of the sender, and each ROOM-PEERS
  resync are separate steps, as are the in-memory part of a cleanup and the deletion of the Redis
  record. The slot counter is modelled one atomic operation at a time. The other machines go by
  round trips: the number a relay takes and the push it makes; the fetch and the put of a cached
  lookup; the reads and the write of a tenant operation; and of the offline queue the sender lookup,
  the push, the sweep's age test (by the clock it started with), the SET and the LRANGE of a read,
  the sends, and the clear.
- The iteration order of a hash set is a parameter of the event that iterates, so every order is
  covered. A Redis pipeline is one step on maps.
- `Run(cfg, s, es, P)` is a run whose every step is enabled and satisfies `P`. "Disciplined" means
  that a client with a pending removal sends no ROOM-JOIN or ROOM-LEAVE; `NoPendingLeave` is the
  weaker rule that nobody leaves a room its own pending removal still lists; `Anything` is no rule.
- Clocks, slot outcomes of a connect, JWT decisions, Redis failures and generated ids and keys are
  parameters. Hashing of API keys is an injective constructor; email normalisation is any function.
- Frames carry the storage key of their room beside the displayed name; only the name is on the wire.

## Where the code does not do what it says

Each of these is a lemma with a concrete run, next to the exact condition under which the promise holds
(the one about SSE and polling holds of every connect).

- "If the client reconnects within the TTL, memberships are restored": only while the server still
  knows the token, and the ordinary cleanup deletes it (`RestoredIffTokenKnown`). The returning client
  is later expelled from its rooms while connected (`ReturningClientIsExpelled`, `ExpiryKeepsRoomIff`).
- The room caps: a restore re-enters a room the client has left meanwhile, without any admission test
  (`PendingLeaveBreaksCaps`, `RestoreKeepsCapsIff`); the same run shows a departed peer in a list
  until the new sender is registered (`PendingLeaveShowsGhost`, `RestoreGhostlessIff`).
- The grace period is for WebSocket clients: an SSE or polling connect looks only at the token in
  memory and never restores, known token or not (`HttpNeverRestores`).
- A reservation "returns false if the limit has been reached": also when nobody is connected
  (`RefusedWithNobodyConnected`, `RefusedIff`). A reconnect known only from Redis takes no slot and
  makes the counter wrap when it leaves (`RedisReconnectLocksOut`, `ExactStepIff`, `ExactThroughoutIff`).
- Gap detection needs numbers to be stored in the order they are taken (`RacingRelaysHideGap`,
  `IncreasingThroughoutIff`, `CompleteIff`), and every disconnect empties the client's buffer without any
  later gap notice (`DisconnectForgetsSilently`, `WholeHistoryIff`).
- A message queued between a sweep's age test and its read expires at once (`ExpiredAtOnce`,
  `AgedIffQueuedBeforeCheck`, `ClearExpiresNothingEarlyIff`); one queued between the read and the clear
  of a drain is dropped unread (`DroppedUnread`, `DrainDropsExactly`).
- "DATA never crosses tenants": a membership kept for a returning session is inherited by the next
  connection under the same client id, whatever its tenant (`DataCrossesTenants`, `AlignedThroughoutIff`,
  `TrafficNeverCrosses`); it never happens where each id keeps to one tenant (`SteadyRunMeets`). Eviction
  forgets neither rooms nor tenant (`EvictedTenantStays`).
- A delivery whose channel breaks clears what it has not sent, so "received, queued, expired or evicted"
  fails (`BrokenDeliveryDropsQueue`, `ConservedIffUnbroken`). Two deliveries of one client that read before
  either clears send a message twice (`DeliveredTwice`, `AtMostOnceIff`).
- Rooms and clients share the key space of the replay buffer: a client is replayed what was said in a room
  whose storage key is its id (`RoomDataReplayedToNamesake`, `CatchUpIsOwnIff`).
- Two tenants with one email lose each other's sign-in (`SharedEmailLosesLogin`, `CreateKeepsFindableIff`).
- An update that is overtaken by a key rotation brings the retired key back (`UpdateRevivesRetiredKey`,
  `MutualThroughoutIff`).
- A lookup overtaken by a mutation and its invalidation puts the old tenant back into the cache
  (`DeletedTenantStillServed`, `PutKeepsCoherentIff`, `InvalidationTakesEffectIff`).

## Model

| member | source | states |
|---|---|---|
| Identifiers.NamespaceInjective | src/handlers/message.rs:24-35 | two (tenant, room) pairs with valid rooms share a storage key iff they are the same pair, whatever the tenant ids contain |
| Identifiers.IdentifierCharacters | src/validation.rs:35-41 | an identifier character is a printable one that is none of the thirty punctuation marks that matter in JSON, keys and paths |
| Identifiers.IdentifierLength | src/validation.rs:35-41 | texts of such characters are valid from one to 128 of them |
| Identifiers.DisplayInvertsNamespace | src/handlers/message.rs:37-45 | the displayed name is the room joined iff the tenant id is free of the separator |
| RoomEffects.StepEffect | src/handlers/message.rs:329-566 | what every step does to rooms, reverse index and pending removals, member by member; all other steps leave them alone |
| RoomEffects.PresenceAfterRemoval | src/handlers/message.rs:457-475 | exactly which presence entries survive a removal, including the early return for unknown rooms |
| RoomIndexes.CoreRun | src/handlers/message.rs:269-341 | in every run: the reverse index only lists rooms the client is in (so the already-member shortcut is safe), no room is empty, no client exceeds its room cap, pending lists are duplicate-free |
| RoomIndexes.AdmittedFits | src/handlers/message.rs:272-327 | an admitted join fits the server-wide and the per-room cap, shortcut included |
| RoomLaws.JoinAdmits | src/handlers/message.rs:242-377 | a join with a valid name, allowed by the claims, of a member or within both caps, into a room that is not full puts the client into the room and its index; it alone hears the member list and then the room's presence |
| RoomLaws.JoinRefuses | src/handlers/message.rs:242-327 | any other join changes nothing, and the client hears the reason of the first test that fails |
| RoomLaws.RemovalAnnounced | src/handlers/message.rs:457-496 | after a removal whoever stays hears exactly one list, the members left, under the displayed name, and nobody else anything; an unknown room is left alone |
| RoomLaws.LeaveLaw | src/handlers/message.rs:424-445 | a leave is a removal from the room of that name in the client's tenant, and nothing under an invalid name |
| RoomLaws.ResyncLaw | src/handlers/ws.rs:251-268 | a resync sends one client the members of a room that exists, under its displayed name |
| RoomLaws.ListsStep | src/handlers/message.rs:343-491 | whatever the step, a client's latest list for a room is kept, reset with its sender or exactly the members, and every departure is announced to all who stay |
| RoomLaws.OnlyNewcomersMissingRun | src/handlers/message.rs:343-358 | in every run, whoever is in a room and missing from the list a client last received came in after that list was sent |
| RoomLaws.PresenceLaw | src/handlers/message.rs:387-421 | an update with content becomes the client's entry, member or not, and reaches exactly the other registered members |
| RoomLaws.DataLaw | src/handlers/message.rs:165-215 | room DATA reaches exactly the other registered members; without the relay only the sender hears, an error |
| RoomLaws.WsConnectRefused | src/handlers/ws.rs:97-135 | a connect with a wrong token, or a new one without a slot, changes nothing |
| RoomLaws.WsConnectTaken | src/handlers/ws.rs:97-185 | any other notes the token and the tenant, and a new client's token in Redis, and touches nobody else |
| RoomLaws.HttpConnectTakenIff | src/handlers/http.rs:83-111 | an SSE connect is taken iff it shows the token in memory, or none is there and a slot is granted; exactly what it then changes |
| RoomLaws.DeferredDisconnect | src/handlers/message.rs:505-529 | a disconnect with a grace period takes sender, token and tenant, moves the index into a session record of that moment, and leaves the rooms |
| RoomLaws.ExpiresIff | src/handlers/message.rs:543-556 | a session expires iff there is a grace period and it is over |
| RoomLaws.KeptThroughGrace | src/handlers/message.rs:543-566 | over runs with clocks, no recorded membership is taken before the grace period has passed, however often the client comes and goes |
| RoomLaws.DisconnectShelters | src/handlers/message.rs:505-529 | the record a disconnect makes shelters every room the client was in from that moment on |
| RoomIndexes.CapsRun | src/handlers/message.rs:296-327 | unless somebody leaves a room its pending removal lists, both caps hold after every run |
| RoomIndexes.RestoreIsInvisibleInRooms | src/handlers/ws.rs:138-148 | restoring a sound pending removal leaves the rooms map as it was |
| RoomIndexes.ExactRun | src/handlers/message.rs:452-566 | in every disciplined run a client is in a room iff its index or its pending removal lists it, never both |
| RoomIndexes.ExactWithoutGrace | src/handlers/message.rs:505-539 | with a zero session TTL nothing is ever pending and the two indexes are inverse in every run |
| Sessions.RestoredIffTokenKnown | src/handlers/ws.rs:97-154 | a reconnect of a client with a pending removal restores its rooms iff the presented token is still known |
| Sessions.ExpiryKeepsRoomIff | src/handlers/message.rs:557-566 | in every state, a client is in a room after its session's expiry iff it was before and the session record does not list the room |
| Sessions.HttpNeverRestores | src/handlers/http.rs:83-111 | an SSE connect leaves session records and memberships alone, so the recorded rooms are lost at expiry whatever token it presents |
| Sessions.ReturningClientIsExpelled | src/handlers/ws.rs:367-376 | a reachable state where a client that came back within the TTL is expelled while connected |
| Sessions.PendingLeaveBreaksCaps | src/handlers/ws.rs:138-152 | reachable states above the total cap and above the room size cap |
| Sessions.RestoreKeepsCapsIff | src/handlers/ws.rs:138-152 | a restore keeps both caps iff the rooms it would create and the members it would add fit |
| Sessions.PendingLeaveShowsGhost | src/handlers/ws.rs:138-157 | a reachable state where a client's latest list names a peer that has left |
| GhostPeers.GhostlessStep | src/handlers/message.rs:343-358 | every step keeps a client's latest lists within the member sets, given a safe restore |
| GhostPeers.RestoreGhostlessIff | src/handlers/ws.rs:138-154 | a restore keeps a client's lists sound iff it is another client's or no held list names an outsider |
| GhostPeers.GhostlessRun | src/handlers/message.rs:471-491 | in every run, unless a reconnect of its own has restored a session and not yet registered its new sender, a client sees no ghost in any room it is in; refused connects change nothing |
| GhostPeers.GhostlessDisciplinedRun | src/handlers/ws.rs:251-268 | without leaves of pending rooms this holds without exception |
| Isolation.AccountedRun | src/handlers/message.rs:265-341 | every membership, reverse entry and pending entry of every run goes back to an admitted join under the tenant its key names |
| Isolation.TrafficStaysInNamespace | src/handlers/message.rs:203-215 | after any run, whoever a room DATA or presence frame reaches was at some time of the run admitted to that room name under the sender's current tenant |
| Alignment.CrossesIff | src/handlers/message.rs:203-215 | a room frame stays within the sender's tenant iff the room is of the tenant its recipient is connected under |
| Alignment.AlignedStepIff | src/handlers/ws.rs:124-206 | a step keeps every registered client in rooms of its own tenant only iff, where it registers a sender or changes its tenant or rooms, it finds them so |
| Alignment.AlignedThroughoutIff | src/handlers/ws.rs:124-206 | this holds at every moment of a run iff every step of it does so |
| Alignment.TrafficNeverCrosses | src/handlers/message.rs:203-215 | in such runs room DATA and presence reach only clients connected under the sender's tenant |
| Alignment.SteadyRunMeets | src/handlers/message.rs:24-35 | runs in which each client id connects, joins and registers under one tenant are such runs, whatever disconnects, restores, expiries and evictions come between |
| Crossing.DataCrossesTenants | src/handlers/message.rs:203-215 | a run in which a client connected under one tenant is sent the room DATA of another |
| Crossing.EvictedTenantStays | src/services/check_broken.rs:70-76 | after an eviction a new connect without an API key acts under the old tenant, still in its rooms |
| Transparency.StepAgrees | src/handlers/message.rs:232-566 | states differing only in an absent client's records stay so, and enable the same steps, under everybody else's steps |
| Transparency.BlipAgrees | src/handlers/ws.rs:138-154 | a blip that ends in a restore and its absence lead to agreeing states, whatever comes between and after |
| Transparency.BlipIsInvisible | src/handlers/message.rs:499-529 | removing a restored blip from a run gives the same rooms, presence, pending removals, tenants and tokens, the same reverse index up to empty sets, and the same frames to everybody else |
| RoomServer.Server.HandleRoomJoin | src/handlers/message.rs:232-384 | is the join step: all refusals in order, both indexes, the greeting |
| RoomServer.Server.RemoveClientFromRoom | src/handlers/message.rs:452-497 | is the removal step, with the fan-out loop |
| RoomServer.Server.FanOut | src/handlers/message.rs:208-214 | the member loop sends the frame once to exactly the registered members not skipped |
| RoomServer.Server.HandleRoomLeave | src/handlers/message.rs:424-445 | is the leave step |
| RoomServer.Server.RemoveClientFromAllRooms | src/handlers/message.rs:505-539 | immediate or deferred removal, for some walk of the room set |
| RoomServer.Server.CleanUp | src/handlers/ws.rs:359-376 | is the disconnect step |
| RoomServer.Server.CleanupExpiredSessions | src/handlers/message.rs:543-566 | removes the record of a client iff its grace period is over, each with one expiry step |
| RoomServer.SweepIsRun | src/handlers/message.rs:550-565 | the sweep is a run of single expiry steps |
| RoomServer.Server.Connect | src/handlers/ws.rs:97-185 | is the connect step and returns exactly the rooms to resync |
| RoomServer.Server.RestoreRooms | src/handlers/ws.rs:142-148 | the restore loop adds the client to exactly the listed rooms |
| RoomServer.Server.Resync | src/handlers/ws.rs:251-268 | one current member list per restored room that exists |
| RoomLaws.ResyncAllLaw | src/handlers/ws.rs:251-268 | after it the client holds the exact list of every listed room that exists |
| RoomServer.Server.HandlePresenceUpdate | src/handlers/message.rs:387-421 | is the presence step |
| RoomServer.Server.HandleRoomData | src/handlers/message.rs:165-215 | is the room fan-out of DATA |
| ReplayBuffer.TailRun | src/replay_buffer.rs:40-72 | after any run the buffer is the end of the log, and what the last max(1, max_size) pushes have beyond it is expired |
| ReplayBuffer.ReplayRefinesLog | src/replay_buffer.rs:75-89 | a replay equals, in order, the unexpired pushes above the requested number among the last max(1, max_size) since the key's last removal |
| ReplayBuffer.EvictionExact | src/replay_buffer.rs:103-131 | an eviction takes from every buffer all entries as old as the TTL in front of the first that is not, and removes the buffers left empty |
| ReplayBuffer.PushExact | src/replay_buffer.rs:40-72 | a push takes such a front, then one more iff the buffer is still full, and adds its entry at the end; other keys are left alone |
| ReplayBuffer.NoEmptyBuffer | src/replay_buffer.rs:103-131 | no run leaves an empty buffer behind |
| ReplayBuffer.SelectSnoc | src/replay_buffer.rs:75-89 | a replay takes an entry iff it is newer than asked for and younger than the TTL |
| ReplayBuffer.Buffer.Push | src/replay_buffer.rs:40-72 | the eviction loop, the size bound and the append |
| ReplayBuffer.Buffer.ReplaySince | src/replay_buffer.rs:75-89 | the filter, unknown keys included |
| ReplayBuffer.Buffer.OldestSeq | src/replay_buffer.rs:93-95 | the front's number, None when nothing is buffered |
| ReplayBuffer.Buffer.RemoveClient | src/replay_buffer.rs:98-100 | forgets the key |
| ReplayBuffer.Buffer.EvictExpired | src/replay_buffer.rs:103-131 | the nested loops drop expired fronts of all keys and remove emptied buffers |
| ReplayGap.NumbersIncrease | src/handlers/message.rs:189-228 | with numbering and storing as one step, numbers along every log are strictly increasing and at most the counter |
| ReplayGap.NoGapMeansComplete | src/handlers/http.rs:118-132 | if no gap is reported, the replay equals that of the whole log since the last removal, however many pushes overflowed |
| ReplayGap.FreshFrontMeansEverything | src/handlers/http.rs:118-132 | if the front is unexpired too, no later message at all is missing |
| ReplayGap.EmptyMeansExpired | src/replay_buffer.rs:75-95 | with messages stamped in order, nothing buffered means that nothing since the last removal is unexpired |
| ReplayGap.CompleteIff | src/replay_buffer.rs:75-95 | after any run of the buffer, in whatever order numbers were stored, all no-gap replays are complete iff no lost unexpired message is numbered above the front |
| ReplayGap.WholeHistoryIff | src/handlers/message.rs:505-539 | a no-gap replay is complete over everything ever pushed iff the last removal discarded nothing unexpired and newer than requested |
| ReplayRaces.UniqueRun | src/handlers/message.rs:189-228 | with numbering and storing as separate steps, no number is stored twice, however relays race |
| ReplayRaces.IncreasingThroughoutIff | src/handlers/message.rs:189-228 | numbers increase along a log throughout a run iff every message is stored in its turn |
| ReplayRaces.InTurnMeansComplete | src/handlers/http.rs:118-132 | in such runs a replay without a gap report equals that of the whole log |
| ReplayRaces.RacingRelaysHideGap | src/handlers/message.rs:190-218 | a run that stores out of order and loses a message without a gap report |
| ReplayRaces.DisconnectForgetsSilently | src/handlers/message.rs:528-538 | a client back within the TTL is told of no gap and gets nothing |
| ReplayKeys.CatchUpIsOwnIff | src/handlers/http.rs:118-132 | a catch-up holds only messages addressed to the client iff nothing in its reach was said to a room whose storage key is the client's id |
| ReplayKeys.ValidIdIsUntenantedRoom | src/validation.rs:35-41 | a validated id is the storage key of the untenanted room of that name and of no other |
| ReplayKeys.RoomDataReplayedToNamesake | src/handlers/message.rs:217-227 | a run in which a client is replayed what was said in a room it never joined |
| ReplayGap.RelayState.HandleData | src/handlers/message.rs:189-228 | takes the next number; unless ephemeral, the message is the next entry of its key's log and of no other |
| ReplayGap.RelayState.CatchUp | src/handlers/http.rs:118-132 | a gap notice iff the front is above the requested number; without one, and with something buffered or messages stamped in order, the replay misses no unexpired message since the last removal, and none at all iff that removal discarded none |
| Slots.BalancedRun | src/state.rs:133-148 | under every interleaving the counter is clients plus tasks in flight plus drift, modulo 2^64 |
| Slots.SoundRun | src/services/check_broken.rs:70-97 | in runs of guarded steps the counter is exactly clients plus tasks in flight, and granted slots never exceed the limit |
| Slots.NeverUnderflows | src/state.rs:142-148 | the counter is positive wherever it is decremented |
| Slots.ExactStepIff | src/services/check_broken.rs:79-97 | a step keeps the counter exact iff a reconnect is of a client in memory, an insert of one that is not, and a reconciliation stores clients plus tasks in flight |
| Slots.ExactThroughoutIff | src/handlers/ws.rs:101-185 | the counter is exact at every moment of a run iff every step of it is guarded so |
| Slots.RefusedIff | src/state.rs:129-140 | an attempt is refused iff clients and tasks in flight, refused ones included, fill the limit |
| Slots.ReconcileRepairsIff | src/services/check_broken.rs:79-97 | reconciliation sets the counter to the clients it counted, however far it had drifted, and repairs it iff by then as many clients and tasks exist |
| Slots.RefusedWithNobodyConnected | src/state.rs:129-140 | a reachable refusal with no slot held |
| Slots.RedisReconnectLocksOut | src/handlers/ws.rs:101-133 | after an unpaired reconnect leaves, every connect to the empty server is refused |
| Slots.Counter.TryReserveConnectionSlot | src/state.rs:133-140 | without interference: granted iff below the limit; a grant is the reservation step, a refusal leaves the whole protocol as it was |
| Slots.Counter.ReleaseConnectionSlot | src/state.rs:144-148 | a holder's release: undone by a reservation, and from a sound state it does not wrap and leaves a sound state |
| QueueLedger.LedgerRun | src/redis_realm.rs:97-147 | in every run, what was ever queued for a peer is, in order, the chunks that left the queue followed by the queue; every task and chunk keeps what its fate promises |
| QueueLedger.QueueIsTail | src/redis_realm.rs:97-147 | in every reachable state the queue is the end of what was ever queued, all of it addressed to that peer |
| QueueLedger.ChunkJustified | src/handlers/ws.rs:389-410 | whatever left a queue was one stretch of what was queued, and was delivered, expired or evicted as recorded |
| QueueFates.NoticesOnce | src/services/messages_expire.rs:55-76 | for one destination, each online sender not seen before gets exactly one notice and nobody else any |
| QueueFates.KeysLaw | src/redis_realm.rs:97-147 | for every peer, a push appends and stamps, a touch stamps only, a clear leaves neither queue nor stamp |
| QueueFates.TransmitLaw | src/handlers/message.rs:95-124 | a message for a peer with a sender goes straight out; for one without it is queued iff it is neither LEAVE nor EXPIRE |
| QueueFates.SignalsOnlyRun | src/handlers/message.rs:119-123 | in every run neither LEAVE nor EXPIRE is ever queued |
| QueueFates.OnlineLaw | src/handlers/ws.rs:206-206 | who has a sender changes by registration, eviction and loss only |
| QueueFates.SweepGoesOnIff | src/services/messages_expire.rs:41-49 | the sweep goes on with a queue iff its stamp, or zero without one, is the timeout old by the sweep's clock |
| QueueFates.ReadLaw | src/handlers/ws.rs:389-396 | a read holds the whole queue and leaves it in place; a delivery that finds nothing is over |
| QueueFates.KeyIsAmbiguous | src/services/messages_expire.rs:62-69 | over several destinations the deduplication key would hide a notice |
| QueueFates.SweepNotifiesOnce | src/services/messages_expire.rs:51-76 | in every reachable state a sweep sends one EXPIRE per distinct online sender of what it read |
| QueueFates.DeliveredIsReceived | src/handlers/ws.rs:389-410 | in every run, what a delivery sent before its channel broke is in what the peer received, as the message of that position in the log |
| QueueFates.DeliveredPlacesDiffer | src/handlers/ws.rs:389-410 | delivered messages of different chunks, and different ones of a chunk, are received at different places |
| QueueOnce.OnceStepIff | src/handlers/ws.rs:389-410 | a step keeps every queued message received at most once iff it is no delivery that sends something of a queue whose first message has been sent already |
| QueueOnce.AtMostOnceIff | src/handlers/ws.rs:389-410 | in every run, no queued message is received twice iff no step of it is such a delivery |
| QueueFates.ExpiredIsNotified | src/services/messages_expire.rs:51-78 | in every run, the notices kept for an expired chunk are one per sender, online at the time, of what the sweep read |
| QueueFates.ExpiredSenderToldOnce | src/services/messages_expire.rs:55-76 | the sender of an expired message that was read, if online then, was told exactly once |
| QueueFates.AgedIffQueuedBeforeCheck | src/services/messages_expire.rs:36-53 | in every run, an expired message has spent the timeout in the queue iff it was queued before the sweep's age test |
| QueueFates.ClearExpiresNothingEarlyIff | src/services/messages_expire.rs:41-78 | a sweep's clear expires nothing early iff nothing was queued since its age test or the queue is empty |
| QueueFates.DrainDropsExactly | src/redis_realm.rs:118-147 | a drain clears what it read followed by exactly what was queued since its read, and that part is dropped unread |
| QueueRaces.ExpiredAtOnce | src/services/messages_expire.rs:41-78 | a run in which a message is expired and its sender told at the moment it was queued |
| QueueRaces.DroppedUnread | src/services/messages_expire.rs:51-78 | a run in which a message is neither queued, received nor notified |
| QueueRaces.BrokenDeliveryDropsQueue | src/handlers/ws.rs:398-409 | a run in which a delivery breaks before its first send and the queue is cleared all the same |
| QueueRaces.DeliveredTwice | src/handlers/ws.rs:389-410 | a run in which two connections of one client receive the same queued message |
| QueueDelivery.AcceptedAccountedFor | src/handlers/message.rs:95-134 | when the tasks of a peer do not overlap, what was accepted for it is what is past, in order, followed by the queue, and what it received is exactly what was forwarded or went out before a channel broke |
| QueueDelivery.EveryMessageOnce | src/handlers/message.rs:95-134 | then every accepted message is exactly once received, queued, expired, evicted, or cut off by a broken delivery |
| QueueDelivery.ConservedIffUnbroken | src/handlers/ws.rs:398-409 | nothing is cut off, so that received, queued, expired and evicted make up all that was accepted, iff every delivery of the run sends all it read |
| QueueDelivery.NeverEarly | src/services/messages_expire.rs:41-53 | when the tasks of a peer do not overlap, none of its messages expires before it has spent the timeout in the queue |
| QueueDelivery.DeliveryInOrder | src/handlers/ws.rs:389-410 | then what it receives is an in-order selection of what was accepted for it |
| QueueRealm.Realm.AddMessageToQueue | src/redis_realm.rs:97-115 | is the push of the machine; an age test passes only the timeout after it |
| QueueRealm.Realm.ReadAllMessages | src/redis_realm.rs:118-131 | is the touch of the machine and returns the queue |
| QueueRealm.Realm.ClearMessageQueue | src/redis_realm.rs:134-147 | is the clear of the machine |
| QueueRealm.Realm.NotifySenders | src/services/messages_expire.rs:53-76 | the seen loop puts on each sender exactly its notices, in order, and nothing on anybody else |
| QueueRealm.ToldKeeps | src/services/messages_expire.rs:71-75 | each sender keeps what it had and is told of a peer as often as a notice about it was sent to that sender |
| QueueRealm.Realm.SweepQueue | src/services/messages_expire.rs:41-78 | undisturbed: skips a queue iff it was stamped within the timeout, else notifies and clears |
| QueueRealm.Realm.SendUntilBroken | src/handlers/ws.rs:398-407 | the send loop puts on the channel, in order, all it holds or what comes before the break |
| QueueRealm.Realm.DeliverQueuedMessages | src/handlers/ws.rs:389-410 | undisturbed: sends the queue in order until the channel breaks and clears it all the same; an empty queue is only touched |
| TenantStore.ConsistentRun | src/tenant.rs:165-267 | over all runs with fresh ids and keys, id to hash and hash to tenant are mutually inverse and no email entry dangles |
| TenantStore.CreateAddsExactly | src/tenant.rs:165-182 | the new key resolves to the tenant given, all of it, if active; id and email lead to it; everything else is as before |
| TenantStore.UpdateReplacesExactly | src/tenant.rs:187-196 | an update replaces what the tenant's own key resolves to and nothing else |
| TenantStore.RotateRetiresExactly | src/tenant.rs:221-248 | the old key resolves to nothing, the new one to the same tenant, every other key as before |
| TenantStore.DeleteRevokesExactly | src/tenant.rs:251-267 | deletion revokes the tenant's key and nobody else's |
| TenantStore.CreateKeepsFindableIff | src/tenant.rs:165-182 | creation keeps every tenant findable by email iff the email is unused |
| TenantStore.FindableRun | src/tenant.rs:198-205 | with unused emails every tenant stays findable by email in every run |
| TenantStore.SharedEmailLosesLogin | src/tenant.rs:257-264 | deleting one of two tenants with one email makes the other unfindable |
| TenantStore.Redis.CreateTenant | src/tenant.rs:165-182 | is the create step |
| TenantStore.Redis.UpdateTenant | src/tenant.rs:187-196 | is the update step; false iff the id is unknown |
| TenantStore.Redis.RotateApiKey | src/tenant.rs:224-248 | is the rotate step |
| TenantStore.Redis.DeleteTenant | src/tenant.rs:251-267 | is the delete step |
| TenantRaces.UndisturbedIsStep | src/tenant.rs:187-267 | the reads and the write of an operation nobody overtakes are its step in the store |
| TenantRaces.BeginsIff | src/tenant.rs:187-192 | in any state an operation goes on iff its id is known, with the hash the index names |
| TenantRaces.OwnedStep | src/tenant.rs:165-267 | a key belongs to one tenant for ever, whoever overtakes whom |
| TenantRaces.MutualStepIff | src/tenant.rs:187-267 | a step keeps id to hash and hash to tenant mutually inverse iff it is no write of an overtaken operation |
| TenantRaces.MutualThroughoutIff | src/tenant.rs:187-267 | over all interleavings with fresh ids and keys they stay mutually inverse throughout iff no operation writes after another changed the tenant's key |
| TenantRaces.UpdateRevivesRetiredKey | src/tenant.rs:187-196 | a run in which an update writes after a rotation and the retired key resolves again |
| TenantCache.BoundedStaleness | src/tenant.rs:105-153 | whatever the cache answers was read from a store there has been, or is the None of a failed read, and was put at most 30 s ago |
| TenantCache.PutIsHitIff | src/tenant.rs:95-128 | a put is answered from the cache for 30 seconds and no longer, and after an invalidation nothing is |
| TenantCache.CoherentRun | src/handlers/admin.rs:133-135 | in every run whose invalidations find no such lookup, the cache agrees with the store whenever no mutation awaits its invalidation |
| TenantCache.PutKeepsCoherentIff | src/tenant.rs:143-148 | a put keeps a coherent cache coherent iff the read failed or its record is the same now as in the version read |
| TenantCache.InvalidationTakesEffectIff | src/tenant.rs:124-128 | after an invalidation the cache agrees with the store until its next change, whatever lookups do, iff no lookup in flight read a record that has changed since |
| TenantCache.DeletedTenantStillServed | src/handlers/admin.rs:190-192 | a lookup overtaken by deletion and invalidation serves the deleted tenant again |
| TenantCache.Cache.Get | src/tenant.rs:110-117 | a hit iff an entry is at most 30 s old |
| TenantCache.Cache.ResolveApiKey | src/tenant.rs:133-153 | cached or fetched value, filled on a miss, only active tenants |
| TenantCache.Gateway.Connect | src/tenant.rs:133-153 | undisturbed, a client is resolved as the store says now, and the cache still agrees with it |
| TenantCache.Gateway.RotateKey | src/handlers/customer.rs:399-408 | undisturbed, after rotation and invalidation the old key is refused, the new one admits the same tenant, every other key is as before |
| Calendar.DayNumberOfCivil | src/email.rs:148-159 | every integer day gives a valid date whose Gregorian day count is that day |
| Calendar.CivilOfDayNumber | src/email.rs:148-159 | every valid date is recovered from its day count |
| Calendar.ConsecutiveDays | src/email.rs:148-159 | day 0 is 1970-01-01 and consecutive days are consecutive dates, negative days included |
| Calendar.CivilIncreases | src/email.rs:148-159 | days and dates are ordered alike |
| Calendar.NoOverflowIff | src/email.rs:148-159 | on 64-bit days no operation on day, era or year overflows iff the day is at most the maximum minus 719468 |
| Calendar.SmallWithinEra | src/email.rs:151-154 | the operations within an era stay small |
| Calendar.SmallWithinYear | src/email.rs:155-157 | the operations within a year stay small |
| Timestamp.TimestampRoundTrip | src/email.rs:136-146 | the printed timestamp of every second since the epoch reads back as that second, whatever the width of the year |
| Timestamp.PrintingNeverOverflows | src/email.rs:136-144 | no 64-bit second count makes the date computation overflow |
| Timestamp.TimestampText | src/email.rs:133-146 | up to year 9999 the text is the Gregorian date and the hours, minutes and seconds of the day, digit by digit |
| Timestamp.TimestampShape | src/email.rs:133-146 | up to year 9999 the text is digits and separators in exactly the places RFC 3339 (section 5.6) gives them |
| Timestamp.TimestampOrder | src/email.rs:145-145 | up to year 9999 string order is time order |
| Canonical.Rfc3986 | src/email.rs:115-126 | the loop computes the encoding |
| Canonical.ByteEncoding | src/email.rs:113-126 | letters, digits and four marks stay, any other byte becomes a percent sign and two upper-case hex digits |
| Canonical.LeqIsBytesUpTo | src/email.rs:98-98 | a key comes before another iff it is a prefix of it or has the smaller byte at the first difference |
| Canonical.SortAscends | src/email.rs:98-98 | sorting puts keys in ascending order of their bytes |
| Canonical.DecodeEncode | src/email.rs:115-126 | percent-decoding (section 2.1 of RFC 3986) undoes the encoding |
| Canonical.EncodeFixesIff | src/email.rs:113-126 | a text is left as it is iff it is all unreserved; any other gets strictly longer |
| Canonical.JoinParses | src/email.rs:99-103 | a canonical query reads back as its parameter list |
| Canonical.StringToSignDetermines | src/email.rs:97-104 | for a fixed method, equal strings-to-sign iff equal sorted parameter lists |
| Canonical.StringToSignReadsBack | src/email.rs:97-104 | between its ampersands a string-to-sign holds the method, an encoded slash, and a part that decodes to the query of the sorted parameters |
| Canonical.SortStable | src/email.rs:98-98 | sorting keeps the order of entries with equal keys |
| Canonical.OrderIndependentIff | src/email.rs:97-104 | all arrangements give one string iff equal keys have equal values |
| Canonical.Canonicalize | src/email.rs:97-104 | leaves the given parameters in ascending order of their keys' bytes and returns their string-to-sign |

Theorems about runs start from any state that satisfies the invariant they keep; the initial state of
each machine does.

## Left out

- Interleavings inside one room handler: a handler is one step here, although its map operations are separately locked.
- GhostPeers.GhostlessRun: lists are told apart by storage key; a client in two rooms of the same name under different tenants gets both under one displayed name.
- Slots.SoundRun: the condition that fewer than 2^64 connections exist stands for the bound memory puts on them.
- QueueDelivery.DeliveryInOrder: a transmission that finds a closed channel (message lost, sender dropped) is modelled as the sender dropping.
- QueueFates.SweepNotifiesOnce: the sends of one drain are one step, so the senders online do not change between two of them; a timestamp is the time of the pipeline that sets it.
- ReplayGap.NumbersIncrease: holds for one step taking and storing a number; ReplayRaces has the two steps and the exact condition.
- TenantStore.ConsistentRun: the reads before a pipeline are one step with it, and updates keep the email, as both callers do; TenantRaces takes the steps apart.
- TenantRaces.MutualThroughoutIff: says nothing of the email index when operations overlap.
- Calendar.NoOverflowIff: the comparison of the operations within an era and a year is in SmallWithinEra and SmallWithinYear.
- The WebSocket path reports a replay gap but replays nothing; only the SSE and polling paths replay.
- WebSocket, SSE and polling transport, TLS, CORS and routing: framework plumbing without state properties of its own.
- The rate limiter: its algorithm is in a crate that is not part of this model.
- HMAC, SHA, base64, JWT decoding, UUID generation and JSON serialization: abstract or taken as faithful.
- Webhooks, email sending, TURN credentials, dashboard login, metrics, logging, configuration, shutdown drain and the periodic Redis sync: no hard invariant.
- Redis failures other than a failed tenant lookup or registration, and deployments with several instances: the code has no protocol for them.
