# Kenshi multiplayer: a verified model

This project models the hard parts of a multiplayer mod for Kenshi and proves what they do.

- **The dedicated server** (`Types`, `Combat`, `ServerModel`, `Persistence`, `GameServer`, `WorldFile`).
  Every packet, connect, disconnect and tick runs under one lock, so each is one atomic step. `ServerModel` gives
  each step as a function to a new state and a list of sends. `GameServer` is the object whose handlers update the
  maps in place, with the loops the program has; each handler is proved to take exactly that step, and `Update`, the
  turn of its loop, carries the theorems about runs over to the object.
- **Whole runs of the server** (`Runs`, `Ownership`, `HandshakeFailure`, `Names`, `Reclaim`, `Hosts`, `HostBeliefs`,
  `Replication`, `Mirroring`, `Replicas`, `Identities`, `Rosters`, `Clients`, `ClientRegistry`, `Ghosts`, `Handling`,
  `Mortality`, `Interference`, `RoundTrip`). A run is any sequence of joins, departures, packets, orphan sweeps
  and restarts; what the environment chooses (hash-map iteration order, random draws, the next host) is part of the
  event, so the theorems hold for every choice.
- **The crash-safe save file** (`SaveFile`): a file system in which every operation may fail and the process may stop
  between any two of them.
- **Client-side spawning** (`SpawnGate`, `SpawnQueue`, `CommandQueue`): the loading-phase gate, the retrying spawn
  queue and its hook-side drain, and the queue from the network thread to the game thread.
- **Self-contained algorithms** (`PlayerManager`, `ZoneIndex`, `Rebase`, `Splicing`, `Framing`): unique names, the
  sliding-window rate limiter, the zone population index, and the renaming tool for binary mod files.

## Main results

1. *Replication* (`Mirroring.Replicated`, `Clients.ExactView`, `Replicas.NewcomerSeesAll`, `Identities.ClientsAreRight`): in every state of every run, folding any client's
   messages gives exactly the server's entity ids and alive flags, apart from two sets that are spelled out: what
   the client was never shown (with in-range spawns, exactly what it built) and what it dismantled itself.
2. *Ownership and return* (`Ownership.RunKeepsInv`, `Reclaim.LeaveThenReturn`): every owner is 0 or connected, saved
   records are disjoint and name only unowned or removed entities, and a player that comes back after any undisturbed run,
   restarts included, owns exactly what it left behind that still exists.
3. *Save, restart, reconnect* (`RoundTrip.SaveRestartReconnect`), with exact conditions for losing nothing.
4. *Death is final* (`Mortality.DeathIsFinal`), *one host* (`HostBeliefs.HostAgreement`, `HostBeliefs.OneHost`),
   *non-interference* (`Interference.NonInterference`, `Interference.SilentPlayerIntact`).
5. *Crash safety* (`SaveFile.RecoverableThroughout`, `SaveFile.NeverLost`) over histories of saves, each completed,
   failed or cut off anywhere, with exact conditions.
6. *The spawn gate* is open exactly when the history of events says so, and always opens again (`SpawnGate.GateExactly`,
   `SpawnGate.OpensAgain`); *spawn requests* are each settled once (`SpawnQueue.AllSettled`) and the queue empties.
7. *The renaming* accounts for every byte of any input (`Splicing.EveryByteAccounted`) and keeps the framing of
   length-prefixed strings under an exact condition, for every well-formed file (`Framing.FramingKept`).

## What the code does not do

Several promises one might expect turn out false of the code. The model keeps the code as it is; each entry names the
lemmas with the failing case and with the exact condition.

- A joining client is told who the host is exactly when it takes the role over (`Hosts.JoinerToldHost`); the comment at
  mp/KenshiMP.Core/core.h:149 expects an assignment on every reconnect. Since broadcasts also reach peers that have not
  shaken hands, and a client keeps its old player id between sessions, two clients can believe to be host
  (`HostBeliefs.TwoHosts`; exactly when: `HostBeliefs.HostAgreement`).
- No entity ever starts under player authority, so every position update, move order and attack of every run is ignored
  (`Interference.CommandsNeverAccepted`; exactly when: `Interference.SpawnCommandable`). The authority of new entities is
  therefore a parameter of the model, and all other theorems hold for every value of it.
- Names are not forced to be distinct on joining, so same-named players can abandon each other's entities for good
  (`Reclaim.SameNameAbandons`, `RoundTrip.SharedNameLosesOne`; exactly when: `Reclaim.ClaimSurvives`,
  `RoundTrip.SaveRestartReconnect`).
- A spawn position is not range-checked; a snapshot skips what is out of range (`Clients.SkippedIsMissing`) and a restart
  drops it (`RoundTrip.RestartLosesNothing`).
- A restart reuses ids exactly when the newest entity is gone or behind the cap (`RoundTrip.CounterSurvives`).
- A load that fails midway leaves entities at or above the id counter (`WorldFile.FailedLoad`).
- A handshake that fails halfway can leave the server without a host for good and lose the player's entities
  (`HandshakeFailure.AbortKeepsInv`, `HandshakeFailure.StuckForever`, `HandshakeFailure.SweepAfterAbort`).
- A client drops removals while its game is loading but keeps early spawns for later, so it can show entities that no
  longer exist (`ClientRegistry.GhostAppears`; exactly when: `ClientRegistry.GhostFreeIff`); while it waits for its
  handshake it does not hear of dismantlings either (`Ghosts.WaitingGhostAppears`; exactly when: `Ghosts.WaitingGhosts`,
  `Ghosts.NoGhosts`). It drops a leaver's entities while the server keeps them (`ClientRegistry.DepartureHides`).
- A KO report carries the health of the chest but overwrites that of the head (`Interference.ReportWritesHead`).
- A second fallback save after an interrupted one can lose the only backup (`SaveFile.ThreeSavesLoseAll`; exactly when:
  `SaveFile.NeverLost`).
- A zone load alone does not hold the spawn gate (`SpawnGate.ZoneLoadHolds`).
- With the factory function missing, the hook's second swap overwrites requests that arrived meanwhile
  (`SpawnQueue.HookConserves`).
- A rate limit of zero lets the first message through (`PlayerManager.ZeroLimitLeaks`; exactly when a limit holds:
  `PlayerManager.NoWindowOverfull`).
- A name that straddles a string and the next string's prefix can corrupt a prefix (`Framing.StraddleCorrupts`; exactly
  when: `Framing.FramingKept`).

The drain of the command queue ignores the function handed to it and calls each command's own body, which is what the
model has.

## Model

| member | source | states |
|---|---|---|
| `Combat.SelectBodyPart` | mp/KenshiMP.Server/combat_resolver.cpp:35-56 | the running-total loop picks the part whose interval of the total holds the roll, and the chest past the table |
| `Combat.PartTable` | mp/KenshiMP.Server/combat_resolver.cpp:34-46 | of rolls 1 to 100 thirty hit the chest, twenty the stomach, ten each the head, the arms and the legs |
| `Combat.ResolveCombat` | mp/KenshiMP.Server/combat_resolver.cpp:59-119 | one part loses 18 times the drawn factor, or 5.4 times if blocked, half cut and half blunt; KO iff some part is at -50 or less, death iff chest or head is at -100 or less; the dead stay dead |
| `Combat.DamageBounds` | mp/KenshiMP.Server/combat_resolver.cpp:59-119 | every hit costs between 4.32 and 21.6, blocked or not |
| `Combat.PartLoss` | mp/KenshiMP.Server/combat_resolver.cpp:59-119 | after any sequence of attacks each part has lost between 4.32 and 21.6 per hit on it, and nothing if never hit |
| `Combat.DeathTakesTenHits` | mp/KenshiMP.Server/combat_resolver.cpp:59-119 | from full health, death implies ten hits on one vital part |
| `Combat.FortySevenHitsKill` | mp/KenshiMP.Server/combat_resolver.cpp:59-119 | forty-seven hits on chest or head always kill |
| `Combat.HitBoundsAreTight` | mp/KenshiMP.Server/combat_resolver.cpp:59-119 | ten hits can kill and forty-six on the chest need not |
| `GameServer.SanitizeName` | mp/KenshiMP.Server/server.cpp:584-590 | the name is what was sent, up to a NUL or 31 characters, with exactly the unprintable characters left out and the rest in order, or "Player" if nothing is left |
| `Names.NameIsWhatWasSent` | mp/KenshiMP.Server/server.cpp:584-590 | the positions kept are strictly increasing and exactly the printable ones before the end of the name |
| `Names.CleanNameKept` | mp/KenshiMP.Server/server.cpp:584-590 | a printable name of 1 to 31 characters is taken as it is |
| `Names.NameStable` | mp/KenshiMP.Server/server.cpp:584-590 | a player that sends the name it was given is given it again |
| `Names.RunKeepsNames` | mp/KenshiMP.Server/server.cpp:584-600 | over every run every connected player's name is printable and has 1 to 31 characters |
| `GameServer.GameServer.HandleHandshake` | mp/KenshiMP.Server/server.cpp:533-753 | full, wrong version and repeated handshakes, then player creation, reclaim, host takeover, ack, introductions, snapshot: exactly the handshake step with its sends in order |
| `Rosters.HandshakeAnswered` | mp/KenshiMP.Server/server.cpp:533-660 | nothing to a peer that has a player, a rejection with its reason to one that finds the server full or speaks another version, otherwise a new player under a fresh id, with its ack and faction slot |
| `Rosters.RunKeepsLimit` | mp/KenshiMP.Server/server.cpp:540-562 | the player limit holds in every state of every run |
| `Rosters.RostersAgree` | mp/KenshiMP.Server/server.cpp:713-747 | over every run what a client was told about joining and leaving is exactly who else is connected, by name |
| `GameServer.GameServer.ReclaimEntities` | mp/KenshiMP.Server/server.cpp:611-626 | the loop hands the new player every recorded entity that exists and is unowned, and consumes the record |
| `GameServer.GameServer.SendWorldSnapshot` | mp/KenshiMP.Server/server.cpp:1328-1407 | from these messages the newcomer can put together the full record, equipment included, of every in-range entity, field by field as the server has it, and of no other |
| `Replicas.NewcomerSeesAll` | mp/KenshiMP.Server/server.cpp:1328-1407 | after a handshake the newcomer's records are exactly the in-range entities: owner, alive, kind, template, faction, name up to 255 characters, position, rotation, health and every nonzero slot |
| `GameServer.GameServer.HandleDisconnect` | mp/KenshiMP.Server/server.cpp:253-309 | releases and records the leaver's entities, tells the others, passes the host on: exactly the departure step |
| `Rosters.DepartureAnnounced` | mp/KenshiMP.Server/server.cpp:276-309 | who is told what: the others who left, everybody the new host if the host left and somebody remains, everybody the farewell |
| `GameServer.GameServer.SweepOrphans` | mp/KenshiMP.Server/server.cpp:191-218 | removes and announces exactly the entities whose owner is neither 0 nor connected |
| `GameServer.GameServer.HandlePositionUpdate` | mp/KenshiMP.Server/server.cpp:790-833 | the loop moves exactly the commandable entities with in-range positions, and the player with its first accepted entry |
| `GameServer.GameServer.HandleAttackIntent` | mp/KenshiMP.Server/server.cpp:854-927 | strikes only a live target in reach of a commandable attacker; the hit goes out first, then a death or else a KO |
| `GameServer.GameServer.HandleZoneRequest` | mp/KenshiMP.Server/server.cpp:1274-1326 | the loop sends exactly the foreign entities in or next to a zone in bounds |
| `Replicas.ZoneShowsNeighbours` | mp/KenshiMP.Server/server.cpp:1274-1326 | within bounds exactly the foreign entities of the zone and its eight neighbours are refreshed, field by field; out of bounds nothing is sent |
| `GameServer.GameServer.HandlePlayerReady` | mp/KenshiMP.Server/server.cpp:2419-2448 | marks the player once, and announces that all are ready exactly when that makes every one of several players ready |
| `Rosters.ReadyMeansReported` | mp/KenshiMP.Server/server.cpp:2419-2448 | in every state of every run a player is ready exactly when it has reported so since it joined |
| `Rosters.DeclaredReady` | mp/KenshiMP.Server/server.cpp:2419-2448 | over every run all players are declared ready by exactly those events that are the first report of a player who is not alone when everybody else connected has reported |
| `GameServer.GameServer.HandlePacket` | mp/KenshiMP.Server/server.cpp:311-531 | a packet from a peer that shook hands takes that player's step, any other is ignored |
| `GameServer.GameServer.Update` | mp/KenshiMP.Server/server.cpp:138-218 | one turn of the loop, for any join, departure, packet, sweep or restart: the object stays at the end of a run from a fresh server and has sent what that run sends; the invariant holds, every connected client's view agrees with the object's entities, and in one process no combat message names a victim after its death |
| `GameServer.LogIsSent` | mp/KenshiMP.Server/server.cpp:1411-1447 | what a client has received since its handshake is what the server sent to it since then, in order |
| `Mirroring.SpawnMirror` | mp/KenshiMP.Server/server.cpp:1108-1220 | a spawn request, accepted or not, keeps every client's view in agreement, the sender's included |
| `Replicas.SpawnShown` | mp/KenshiMP.Server/server.cpp:1108-1220 | a known kind below the cap makes one entity as asked for under a fresh id and the sender, moves a player still at the origin's zone to it, and tells every client exactly that entity; anything else does nothing |
| `Identities.ClientsAreRight` | mp/KenshiMP.Server/server.cpp:1183-1219 | over every run the kind, template, faction and name a client was told of an entity are right for as long as the entity exists |
| `Mirroring.BuildMirror` | mp/KenshiMP.Server/server.cpp:948-1005 | a build keeps every client's view in agreement, except that the builder is not shown what it built |
| `Handling.BuildPlacedThere` | mp/KenshiMP.Server/server.cpp:948-1005 | a build on the map within 500 of the builder makes one whole building there under a fresh id and tells the others where and what; any other does nothing |
| `Mirroring.DespawnMirror` | mp/KenshiMP.Server/server.cpp:1222-1247 | a despawn request keeps every client's view in agreement |
| `Handling.Despawned` | mp/KenshiMP.Server/server.cpp:1222-1247 | exactly the sender's own entity is removed and everybody told; otherwise nothing |
| `Mirroring.DemolishMirror` | mp/KenshiMP.Server/server.cpp:1775-1810 | a dismantling keeps every client's view in agreement, except that the one who dismantled still shows the building |
| `Handling.Dismantled` | mp/KenshiMP.Server/server.cpp:1775-1810 | the owner or the host removes an entity and the others are told; otherwise nothing |
| `Handling.Repaired` | mp/KenshiMP.Server/server.cpp:1812-1844 | the owner or the host raises the progress by an amount in (0, 1], kept within 0 and 1, and the others are told the new progress; otherwise nothing |
| `Mirroring.CombatMirror` | mp/KenshiMP.Server/server.cpp:1916-1955 | an attack or a death report keeps every client's alive flags in agreement |
| `Handling.AttackResolved` | mp/KenshiMP.Server/server.cpp:854-927 | carried out exactly on a live target within 15, or 150, of a commanded attacker: one part loses the damage, the hit is announced with it, then a death or else a KO; otherwise nothing |
| `Handling.MoveOrdered` | mp/KenshiMP.Server/server.cpp:835-852 | relayed to the others exactly for a live entity of the sender under player authority |
| `Handling.PositionsUpdated` | mp/KenshiMP.Server/server.cpp:790-833 | every entity is where its last accepted placement put it, the player where the first did; nothing else changes and nothing is sent |
| `Mirroring.AmendmentQuiet` | mp/KenshiMP.Server/server.cpp:1959-2008 | equipment, limb and status reports say nothing about, and do nothing to, ids and alive flags |
| `Handling.Equipped` | mp/KenshiMP.Server/server.cpp:1249-1272 | exactly one slot of the sender's own entity takes the item and the others are told; otherwise nothing |
| `Handling.LimbsReported` | mp/KenshiMP.Server/server.cpp:1959-1981 | the limbs of the sender's own entity are stored and relayed; otherwise nothing |
| `Handling.StatusReported` | mp/KenshiMP.Server/server.cpp:1985-2008 | exactly one effect of the sender's own entity is stored and relayed; otherwise nothing |
| `Handling.DeathReported` | mp/KenshiMP.Server/server.cpp:1916-1955 | a death report is accepted from the owner of a live victim or of a named killer and from nobody else; it then does nothing but kill the victim and tell everybody; otherwise nothing happens |
| `Handling.KnockOutReported` | mp/KenshiMP.Server/server.cpp:1871-1912 | likewise for a KO report, which does nothing but write the reported health to index 0 and tell everybody |
| `Runs.ActFrame` | mp/KenshiMP.Server/server.cpp:790-2008 | every packet keeps ids, owners, authorities, records and host, never revives, and adds at most one entity, the sender's, under a fresh id |
| `Rosters.RunFiles` | mp/KenshiMP.Server/server.cpp:812-820 | in every state of every run each entity is filed under the zone of its position |
| `Handling.ZoneHolds` | mp/KenshiMP.Common/include/kmp/types.h:176-183 | a zone is 750 wide in both horizontal directions and holds exactly its positions |
| `Interference.ReportWritesHead` | mp/KenshiMP.Server/server.cpp:1871-1912 | an accepted KO report writes the reported chest health to the head and leaves every other part alone |
| `Ownership.StepKeepsInv` | mp/KenshiMP.Server/server.cpp:253-753 | joins, departures, packets, sweeps and restarts all keep the ownership, host, id and record invariant |
| `Ownership.RunKeepsInv` | mp/KenshiMP.Server/server.cpp:196-274 | in every reachable state owners are 0 or connected, records are disjoint and name only unowned or removed entities, and there is a host iff somebody is connected |
| `Ownership.SweepRemovesNothing` | mp/KenshiMP.Server/server.cpp:191-218 | under that invariant the orphan sweep removes and sends nothing |
| `Ownership.WrittenDisjoint` | mp/KenshiMP.Server/server.cpp:1513-1540 | the records a save writes are pairwise disjoint, even with shared names |
| `Ownership.RestartKeepsInv` | mp/KenshiMP.Server/server.cpp:1494-1540 | saving and loading into a fresh process keeps the invariant |
| `HandshakeFailure.AbortKeepsInv` | mp/KenshiMP.Server/server.cpp:666-711 | a handshake that fails for want of a packet does no harm iff there was nothing to reclaim and no role to take over |
| `HandshakeFailure.SweepAfterAbort` | mp/KenshiMP.Server/server.cpp:191-218 | the next sweep then removes exactly what the player would have got back |
| `HandshakeFailure.AbortSticks` | mp/KenshiMP.Server/server.cpp:666-711 | such a handshake leaves the host id naming nobody iff it had taken the role over |
| `HandshakeFailure.StuckForever` | mp/KenshiMP.Server/server.cpp:628-647 | a host id that names nobody stays for the rest of the process, failing handshakes included: nobody is host until a restart |
| `HandshakeFailure.TurnKeepsInv` | mp/KenshiMP.Server/server.cpp:533-753 | in runs in which handshakes may fail, a turn keeps the invariant iff it is no failure that had something to reclaim or a role to take over |
| `HandshakeFailure.MixedKeepsInv` | mp/KenshiMP.Server/server.cpp:533-753 | such a run keeps the invariant throughout when all its failures are of that kind |
| `HandshakeFailure.AbortTold` | mp/KenshiMP.Server/server.cpp:674-711 | when the failure comes after the host was announced, every connected client is told that the host is a player who is not there, and the one that failed believes to be it |
| `Reclaim.JoinTakesClaim` | mp/KenshiMP.Server/server.cpp:611-626 | a handshake owns exactly the surviving entities of its name's record |
| `Reclaim.LeaveMakesClaim` | mp/KenshiMP.Server/server.cpp:253-274 | a departure turns what the player owned into the claim of its name |
| `Reclaim.ClaimSurvives` | mp/KenshiMP.Server/server.cpp:253-753 | what is left of a name's claim outlives an event iff the event is no handshake under the name, no departure of a same-named owner and no restart with one connected (or nothing is left); such an event leaves nothing of it |
| `Reclaim.ClaimOverRun` | mp/KenshiMP.Server/server.cpp:253-753 | over any run that does not disturb a name its claim is the earlier claim's entities that existed throughout |
| `Reclaim.LeaveThenReturn` | mp/KenshiMP.Server/server.cpp:253-753 | a returning player owns exactly what it left behind that existed throughout, whatever happened in between |
| `Names.ReturnUnderOwnName` | mp/KenshiMP.Server/server.cpp:253-753 | the same for a player that sends the very name it was known under |
| `Reclaim.AbandonedForever` | mp/KenshiMP.Server/server.cpp:611-626 | an unowned entity in no record is never owned again in any run |
| `Reclaim.OverwriteAbandons` | mp/KenshiMP.Server/server.cpp:268-274 | a departure of an owner abandons the old claim of its name |
| `Reclaim.SameNameAbandons` | mp/KenshiMP.Server/server.cpp:268-274 | when two same-named owners leave, all the first one owned is abandoned |
| `Hosts.JoinerToldHost` | mp/KenshiMP.Server/server.cpp:675-677 | whatever a client believed before, its handshake tells it the host iff it takes the role over, and otherwise leaves its belief alone |
| `Hosts.SessionInforms` | mp/KenshiMP.Server/server.cpp:628-647 | over every run and whatever a client believed before its ack: once told it is right about the host; until then it is not the host, the host has not changed, and it believes what it did |
| `HostBeliefs.RunEavesdrops` | mp/KenshiMP.Server/server.cpp:1411-1418 | a peer that has not shaken hands hears broadcasts too: it takes itself for host iff the last host it heard of bears the id of its last session, and that host is the host as long as there is one |
| `HostBeliefs.HostAgreement` | mp/KenshiMP.Core/core.h:185-188 | over every run a client knows its own id, any host it knows of is the host, and it takes itself for host exactly when it is, iff it was not told before its ack, and not again since, that the host bears its old id |
| `HostBeliefs.OneHost` | mp/KenshiMP.Core/core.h:185-188 | with anybody connected the server's host alone believes to be host iff no connected client was misled that way |
| `HostBeliefs.FreshClientsAgree` | mp/KenshiMP.Core/core.h:185-188 | a client in its first session takes itself for host exactly when it is |
| `HostBeliefs.TwoHosts` | mp/KenshiMP.Core/core.h:101-188 | it happens: on an empty server somebody else gets the waiting client's old id, and both believe to be host |
| `Hosts.LoopbackAlwaysHost` | mp/KenshiMP.Server/server.cpp:628-647 | with at most one loopback peer at a time a connected loopback player is host in every state |
| `Hosts.SecondLoopbackPassedOver` | mp/KenshiMP.Server/server.cpp:286-303 | with a second loopback player the role can pass to a player that is not on loopback |
| `Mirroring.StepMirror` | mp/KenshiMP.Server/server.cpp:311-753 | every event keeps a client's view in agreement with the server |
| `Mirroring.Replicated` | mp/KenshiMP.Server/server.cpp:1328-1400 | over every run the fold of a client's messages is exactly the server's ids and alive flags, less what it was never shown, plus what it dismantled |
| `Clients.ExactView` | mp/KenshiMP.Server/server.cpp:986-1001 | with in-range spawns the fold of a client's messages is exactly the server's ids and alive flags, apart from what it built or dismantled itself in this session |
| `Clients.KnowsAllOthers` | mp/KenshiMP.Server/server.cpp:1183-1219 | with in-range spawns a client's view holds every entity of every other owner with the right alive flag |
| `Clients.SkippedIsMissing` | mp/KenshiMP.Server/server.cpp:1341-1347 | after the handshake a client sees an entity iff its position is in range |
| `ClientRegistry.RegisteredExactly` | mp/KenshiMP.Core/net/packet_handler.cpp:138-252 | over every log of messages, heartbeats, local drops, loads and disconnects a remote entity is registered iff something the client accepted registered it and nothing has unregistered it since |
| `ClientRegistry.RegisteredOwner` | mp/KenshiMP.Core/net/packet_handler.cpp:641-642 | a newly registered entity is attributed to the owner or builder the message names, or that of its first deferred spawn |
| `ClientRegistry.LoadedExactly` | mp/KenshiMP.Core/core.cpp:1228-1280 | the game counts as loaded exactly from the end of a load until the client takes a load screen for another |
| `ClientRegistry.IdOfLastAck` | mp/KenshiMP.Core/net/packet_handler.cpp:354-361 | the client's id is that of its last ack |
| `ClientRegistry.DeferredExactly` | mp/KenshiMP.Core/net/packet_handler.cpp:592-619 | a spawn is deferred iff it came before the game was ready and the players have not been declared ready since |
| `ClientRegistry.GhostFreeIff` | mp/KenshiMP.Core/net/packet_handler.cpp:796-821 | what a client has registered or deferred is in its view at every point of a log iff no removal reached it while the entity was deferred, or registered with the game not loaded, and no disconnect left deferred spawns behind |
| `Ghosts.NoGhosts` | mp/KenshiMP.Core/net/packet_handler.cpp:796-821 | over every run and for a client in any condition at its handshake: what it has registered or deferred stays within what it was entitled to know iff it came knowing only what existed and has missed no removal since; and then it knows nothing but what exists or what it dismantled |
| `Ghosts.WaitingGhosts` | mp/KenshiMP.Server/server.cpp:1411-1432 | a client that waits for its handshake hears broadcasts but not what is sent to the other players: it then comes knowing only what exists iff it knows nothing that was dismantled meanwhile |
| `Ghosts.WaitingGhostAppears` | mp/KenshiMP.Server/server.cpp:1775-1810 | it happens: an entity spawned and dismantled while a loaded client waits stays in its registry |
| `Ghosts.RunTracks` | mp/KenshiMP.Server/server.cpp:1328-1400 | folding a client's messages over everything the server had when it joined gives nothing but what exists and what the client dismantled |
| `ClientRegistry.GhostAppears` | mp/KenshiMP.Core/net/packet_handler.cpp:1864-1890 | ghosts happen: spawn and despawn while a client loads, then the last ready report, and the client registers an entity the server no longer has |
| `ClientRegistry.DepartureHides` | mp/KenshiMP.Core/net/packet_handler.cpp:458-520 | a departure removes a registered entity from a client iff its game is loaded and it attributes the entity to the leaver, while the server keeps every entity |
| `Mortality.RunAges` | mp/KenshiMP.Server/server.cpp:865-1166 | between any two states of a process no old id appears anew and nobody is revived |
| `Mortality.GoneForGood` | mp/KenshiMP.Server/server.cpp:1879-1954 | an id once used and gone never comes back, and the dead stay dead |
| `Mortality.DeathIsFinal` | mp/KenshiMP.Server/server.cpp:854-927 | over every run at most one death per id is broadcast and no later hit, KO or death names it as victim |
| `Interference.NonInterference` | mp/KenshiMP.Server/server.cpp:341-531 | a packet leaves every entity the sender does not own unchanged, but for wounds by its own attacker on a live victim and, for the host, dismantling and repair |
| `Interference.SilentPlayerIntact` | mp/KenshiMP.Server/server.cpp:790-1955 | over any run in which a player stays silent its entities keep everything but health, alive and build progress, and none is revived |
| `Interference.CommandsNeverAccepted` | mp/KenshiMP.Server/authority_validator.cpp:6-43 | unless new entities start under player authority, every command of every run is ignored |
| `Interference.SpawnCommandable` | mp/KenshiMP.Server/authority_validator.cpp:6-43 | the owner of a live newly spawned entity can command it iff entities start under player authority |
| `WorldFile.SaveWorld` | mp/KenshiMP.Server/server.cpp:1513-1540 | the loops write every entity and the offline records merged with what each connected player owns |
| `WorldFile.ReadEntities` | mp/KenshiMP.Server/world_persistence.cpp:138-190 | the loop stops at the cap or at an unreadable record, skips out-of-range positions, tracks the largest id |
| `WorldFile.ReadPlayers` | mp/KenshiMP.Server/world_persistence.cpp:193-206 | keeps the references to loaded entities, and drops empty records |
| `WorldFile.LoadWorld` | mp/KenshiMP.Server/server.cpp:1494-1511 | a missing file, a text that does not parse, a load that throws among the entities or among the player records, and a complete one, each with the state it leaves |
| `WorldFile.RecordFields` | mp/KenshiMP.Server/world_persistence.cpp:31-55 | what is written of an entity, field by field |
| `WorldFile.RestoredFields` | mp/KenshiMP.Server/world_persistence.cpp:144-186 | what a record becomes, field by field, with the defaults for what it lacks |
| `WorldFile.FailedLoad` | mp/KenshiMP.Server/world_persistence.cpp:215-217 | after a load that threw, in either section, a fresh server is sound iff no readable in-range entity came before the throw |
| `RoundTrip.RestartKeeps` | mp/KenshiMP.Server/world_persistence.cpp:31-63 | within the cap a restart keeps exactly the in-range entities, unowned, all persisted fields equal, every id below the new counter |
| `RoundTrip.RestartLosesNothing` | mp/KenshiMP.Server/world_persistence.cpp:138-190 | no entity is lost iff all are in range and within the cap |
| `RoundTrip.CounterSurvives` | mp/KenshiMP.Server/world_persistence.cpp:132-213 | at any size the id counter is unchanged by a restart iff nothing was ever created, or the newest entity still exists and is read before the cap stops the load |
| `RoundTrip.AllRead` | mp/KenshiMP.Server/world_persistence.cpp:138-143 | within the cap the load reads every record |
| `RoundTrip.SaveRestartReconnect` | mp/KenshiMP.Server/server.cpp:1521-1535 | within the cap a player that owns something in range gets back exactly its in-range entities, in whatever order players are written, iff nobody else connected under its name owns anything |
| `RoundTrip.ReconnectKeepsFields` | mp/KenshiMP.Server/world_persistence.cpp:31-63 | and whatever the names, the in-range entities are all there with every persisted field equal, every id below the new counter |
| `RoundTrip.SharedNameLosesOne` | mp/KenshiMP.Server/server.cpp:1521-1535 | of two connected owners with one name, one loses its entities to nobody |
| `SaveFile.SaveWorldToFile` | mp/KenshiMP.Server/world_persistence.cpp:65-111 | true means the path holds the new world; a complete world is on the disk throughout if the path or the backup held one; without the fallback the path is old or new throughout; an existing path is lost only if promotion and restore both fail |
| `SaveFile.PathAtEveryMoment` | mp/KenshiMP.Server/world_persistence.cpp:65-111 | at every moment the path is as before or new, or both worlds are complete beside it, or a missing path comes back from an old backup |
| `SaveFile.PrimaryIntact` | mp/KenshiMP.Server/world_persistence.cpp:85-90 | on the primary branch the path is old or new at every moment |
| `SaveFile.Outcome` | mp/KenshiMP.Server/world_persistence.cpp:65-111 | success means the path holds the new world; an existing path ends up missing iff promotion and restore both fail after a rotation |
| `SaveFile.SuccessExactly` | mp/KenshiMP.Server/world_persistence.cpp:65-111 | exactly when a save succeeds, and what is left at the path, at `.tmp` and at `.bak` after success and after failure |
| `SaveFile.RecoverableThroughout` | mp/KenshiMP.Server/world_persistence.cpp:65-111 | a complete world exists at every moment iff path or backup held one at the start (or the untouched temporary file did) |
| `SaveFile.StoppedAtRest` | mp/KenshiMP.Server/world_persistence.cpp:65-111 | the same for one save: an exact condition on its faults and its disk |
| `SaveFile.AtRestIsSafe` | mp/KenshiMP.Server/world_persistence.cpp:65-111 | a complete world at the path or at `.bak` means exactly that any further save keeps one on the disk at every moment |
| `SaveFile.NeverLost` | mp/KenshiMP.Server/world_persistence.cpp:65-111 | any number of saves cut off anywhere leave a complete world at the path or at `.bak` wherever they stop iff none reached that way enters the fallback, and can drop the backup, with no complete world at the path |
| `SaveFile.GuardedRecoverable` | mp/KenshiMP.Server/world_persistence.cpp:65-111 | and then a complete world is on the disk at every moment of every one of these saves |
| `SaveFile.UnguardedLosesAll` | mp/KenshiMP.Server/world_persistence.cpp:92-111 | from every disk on which the condition fails, two saves can lose every world |
| `SaveFile.ThreeSavesLoseAll` | mp/KenshiMP.Server/world_persistence.cpp:92-111 | and such a disk is reached from an ordinary one by a stop in mid-rotation |
| `SpawnGate.BlockReason` | mp/KenshiMP.Core/game/loading_orchestrator.cpp:33-60 | the diagnostic reports no reason iff spawning is safe, and the remaining cooldown is exact |
| `SpawnGate.LoadingOrchestrator.OnTick` | mp/KenshiMP.Core/game/loading_orchestrator.cpp:165-202 | the gate is reported open exactly when the history says so; a tick 30000 ms after everything began leaves it idle |
| `SpawnGate.LoadingOrchestrator.IsSafeToSpawn` | mp/KenshiMP.Core/game/loading_orchestrator.cpp:8-31 | true exactly when, by the whole history, the game is loaded, no burst or zone load is going on, no requested resource is outstanding and nothing finished less than 2000 ms ago |
| `SpawnGate.GateExactly` | mp/KenshiMP.Core/game/loading_orchestrator.cpp:8-31 | the same over every history, in terms of its events and times alone |
| `SpawnGate.BurstExactly` | mp/KenshiMP.Core/game/loading_orchestrator.cpp:111-138 | a burst is on iff the last one detected has neither ended nor been followed by a tick 30000 ms later |
| `SpawnGate.PhaseExactly` | mp/KenshiMP.Core/game/loading_orchestrator.cpp:111-202 | the phase is a zone transition iff one was entered and no event that leaves it came since, and the initial load iff nothing has ended that |
| `SpawnGate.NoSpawnAfterCompletion` | mp/KenshiMP.Core/game/loading_orchestrator.cpp:8-31 | over every history with non-decreasing times no spawn is allowed within 2000 ms of any completion |
| `SpawnGate.PendingExactly` | mp/KenshiMP.Core/game/loading_orchestrator.cpp:69-109 | pending are exactly the resources whose last event was a request, and those recorded neither loaded nor failed |
| `SpawnGate.OpensAgain` | mp/KenshiMP.Core/game/loading_orchestrator.cpp:165-202 | reported loaded, nothing awaited and only ticks after t: a tick at t+30000 or later leaves the gate idle, and it is open 2000 ms later |
| `SpawnGate.ZoneLoadHolds` | mp/KenshiMP.Core/game/loading_orchestrator.cpp:151-191 | after a zone load starts the next tick returns to idle iff no burst runs (or it times out) and the previous zone load is old enough |
| `SpawnQueue.SpawnScheduler.HandleSpawnQueue` | mp/KenshiMP.Core/core.cpp:3306-3481 | the request is linked to a free mod character, else to the created one, else put back with one more retry or given up after the last, unless its entity is linked already or its owner at the cap; with every change of queue, objects and counters; at most one character per player, and the total of retries goes down |
| `SpawnQueue.RequestsSettled` | mp/KenshiMP.Core/core.cpp:3306-3481 | over every run each request queued or arrived is still queued or has been settled, once |
| `SpawnQueue.AllSettled` | mp/KenshiMP.Core/core.cpp:3306-3481 | once the queue is empty each was linked, created, found linked, at the cap, or given up after its last retry |
| `SpawnQueue.OnePerPlayer` | mp/KenshiMP.Core/core.cpp:3306-3481 | over every run between resets, whatever others do to the registry, at most one character is linked or created per remote player |
| `SpawnQueue.PopLowers` | mp/KenshiMP.Core/core.cpp:3306-3481 | every attempt strictly lowers the total of remaining retries |
| `SpawnQueue.QueueEmpties` | mp/KenshiMP.Core/core.cpp:3306-3481 | without new requests the queue is empty after that many attempts, whatever they find and whatever others do to the registry |
| `SpawnQueue.SpawnManager.ProcessSpawnQueueFromHook` | mp/KenshiMP.Core/game/spawn_manager.cpp:303-474 | swap, process, requeue: the new queue is the arrivals followed by the retries; the null branch puts the old queue back over the arrivals |
| `SpawnQueue.DrainConserves` | mp/KenshiMP.Core/game/spawn_manager.cpp:326-473 | each dequeued request is spawned once, requeued with one more retry, or dropped; none lost or doubled |
| `SpawnQueue.DrainBounds` | mp/KenshiMP.Core/game/spawn_manager.cpp:326-473 | a requeued request is below the limit and a dropped one at it |
| `SpawnQueue.DrainByOutcome` | mp/KenshiMP.Core/game/spawn_manager.cpp:326-473 | by position and in order: the spawned are those whose attempt succeeded, the requeued and the dropped those whose attempt did not, below and at the limit |
| `SpawnQueue.HookConserves` | mp/KenshiMP.Core/game/spawn_manager.cpp:308-324 | with arrivals in between, nothing is lost iff the function is known, the queue was empty or nothing arrived |
| `CommandQueue.GameCommandQueue.DrainAll` | mp/KenshiMP.Core/game_command_queue.h:31-44 | an uninterrupted drain runs the whole queue in order and, if the queue was never cleared, everything ever pushed has then run once, in push order |
| `CommandQueue.RunKeepsInv` | mp/KenshiMP.Core/game_command_queue.h:25-56 | in every interleaving, clears included, nothing runs twice or out of push order |
| `CommandQueue.RunConserves` | mp/KenshiMP.Core/game_command_queue.h:25-44 | without a clear, finished, in-progress and queued commands concatenate to the push history |
| `CommandQueue.AllRunInOrder` | mp/KenshiMP.Core/game_command_queue.h:25-44 | once all is drained every push, also one made during a drain, has run once and in order |
| `CommandQueue.CallablePicks` | mp/KenshiMP.Core/game_command_queue.h:39-43 | the commands called are exactly those with a body, in order |
| `PlayerManager.FindByExactName` | mp/KenshiMP.Server/player_manager.cpp:43-52 | a nonzero result has that name up to case; zero means nobody has it |
| `PlayerManager.IsNameTaken` | mp/KenshiMP.Server/player_manager.cpp:54-59 | true iff somebody has the name up to case |
| `PlayerManager.MakeUniqueName` | mp/KenshiMP.Server/player_manager.cpp:61-72 | the result is the first candidate nobody has, so a free base name comes back unchanged; it falls back iff all 99 are taken, never with at most 98 players |
| `PlayerManager.CandidateForm` | mp/KenshiMP.Server/player_manager.cpp:61-72 | the first candidate is the base, the k-th the base, an underscore and k in decimal |
| `PlayerManager.SameLetter` | mp/KenshiMP.Server/player_manager.cpp:43-52 | two characters agree up to case iff they are equal or the two cases of one letter |
| `PlayerManager.CandidatesDistinct` | mp/KenshiMP.Server/player_manager.cpp:61-72 | no two of the 99 candidates agree even up to case |
| `PlayerManager.Pigeonhole` | mp/KenshiMP.Server/player_manager.cpp:61-72 | if k candidates are taken, at least k players hold them |
| `PlayerManager.RateLimiter.CheckRateLimit` | mp/KenshiMP.Server/player_manager.cpp:111-124 | limited iff the player is known and its window already holds the maximum |
| `PlayerManager.RateLimiter.Admit` | mp/KenshiMP.Server/player_manager.cpp:111-128 | check, then record if it passes: what is stored for every player stays what its own history leaves, and no window of this player exceeds the maximum |
| `PlayerManager.RateLimiter.CleanupRateLimits` | mp/KenshiMP.Server/player_manager.cpp:130-137 | every player's timestamps older than the window are dropped, the rest kept in order |
| `PlayerManager.CleanupInvisible` | mp/KenshiMP.Server/player_manager.cpp:111-137 | over every history of messages and cleanups each later check counts what it would have counted without cleanup |
| `PlayerManager.NoWindowOverfull` | mp/KenshiMP.Server/player_manager.cpp:111-137 | when messages are recorded only after the check passes, every window anywhere is within the maximum iff the maximum is at least one, or it is zero and no message was offered (or the window is empty) |
| `PlayerManager.PassesExactly` | mp/KenshiMP.Server/player_manager.cpp:111-128 | over every history a message passes iff none has passed before or fewer than the maximum of those that passed lie in its window |
| `PlayerManager.ZeroLimitLeaks` | mp/KenshiMP.Server/player_manager.cpp:111-124 | with a maximum of zero or less exactly one message passes, if any was offered |
| `ZoneIndex.KeyRoundTrip` | mp/KenshiMP.Server/zone_manager.h:55-58 | packing a signed 32-bit pair and unpacking it is the identity |
| `ZoneIndex.CountedIsScan` | mp/KenshiMP.Server/entity_manager.cpp:44-55 | the indexed count of any zone is the length of the linear scan |
| `ZoneIndex.ZoneManager.RebuildIndex` | mp/KenshiMP.Server/zone_manager.cpp:8-15 | afterwards every zone's count is its number of entities, whatever the iteration order, and every key is a real zone's |
| `ZoneIndex.ZoneManager.GetZonePopulation` | mp/KenshiMP.Server/zone_manager.cpp:17-20 | the number of entities in the zone, zero included |
| `ZoneIndex.ZoneManager.GetPopulatedZones` | mp/KenshiMP.Server/zone_manager.cpp:22-32 | lists exactly the non-empty zones, each once |
| `Rebase.FindLengthPrefix` | mp/tools/rebase_mod.py:20-37 | walks to both ends of the printable run and accepts a prefix within one of its length |
| `Rebase.FindAll` | mp/tools/rebase_mod.py:43-51 | every occurrence, left to right, overlapping starts included |
| `Rebase.RebaseFile` | mp/tools/rebase_mod.py:40-102 | find, plan, sort, merge and splice compute the rebased file |
| `Splicing.KeptIsMerge` | mp/tools/rebase_mod.py:80-92 | for any input the plan is already in order, and merging keeps an ordered, disjoint selection such that whatever it drops starts inside a kept region |
| `Splicing.EveryByteAccounted` | mp/tools/rebase_mod.py:56-102 | for any input every byte outside the kept regions is copied in order, moved by the regions before it, and every kept region's bytes stand in its place |
| `Framing.FramingKept` | mp/tools/rebase_mod.py:40-102 | for every file of well-formed strings and other bytes, the output is the file with every string renamed and every prefix right (or begins with it) iff at most one printable byte follows each string that holds the name and every occurrence of the name anywhere is planned from within such a string |
| `Framing.FramingOfStrings` | mp/tools/rebase_mod.py:40-102 | where the name occurs only inside strings, the bytes that follow them decide alone |
| `Framing.KeptExactly` | mp/tools/rebase_mod.py:80-92 | the merged plan is one region per string that holds the name, from its prefix to its end, under exactly that condition |
| `Framing.OutputTells` | mp/tools/rebase_mod.py:94-102 | two plans whose replacements change their first byte give the same output only if they are the same plan |
| `Framing.DecodeRebased` | mp/tools/rebase_mod.py:40-102 | decoding the output gives each decoded string renamed, under exactly that condition |
| `Framing.DecodeEncode` | mp/tools/rebase_mod.py:1-10 | reading a file of length-prefixed strings by its layout gives back its chunks |
| `Framing.NameRemains` | mp/tools/rebase_mod.py:72-74 | a renamed string still holds the old name iff it held it twice |
| `Framing.StraddleCorrupts` | mp/tools/rebase_mod.py:20-37 | the string "multiplay" followed by any 114-byte string without an "m" is changed though no string holds the name |
| `Framing.StraddleHarmless` | mp/tools/rebase_mod.py:80-92 | behind a string that already holds the name, such a straddling occurrence is merged away and the output is right |

## Left out

- Floating point: positions, health and times are reals, so rounding, NaN and infinity are not modelled.
- 32-bit ids and counters do not wrap.
- Packet byte layout, channels and quaternion compression: messages are datatypes and sending appends to a list.
- GameServer.GameServer.HandleHandshake: takes packet creation to succeed; the state a failure leaves, and what follows from it, is in `HandshakeFailure`.
- GameServer.GameServer.HandlePacket: the relay, chat, admin, lobby and pipeline branches of the dispatch are not there, since they change none of the modelled state.
- Relays without server state: chat, trade, doors, inventory, stance, squads, factions, lobby, admin commands, keep-alive, pipeline messages.
- Time of day and weather in the saved world; JSON text (a document is a value, an unreadable record is one constructor).
- The timers of the server loop: position broadcasts, time sync, heartbeats, autosave intervals. A sweep or a restart is an event that may come at any time.
- The client's registry beyond its remote ids and owners: local characters and their remapping to server ids, game objects, positions, health. The registry has no alive flag; agreement on alive flags is about the view folded from the messages.
- Fields nothing modelled depends on: generations, dirty flags, combat bookkeeping, the client's list of owned entities.
- Server queries, bans, AFK handling, the name-prefix search, the master server and all console output.
- SpawnQueue.SpawnScheduler.HandleSpawnQueue: the timers and the gate bypass in front of an attempt, and the writes to game memory after it, are outside the model; an attempt may come at any time.
- SpawnQueue.SpawnManager.ProcessSpawnQueueFromHook: the foreign factory call is one outcome per request.
- CommandQueue.RunConserves: one game thread drains; two concurrent drains are not modelled.
- SaveFile.SaveWorldToFile: `rename` is taken to fail when its destination exists, as it does on the platform the code is written for; the replacing move is atomic, as the code assumes.
- Framing.FramingKept: a string that holds the name is taken to be printable text below half a gigabyte, as the tool's search for its prefix presupposes.
- Rebase.RebaseFile: files below four gigabytes, so that every corrected prefix fits.
- Sorting the plan, and searching for the next occurrence, are library calls of the tool and appear as functions (a stable insertion sort and a leftmost search).
- Hooks, memory probing, template scans, injection, networking libraries and user interface code.
